/**
 * The irrigation controller of src/main.cpp as functions on a snapshot of
 * the firmware's state: its global scalars, the relay pin, the session's
 * readiness, the in-memory copy of the remote store and the log of every
 * write it attempted. Each function is one operation of the source; the
 * class in module Firmware is proved to compute exactly these functions.
 *
 * Collaborators are parameters: a remote `getBool` is an `Option<bool>`
 * (None when the read fails), the backend's verdict on each attempted
 * write is `ack`, and the ADC sample, the date text and the clock are
 * plain values.
 */
module Controller {
  import opened Wrappers
  import opened RemoteStore
  import opened Clock

  /** Raw ADC units above which the soil counts as dry (line 39). */
  const Threshold: int := 3500

  datatype Level = Low | High

  /** The relay is active-low: LOW runs the motor, HIGH stops it. */
  function RelayLevel(motorOn: bool): (level: Level)
    ensures level == Low <==> motorOn
  {
    if motorOn then Low else High
  }

  datatype Snapshot = Snapshot(
    motorOn: bool,        // isMotorOn
    manualMode: bool,     // manualMode
    moisture: int,        // soilMoistureValue
    prevMillis: Millis,   // sendDataPrevMillis
    relay: Level,         // level last written to RELAY_PIN
    ready: bool,          // Firebase.ready() && signupOK
    store: Store,         // what the remote database holds of this device's writes
    log: seq<Write>)      // every write attempted, accepted or not

  /** The pin agrees with isMotorOn. */
  predicate ActiveLow(s: Snapshot) {
    s.relay == RelayLevel(s.motorOn)
  }

  predicate Invariant(s: Snapshot) {
    && ActiveLow(s)
    && Conforms(s.store)
  }

  /** Only the control scalars: what a remote write leaves alone. */
  predicate SameControl(s: Snapshot, r: Snapshot) {
    && r.motorOn == s.motorOn
    && r.manualMode == s.manualMode
    && r.moisture == s.moisture
    && r.prevMillis == s.prevMillis
    && r.relay == s.relay
    && r.ready == s.ready
  }

  /**
   * The store after `r` is the store before `s` with the writes `r` added to
   * the log replayed: the store follows from the log and the backend's verdicts.
   */
  predicate StoreReplays(s: Snapshot, r: Snapshot, ack: Verdict) {
    s.log <= r.log && r.store == Replay(s.store, |s.log|, r.log[|s.log|..], ack)
  }

  /** Two stages that each replay their own writes replay them together. */
  lemma ReplayStages(s: Snapshot, t: Snapshot, r: Snapshot, ack: Verdict)
    requires StoreReplays(s, t, ack) && StoreReplays(t, r, ack)
    ensures StoreReplays(s, r, ack)
  {
    assert r.log[|s.log|..] == t.log[|s.log|..] + r.log[|t.log|..];
    ReplayConcat(s.store, |s.log|, t.log[|s.log|..], r.log[|t.log|..], ack);
  }

  /** The globals' initial values (lines 27-33) and the relay level set in setup (line 249). */
  function Initial(ready: bool): (s: Snapshot)
    ensures Invariant(s)
    ensures !s.motorOn && s.relay == High && !s.manualMode
    ensures s.moisture == 0 && s.ready == ready
    ensures s.prevMillis == 0 && s.log == [] && s.store == map[]
  {
    Snapshot(false, false, 0, 0, High, ready, map[], [])
  }

  /** One remote write: it is logged; the store changes only if the backend accepts it. */
  function Attempt(s: Snapshot, w: Write, ack: Verdict): (r: Snapshot)
    ensures SameControl(s, r)
    ensures r.log == s.log + [w]
    ensures r.store == if ack(|s.log|, w) then Apply(s.store, w) else s.store
    ensures StoreReplays(s, r, ack)
    ensures Invariant(s) && WellTyped(w) ==> Invariant(r)
  {
    var r := s.(log := s.log + [w], store := if ack(|s.log|, w) then Apply(s.store, w) else s.store);
    assert r.log[|s.log|..] == [w];
    ReplayOne(s.store, |s.log|, w, ack);
    r
  }

  /** setMotor (lines 48-72). */
  function SetMotor(s: Snapshot, isOn: bool, ack: Verdict): (r: Snapshot)
    ensures isOn == s.motorOn ==> r == s
    ensures r.motorOn == isOn
    ensures isOn != s.motorOn ==> r.relay == RelayLevel(isOn)
    ensures r.manualMode == s.manualMode && r.moisture == s.moisture
    ensures r.prevMillis == s.prevMillis && r.ready == s.ready
    ensures r.log == s.log + if isOn != s.motorOn && s.ready
                             then [SetBool(IsOnPath, isOn), SetBool(ManualModePath, s.manualMode)]
                             else []
    ensures isOn != s.motorOn && s.ready && ack(|s.log|, SetBool(IsOnPath, isOn))
            ==> GetBool(r.store, IsOnPath) == Some(isOn)
    ensures isOn != s.motorOn && s.ready && ack(|s.log| + 1, SetBool(ManualModePath, s.manualMode))
            ==> GetBool(r.store, ManualModePath) == Some(s.manualMode)
    ensures !s.ready ==> r.store == s.store
    ensures StoreReplays(s, r, ack)
    ensures Invariant(s) ==> Invariant(r)
  {
    if isOn == s.motorOn then s
    else
      var t := s.(motorOn := isOn, relay := RelayLevel(isOn));
      if t.ready then
        var a := Attempt(t, SetBool(IsOnPath, isOn), ack);
        var r := Attempt(a, SetBool(ManualModePath, t.manualMode), ack);
        ReplayStages(t, a, r, ack);
        r
      else t
  }

  /** setCurrentMoistureValue (lines 74-79). */
  function SetCurrentMoistureValue(s: Snapshot, value: int, ack: Verdict): (r: Snapshot)
    ensures r.moisture == value
    ensures SameControl(s.(moisture := value), r)
    ensures r.log == s.log + if s.ready then [SetInt(CurrentValuePath, value)] else []
    ensures s.ready && ack(|s.log|, SetInt(CurrentValuePath, value)) ==> GetInt(r.store, CurrentValuePath) == Some(value)
    ensures !s.ready ==> r.store == s.store
    ensures StoreReplays(s, r, ack)
    ensures Invariant(s) ==> Invariant(r)
  {
    var t := s.(moisture := value);
    if t.ready then Attempt(t, SetInt(CurrentValuePath, value), ack) else t
  }

  /** setTempAndHumidity (lines 81-97), for a reading that is not NaN. */
  function SetTempAndHumidity(s: Snapshot, reading: Reading, ack: Verdict): (r: Snapshot)
    ensures SameControl(s, r)
    ensures r.log == s.log + if s.ready then [SetJson(EnvironmentPath, reading)] else []
    ensures s.ready && ack(|s.log|, SetJson(EnvironmentPath, reading))
            ==> EnvironmentPath in r.store && r.store[EnvironmentPath] == JsonValue(reading)
    ensures !s.ready ==> r == s
    ensures StoreReplays(s, r, ack)
    ensures Invariant(s) ==> Invariant(r)
  {
    if s.ready then Attempt(s, SetJson(EnvironmentPath, reading), ack) else s
  }

  /** setMoistureDataWithDateAndTimeAsJson (lines 121-128); `date` is what getDate returned. */
  function SetMoistureDataWithDateAndTimeAsJson(s: Snapshot, value: int, date: string, ack: Verdict): (r: Snapshot)
    ensures SameControl(s, r)
    ensures r.log == s.log + if s.ready then [PushJson(WholeDataPath, Entry(value, date))] else []
    ensures s.ready && ack(|s.log|, PushJson(WholeDataPath, Entry(value, date)))
            ==> EntriesAt(r.store, WholeDataPath) == EntriesAt(s.store, WholeDataPath) + [Entry(value, date)]
    ensures !s.ready ==> r == s
    ensures StoreReplays(s, r, ack)
    ensures Invariant(s) ==> Invariant(r)
  {
    if s.ready then Attempt(s, PushJson(WholeDataPath, Entry(value, date)), ack) else s
  }

  /**
   * The moisture step of readData (lines 142-147): if the sample differs
   * from the last value, store it, write it and append it to the history.
   */
  function UpdateMoisture(s: Snapshot, sample: int, date: string, ack: Verdict): (r: Snapshot)
    ensures r.moisture == sample
    ensures SameControl(s.(moisture := sample), r)
    ensures r.log == s.log + if sample != s.moisture && s.ready
                             then [SetInt(CurrentValuePath, sample), PushJson(WholeDataPath, Entry(sample, date))]
                             else []
    ensures sample == s.moisture ==> r == s
    ensures StoreReplays(s, r, ack)
    ensures Invariant(s) ==> Invariant(r)
  {
    if sample != s.moisture then
      var t := SetCurrentMoistureValue(s.(moisture := sample), sample, ack);
      var r := SetMoistureDataWithDateAndTimeAsJson(t, sample, date, ack);
      ReplayStages(s, t, r, ack);
      r
    else s
  }

  /** The environment step of readData (lines 149-160): None stands for a NaN reading. */
  function UpdateEnvironment(s: Snapshot, environment: Option<Reading>, ack: Verdict): (r: Snapshot)
    ensures SameControl(s, r)
    ensures r.log == s.log + if environment.Some? && s.ready then [SetJson(EnvironmentPath, environment.value)] else []
    ensures environment.None? ==> r == s
    ensures StoreReplays(s, r, ack)
    ensures Invariant(s) ==> Invariant(r)
  {
    if environment.Some? then SetTempAndHumidity(s, environment.value, ack) else s
  }

  /** Adopts a successfully read remote manualMode, without comparing it to the local one. */
  function AdoptManualMode(s: Snapshot, manualRead: Option<bool>): (r: Snapshot)
    ensures r.manualMode == if manualRead.Some? then manualRead.value else s.manualMode
    ensures r == s.(manualMode := r.manualMode)
  {
    if manualRead.Some? then s.(manualMode := manualRead.value) else s
  }

  /**
   * The remote part of readData (lines 131-140): adopt the remote
   * manualMode, then, in manual mode only, the remote isOn. `isOnRead` is
   * the answer to the second getBool, which the source issues only in
   * manual mode.
   */
  function ReconcileFromRemote(s: Snapshot, manualRead: Option<bool>, isOnRead: Option<bool>, ack: Verdict): (r: Snapshot)
    ensures r.manualMode == if manualRead.Some? then manualRead.value else s.manualMode
    ensures r.motorOn == if r.manualMode && isOnRead.Some? then isOnRead.value else s.motorOn
    ensures r.moisture == s.moisture && r.prevMillis == s.prevMillis && r.ready == s.ready
    ensures manualRead.None? && (!s.manualMode || isOnRead.None?) ==> r == s
    ensures r.log == s.log + if r.motorOn != s.motorOn && s.ready
                             then [SetBool(IsOnPath, r.motorOn), SetBool(ManualModePath, r.manualMode)] else []
    ensures StoreReplays(s, r, ack)
    ensures Invariant(s) ==> Invariant(r)
  {
    var a := AdoptManualMode(s, manualRead);
    if a.manualMode && isOnRead.Some? && isOnRead.value != a.motorOn
    then SetMotor(a, isOnRead.value, ack) else a
  }

  /**
   * readData (lines 130-163), without the delay.
   */
  function ReadData(s: Snapshot, manualRead: Option<bool>, isOnRead: Option<bool>, sample: int,
                    date: string, environment: Option<Reading>, ack: Verdict): (r: Snapshot)
    ensures r.manualMode == if manualRead.Some? then manualRead.value else s.manualMode
    ensures r.motorOn == if r.manualMode && isOnRead.Some? then isOnRead.value else s.motorOn
    ensures r.moisture == sample
    ensures r.prevMillis == s.prevMillis && r.ready == s.ready
    ensures s.log <= r.log
    ensures StoreReplays(s, r, ack)
    ensures Invariant(s) ==> Invariant(r)
  {
    var b := ReconcileFromRemote(s, manualRead, isOnRead, ack);
    var c := UpdateMoisture(b, sample, date, ack);
    var r := UpdateEnvironment(c, environment, ack);
    ReplayStages(s, b, c, ack);
    ReplayStages(s, c, r, ack);
    r
  }

  /**
   * The writes of one readData, sorted by the paths they go to: the motor
   * pair only if the motor changed, the moisture pair only if the sample
   * changed, the environment write only for a valid reading, each only
   * when the session is ready.
   */
  lemma ReadDataWrites(s: Snapshot, manualRead: Option<bool>, isOnRead: Option<bool>, sample: int,
                       date: string, environment: Option<Reading>, ack: Verdict)
    ensures var r := ReadData(s, manualRead, isOnRead, sample, date, environment, ack);
      && Filter(r.log, MotorPaths) == Filter(s.log, MotorPaths) +
           (if r.motorOn != s.motorOn && s.ready
            then [SetBool(IsOnPath, r.motorOn), SetBool(ManualModePath, r.manualMode)] else [])
      && Filter(r.log, MoisturePaths) == Filter(s.log, MoisturePaths) +
           (if sample != s.moisture && s.ready
            then [SetInt(CurrentValuePath, sample), PushJson(WholeDataPath, Entry(sample, date))] else [])
      && Filter(r.log, EnvironmentPaths) == Filter(s.log, EnvironmentPaths) +
           (if environment.Some? && s.ready then [SetJson(EnvironmentPath, environment.value)] else [])
  {
    var b := ReconcileFromRemote(s, manualRead, isOnRead, ack);
    var c := UpdateMoisture(b, sample, date, ack);
    var r := UpdateEnvironment(c, environment, ack);
    SortWrites(s, b, c, r, sample, date, environment);
  }

  /** Sorts three stages of writes by the paths they go to. */
  lemma SortWrites(s: Snapshot, b: Snapshot, c: Snapshot, r: Snapshot, sample: int,
                   date: string, environment: Option<Reading>)
    requires b.log == s.log + if b.motorOn != s.motorOn && s.ready
                              then [SetBool(IsOnPath, b.motorOn), SetBool(ManualModePath, b.manualMode)] else []
    requires c.log == b.log + if sample != s.moisture && s.ready
                              then [SetInt(CurrentValuePath, sample), PushJson(WholeDataPath, Entry(sample, date))]
                              else []
    requires r.log == c.log + if environment.Some? && s.ready then [SetJson(EnvironmentPath, environment.value)] else []
    ensures s.log <= r.log
    ensures Filter(r.log, MotorPaths) == Filter(s.log, MotorPaths) +
              if b.motorOn != s.motorOn && s.ready
              then [SetBool(IsOnPath, b.motorOn), SetBool(ManualModePath, b.manualMode)] else []
    ensures Filter(r.log, MoisturePaths) == Filter(s.log, MoisturePaths) +
              if sample != s.moisture && s.ready
              then [SetInt(CurrentValuePath, sample), PushJson(WholeDataPath, Entry(sample, date))] else []
    ensures Filter(r.log, EnvironmentPaths) == Filter(s.log, EnvironmentPaths) +
              if environment.Some? && s.ready then [SetJson(EnvironmentPath, environment.value)] else []
  {
    var motor := b.log[|s.log|..];
    var moisture := c.log[|b.log|..];
    var env := r.log[|c.log|..];
    assert r.log == s.log + motor + moisture + env;
    PathsDisjoint();
    FilterGroups(s.log, motor, moisture, env, MotorPaths, MoisturePaths, EnvironmentPaths);
  }

  /** autoLogic (lines 193-205), as written: dry soil switches the motor off. */
  function AutoLogic(s: Snapshot, ack: Verdict): (r: Snapshot)
    ensures s.manualMode ==> r == s
    ensures !s.manualMode ==> r.motorOn == (s.moisture <= Threshold)
    ensures r.manualMode == s.manualMode && r.moisture == s.moisture
    ensures r.prevMillis == s.prevMillis && r.ready == s.ready
    ensures r.log == s.log + if r.motorOn != s.motorOn && s.ready
                             then [SetBool(IsOnPath, r.motorOn), SetBool(ManualModePath, false)] else []
    ensures StoreReplays(s, r, ack)
    ensures Invariant(s) ==> Invariant(r)
  {
    if !s.manualMode then
      if s.moisture > Threshold then SetMotor(s, false, ack) else SetMotor(s, true, ack)
    else s
  }

  /**
   * Dry soil in automatic mode leaves the motor off and the relay HIGH;
   * wet soil turns it on and pulls the relay LOW.
   */
  lemma AutoLogicAsWritten(s: Snapshot, ack: Verdict)
    requires !s.manualMode && ActiveLow(s)
    ensures s.moisture > Threshold ==> !AutoLogic(s, ack).motorOn && AutoLogic(s, ack).relay == High
    ensures s.moisture <= Threshold ==> AutoLogic(s, ack).motorOn && AutoLogic(s, ack).relay == Low
  {
  }

  /**
   * The trailing part of loop (lines 267-276): adopt the remote manualMode
   * and then the remote isOn, whatever the mode.
   */
  function Reconcile(s: Snapshot, manualRead: Option<bool>, isOnRead: Option<bool>, ack: Verdict): (r: Snapshot)
    ensures r.manualMode == if manualRead.Some? then manualRead.value else s.manualMode
    ensures r.motorOn == if isOnRead.Some? then isOnRead.value else s.motorOn
    ensures r.moisture == s.moisture && r.prevMillis == s.prevMillis && r.ready == s.ready
    ensures manualRead.None? && isOnRead.None? ==> r == s
    ensures r.log == s.log + if r.motorOn != s.motorOn && s.ready
                             then [SetBool(IsOnPath, r.motorOn), SetBool(ManualModePath, r.manualMode)] else []
    ensures StoreReplays(s, r, ack)
    ensures Invariant(s) ==> Invariant(r)
  {
    var a := AdoptManualMode(s, manualRead);
    if isOnRead.Some? && isOnRead.value != a.motorOn then SetMotor(a, isOnRead.value, ack) else a
  }

  /** What one pass of loop observes from its collaborators. */
  datatype TickInput = TickInput(
    ready: bool,                  // Firebase.ready() && signupOK
    gateClock: Millis,            // millis() read by the condition on line 257
    stampClock: Millis,           // millis() read on line 258
    manualRead: Option<bool>,     // getBool of App/motor/manualMode in readData
    isOnRead: Option<bool>,       // getBool of App/motor/isOn in readData
    sample: int,                  // analogRead(MOISTURE_PIN)
    date: string,                 // getDate()
    environment: Option<Reading>, // the DHT reading, None when NaN
    lateManualRead: Option<bool>, // getBool of App/motor/manualMode on line 268
    lateIsOnRead: Option<bool>)   // getBool of App/motor/isOn on line 271

  /** Whether this pass does the main work of lines 257-262. */
  predicate MainRuns(s: Snapshot, input: TickInput): (runs: bool)
    ensures runs ==> input.ready
    ensures input.ready && s.prevMillis == 0 ==> runs
  {
    input.ready && GateOpen(s.prevMillis, input.gateClock)
  }

  /** The mode readData leaves: a successful read is adopted. */
  function ReadMode(s: Snapshot, input: TickInput): bool {
    if input.manualRead.Some? then input.manualRead.value else s.manualMode
  }

  /** The motor readData leaves: a successful isOn read is adopted in manual mode only. */
  function ReadMotor(s: Snapshot, input: TickInput): bool {
    if ReadMode(s, input) && input.isOnRead.Some? then input.isOnRead.value else s.motorOn
  }

  /** The motor autoLogic leaves after readData: in automatic mode it follows the sample. */
  function AutoMotor(s: Snapshot, input: TickInput): bool {
    if ReadMode(s, input) then ReadMotor(s, input) else input.sample <= Threshold
  }

  /** The mode after the gated part of a pass. */
  function ModeAfterMain(s: Snapshot, input: TickInput): bool {
    if MainRuns(s, input) then ReadMode(s, input) else s.manualMode
  }

  /** The motor after the gated part of a pass. */
  function MotorAfterMain(s: Snapshot, input: TickInput): bool {
    if MainRuns(s, input) then AutoMotor(s, input) else s.motorOn
  }

  /** The mode at the end of a pass: the trailing read when it succeeds. */
  function TickMode(s: Snapshot, input: TickInput): bool {
    if input.lateManualRead.Some? then input.lateManualRead.value else ModeAfterMain(s, input)
  }

  /** The pair of writes a setMotor makes when it changes the motor in a ready session. */
  function MotorPair(written: bool, on: bool, mode: bool): seq<Write> {
    if written then [SetBool(IsOnPath, on), SetBool(ManualModePath, mode)] else []
  }

  /** The motor pairs of one main work in a ready session: readData's setMotor, then autoLogic's. */
  function MainMotorWrites(s: Snapshot, input: TickInput): seq<Write> {
    MotorPair(ReadMotor(s, input) != s.motorOn, ReadMotor(s, input), ReadMode(s, input)) +
    MotorPair(AutoMotor(s, input) != ReadMotor(s, input), AutoMotor(s, input), false)
  }

  /** The pair of writes updateMoisture makes when the sample changed in a ready session. */
  function MoisturePair(written: bool, value: int, date: string): seq<Write> {
    if written then [SetInt(CurrentValuePath, value), PushJson(WholeDataPath, Entry(value, date))] else []
  }

  /** The write updateEnvironment makes for a valid reading in a ready session. */
  function EnvironmentWrite(environment: Option<Reading>): seq<Write> {
    if environment.Some? then [SetJson(EnvironmentPath, environment.value)] else []
  }

  /** The environment write of one main work in a ready session. */
  function MainEnvironmentWrites(input: TickInput): seq<Write> {
    EnvironmentWrite(input.environment)
  }

  /** The moisture pair of one main work in a ready session. */
  function MainMoistureWrites(s: Snapshot, input: TickInput): seq<Write> {
    MoisturePair(input.sample != s.moisture, input.sample, input.date)
  }

  /** The writes of one main work in a ready session, in order: readData's motor pair, moisture pair and environment write, then autoLogic's pair. */
  function MainWrites(s: Snapshot, input: TickInput): seq<Write> {
    MotorPair(ReadMotor(s, input) != s.motorOn, ReadMotor(s, input), ReadMode(s, input))
    + MainMoistureWrites(s, input) + MainEnvironmentWrites(input)
    + MotorPair(AutoMotor(s, input) != ReadMotor(s, input), AutoMotor(s, input), false)
  }

  /** The pair of the trailing setMotor: sent when a successful isOn read changes the motor. */
  function TrailingMotorWrites(s: Snapshot, input: TickInput): seq<Write> {
    if input.lateIsOnRead.Some?
    then MotorPair(input.ready && input.lateIsOnRead.value != MotorAfterMain(s, input),
                   input.lateIsOnRead.value, TickMode(s, input))
    else []
  }

  /** A setMotor's pair of writes belongs to the motor group of paths and to no other. */
  lemma MotorPairGroups(written: bool, on: bool, mode: bool)
    ensures Filter(MotorPair(written, on, mode), MotorPaths) == MotorPair(written, on, mode)
    ensures Filter(MotorPair(written, on, mode), MoisturePaths) == []
    ensures Filter(MotorPair(written, on, mode), EnvironmentPaths) == []
  {
    PathsDisjoint();
    FilterAll(MotorPair(written, on, mode), MotorPaths);
    FilterNone(MotorPair(written, on, mode), MoisturePaths);
    FilterNone(MotorPair(written, on, mode), EnvironmentPaths);
  }

  /** Each write of a setMotor pair goes to a motor path. */
  lemma MotorPairPaths(written: bool, on: bool, mode: bool)
    ensures forall i :: 0 <= i < |MotorPair(written, on, mode)| ==> MotorPair(written, on, mode)[i].path in MotorPaths
  {
  }

  /** Each write of an updateMoisture pair goes to a moisture path. */
  lemma MoisturePairPaths(written: bool, value: int, date: string)
    ensures forall i :: 0 <= i < |MoisturePair(written, value, date)| ==>
              MoisturePair(written, value, date)[i].path in MoisturePaths
  {
  }

  /** An updateEnvironment write goes to the environment path. */
  lemma EnvironmentWritePaths(environment: Option<Reading>)
    ensures forall i :: 0 <= i < |EnvironmentWrite(environment)| ==>
              EnvironmentWrite(environment)[i].path in EnvironmentPaths
  {
  }

  /** The writes of one main work, sorted by path group. */
  lemma MainWritesGroups(s: Snapshot, input: TickInput)
    ensures Filter(MainWrites(s, input), MotorPaths) == MainMotorWrites(s, input)
    ensures Filter(MainWrites(s, input), MoisturePaths) == MainMoistureWrites(s, input)
    ensures Filter(MainWrites(s, input), EnvironmentPaths) == MainEnvironmentWrites(input)
  {
    var mode, motor, auto := ReadMode(s, input), ReadMotor(s, input), AutoMotor(s, input);
    var readPair := MotorPair(motor != s.motorOn, motor, mode);
    var moisture := MoisturePair(input.sample != s.moisture, input.sample, input.date);
    var env := EnvironmentWrite(input.environment);
    var autoPair := MotorPair(auto != motor, auto, false);
    assert MainWrites(s, input) == readPair + moisture + env + autoPair;
    MotorPairGroups(motor != s.motorOn, motor, mode);
    MoisturePairPaths(input.sample != s.moisture, input.sample, input.date);
    EnvironmentWritePaths(input.environment);
    MotorPairPaths(auto != motor, auto, false);
    PathsDisjoint();
    FilterGroups(readPair, moisture, env, autoPair, MoisturePaths, EnvironmentPaths, MotorPaths);
    assert [] + moisture == moisture && [] + env == env;
  }

  /** The first half of the main work (lines 258-259): stamp the clock, then readData. */
  function StampAndRead(s: Snapshot, input: TickInput, ack: Verdict): (r: Snapshot)
    ensures r.prevMillis == input.stampClock && r.moisture == input.sample && r.ready == s.ready
    ensures r.manualMode == if input.manualRead.Some? then input.manualRead.value else s.manualMode
    ensures r.motorOn == if r.manualMode && input.isOnRead.Some? then input.isOnRead.value else s.motorOn
    ensures s.log <= r.log
    ensures StoreReplays(s, r, ack)
    ensures Invariant(s) ==> Invariant(r)
  {
    var t := s.(prevMillis := input.stampClock);
    ReadData(t, input.manualRead, input.isOnRead, input.sample, input.date, input.environment, ack)
  }

  /** The main work of loop (lines 258-260): stamp the clock, readData, autoLogic. */
  function MainWork(s: Snapshot, input: TickInput, ack: Verdict): (r: Snapshot)
    ensures r.prevMillis == input.stampClock && r.moisture == input.sample && r.ready == s.ready
    ensures r.manualMode == if input.manualRead.Some? then input.manualRead.value else s.manualMode
    ensures !r.manualMode ==> r.motorOn == (input.sample <= Threshold)
    ensures r.manualMode ==> r.motorOn == if input.isOnRead.Some? then input.isOnRead.value else s.motorOn
    ensures s.log <= r.log
    ensures StoreReplays(s, r, ack)
    ensures Invariant(s) ==> Invariant(r)
  {
    var d := StampAndRead(s, input, ack);
    var a := AutoLogic(d, ack);
    ReplayStages(s, d, a, ack);
    a
  }

  /** The gated part of loop (lines 256-265). */
  function GatedWork(s: Snapshot, input: TickInput, ack: Verdict): (r: Snapshot)
    ensures r.ready == input.ready
    ensures r.prevMillis == if MainRuns(s, input) then input.stampClock else s.prevMillis
    ensures r.moisture == if MainRuns(s, input) then input.sample else s.moisture
    ensures !MainRuns(s, input) ==> r == s.(ready := input.ready)
    ensures r.manualMode == ModeAfterMain(s, input)
    ensures r.motorOn == MotorAfterMain(s, input)
    ensures s.log <= r.log
    ensures StoreReplays(s, r, ack)
    ensures Invariant(s) ==> Invariant(r)
  {
    var t := s.(ready := input.ready);
    if MainRuns(s, input) then MainWork(t, input, ack) else t
  }

  /** loop (lines 255-279), without the delays, logging and telemetry. */
  function Tick(s: Snapshot, input: TickInput, ack: Verdict): (r: Snapshot)
    ensures r.ready == input.ready
    ensures r.prevMillis == if MainRuns(s, input) then input.stampClock else s.prevMillis
    ensures r.moisture == if MainRuns(s, input) then input.sample else s.moisture
    ensures r.manualMode == TickMode(s, input)
    ensures r.motorOn == if input.lateIsOnRead.Some? then input.lateIsOnRead.value else MotorAfterMain(s, input)
    ensures !MainRuns(s, input) && input.lateManualRead.None? && input.lateIsOnRead.None?
            ==> r == s.(ready := input.ready)
    ensures s.log <= r.log
    ensures !input.ready ==> r.log == s.log && r.store == s.store
    ensures StoreReplays(s, r, ack)
    ensures Invariant(s) ==> Invariant(r)
  {
    var m := GatedWork(s, input, ack);
    var r := Reconcile(m, input.lateManualRead, input.lateIsOnRead, ack);
    ReplayStages(s, m, r, ack);
    r
  }

  /**
   * Every write of one readData, in order: the motor pair when
   * reconcileFromRemote changed the motor, the moisture pair when the
   * sample changed, the environment write for a valid reading; none when
   * the session is not ready.
   */
  lemma ReadDataLog(s: Snapshot, manualRead: Option<bool>, isOnRead: Option<bool>, sample: int,
                    date: string, environment: Option<Reading>, ack: Verdict)
    ensures var r := ReadData(s, manualRead, isOnRead, sample, date, environment, ack);
      r.log == s.log + if s.ready
                       then MotorPair(r.motorOn != s.motorOn, r.motorOn, r.manualMode)
                            + MoisturePair(sample != s.moisture, sample, date) + EnvironmentWrite(environment)
                       else []
  {
    var b := ReconcileFromRemote(s, manualRead, isOnRead, ack);
    var c := UpdateMoisture(b, sample, date, ack);
    var r := UpdateEnvironment(c, environment, ack);
    StagesLog(s.log, b.log, c.log, r.log, s.ready, b.motorOn != s.motorOn, b.motorOn, b.manualMode,
              sample != s.moisture, sample, date, environment);
  }

  /** Chains the logs of readData's three stages. */
  lemma StagesLog(log0: seq<Write>, log1: seq<Write>, log2: seq<Write>, log3: seq<Write>, ready: bool,
                  motorChanged: bool, on: bool, mode: bool, changed: bool, value: int, date: string,
                  environment: Option<Reading>)
    requires log1 == log0 + if motorChanged && ready then [SetBool(IsOnPath, on), SetBool(ManualModePath, mode)] else []
    requires log2 == log1 + if changed && ready
                            then [SetInt(CurrentValuePath, value), PushJson(WholeDataPath, Entry(value, date))] else []
    requires log3 == log2 + if environment.Some? && ready then [SetJson(EnvironmentPath, environment.value)] else []
    ensures log3 == log0 + if ready
                           then MotorPair(motorChanged, on, mode) + MoisturePair(changed, value, date)
                                + EnvironmentWrite(environment)
                           else []
  {
    if !ready {
      assert log3 == log0 + [] + [] + [];
    }
  }

  /** Every write of one main work, in order; none when the session is not ready. */
  lemma MainWorkLog(s: Snapshot, input: TickInput, ack: Verdict)
    ensures MainWork(s, input, ack).log == s.log + if s.ready then MainWrites(s, input) else []
  {
    var t := s.(prevMillis := input.stampClock);
    var d := ReadData(t, input.manualRead, input.isOnRead, input.sample, input.date, input.environment, ack);
    ReadDataLog(t, input.manualRead, input.isOnRead, input.sample, input.date, input.environment, ack);
    assert StampAndRead(s, input, ack) == d;
    var a := AutoLogic(d, ack);
    assert MainWork(s, input, ack) == a;
    var mode, motor, auto := ReadMode(s, input), ReadMotor(s, input), AutoMotor(s, input);
    assert d.manualMode == mode && d.motorOn == motor && a.motorOn == auto;
    var readPart := MotorPair(motor != s.motorOn, motor, mode)
                    + MoisturePair(input.sample != s.moisture, input.sample, input.date)
                    + EnvironmentWrite(input.environment);
    var autoPair := MotorPair(auto != motor, auto, false);
    assert MainWrites(s, input) == readPart + autoPair;
    if s.ready {
      assert a.log == s.log + readPart + autoPair;
      AppendAssociates(s.log, readPart, autoPair);
    } else {
      assert a.log == s.log;
    }
  }

  /** The main work's writes depend on the mode, the motor and the last sample only. */
  lemma MainWritesIgnoreSession(s: Snapshot, t: Snapshot, input: TickInput)
    requires t.manualMode == s.manualMode && t.motorOn == s.motorOn && t.moisture == s.moisture
    ensures MainWrites(t, input) == MainWrites(s, input)
  {
  }

  /** Every write of the gated part of loop, in order: the main work's when it runs. */
  lemma GatedWorkLog(s: Snapshot, input: TickInput, ack: Verdict)
    ensures GatedWork(s, input, ack).log == s.log + if MainRuns(s, input) then MainWrites(s, input) else []
  {
    var t := s.(ready := input.ready);
    if MainRuns(s, input) {
      MainWorkLog(t, input, ack);
      assert GatedWork(s, input, ack) == MainWork(t, input, ack);
      MainWritesIgnoreSession(s, t, input);
    } else {
      assert GatedWork(s, input, ack).log == s.log + [];
    }
  }

  /** The trailing part of loop writes only the trailing setMotor's pair. */
  lemma ReconcileLog(s: Snapshot, input: TickInput, ack: Verdict)
    ensures var m := GatedWork(s, input, ack);
      Reconcile(m, input.lateManualRead, input.lateIsOnRead, ack).log == m.log + TrailingMotorWrites(s, input)
  {
    var m := GatedWork(s, input, ack);
    var r := Reconcile(m, input.lateManualRead, input.lateIsOnRead, ack);
    assert m.motorOn == MotorAfterMain(s, input) && m.ready == input.ready;
    assert r.manualMode == TickMode(s, input);
  }

  /**
   * Every write of one pass of loop, in order: the main work's when it
   * runs, then the trailing setMotor's pair.
   */
  lemma TickLog(s: Snapshot, input: TickInput, ack: Verdict)
    ensures Tick(s, input, ack).log == s.log + (if MainRuns(s, input) then MainWrites(s, input) else [])
                                       + TrailingMotorWrites(s, input)
  {
    GatedWorkLog(s, input, ack);
    ReconcileLog(s, input, ack);
  }

  /** The trailing setMotor's writes belong to the motor group of paths and to no other. */
  lemma TrailingGroups(s: Snapshot, input: TickInput)
    ensures Filter(TrailingMotorWrites(s, input), MotorPaths) == TrailingMotorWrites(s, input)
    ensures Filter(TrailingMotorWrites(s, input), MoisturePaths) == []
    ensures Filter(TrailingMotorWrites(s, input), EnvironmentPaths) == []
  {
    if input.lateIsOnRead.Some? {
      MotorPairGroups(input.ready && input.lateIsOnRead.value != MotorAfterMain(s, input),
                      input.lateIsOnRead.value, TickMode(s, input));
    }
  }

  /**
   * The motor writes of one pass: readData's and autoLogic's setMotor
   * pairs when the main work runs, then the trailing setMotor's pair when
   * a successful isOn read changes the motor in a ready session.
   */
  lemma TickMotorWrites(s: Snapshot, input: TickInput, ack: Verdict)
    ensures Filter(Tick(s, input, ack).log, MotorPaths) == Filter(s.log, MotorPaths) +
              (if MainRuns(s, input) then MainMotorWrites(s, input) else []) + TrailingMotorWrites(s, input)
  {
    var main := if MainRuns(s, input) then MainWrites(s, input) else [];
    var trailing := TrailingMotorWrites(s, input);
    TickLog(s, input, ack);
    MainWritesGroups(s, input);
    TrailingGroups(s, input);
    FilterAppend(s.log, main, trailing, MotorPaths,
                 if MainRuns(s, input) then MainMotorWrites(s, input) else [], trailing);
  }

  /** The moisture writes of one pass: the main work's moisture pair for a changed sample, and nothing else. */
  lemma TickMoistureWrites(s: Snapshot, input: TickInput, ack: Verdict)
    ensures Filter(Tick(s, input, ack).log, MoisturePaths) == Filter(s.log, MoisturePaths) +
              if MainRuns(s, input) then MainMoistureWrites(s, input) else []
  {
    var main := if MainRuns(s, input) then MainWrites(s, input) else [];
    var trailing := TrailingMotorWrites(s, input);
    TickLog(s, input, ack);
    MainWritesGroups(s, input);
    TrailingGroups(s, input);
    FilterAppend(s.log, main, trailing, MoisturePaths,
                 if MainRuns(s, input) then MainMoistureWrites(s, input) else [], []);
  }

  /** The environment writes of one pass: the main work's write for a valid reading, and nothing else. */
  lemma TickEnvironmentWrites(s: Snapshot, input: TickInput, ack: Verdict)
    ensures Filter(Tick(s, input, ack).log, EnvironmentPaths) == Filter(s.log, EnvironmentPaths) +
              if MainRuns(s, input) then MainEnvironmentWrites(input) else []
  {
    var main := if MainRuns(s, input) then MainWrites(s, input) else [];
    var trailing := TrailingMotorWrites(s, input);
    TickLog(s, input, ack);
    MainWritesGroups(s, input);
    TrailingGroups(s, input);
    FilterAppend(s.log, main, trailing, EnvironmentPaths,
                 if MainRuns(s, input) then MainEnvironmentWrites(input) else [], []);
  }

  /** Filters a log extended by two stages whose filtered parts are known. */
  lemma FilterAppend(log: seq<Write>, a: seq<Write>, b: seq<Write>, paths: set<Path>, fa: seq<Write>, fb: seq<Write>)
    requires Filter(a, paths) == fa && Filter(b, paths) == fb
    ensures Filter(log + a + b, paths) == Filter(log, paths) + fa + fb
  {
    FilterConcat(log + a, b, paths);
    FilterConcat(log, a, paths);
  }
}
