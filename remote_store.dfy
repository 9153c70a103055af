/**
 * The realtime-database mirror the firmware writes to: the five paths it
 * uses, the values stored there, the writes it attempts, and the effect of
 * an accepted write on an in-memory copy of the store.
 */
module RemoteStore {
  import opened Wrappers

  /** The five database paths the firmware uses. */
  datatype Path = IsOnPath | ManualModePath | CurrentValuePath | WholeDataPath | EnvironmentPath

  /** The path as the firmware spells it. */
  function PathText(p: Path): string {
    match p
    case IsOnPath => "App/motor/isOn"
    case ManualModePath => "App/motor/manualMode"
    case CurrentValuePath => "App/soilMoisture/currentValue"
    case WholeDataPath => "App/soilMoisture/wholeData"
    case EnvironmentPath => "App/environment"
  }

  /**
   * No path's text is a prefix of another's, so no path names a node inside
   * another path's subtree: a write to one path never replaces another, and
   * the store can be flattened into a map keyed by Path.
   */
  lemma PathsPrefixFree(p: Path, q: Path)
    requires p != q
    ensures !(PathText(p) <= PathText(q))
    ensures PathText(p) != PathText(q)
  {
    // the texts part at the segment after their common stem
    var k := if p in MotorPaths && q in MotorPaths then 10
             else if p in MoisturePaths && q in MoisturePaths then 17
             else 4;
    assert PathText(p)[k] != PathText(q)[k];
  }

  const MotorPaths: set<Path> := {IsOnPath, ManualModePath}
  const MoisturePaths: set<Path> := {CurrentValuePath, WholeDataPath}
  const EnvironmentPaths: set<Path> := {EnvironmentPath}

  /** The three groups of paths are disjoint. */
  lemma PathsDisjoint()
    ensures MotorPaths !! MoisturePaths
    ensures MotorPaths !! EnvironmentPaths && MoisturePaths !! EnvironmentPaths
  {
  }

  /** A temperature/humidity pair from the DHT sensor (never NaN here). */
  datatype Reading = Reading(temperature: real, humidity: real)

  /** One child pushed under `App/soilMoisture/wholeData`; the date text is opaque. */
  datatype Entry = Entry(value: int, datetime: string)

  datatype Value =
    | BoolValue(b: bool)
    | IntValue(i: int)
    | JsonValue(reading: Reading)
    | LogValue(entries: seq<Entry>)

  /** A write the firmware attempts: setBool, setInt, setJSON or pushJSON. */
  datatype Write =
    | SetBool(path: Path, b: bool)
    | SetInt(path: Path, i: int)
    | SetJson(path: Path, reading: Reading)
    | PushJson(path: Path, entry: Entry)

  type Store = map<Path, Value>

  function GetBool(store: Store, path: Path): (r: Option<bool>)
    ensures r.Some? <==> path in store && store[path].BoolValue?
  {
    if path in store && store[path].BoolValue? then Some(store[path].b) else None
  }

  function GetInt(store: Store, path: Path): (r: Option<int>)
    ensures r.Some? <==> path in store && store[path].IntValue?
  {
    if path in store && store[path].IntValue? then Some(store[path].i) else None
  }

  /** The children pushed so far under `path` (none if the path is not a log). */
  function EntriesAt(store: Store, path: Path): seq<Entry> {
    if path in store && store[path].LogValue? then store[path].entries else []
  }

  /** The store after the backend accepted `w`. */
  function Apply(store: Store, w: Write): (r: Store)
    ensures r.Keys == store.Keys + {w.path}
    ensures forall p :: p in store && p != w.path ==> r[p] == store[p]
    ensures w.SetBool? ==> GetBool(r, w.path) == Some(w.b)
    ensures w.SetInt? ==> GetInt(r, w.path) == Some(w.i)
    ensures w.SetJson? ==> r[w.path] == JsonValue(w.reading)
    ensures w.PushJson? ==> EntriesAt(r, w.path) == EntriesAt(store, w.path) + [w.entry]
    ensures Conforms(store) && WellTyped(w) ==> Conforms(r)
  {
    match w
    case SetBool(p, b) => store[p := BoolValue(b)]
    case SetInt(p, i) => store[p := IntValue(i)]
    case SetJson(p, reading) => store[p := JsonValue(reading)]
    case PushJson(p, e) => store[p := LogValue(EntriesAt(store, p) + [e])]
  }

  /**
   * The backend's verdict on the write attempted at a given position of the
   * run's write log: true when it accepted the write. Keying the verdict on
   * the position lets the same write fail once and succeed later.
   */
  type Verdict = (nat, Write) -> bool

  /**
   * The store once the backend has seen `writes`, the first of them at log
   * position `start`: every accepted write is applied, every rejected one
   * leaves the store as it was.
   */
  function Replay(store: Store, start: nat, writes: seq<Write>, ack: Verdict): (r: Store)
    ensures store.Keys <= r.Keys
    ensures Conforms(store) && (forall i :: 0 <= i < |writes| ==> WellTyped(writes[i])) ==> Conforms(r)
    decreases |writes|
  {
    if writes == [] then store
    else Replay(if ack(start, writes[0]) then Apply(store, writes[0]) else store, start + 1, writes[1..], ack)
  }

  lemma ReplayOne(store: Store, start: nat, w: Write, ack: Verdict)
    ensures Replay(store, start, [w], ack) == if ack(start, w) then Apply(store, w) else store
  {
    assert [w][1..] == [];
  }

  /** Replaying two batches of writes one after the other is replaying them together. */
  lemma {:induction false} ReplayConcat(store: Store, start: nat, a: seq<Write>, b: seq<Write>, ack: Verdict)
    ensures Replay(store, start, a + b, ack) == Replay(Replay(store, start, a, ack), start + |a|, b, ack)
    decreases |a|
  {
    if a == [] {
      assert a + b == b;
    } else {
      assert (a + b)[1..] == a[1..] + b;
      ReplayConcat(if ack(start, a[0]) then Apply(store, a[0]) else store, start + 1, a[1..], b, ack);
    }
  }

  /** A path none of the writes goes to keeps its value, or its absence. */
  lemma {:induction false} ReplayFrame(store: Store, start: nat, writes: seq<Write>, ack: Verdict, p: Path)
    requires forall i :: 0 <= i < |writes| ==> writes[i].path != p
    ensures p in Replay(store, start, writes, ack) <==> p in store
    ensures p in store ==> Replay(store, start, writes, ack)[p] == store[p]
    decreases |writes|
  {
    if writes != [] {
      var next := if ack(start, writes[0]) then Apply(store, writes[0]) else store;
      assert writes[0].path != p;
      ReplayFrame(next, start + 1, writes[1..], ack, p);
    }
  }

  /** A write carries the type its path holds. */
  predicate WellTyped(w: Write) {
    match w
    case SetBool(p, _) => p == IsOnPath || p == ManualModePath
    case SetInt(p, _) => p == CurrentValuePath
    case SetJson(p, _) => p == EnvironmentPath
    case PushJson(p, _) => p == WholeDataPath
  }

  /** Each path of the store holds the type the dashboard expects there. */
  predicate Conforms(store: Store) {
    && (IsOnPath in store ==> store[IsOnPath].BoolValue?)
    && (ManualModePath in store ==> store[ManualModePath].BoolValue?)
    && (CurrentValuePath in store ==> store[CurrentValuePath].IntValue?)
    && (WholeDataPath in store ==> store[WholeDataPath].LogValue?)
    && (EnvironmentPath in store ==> store[EnvironmentPath].JsonValue?)
  }

  /** The writes of `log` whose path is in `paths`, in order. */
  function Filter(log: seq<Write>, paths: set<Path>): (r: seq<Write>)
    ensures |r| <= |log|
    ensures forall i :: 0 <= i < |r| ==> r[i].path in paths
  {
    if log == [] then []
    else (if log[0].path in paths then [log[0]] else []) + Filter(log[1..], paths)
  }

  lemma {:induction false} FilterConcat(a: seq<Write>, b: seq<Write>, paths: set<Path>)
    ensures Filter(a + b, paths) == Filter(a, paths) + Filter(b, paths)
  {
    if a == [] {
      assert a + b == b;
    } else {
      assert (a + b)[1..] == a[1..] + b;
      FilterConcat(a[1..], b, paths);
    }
  }

  lemma AppendAssociates(a: seq<Write>, b: seq<Write>, c: seq<Write>)
    ensures a + b + c == a + (b + c)
  {
  }

  lemma FilterConcat4(a: seq<Write>, b: seq<Write>, c: seq<Write>, d: seq<Write>, paths: set<Path>)
    ensures Filter(a + b + c + d, paths) == Filter(a, paths) + Filter(b, paths) + Filter(c, paths) + Filter(d, paths)
  {
    FilterConcat(a + b + c, d, paths);
    FilterConcat(a + b, c, paths);
    FilterConcat(a, b, paths);
  }

  lemma {:induction false} FilterNone(log: seq<Write>, paths: set<Path>)
    requires forall i :: 0 <= i < |log| ==> log[i].path !in paths
    ensures Filter(log, paths) == []
  {
    if log != [] {
      FilterNone(log[1..], paths);
    }
  }

  /** Appending writes to other paths leaves the filtered log unchanged. */
  lemma FilterSkips(log: seq<Write>, extra: seq<Write>, paths: set<Path>)
    requires forall i :: 0 <= i < |extra| ==> extra[i].path !in paths
    ensures Filter(log + extra, paths) == Filter(log, paths)
  {
    FilterConcat(log, extra, paths);
    FilterNone(extra, paths);
  }

  lemma {:induction false} FilterAll(log: seq<Write>, paths: set<Path>)
    requires forall i :: 0 <= i < |log| ==> log[i].path in paths
    ensures Filter(log, paths) == log
  {
    if log != [] {
      FilterAll(log[1..], paths);
    }
  }

  lemma FilterDisjoint(log: seq<Write>, paths: set<Path>, others: set<Path>)
    requires forall i :: 0 <= i < |log| ==> log[i].path in paths
    requires paths !! others
    ensures Filter(log, others) == []
  {
    FilterNone(log, others);
  }

  /**
   * Writes appended in three groups to three disjoint sets of paths: each
   * group is recovered by filtering on its own paths.
   */
  lemma FilterGroups(log: seq<Write>, a: seq<Write>, b: seq<Write>, c: seq<Write>,
                     pa: set<Path>, pb: set<Path>, pc: set<Path>)
    requires forall i :: 0 <= i < |a| ==> a[i].path in pa
    requires forall i :: 0 <= i < |b| ==> b[i].path in pb
    requires forall i :: 0 <= i < |c| ==> c[i].path in pc
    requires pa !! pb && pa !! pc && pb !! pc
    ensures Filter(log + a + b + c, pa) == Filter(log, pa) + a
    ensures Filter(log + a + b + c, pb) == Filter(log, pb) + b
    ensures Filter(log + a + b + c, pc) == Filter(log, pc) + c
  {
    FilterFirstGroup(log, a, b, c, pa, pb, pc);
    FilterSecondGroup(log, a, b, c, pa, pb, pc);
    FilterThirdGroup(log, a, b, c, pa, pb, pc);
  }

  lemma FilterFirstGroup(log: seq<Write>, a: seq<Write>, b: seq<Write>, c: seq<Write>,
                     pa: set<Path>, pb: set<Path>, pc: set<Path>)
    requires forall i :: 0 <= i < |a| ==> a[i].path in pa
    requires forall i :: 0 <= i < |b| ==> b[i].path in pb
    requires forall i :: 0 <= i < |c| ==> c[i].path in pc
    requires pa !! pb && pa !! pc && pb !! pc
    ensures Filter(log + a + b + c, pa) == Filter(log, pa) + a
  {
    FilterConcat4(log, a, b, c, pa);
    FilterAll(a, pa);
    FilterDisjoint(b, pb, pa);
    FilterDisjoint(c, pc, pa);
  }

  lemma FilterSecondGroup(log: seq<Write>, a: seq<Write>, b: seq<Write>, c: seq<Write>,
                     pa: set<Path>, pb: set<Path>, pc: set<Path>)
    requires forall i :: 0 <= i < |a| ==> a[i].path in pa
    requires forall i :: 0 <= i < |b| ==> b[i].path in pb
    requires forall i :: 0 <= i < |c| ==> c[i].path in pc
    requires pa !! pb && pa !! pc && pb !! pc
    ensures Filter(log + a + b + c, pb) == Filter(log, pb) + b
  {
    FilterConcat4(log, a, b, c, pb);
    FilterDisjoint(a, pa, pb);
    FilterAll(b, pb);
    FilterDisjoint(c, pc, pb);
    assert Filter(log, pb) + Filter(a, pb) == Filter(log, pb);
  }

  lemma FilterThirdGroup(log: seq<Write>, a: seq<Write>, b: seq<Write>, c: seq<Write>,
                     pa: set<Path>, pb: set<Path>, pc: set<Path>)
    requires forall i :: 0 <= i < |a| ==> a[i].path in pa
    requires forall i :: 0 <= i < |b| ==> b[i].path in pb
    requires forall i :: 0 <= i < |c| ==> c[i].path in pc
    requires pa !! pb && pa !! pc && pb !! pc
    ensures Filter(log + a + b + c, pc) == Filter(log, pc) + c
  {
    FilterConcat4(log, a, b, c, pc);
    FilterDisjoint(a, pa, pc);
    FilterDisjoint(b, pb, pc);
    FilterAll(c, pc);
    assert Filter(log, pc) + Filter(a, pc) + Filter(b, pc) == Filter(log, pc);
  }
}
