/**
 * The firmware's globals as one object whose methods update them in place,
 * in the order src/main.cpp does. Each method is proved to leave the object
 * in the state the matching function of module Controller computes.
 */
module Firmware {
  import opened Wrappers
  import opened RemoteStore
  import opened Clock
  import opened Controller

  class Irrigation {
    var isMotorOn: bool
    var manualMode: bool
    var soilMoistureValue: int
    var sendDataPrevMillis: Millis
    var relayPin: Level
    var ready: bool
    var store: Store
    var log: seq<Write>

    function State(): Snapshot
      reads this
    {
      Snapshot(isMotorOn, manualMode, soilMoistureValue, sendDataPrevMillis, relayPin, ready, store, log)
    }

    ghost predicate Valid()
      reads this
    {
      Invariant(State())
    }

    /** Program start: the globals' initial values, then setup's digitalWrite(RELAY_PIN, HIGH). */
    constructor (sessionReady: bool)
      ensures Valid()
      ensures State() == Initial(sessionReady)
    {
      isMotorOn := false;
      manualMode := false;
      soilMoistureValue := 0;
      sendDataPrevMillis := 0;
      ready := sessionReady;
      store := map[];
      log := [];
      relayPin := High;
    }

    /** Logs one remote write; the backend's verdict decides whether the store takes it. */
    method Attempt(w: Write, ack: Verdict)
      modifies this
      ensures State() == Controller.Attempt(old(State()), w, ack)
    {
      var accepted := ack(|log|, w);
      log := log + [w];
      if accepted {
        store := Apply(store, w);
      }
    }

    method SetMotor(isOn: bool, ack: Verdict)
      requires Valid()
      modifies this
      ensures Valid()
      ensures State() == Controller.SetMotor(old(State()), isOn, ack)
    {
      if isMotorOn != isOn {
        isMotorOn := isOn;
        relayPin := RelayLevel(isMotorOn);
        if ready {
          Attempt(SetBool(IsOnPath, isOn), ack);
          Attempt(SetBool(ManualModePath, manualMode), ack);
        }
      }
    }

    method SetCurrentMoistureValue(value: int, ack: Verdict)
      requires Valid()
      modifies this
      ensures Valid()
      ensures State() == Controller.SetCurrentMoistureValue(old(State()), value, ack)
    {
      soilMoistureValue := value;
      if ready {
        Attempt(SetInt(CurrentValuePath, value), ack);
      }
    }

    method SetTempAndHumidity(reading: Reading, ack: Verdict)
      requires Valid()
      modifies this
      ensures Valid()
      ensures State() == Controller.SetTempAndHumidity(old(State()), reading, ack)
    {
      if ready {
        Attempt(SetJson(EnvironmentPath, reading), ack);
      }
    }

    /** `date` is the text getDate returned. */
    method SetMoistureDataWithDateAndTimeAsJson(value: int, date: string, ack: Verdict)
      requires Valid()
      modifies this
      ensures Valid()
      ensures State() == Controller.SetMoistureDataWithDateAndTimeAsJson(old(State()), value, date, ack)
    {
      if ready {
        Attempt(PushJson(WholeDataPath, Entry(value, date)), ack);
      }
    }

    /** Lines 131-140 of readData. */
    method ReconcileFromRemote(manualRead: Option<bool>, isOnRead: Option<bool>, ack: Verdict)
      requires Valid()
      modifies this
      ensures Valid()
      ensures State() == Controller.ReconcileFromRemote(old(State()), manualRead, isOnRead, ack)
    {
      if manualRead.Some? {
        manualMode := manualRead.value;
      }
      if manualMode && isOnRead.Some? {
        var motorStateFromDB := isOnRead.value;
        if motorStateFromDB != isMotorOn {
          SetMotor(motorStateFromDB, ack);
        }
      }
    }

    /** Lines 142-147 of readData. */
    method UpdateMoisture(sample: int, date: string, ack: Verdict)
      requires Valid()
      modifies this
      ensures Valid()
      ensures State() == Controller.UpdateMoisture(old(State()), sample, date, ack)
    {
      var value := sample;
      if value != soilMoistureValue {
        soilMoistureValue := value;
        SetCurrentMoistureValue(soilMoistureValue, ack);
        SetMoistureDataWithDateAndTimeAsJson(soilMoistureValue, date, ack);
      }
    }

    /** Lines 149-160 of readData; None stands for a NaN reading. */
    method UpdateEnvironment(environment: Option<Reading>, ack: Verdict)
      requires Valid()
      modifies this
      ensures Valid()
      ensures State() == Controller.UpdateEnvironment(old(State()), environment, ack)
    {
      if environment.Some? {
        SetTempAndHumidity(environment.value, ack);
      }
    }

    method ReadData(manualRead: Option<bool>, isOnRead: Option<bool>, sample: int, date: string,
                    environment: Option<Reading>, ack: Verdict)
      requires Valid()
      modifies this
      ensures Valid()
      ensures State() == Controller.ReadData(old(State()), manualRead, isOnRead, sample, date, environment, ack)
    {
      ReconcileFromRemote(manualRead, isOnRead, ack);
      UpdateMoisture(sample, date, ack);
      UpdateEnvironment(environment, ack);
    }

    method AutoLogic(ack: Verdict)
      requires Valid()
      modifies this
      ensures Valid()
      ensures State() == Controller.AutoLogic(old(State()), ack)
    {
      if !manualMode {
        if soilMoistureValue > Threshold {
          SetMotor(false, ack);
        } else {
          SetMotor(true, ack);
        }
      }
    }

    /** The trailing part of loop (lines 267-276), run on every pass. */
    method Reconcile(manualRead: Option<bool>, isOnRead: Option<bool>, ack: Verdict)
      requires Valid()
      modifies this
      ensures Valid()
      ensures State() == Controller.Reconcile(old(State()), manualRead, isOnRead, ack)
    {
      if manualRead.Some? {
        manualMode := manualRead.value;
      }
      if isOnRead.Some? {
        var motorStateFromDB := isOnRead.value;
        if motorStateFromDB != isMotorOn {
          SetMotor(motorStateFromDB, ack);
        }
      }
    }

    /** The main work of loop (lines 258-260) once the gate has opened. */
    method MainWork(input: TickInput, ack: Verdict)
      requires Valid()
      modifies this
      ensures Valid()
      ensures State() == Controller.MainWork(old(State()), input, ack)
    {
      sendDataPrevMillis := input.stampClock;
      ReadData(input.manualRead, input.isOnRead, input.sample, input.date, input.environment, ack);
      AutoLogic(ack);
    }

    /** One pass of loop. */
    method Tick(input: TickInput, ack: Verdict)
      requires Valid()
      modifies this
      ensures Valid()
      ensures State() == Controller.Tick(old(State()), input, ack)
    {
      ghost var s0 := State();
      ready := input.ready;
      if ready {
        if Elapsed(input.gateClock, sendDataPrevMillis) > Period || sendDataPrevMillis == 0 {
          MainWork(input, ack);
        }
      }
      assert State() == GatedWork(s0, input, ack);
      Reconcile(input.lateManualRead, input.lateIsOnRead, ack);
    }
  }
}
