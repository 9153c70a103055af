/**
 * Successive passes of loop, and what holds of every state the firmware
 * reaches after setup.
 */
module PollLoop {
  import opened Wrappers
  import opened RemoteStore
  import opened Controller

  function Run(s: Snapshot, inputs: seq<TickInput>, ack: Verdict): (r: Snapshot)
    ensures s.log <= r.log
    decreases |inputs|
  {
    if inputs == [] then s
    else
      Run(Tick(s, inputs[0], ack), inputs[1..], ack)
  }

  /**
   * Every pass keeps the relay polarity and the store's shape; the write log
   * only grows, and the store is the old store with the new writes replayed.
   */
  lemma {:induction false} RunKeepsInvariant(s: Snapshot, inputs: seq<TickInput>, ack: Verdict)
    requires Invariant(s)
    ensures Invariant(Run(s, inputs, ack))
    ensures s.log <= Run(s, inputs, ack).log
    ensures StoreReplays(s, Run(s, inputs, ack), ack)
    decreases |inputs|
  {
    if inputs != [] {
      var t := Tick(s, inputs[0], ack);
      RunKeepsInvariant(t, inputs[1..], ack);
      ReplayStages(s, t, Run(s, inputs, ack), ack);
    }
  }

  /** From setup onward the relay pin is LOW exactly when isMotorOn holds. */
  lemma SetupThenRun(ready: bool, inputs: seq<TickInput>, ack: Verdict)
    ensures ActiveLow(Run(Initial(ready), inputs, ack))
    ensures Conforms(Run(Initial(ready), inputs, ack).store)
    ensures var r := Run(Initial(ready), inputs, ack); r.store == Replay(map[], 0, r.log, ack)
  {
    RunKeepsInvariant(Initial(ready), inputs, ack);
  }

  /** While the session is never ready, no write is attempted and the store is untouched. */
  lemma {:induction false} RunOffline(s: Snapshot, inputs: seq<TickInput>, ack: Verdict)
    requires forall i :: 0 <= i < |inputs| ==> !inputs[i].ready
    ensures Run(s, inputs, ack).log == s.log
    ensures Run(s, inputs, ack).store == s.store
    decreases |inputs|
  {
    if inputs != [] {
      assert !inputs[0].ready;
      RunOffline(Tick(s, inputs[0], ack), inputs[1..], ack);
    }
  }

  /** manualMode changes only by adopting a value read from the remote store. */
  lemma {:induction false} RunWithoutModeReads(s: Snapshot, inputs: seq<TickInput>, ack: Verdict)
    requires forall i :: 0 <= i < |inputs| ==> inputs[i].manualRead.None? && inputs[i].lateManualRead.None?
    ensures Run(s, inputs, ack).manualMode == s.manualMode
    decreases |inputs|
  {
    if inputs != [] {
      assert inputs[0].manualRead.None? && inputs[0].lateManualRead.None?;
      RunWithoutModeReads(Tick(s, inputs[0], ack), inputs[1..], ack);
    }
  }

  /** Some pass read `v` as the remote manualMode, in readData or at the end of loop. */
  ghost predicate ReadsMode(inputs: seq<TickInput>, v: bool) {
    exists i :: 0 <= i < |inputs| && (inputs[i].manualRead == Some(v) || inputs[i].lateManualRead == Some(v))
  }

  /** A pass ends with a mode it started with or one of the two it read. */
  lemma TickModeFromReads(s: Snapshot, input: TickInput, ack: Verdict)
    ensures var m := Tick(s, input, ack).manualMode;
      m == s.manualMode || input.manualRead == Some(m) || input.lateManualRead == Some(m)
  {
  }

  /**
   * manualMode changes only by adopting a value read from the remote store:
   * it ends as it started or as some value that was read.
   */
  lemma {:induction false} RunModeFromReads(s: Snapshot, inputs: seq<TickInput>, ack: Verdict)
    ensures var m := Run(s, inputs, ack).manualMode; m == s.manualMode || ReadsMode(inputs, m)
    decreases |inputs|
  {
    if inputs != [] {
      var t := Tick(s, inputs[0], ack);
      var m := Run(s, inputs, ack).manualMode;
      assert m == Run(t, inputs[1..], ack).manualMode;
      RunModeFromReads(t, inputs[1..], ack);
      TickModeFromReads(s, inputs[0], ack);
      if m != s.manualMode {
        if m == t.manualMode {
          assert inputs[0].manualRead == Some(m) || inputs[0].lateManualRead == Some(m);
        } else {
          var i :| 0 <= i < |inputs[1..]| && (inputs[1..][i].manualRead == Some(m) || inputs[1..][i].lateManualRead == Some(m));
          assert inputs[i + 1] == inputs[1..][i];
        }
      }
    }
  }

  /** A successful read at the end of the last pass is the final mode. */
  lemma {:induction false} RunEndsWithLastModeRead(s: Snapshot, inputs: seq<TickInput>, last: TickInput,
                                                   ack: Verdict)
    requires last.lateManualRead.Some?
    ensures Run(s, inputs + [last], ack).manualMode == last.lateManualRead.value
    decreases |inputs|
  {
    if inputs == [] {
      assert inputs + [last] == [last];
      assert [last][1..] == [];
    } else {
      assert (inputs + [last])[1..] == inputs[1..] + [last];
      RunEndsWithLastModeRead(Tick(s, inputs[0], ack), inputs[1..], last, ack);
    }
  }
}
