/**
 * Runs of the task store in which something recorded is lost, or a property one might expect fails, and
 * runs that show a condition to be more than needed.
 */
module LeaseFailures {
  import opened Optional
  import opened TaskLease

  ghost function Last(run: Run): (s: State)
    requires run.states != []
  {
    run.states[|run.states| - 1]
  }

  ghost function Extend(ticks: bool, run: Run, e: Event): (r: Run)
    requires IsRun(ticks, run) && Enabled(ticks, Last(run), e)
    ensures IsRun(ticks, r) && Last(r) == Next(Last(run), e)
    ensures r.events == run.events + [e] && r.states == run.states + [Last(r)]
  {
    hide Enabled, Next, Init;
    Run(run.states + [Next(Last(run), e)], run.events + [e])
  }

  ghost function Start(): (run: Run)
    ensures IsRun(true, run) && IsRun(false, run)
  {
    Run([State(Row(Pending, "", 0, 0, 0, 0, Payload(Pending, 0, 1, 0, false, 0, [])), map[], map[], map[])], [])
  }

  /**
   * Without current write-backs: a heartbeat that overlaps a tool call takes the call off the ledger, and a
   * budget of one call is spent twice.
   */
  lemma OverlappingHeartbeatReplenishes() returns (run: Run)
    ensures IsRun(true, run) && |run.events| == 6 && |run.states| == 7
    ensures forall i :: 0 <= i < 6 && run.events[i].BeginCall? ==> run.events[i].maxCalls == 1
    ensures Begun(run, 6) == 2
  {
    hide IsRun;
    var begin1, begin2 := BeginCall("w", 1, 3, 1, 1, 10), BeginCall("w", 1, 4, 1, 1, 10);
    run := Extend(true, Start(), Claim("w", 1, 100));
    run := Extend(true, run, Renew(0, "w", 1, 2, 100));
    run := Extend(true, run, BeatRead(0));
    run := Extend(true, run, begin1);
    run := Extend(true, run, WriteBack(0));
    assert Last(run).row.payload.ledger == [];
    run := Extend(true, run, begin2);
    assert run.events == [Claim("w", 1, 100), Renew(0, "w", 1, 2, 100), BeatRead(0), begin1, WriteBack(0), begin2];
    CountTwo(run);
  }

  lemma CountTwo(run: Run)
    requires |run.events| == 6 && |run.states| == 7
    requires !run.events[0].BeginCall? && !run.events[1].BeginCall? && !run.events[2].BeginCall? &&
              !run.events[4].BeginCall?
    requires run.events[3].BeginCall? && Accepts(run.states[3], run.events[3])
    requires run.events[5].BeginCall? && Accepts(run.states[5], run.events[5])
    ensures Begun(run, 6) == 2
  {
    hide Accepts;
    assert Begun(run, 0) == 0 && Begun(run, 1) == 0 && Begun(run, 2) == 0 && Begun(run, 3) == 0;
    assert Begun(run, 4) == 1 && Begun(run, 5) == 1;
  }

  /** Within one tick of the clock, a cancellation read before the run was settled makes it running again. */
  lemma CancellationRevives() returns (run: Run)
    ensures IsRun(false, run) && !StatusDiscipline(run)
  {
    hide IsRun;
    var done := Payload(Succeeded, 1, 3, 1, false, 0, []);
    run := Extend(false, Start(), Claim("w", 1, 100));
    run := Extend(false, run, CancelRead(0));
    run := Extend(false, run, Settle("w", 1, 1, done, 0));
    assert Terminal(Last(run).row.status);
    var i := |run.states| - 1;
    run := Extend(false, run, CancelWrite(0, 2));
    assert run.states[i + 1].row.status == Running;
    assert run.events[i] == CancelWrite(0, 2);
  }

  /** Within one tick: a cancellation read, and then one call recorded. */
  lemma CallAfterCancelRead() returns (run: Run)
    ensures IsRun(false, run)
    ensures run.events == [Claim("w", 1, 100), CancelRead(0), BeginCall("w", 1, 1, 1, 1, 10)]
    ensures |run.states| == 4 && HoldsLease(run.states[2].row, "w", 1) &&
              Affordable(run.states[2].row.payload, 1, 1, 10)
    ensures var p := Payload(Running, 1, 2, 1, false, 0, []);
            Last(run) == State(Row(Running, "w", 1, 101, 0, 1,
                p.(revision := 3, calls := 1, ledger := [Call(1, false)])), map[], map[0 := p], map[])
  {
    hide IsRun;
    run := Extend(false, Start(), Claim("w", 1, 100));
    run := Extend(false, run, CancelRead(0));
    run := Extend(false, run, BeginCall("w", 1, 1, 1, 1, 10));
  }

  /**
   * The cancellation takes the call off the ledger, no heartbeat being involved, and a budget of one call is
   * spent twice.
   */
  lemma SameTickCancelReplenishes() returns (run: Run)
    ensures IsRun(false, run) && |run.events| == 5 && BacksCurrent(run, 5) && AllCarry(run) && !NeverLoses(run)
    ensures forall i :: 0 <= i < 5 && run.events[i].BeginCall? ==> run.events[i].maxCalls == 1
    ensures Begun(run, 5) == 2
  {
    hide IsRun;
    var early := CallAfterCancelRead();
    var middle := Extend(false, early, CancelWrite(0, 2));
    run := Extend(false, middle, BeginCall("w", 1, 3, 1, 1, 10));
    assert run.states[2] == early.states[2] && run.states[3] == Last(early) && run.states[4] == Last(middle);
    assert !LedgerKept(run.states[3].row.payload.ledger, run.states[4].row.payload.ledger);
    assert !NothingLost(run.states[3], run.events[3], run.states[3 + 1]);
    CountTwoOfFive(run);
  }

  lemma CountTwoOfFive(run: Run)
    requires |run.events| == 5 && |run.states| == 6
    requires !run.events[0].BeginCall? && !run.events[1].BeginCall? && !run.events[3].BeginCall?
    requires run.events[2].BeginCall? && Accepts(run.states[2], run.events[2])
    requires run.events[4].BeginCall? && Accepts(run.states[4], run.events[4])
    ensures Begun(run, 5) == 2
  {
    hide Accepts;
    assert Begun(run, 0) == 0 && Begun(run, 1) == 0 && Begun(run, 2) == 0;
    assert Begun(run, 3) == 1 && Begun(run, 4) == 1;
  }

  /**
   * A worker that fails an attempt settles with the copy it got when it claimed.  A cancellation
   * requested meanwhile is gone: every timestamp advances, no heartbeat is stale, and the run waits for a retry.
   */
  lemma RetryForgetsCancellation() returns (run: Run)
    ensures IsRun(true, run) && BacksCurrent(run, |run.events|) && CancelsCurrent(run, |run.events|) && !NeverLoses(run)
    ensures Last(run).row.status == RetryScheduled && !Last(run).row.payload.cancelled
    ensures exists s :: s in run.states && s.row.payload.cancelled && s.row.status == Running
  {
    hide IsRun;
    var copy := Payload(RetryScheduled, 1, 3, 1, false, 0, []);
    run := Extend(true, Start(), Claim("w", 1, 100));
    run := Extend(true, run, CancelRead(0));
    run := Extend(true, run, CancelWrite(0, 2));
    var cancelled := Last(run);
    run := Extend(true, run, Settle("w", 1, 3, copy, 4));
    assert run.events == [Claim("w", 1, 100), CancelRead(0), CancelWrite(0, 2), Settle("w", 1, 3, copy, 4)];
    assert run.states[3] == cancelled;
    assert !NothingLost(run.states[3], run.events[3], run.states[3 + 1]);
  }

  /** One call recorded, one heartbeat and one cancellation under way, both having read the payload as it is. */
  ghost function Meeting(): (s: State) {
    var p := Payload(Running, 1, 3, 3, false, 1, [Call(1, false)]);
    State(Row(Running, "w", 1, 102, 0, 3, p), map[0 := Beat("w", 1, 2, Some(p))], map[0 := p], map[])
  }

  lemma Meet() returns (run: Run)
    ensures IsRun(true, run) && Last(run) == Meeting()
    ensures forall e <- run.events :: !e.WriteBack? && !e.Settle? && !e.CancelWrite?
  {
    hide IsRun;
    run := Extend(true, Start(), Claim("w", 1, 100));
    run := Extend(true, run, Renew(0, "w", 1, 2, 100));
    run := Extend(true, run, BeginCall("w", 1, 3, 1, 1, 10));
    run := Extend(true, run, BeatRead(0));
    run := Extend(true, run, CancelRead(0));
  }

  /** A cancellation can be behind by a write-back and still lose nothing, so its revision is more than needed. */
  lemma LateCancelIsHarmless() returns (run: Run)
    ensures IsRun(true, run) && NeverLoses(run) && !CancelsCurrent(run, |run.events|)
  {
    hide IsRun;
    var early := Meet();
    var n := |early.events|;
    RunShape(true, early);
    var middle := Extend(true, early, WriteBack(0));
    run := Extend(true, middle, CancelWrite(0, 4));
    RunShape(true, run);
    assert run.events[n] == WriteBack(0) && run.states[n] == Meeting();
    assert run.events[n + 1] == CancelWrite(0, 4) && run.states[n + 1] == Last(middle);
    assert !CancelCurrent(run.states[n + 1], run.events[n + 1]);
    forall i | 0 <= i < |run.events|
      ensures BackCurrent(run.states[i], run.events[i]) && Carries(run.states[i], run.events[i])
    {
      assert i < n ==> run.events[i] == early.events[i] && early.events[i] in early.events;
    }
    RevisionsDecide(true, run);
  }

  lemma RunShape(ticks: bool, run: Run)
    requires IsRun(ticks, run)
    ensures |run.states| == |run.events| + 1
  {
  }

  /** A heartbeat that overlaps the end of a call takes its mark back; the call stays, and so do the accounts. */
  lemma LostFinishStillAccounts() returns (run: Run)
    ensures IsRun(true, run) && AllBring(run, |run.events|) && !KeepsLedger(run, |run.events|)
  {
    hide IsRun;
    var p := Payload(Running, 1, 3, 2, false, 1, [Call(1, false)]);
    run := Extend(true, Start(), Claim("w", 1, 100));
    run := Extend(true, run, BeginCall("w", 1, 2, 1, 1, 10));
    run := Extend(true, run, Renew(0, "w", 1, 3, 100));
    var early := Extend(true, run, BeatRead(0));
    assert Last(early) == State(Row(Running, "w", 1, 103, 0, 3, p), map[0 := Beat("w", 1, 3, Some(p))], map[], map[]);
    assert forall e <- early.events :: !e.WriteBack? && !e.CancelWrite? && !e.EditWrite?;
    run := FinishIsOverwritten(early, p);
  }

  lemma FinishIsOverwritten(early: Run, p: Payload) returns (run: Run)
    requires p == Payload(Running, 1, 3, 2, false, 1, [Call(1, false)]) && IsRun(true, early)
    requires Last(early) == State(Row(Running, "w", 1, 103, 0, 3, p), map[0 := Beat("w", 1, 3, Some(p))], map[], map[])
    requires forall e <- early.events :: !e.WriteBack? && !e.CancelWrite? && !e.EditWrite?
    ensures IsRun(true, run) && AllBring(run, |run.events|) && !KeepsLedger(run, |run.events|)
  {
    hide IsRun;
    RunShape(true, early);
    var n := |early.events|;
    var middle := Extend(true, early, FinishCall("w", 1, 4, 0));
    run := Extend(true, middle, WriteBack(0));
    RunShape(true, run);
    assert run.states[n + 1] == Last(middle) && run.states[n + 1 + 1] == Last(run);
    assert !LedgerKept(run.states[n + 1].row.payload.ledger, run.states[n + 1 + 1].row.payload.ledger);
    forall i | 0 <= i < |run.events|
      ensures Brings(run.states[i], run.events[i])
    {
      assert i < n ==> run.events[i] == early.events[i] && early.events[i] in early.events;
    }
  }

  /**
   * Acknowledged and forgotten: no write is stale and nothing recorded is lost, and still the cancellation is
   * not recorded.
   */
  lemma CancelIsForgotten() returns (run: Run)
    ensures IsRun(true, run) && NeverLoses(run) && CancelsCurrent(run, |run.events|)
    ensures run.events != [] && run.events[|run.events| - 1].CancelWrite?
    ensures !Last(run).row.payload.cancelled && Last(run).row.status == Running
  {
    hide IsRun;
    run := Extend(true, Start(), Claim("w", 1, 100));
    run := Extend(true, run, Renew(0, "w", 1, 2, 100));
    run := Extend(true, run, CancelRead(0));
    run := Extend(true, run, CancelWrite(0, 3));
    assert run.events == [Claim("w", 1, 100), Renew(0, "w", 1, 2, 100), CancelRead(0), CancelWrite(0, 3)];
    RevisionsDecide(true, run);
  }

  /**
   * Two cancellations read one payload, one is written, and a call is begun and read by a heartbeat, all in
   * one tick.
   */
  lemma CrossedCancels() returns (run: Run)
    ensures IsRun(false, run) && forall e <- run.events :: !e.WriteBack?
    ensures Last(run) == Crossed()
  {
    hide IsRun;
    var p := Payload(Running, 1, 2, 1, false, 0, []);
    run := Extend(false, Start(), Claim("w", 1, 100));
    run := Extend(false, run, CancelRead(0));
    run := Extend(false, run, CancelRead(1));
    var early := Extend(false, run, CancelWrite(0, 1));
    assert Last(early) ==
           State(Row(Running, "w", 1, 101, 0, 1, p.(cancelled := true, revision := 3)), map[], map[1 := p], map[]);
    run := CallIsRead(early, p);
  }

  ghost function Crossed(): (s: State) {
    var p, q := Payload(Running, 1, 2, 1, false, 0, []), Payload(Running, 1, 4, 1, true, 1, [Call(1, false)]);
    State(Row(Running, "w", 1, 101, 0, 1, q), map[0 := Beat("w", 1, 1, Some(q))], map[1 := p], map[])
  }

  lemma CallIsRead(early: Run, p: Payload) returns (run: Run)
    requires IsRun(false, early) && p == Payload(Running, 1, 2, 1, false, 0, []) &&
              forall e <- early.events :: !e.WriteBack?
    requires Last(early) ==
             State(Row(Running, "w", 1, 101, 0, 1, p.(cancelled := true, revision := 3)), map[], map[1 := p], map[])
    ensures IsRun(false, run) && (forall e <- run.events :: !e.WriteBack?) && Last(run) == Crossed()
  {
    hide IsRun;
    run := Extend(false, early, Renew(0, "w", 1, 1, 100));
    run := Extend(false, run, BeginCall("w", 1, 1, 1, 1, 10));
    assert Last(run).row.payload == Payload(Running, 1, 4, 1, true, 1, [Call(1, false)]);
    run := Extend(false, run, BeatRead(0));
  }

  /**
   * Where a same-tick cancellation has taken a call off the ledger, a stale write-back can bring it back and
   * lose nothing.
   */
  lemma StaleWriteBackCanRestore() returns (run: Run, i: nat)
    ensures IsRun(false, run) && i < |run.events| && BacksCurrent(run, i) && !BackCurrent(run.states[i], run.events[i])
    ensures NothingLost(run.states[i], run.events[i], run.states[i + 1])
  {
    hide IsRun;
    var early := CrossedCancels();
    RunShape(false, early);
    var middle := Extend(false, early, CancelWrite(1, 1));
    run := Extend(false, middle, WriteBack(0));
    RunShape(false, run);
    i := |middle.events|;
    assert run.states[i] == Last(middle) && run.states[i + 1] == Last(run) && run.events[i] == WriteBack(0);
    forall k | 0 <= k < i
      ensures !run.events[k].WriteBack?
    {
      assert k < |early.events| ==> run.events[k] == early.events[k] && early.events[k] in early.events;
    }
  }
}
