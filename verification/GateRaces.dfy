/** Runs of the stop and finalize gate in which something is not as it should be. */
module GateRaces {
  import opened Wrappers
  import opened TaskQueue
  import opened StopGate
  import opened GateRuns
  import opened GateRules

  function Started(): RunRecord { RunRecord(RunRunning, Some(0), None, false) }

  function StoppedAt(at: nat): RunRecord { RunRecord(RunStopped, Some(0), Some(at), false) }

  function Task(m: Model): Delivery { Delivery(m, 0) }

  /** No dead letters, nothing reclaimed, five attempts. */
  function Snapshot(run: RunRecord, rows: Rows, signal: bool, clock: nat, pcs: map<Actor, Pc>,
                    queue: multiset<Delivery>, signalled: bool): State {
    State(run, rows, signal, clock, pcs, queue, multiset{}, {}, signalled, 5)
  }

  /** Nothing is delivered twice, nobody crashes and no ack is lost. */
  predicate NoRedelivery(cmd: Command) {
    !cmd.Reclaim? && !cmd.RetryDead? && !cmd.Crash? && (cmd.Settle? ==> cmd.ok)
  }

  predicate NoneRedelivered(t: Trace) { forall k :: 0 <= k < |t.cmds| ==> NoRedelivery(t.cmds[k]) }

  /** A run leads from s0 to s. */
  predicate Reaches(t: Trace, s0: State, s: State) {
    IsFreshRun(t) && t.states[0] == s0 && Last(t) == s
  }

  lemma Start(s: State) returns (t: Trace)
    requires Fresh(s)
    ensures Reaches(t, s, s) && NoneRedelivered(t)
  {
    t := Trace([s], []);
  }

  lemma Then(t: Trace, s: State, cmd: Command) returns (t': Trace, s': State)
    requires IsFreshRun(t) && Last(t) == s && Enabled(s, cmd)
    ensures t' == Extend(t, cmd) && s' == Apply(s, cmd) && Reaches(t', t.states[0], s')
    ensures NoneRedelivered(t) && NoRedelivery(cmd) ==> NoneRedelivered(t')
  {
    hide Apply, Enabled, Fresh;
    ExtendIsRun(t, cmd);
    t', s' := Extend(t, cmd), Apply(s, cmd);
  }

  /** The gate admits `a` to a running run whose rows have all ended. */
  lemma Admit(t: Trace, s: State, a: Actor) returns (t': Trace, s': State)
    requires IsFreshRun(t) && Last(t) == s && PcOf(s, a).Idle? && s.run.status.RunRunning? && Complete(s.rows)
    ensures s' == s.(pcs := s.pcs[a := Admitted]) && Reaches(t', t.states[0], s')
  {
    hide IsRun, Fresh, NoneRedelivered, Apply, Enabled, Complete;
    PrepReadRecordRule(s, a);
    t', s' := Then(t, s, PrepReadRecord(a));
    PrepReadSignalRule(s', a);
    t', s' := Then(t', s', PrepReadSignal(a));
    PrepCheckRowsRule(s', a);
    t', s' := Then(t', s', PrepCheckRows(a));
    assert s'.pcs == s.pcs[a := Admitted];
  }

  lemma FirstTaken()
    ensures multiset{Task(0), Task(1)} - multiset{Task(0)} == multiset{Task(1)}
  {
  }

  lemma OneRowForced(was: RowStatus, st: RowStatus)
    requires !Terminal(was)
    ensures ForceRows(map[0 := was], st) == map[0 := st]
  {
  }

  lemma OneRowComplete(st: RowStatus)
    ensures Complete(map[0 := st]) <==> Terminal(st)
  {
    assert 0 in map[0 := st];
  }

  lemma TwoRowsComplete(st: RowStatus, other: RowStatus)
    ensures Complete(map[0 := st, 1 := other]) <==> Terminal(st) && Terminal(other)
  {
    assert 0 in map[0 := st, 1 := other] && 1 in map[0 := st, 1 := other];
  }

  // ---------------------------------------------------------------------------
  // A stop that outlasts its grace, with both tasks still queued
  // ---------------------------------------------------------------------------

  function TwoModels(): State {
    Snapshot(Started(), map[0 := Pending, 1 := Pending], false, 0, map[], multiset{Task(0), Task(1)}, false)
  }

  lemma TwoModelsIsFresh()
    ensures Fresh(TwoModels())
  {
  }

  function GraceOver(): State {
    Snapshot(StoppedAt(0), map[0 := Pending, 1 := Pending], true, 600_000,
             map[9 := Idle], multiset{Task(0), Task(1)}, true)
  }

  lemma RunGraceOver() returns (t: Trace)
    ensures Reaches(t, TwoModels(), GraceOver()) && NoneRedelivered(t)
  {
    hide IsRun, Fresh, NoneRedelivered, Apply, Enabled, Complete;
    TwoModelsIsFresh();
    t := Start(TwoModels());
    var s := TwoModels();
    StopUpdateRule(s, 9);
    t, s := Then(t, s, StopUpdate(9));
    StopMarkRule(s, 9);
    t, s := Then(t, s, StopMark(9));
    TickRule(s, 600_000);
    t, s := Then(t, s, Tick(600_000));
    assert s == GraceOver();
  }

  function Elapsed(): State {
    Snapshot(StoppedAt(0), map[0 := Pending, 1 := Pending], true, 600_000,
             map[8 := PrepForcing, 9 := Idle], multiset{Task(0), Task(1)}, true)
  }

  lemma RunElapsed() returns (t: Trace)
    ensures Reaches(t, TwoModels(), Elapsed()) && NoneRedelivered(t)
  {
    hide IsRun, Fresh, NoneRedelivered, Apply, Enabled, Complete;
    t := RunGraceOver();
    var s := GraceOver();
    TwoRowsComplete(Pending, Pending);
    PrepReadRecordRule(s, 8);
    t, s := Then(t, s, PrepReadRecord(8));
    PrepReadSignalRule(s, 8);
    t, s := Then(t, s, PrepReadSignal(8));
    PrepCheckRowsRule(s, 8);
    t, s := Then(t, s, PrepCheckRows(8));
    assert s == Elapsed();
  }

  function Forced(): State {
    Snapshot(StoppedAt(0), map[0 := Stopped, 1 := Stopped], true, 600_000,
             map[8 := Admitted, 9 := Idle], multiset{Task(0), Task(1)}, true)
  }

  lemma RunForced() returns (t: Trace)
    ensures Reaches(t, TwoModels(), Forced()) && NoneRedelivered(t)
  {
    hide IsRun, Fresh, NoneRedelivered, Apply, Enabled, Complete;
    t := RunElapsed();
    var s := Elapsed();
    PrepForceRule(s, 8);
    t, s := Then(t, s, PrepForce(8));
    assert s == Forced();
  }

  function WrittenBack(): State {
    Snapshot(RunRecord(RunFinalizing, Some(0), Some(600_000), false), map[0 := Stopped, 1 := Stopped], true, 600_000,
             map[8 := Patched, 9 := Idle], multiset{Task(0), Task(1)}, true)
  }

  lemma RunWrittenBack() returns (t: Trace)
    ensures Reaches(t, TwoModels(), WrittenBack()) && NoneRedelivered(t)
  {
    hide IsRun, Fresh, NoneRedelivered, Apply, Enabled, Complete;
    t := RunForced();
    var s := Forced();
    ClaimRule(s, 8);
    t, s := Then(t, s, ClaimFinalization(8));
    PatchReadRule(s, 8);
    t, s := Then(t, s, PatchRead(8));
    PatchRecordRule(s, 8);
    t, s := Then(t, s, PatchRecord(8));
    assert s == WrittenBack();
  }

  function Finalized(): State {
    Snapshot(RunRecord(RunCompleted, Some(0), Some(600_000), false), map[0 := Errored, 1 := Errored], true, 600_000,
             map[8 := Idle, 9 := Idle], multiset{Task(0), Task(1)}, true)
  }

  lemma RunFinalized() returns (t: Trace)
    ensures Reaches(t, TwoModels(), Finalized()) && NoneRedelivered(t)
  {
    hide IsRun, Fresh, NoneRedelivered, Apply, Enabled, Complete;
    t := RunWrittenBack();
    var s := WrittenBack();
    PatchRowRule(s, 8, 0, false);
    t, s := Then(t, s, PatchRow(8, 0, false));
    PatchRowRule(s, 8, 1, false);
    t, s := Then(t, s, PatchRow(8, 1, false));
    CompleteRule(s, 8, RunCompleted);
    t, s := Then(t, s, CompleteFinalization(8, RunCompleted));
    assert s == Finalized();
  }

  function Refused(): State {
    Snapshot(RunRecord(RunCompleted, Some(0), Some(600_000), false), map[0 := Errored, 1 := Errored], true, 600_000,
             map[1 := Acking(Task(0), AckOrFail), 8 := Idle, 9 := Idle], multiset{Task(1)}, true)
  }

  lemma RunRefused() returns (t: Trace)
    ensures Reaches(t, TwoModels(), Refused()) && NoneRedelivered(t)
  {
    hide IsRun, Fresh, NoneRedelivered, Apply, Enabled, Complete, ForceRows, IsTerminalAttempt;
    t := RunFinalized();
    var s := Finalized();
    FirstTaken();
    DeliverRule(s, 1, Task(0));
    t, s := Then(t, s, Deliver(1, Task(0)));
    CheckSignalRule(s, 1);
    t, s := Then(t, s, CheckSignal(1));
    WriteEndRule(s, 1, true);
    t, s := Then(t, s, WriteEnd(1, true));
    assert s == Refused();
  }

  function Acknowledged(): State {
    Snapshot(RunRecord(RunCompleted, Some(0), Some(600_000), false), map[0 := Errored, 1 := Errored], false, 600_000,
             map[1 := Idle, 8 := Idle, 9 := Idle], multiset{Task(1)}, true)
  }

  lemma RunAcknowledged() returns (t: Trace)
    ensures Reaches(t, TwoModels(), Acknowledged()) && NoneRedelivered(t)
  {
    hide IsRun, Fresh, NoneRedelivered, Apply, Enabled, Complete;
    t := RunRefused();
    var s := Refused();
    TwoRowsComplete(Errored, Errored);
    AckReadSignalRule(s, 1);
    t, s := Then(t, s, AckReadSignal(1));
    AckCheckRowsRule(s, 1);
    t, s := Then(t, s, AckCheckRows(1));
    AckClearRule(s, 1);
    t, s := Then(t, s, AckClear(1));
    AckedRule(s, 1);
    t, s := Then(t, s, Settle(1, true));
    assert s == Acknowledged();
  }

  function Reopened(): State {
    Snapshot(RunRecord(RunCompleted, Some(0), Some(600_000), false), map[0 := Errored, 1 := Claimed], false, 600_000,
             map[1 := ClaimWritten(Task(1)), 8 := Idle, 9 := Idle], multiset{}, true)
  }

  lemma RunReopened() returns (t: Trace)
    ensures Reaches(t, TwoModels(), Reopened()) && NoneRedelivered(t)
  {
    hide IsRun, Fresh, NoneRedelivered, Apply, Enabled, Complete;
    t := RunAcknowledged();
    var s := Acknowledged();
    DeliverRule(s, 1, Task(1));
    t, s := Then(t, s, Deliver(1, Task(1)));
    CheckSignalRule(s, 1);
    t, s := Then(t, s, CheckSignal(1));
    WriteClaimedRule(s, 1, true);
    t, s := Then(t, s, WriteClaimed(1, true));
    assert s == Reopened();
  }

  /** The grace of a stop elapses while both tasks are queued; the rows are forced and the run
      is finalized with the signal still set. A runner takes the first task, acknowledges the
      stop and clears the signal; it takes the second, sees no signal and writes 'claimed'
      over the row of a completed run. */
  lemma TwoModelsReopen() returns (t: Trace)
    ensures IsFreshRun(t) && t.states[0] == TwoModels()
    ensures NoneRedelivered(t)
    ensures Last(t).run.status.RunCompleted? && Last(t).rows == map[0 := Errored, 1 := Claimed]
  {
    hide IsRun, Fresh, NoneRedelivered;
    t := RunReopened();
  }

  // ---------------------------------------------------------------------------
  // A finished task whose ack is lost
  // ---------------------------------------------------------------------------

  function OneModel(): State {
    Snapshot(Started(), map[0 := Pending], false, 0, map[], multiset{Task(0)}, false)
  }

  lemma OneModelIsFresh()
    ensures Fresh(OneModel())
  {
  }

  function AckFailed(): State {
    Snapshot(Started(), map[0 := Completed], false, 0, map[1 := Idle], multiset{Delivery(0, 1)}, false)
  }

  lemma RunAckFailed() returns (t: Trace)
    ensures Reaches(t, OneModel(), AckFailed())
  {
    hide IsRun, Fresh, NoneRedelivered, Apply, Enabled, Complete;
    OneModelIsFresh();
    t := Start(OneModel());
    var s := OneModel();
    DeliverRule(s, 1, Task(0));
    t, s := Then(t, s, Deliver(1, Task(0)));
    CheckSignalRule(s, 1);
    t, s := Then(t, s, CheckSignal(1));
    WriteClaimedRule(s, 1, true);
    t, s := Then(t, s, WriteClaimed(1, true));
    WriteRunningRule(s, 1, true);
    t, s := Then(t, s, WriteRunning(1, true));
    FinishRule(s, 1, false);
    t, s := Then(t, s, Finish(1, false));
    ReadStopSignalRule(s, 1);
    t, s := Then(t, s, ReadStopSignal(1));
    ReadStopRecordRule(s, 1);
    t, s := Then(t, s, ReadStopRecord(1));
    WriteEndRule(s, 1, true);
    t, s := Then(t, s, WriteEnd(1, true));
    LostRule(s, 1);
    t, s := Then(t, s, Settle(1, false));
    assert s == AckFailed();
  }

  function Done(): State {
    Snapshot(RunRecord(RunCompleted, Some(0), Some(0), false), map[0 := Completed], false, 0,
             map[1 := Idle, 8 := Idle], multiset{Delivery(0, 1)}, false)
  }

  lemma RunDone() returns (t: Trace)
    ensures Reaches(t, OneModel(), Done())
  {
    hide IsRun, Fresh, NoneRedelivered, Apply, Enabled, Complete;
    t := RunAckFailed();
    var s := AckFailed();
    OneRowComplete(Completed);
    t, s := Admit(t, s, 8);
    ClaimRule(s, 8);
    t, s := Then(t, s, ClaimFinalization(8));
    PatchReadRule(s, 8);
    t, s := Then(t, s, PatchRead(8));
    PatchRecordRule(s, 8);
    t, s := Then(t, s, PatchRecord(8));
    CompleteRule(s, 8, RunCompleted);
    t, s := Then(t, s, CompleteFinalization(8, RunCompleted));
    assert s == Done();
  }

  function Redelivered(): State {
    Snapshot(RunRecord(RunCompleted, Some(0), Some(0), false), map[0 := Claimed], false, 0,
             map[1 := Idle, 2 := ClaimWritten(Delivery(0, 1)), 8 := Idle], multiset{}, false)
  }

  lemma RunRedelivered() returns (t: Trace)
    ensures Reaches(t, OneModel(), Redelivered())
  {
    hide IsRun, Fresh, NoneRedelivered, Apply, Enabled, Complete;
    t := RunDone();
    var s := Done();
    DeliverRule(s, 2, Delivery(0, 1));
    t, s := Then(t, s, Deliver(2, Delivery(0, 1)));
    CheckSignalRule(s, 2);
    t, s := Then(t, s, CheckSignal(2));
    WriteClaimedRule(s, 2, true);
    t, s := Then(t, s, WriteClaimed(2, true));
    assert s == Redelivered();
  }

  /** The run is completed, and the redelivered task reopens its row. */
  lemma RedeliveryReopens() returns (t: Trace)
    ensures IsFreshRun(t) && t.states[0] == OneModel()
    ensures Last(t).run.status.RunCompleted? && Last(t).rows == map[0 := Claimed]
  {
    hide IsRun, Fresh, NoneRedelivered;
    t := RunRedelivered();
  }

  // ---------------------------------------------------------------------------
  // A stop that lands while a reaper is at work
  // ---------------------------------------------------------------------------

  function Stale(): State {
    Snapshot(Started(), map[0 := Running], false, 0, map[], multiset{}, false)
  }

  lemma StaleIsFresh()
    ensures Fresh(Stale())
  {
  }

  function RowsFailed(): State {
    Snapshot(StoppedAt(1), map[0 := Failed], true, 1, map[1 := Idle, 2 := Idle], multiset{}, true)
  }

  lemma RunRowsFailed() returns (t: Trace)
    ensures Reaches(t, Stale(), RowsFailed())
  {
    hide IsRun, Fresh, NoneRedelivered, Apply, Enabled, Complete, ForceRows;
    StaleIsFresh();
    t := Start(Stale());
    var s := Stale();
    OneRowForced(Running, Failed);
    TickRule(s, 1);
    t, s := Then(t, s, Tick(1));
    ReapCheckStaleRule(s, 1, 1);
    t, s := Then(t, s, ReapCheckStale(1, 1));
    ReapReadSignalRule(s, 1);
    t, s := Then(t, s, ReapReadSignal(1));
    StopUpdateRule(s, 2);
    t, s := Then(t, s, StopUpdate(2));
    StopMarkRule(s, 2);
    t, s := Then(t, s, StopMark(2));
    ReapMarkRule(s, 1);
    t, s := Then(t, s, ReapMark(1));
    ReapFailRowsRule(s, 1);
    t, s := Then(t, s, ReapFailRows(1));
    assert s == RowsFailed();
  }

  /** The mark does not take, but the rows are failed all the same, under a live signal and
      inside the grace of the stop. */
  lemma ReapRacesStop() returns (t: Trace)
    ensures IsFreshRun(t) && t.states[0] == Stale()
    ensures var s := Last(t);
            s.rows == map[0 := Failed] && !s.run.reaped && IsStopAwaitingRunner(s.run, s.signal, s.clock)
  {
    hide IsRun, Fresh, NoneRedelivered;
    t := RunRowsFailed();
  }

  // ---------------------------------------------------------------------------
  // A finalizer that stalls before its index patch
  // ---------------------------------------------------------------------------

  function Three(): State {
    Snapshot(Started(), map[0 := Pending], false, 0, map[], multiset{}, false)
  }

  lemma ThreeIsFresh()
    ensures Fresh(Three())
  {
  }

  function AllEnded(): State {
    Snapshot(RunRecord(RunRunning, Some(0), None, true), map[0 := Failed], false, 1,
             map[1 := Idle], multiset{}, false)
  }

  lemma RunAllEnded() returns (t: Trace)
    ensures Reaches(t, Three(), AllEnded())
  {
    hide IsRun, Fresh, NoneRedelivered, Apply, Enabled, Complete, ForceRows;
    ThreeIsFresh();
    t := Start(Three());
    var s := Three();
    OneRowForced(Pending, Failed);
    TickRule(s, 1);
    t, s := Then(t, s, Tick(1));
    ReapCheckStaleRule(s, 1, 1);
    t, s := Then(t, s, ReapCheckStale(1, 1));
    ReapReadSignalRule(s, 1);
    t, s := Then(t, s, ReapReadSignal(1));
    ReapMarkRule(s, 1);
    t, s := Then(t, s, ReapMark(1));
    ReapFailRowsRule(s, 1);
    t, s := Then(t, s, ReapFailRows(1));
    assert s == AllEnded();
  }

  function Stalled(): State {
    Snapshot(RunRecord(RunFinalizing, Some(0), Some(1), true), map[0 := Failed], false, 120_001,
             map[1 := Idle, 2 := Patching(RunRecord(RunFinalizing, Some(0), Some(1), true)), 3 := Admitted, 4 := Admitted],
             multiset{}, false)
  }

  lemma RunStalled() returns (t: Trace)
    ensures Reaches(t, Three(), Stalled())
  {
    hide IsRun, Fresh, NoneRedelivered, Apply, Enabled, Complete;
    t := RunAllEnded();
    var s := AllEnded();
    OneRowComplete(Failed);
    t, s := Admit(t, s, 2);
    t, s := Admit(t, s, 3);
    t, s := Admit(t, s, 4);
    ClaimRule(s, 2);
    t, s := Then(t, s, ClaimFinalization(2));
    PatchReadRule(s, 2);
    t, s := Then(t, s, PatchRead(2));
    TickRule(s, 120_000);
    t, s := Then(t, s, Tick(120_000));
    assert s == Stalled();
  }

  /** It wakes up after its claim has gone stale and writes the old record back over the claim
      of its successor; a third finalizer claims the run in the same instant as the second. */
  lemma StalePatchAdmitsSecondClaim() returns (t: Trace, n: nat, k: nat)
    ensures IsFreshRun(t) && n < k && Claims(t, n) && Claims(t, k) && t.states[n].clock == t.states[k].clock
  {
    hide IsRun, Fresh, NoneRedelivered, Apply, Enabled;
    t := RunStalled();
    n := |t.cmds|;
    var s := Stalled();
    assert Claimable(s.run, s.clock);
    ClaimRule(s, 3);
    t, s := Then(t, s, ClaimFinalization(3));
    PatchRecordRule(s, 2);
    t, s := Then(t, s, PatchRecord(2));
    k := |t.cmds|;
    assert Claimable(s.run, s.clock) && s.clock == 120_001;
    ClaimRule(s, 4);
    t, s := Then(t, s, ClaimFinalization(4));
  }
}
