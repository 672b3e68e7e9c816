/** The operations around the stop and finalize gate as they are written: one method each,
    with others running between any two of their steps. */
module RunGate {
  import opened Wrappers
  import opened TaskQueue
  import opened StopGate
  import opened GateRules
  import opened GateRuns
  import opened GateSafety

  /** The second run continues the first. */
  predicate Continues(t: Trace, t': Trace) {
    t.states <= t'.states && t.cmds <= t'.cmds
  }

  /** ... by steps of others. */
  predicate OthersRan(t: Trace, t': Trace, me: Actor) {
    Continues(t, t') && Quiet(t', me, |t.cmds|, |t'.cmds|)
  }

  lemma StaysThere(t: Trace, t': Trace, n: nat)
    requires Shaped(t) && Shaped(t') && Continues(t, t') && n <= |t.cmds|
    ensures |t.cmds| <= |t'.cmds| && t'.states[n] == t.states[n]
    ensures n < |t.cmds| ==> t'.cmds[n] == t.cmds[n]
  {
  }

  lemma ContinuesOn(t: Trace, t': Trace, t'': Trace)
    requires Continues(t, t') && Continues(t', t'')
    ensures Continues(t, t'') && |t.cmds| <= |t''.cmds|
  {
  }

  /** In an orderly run a signal that was set and is clear has been acknowledged by all. */
  lemma ClearedMeansEnded(t: Trace, i: nat)
    requires IsFreshRun(t) && OrderlyRun(t) && i <= |t.cmds| && t.states[i].signal && !Last(t).signal
    ensures AllTerminal(Last(t).rows)
  {
    hide Fresh, StepOk, OrderlyRun, AllTerminal;
    SignalWasSet(t, i);
    SignalledStays(t, i, |t.cmds|);
    GateSafety.GateSafety(t, |t.cmds|);
  }

  /** The run keeps its models. */
  lemma RowsStay(t: Trace, t': Trace)
    requires IsRun(t) && IsRun(t') && Continues(t, t')
    ensures Last(t').rows.Keys == Last(t).rows.Keys
  {
    hide StepOk;
    forall m ensures m in Last(t').rows <==> m in Last(t).rows {
      SameRows(t, |t.cmds|, m);
      SameRows(t', |t'.cmds|, m);
      StaysThere(t, t', 0);
    }
  }

  /** Any step of somebody else may happen while an operation waits. */
  lemma OthersMayStep(t: Trace, t': Trace, me: Actor, cmd: Command)
    requires IsRun(t) && IsRun(t') && OthersRan(t, t', me) && Enabled(Last(t'), cmd) && ActorOf(cmd) != Some(me)
    ensures Shaped(t) && IsRun(Extend(t', cmd)) && OthersRan(t, Extend(t', cmd), me)
    ensures PcOf(Last(Extend(t', cmd)), me) == PcOf(Last(t), me)
    ensures Last(Extend(t', cmd)).maxAttempts == Last(t').maxAttempts
  {
    hide Apply, Enabled, PcOf, ActorOf;
    ExtendIsRun(t', cmd);
    OthersKeepPc(t, Extend(t', cmd), me);
  }

  lemma OthersKeepPc(t: Trace, t': Trace, me: Actor)
    requires IsRun(t) && IsRun(t') && OthersRan(t, t', me)
    ensures PcOf(Last(t'), me) == PcOf(Last(t), me)
  {
    hide Apply, Enabled, PcOf, ActorOf;
    QuietKeepsPc(t', me, |t.cmds|, |t'.cmds|);
  }

  /** How the work on a task ends: the places where it can throw, in order, the two refusals
      before 'running', and the turn loop's own ends. */
  datatype Ending =
    | BadRunId                // before the signal is looked at
    | ThrowsChecked           // before 'claimed'
    | ThrowsClaimed           // before 'running'
    | ModelMissing
    | KeyMissing
    | Throws                  // while executing
    | Completes
    | HasErrors

  /** ... and which of its updates go through. */
  datatype Course = Course(claimOk: bool, runOk: bool, endOk: bool, ackOk: bool, ending: Ending)

  /** Where the work on a task leaves its runner. */
  function AfterWork(d: Delivery, ending: Ending, maxAttempts: nat): Pc {
    var last := IsTerminalAttempt(d.attempts, maxAttempts);
    match ending
    case Completes => Finishing(d, Completed, AckOrLog)
    case HasErrors => Finishing(d, Failed, AckOrLog)
    case ModelMissing => if last then Writing(d, Failed, true, NackIt) else Settling(d, NackIt)
    case KeyMissing => if last then Writing(d, Failed, true, AckOrFail) else Settling(d, NackIt)
    case _ => if last then Finishing(d, Failed, NackIt) else Settling(d, NackIt)
  }

  /** The round ends its row. */
  predicate EndsItsRow(signal: bool, d: Delivery, ending: Ending, maxAttempts: nat) {
    signal || ending.Completes? || ending.HasErrors? || IsTerminalAttempt(d.attempts, maxAttempts)
  }

  lemma WorkLeads(d: Delivery, ending: Ending, maxAttempts: nat)
    ensures EndsItsRow(true, d, ending, maxAttempts)
    ensures var pc := AfterWork(d, ending, maxAttempts);
            if EndsItsRow(false, d, ending, maxAttempts) then (pc.Finishing? || pc.Writing?) && pc.d == d
            else pc == Settling(d, NackIt)
  {
  }

  /** What the round saw of a stop, if it looked at all. */
  predicate SawStop(t: Trace, check: Option<nat>) {
    check.Some? && check.value < |t.states| && t.states[check.value].signal
  }

  /** The look at the signal, unless the run id was bad. */
  predicate ChecksAt(t: Trace, check: Option<nat>, from: nat, me: Actor, ending: Ending)
    requires Shaped(t)
  {
    && (check.None? <==> ending.BadRunId?)
    && (check.Some? ==> from < check.value < |t.cmds| && t.cmds[check.value] == CheckSignal(me))
  }

  lemma ChecksStay(t: Trace, t': Trace, check: Option<nat>, from: nat, me: Actor, ending: Ending)
    requires Shaped(t) && Shaped(t') && Continues(t, t') && ChecksAt(t, check, from, me, ending)
    ensures ChecksAt(t', check, from, me, ending) && SawStop(t', check) == SawStop(t, check)
  {
  }

  // ---------------------------------------------------------------------------
  // The index patch
  // ---------------------------------------------------------------------------

  /** What the index says of a model after finalizing: whether it has a result. */
  function Verdict(hasResult: bool): RowStatus { if hasResult then Completed else Errored }

  /** From position i on, every row write of this finalizer says whether the model has a result. */
  predicate WritesResults(t: Trace, i: nat, me: Actor, success: set<Model>) {
    forall k: nat :: i <= k < |t.cmds| && t.cmds[k].PatchRow? && t.cmds[k].a == me ==>
      t.cmds[k].success == (t.cmds[k].m in success)
  }

  /** ... and there is one for every one of these models. */
  predicate WroteAll(t: Trace, i: nat, me: Actor, models: set<Model>) {
    forall m :: m in models ==> exists k: nat :: i <= k < |t.cmds| && IsPatch(t.cmds[k], me, m)
  }

  predicate IsPatch(cmd: Command, me: Actor, m: Model) { cmd.PatchRow? && cmd.a == me && cmd.m == m }

  predicate IndexPatched(t: Trace, i: nat, me: Actor, success: set<Model>, models: set<Model>) {
    WritesResults(t, i, me, success) && WroteAll(t, i, me, models)
  }

  lemma NothingPatched(t: Trace, me: Actor, success: set<Model>)
    ensures IndexPatched(t, |t.cmds|, me, success, {})
  {
  }

  lemma PatchedEarlier(t: Trace, h: nat, i: nat, me: Actor, success: set<Model>, models: set<Model>)
    requires IndexPatched(t, i, me, success, models) && h <= i <= |t.cmds|
    requires forall k: nat :: h <= k < i ==> ActorOf(t.cmds[k]) != Some(me) || !t.cmds[k].PatchRow?
    ensures IndexPatched(t, h, me, success, models)
  {
    forall m | m in models ensures exists k: nat :: h <= k < |t.cmds| && IsPatch(t.cmds[k], me, m) {
      var k: nat :| i <= k < |t.cmds| && IsPatch(t.cmds[k], me, m);
    }
  }

  lemma PatchedLater(t: Trace, t': Trace, i: nat, me: Actor, success: set<Model>, models: set<Model>)
    requires IndexPatched(t, i, me, success, models) && Continues(t, t') && |t.cmds| <= |t'.cmds|
    requires forall k: nat :: |t.cmds| <= k < |t'.cmds| ==> ActorOf(t'.cmds[k]) != Some(me) || !t'.cmds[k].PatchRow?
    ensures IndexPatched(t', i, me, success, models)
  {
    forall m | m in models ensures exists k: nat :: i <= k < |t'.cmds| && IsPatch(t'.cmds[k], me, m) {
      var k: nat :| i <= k < |t.cmds| && IsPatch(t.cmds[k], me, m);
      assert t'.cmds[k] == t.cmds[k];
    }
  }

  lemma PatchedAfterWait(t: Trace, t': Trace, i: nat, me: Actor, success: set<Model>, models: set<Model>)
    requires IndexPatched(t, i, me, success, models) && OthersRan(t, t', me)
    ensures IndexPatched(t', i, me, success, models)
  {
    hide IndexPatched;
    PatchedLater(t, t', i, me, success, models);
  }

  lemma PatchedBeforeWait(t: Trace, t': Trace, t'': Trace, me: Actor, success: set<Model>, models: set<Model>)
    requires OthersRan(t, t', me) && Continues(t', t'') && IndexPatched(t'', |t'.cmds|, me, success, models)
    ensures |t.cmds| <= |t''.cmds| && IndexPatched(t'', |t.cmds|, me, success, models)
  {
    hide IndexPatched;
    PatchedEarlier(t'', |t.cmds|, |t'.cmds|, me, success, models);
  }

  lemma OnePatchMore(t: Trace, i: nat, me: Actor, success: set<Model>, models: set<Model>, m: Model)
    requires Shaped(t) && IndexPatched(t, i, me, success, models) && i <= |t.cmds|
    requires Enabled(Last(t), PatchRow(me, m, m in success))
    ensures IndexPatched(Extend(t, PatchRow(me, m, m in success)), i, me, success, models + {m})
  {
    hide Apply, Enabled;
    var cmds := t.cmds + [PatchRow(me, m, m in success)];
    forall other | other in models + {m} ensures exists k: nat :: i <= k < |cmds| && IsPatch(cmds[k], me, other) {
      if other == m {
        assert IsPatch(cmds[|t.cmds|], me, m);
      } else {
        var k: nat :| i <= k < |t.cmds| && IsPatch(t.cmds[k], me, other);
        assert cmds[k] == t.cmds[k];
      }
    }
  }

  /** Somebody else has written the row of m since position i: a task past its signal check has
      reopened it, or another finalizer has patched it. */
  ghost predicate OverwrittenSince(t: Trace, i: nat, me: Actor, m: Model)
    requires IsRun(t)
  {
    exists k: nat :: i <= k < |t.cmds| && Overwrites(t, k, me, m)
  }

  predicate Overwrites(t: Trace, k: nat, me: Actor, m: Model)
    requires IsRun(t) && k < |t.cmds|
  {
    assert StepOk(t, k);
    ReopensRow(t.states[k], t.cmds[k], m) || (t.cmds[k].PatchRow? && t.cmds[k].m == m && t.cmds[k].a != me)
  }

  /** After its patch the index has the verdict of every model, unless somebody else has
      written the row since. */
  lemma IndexShowsResults(t: Trace, i: nat, me: Actor, success: set<Model>, models: set<Model>, m: Model)
    requires IsRun(t) && IndexPatched(t, i, me, success, models) && m in models
    ensures m in Last(t).rows
    ensures Last(t).rows[m] == Verdict(m in success) || OverwrittenSince(t, i, me, m)
  {
    hide Apply, Enabled, Overwrites, OverwrittenSince;
    var k: nat :| i <= k < |t.cmds| && IsPatch(t.cmds[k], me, m);
    PatchSetsVerdict(t, k, me, m);
    VerdictStays(t, i, k + 1, |t.cmds|, me, success, m);
  }

  lemma PatchSetsVerdict(t: Trace, k: nat, me: Actor, m: Model)
    requires IsRun(t) && k < |t.cmds| && IsPatch(t.cmds[k], me, m)
    ensures m in t.states[k + 1].rows && t.states[k + 1].rows[m] == Verdict(t.cmds[k].success)
  {
    hide Enabled, NextPc, RunAfter, QueueAfter, DeadAfter, MovedAfter;
    assert StepOk(t, k);
  }

  lemma {:induction false} VerdictStays(t: Trace, i: nat, k: nat, n: nat, me: Actor, success: set<Model>, m: Model)
    requires IsRun(t) && WritesResults(t, i, me, success) && i <= k <= n <= |t.cmds|
    requires m in t.states[k].rows && t.states[k].rows[m] == Verdict(m in success)
    ensures m in t.states[n].rows
    ensures t.states[n].rows[m] == Verdict(m in success) || OverwrittenSince(t, i, me, m)
  {
    hide Apply, Enabled;
    if k < n {
      VerdictStays(t, i, k, n - 1, me, success, m);
      assert StepOk(t, n - 1);
      RowStep(t.states[n - 1], t.cmds[n - 1], m);
      if t.states[n - 1].rows[m] == Verdict(m in success) {
        EndedRowsKeepStatus(t.states[n - 1], t.cmds[n - 1], m);
        if Overwrites(t, n - 1, me, m) {
          assert OverwrittenSince(t, i, me, m);
        } else if t.cmds[n - 1].PatchRow? && t.cmds[n - 1].m == m {
          PatchSetsVerdict(t, n - 1, me, m);
        }
      }
    }
  }

  class Operation {
    const me: Actor
    const maxAttempts: nat
    var sys: State
    ghost var trace: Trace       // the run so far

    ghost predicate Valid()
      reads this
    {
      Shaped(trace) && IsFreshRun(trace) && Last(trace) == sys && sys.maxAttempts == maxAttempts
    }

    constructor (me: Actor, start: State)
      requires Fresh(start)
      ensures Valid() && sys == start && this.me == me
    {
      this.me, maxAttempts := me, start.maxAttempts;
      sys, trace := start, Trace([start], []);
    }

    /** Whatever others do between two steps. */
    method Await()
      requires Valid()
      modifies this
      ensures Valid() && OthersRan(old(trace), trace, me) && Continues(old(trace), trace)
      ensures PcOf(sys, me) == old(PcOf(sys, me))
    {
    }

    method Take(cmd: Command)
      requires Valid() && Enabled(sys, cmd)
      modifies this
      ensures Valid() && sys == Apply(old(sys), cmd) && trace == Extend(old(trace), cmd)
      ensures Continues(old(trace), trace)
    {
      hide Apply, Enabled;
      ExtendIsRun(trace, cmd);
      trace := Extend(trace, cmd);
      sys := Apply(sys, cmd);
    }

    /** prepareRunFinalization: true exactly when the record it read is not that of a stop
        awaiting its runner and the rows it read are complete or the grace is over; and then
        every row is terminal. */
    method PrepareRunFinalization() returns (ok: bool, ghost n1: nat, ghost n2: nat, ghost n3: nat)
      requires Valid() && PcOf(sys, me).Idle?
      modifies this
      ensures Valid() && Continues(old(trace), trace)
      ensures |old(trace.cmds)| == n1 <= n2 <= n3 <= |trace.cmds|
      ensures ok <==> !IsStopAwaitingRunner(trace.states[n1].run, trace.states[n2].signal, trace.states[n2].clock)
                      && (Complete(trace.states[n3].rows) || IsStopGraceElapsed(trace.states[n1].run, trace.states[n3].clock))
      ensures if ok then PcOf(sys, me).Admitted? && AllTerminal(sys.rows) else PcOf(sys, me).Idle?
    {
      hide Fresh, Apply, Enabled, Continues, OthersRan;
      hide IsStopAwaitingRunner, IsStopGraceElapsed, AllTerminal, Complete;
      ghost var t0 := trace;
      ok, n1, n2 := PassesStop();
      n3 := n2;
      if !ok { return; }
      ghost var t1 := trace;
      Await();
      ContinuesOn(t0, t1, trace);
      StaysThere(t1, trace, n1);
      StaysThere(t1, trace, n2);
      ghost var t2 := trace;
      ok, n3 := RowsDecide();
      ContinuesOn(t0, t2, trace);
      StaysThere(t2, trace, n1);
      StaysThere(t2, trace, n2);
    }

    /** Read the record, then the signal. */
    method PassesStop() returns (ok: bool, ghost n1: nat, ghost n2: nat)
      requires Valid() && PcOf(sys, me).Idle?
      modifies this
      ensures Valid() && Continues(old(trace), trace) && |old(trace.cmds)| == n1 <= n2 <= |trace.cmds|
      ensures ok <==> !IsStopAwaitingRunner(trace.states[n1].run, trace.states[n2].signal, trace.states[n2].clock)
      ensures PcOf(sys, me) == if ok then PrepPassed(trace.states[n1].run) else Idle
    {
      hide Fresh, Apply, Enabled, Continues, OthersRan, IsStopAwaitingRunner;
      ghost var t0 := trace;
      n1 := |trace.cmds|;
      PrepReadRecordRule(sys, me);
      Take(PrepReadRecord(me));
      ghost var t1 := trace;
      StaysThere(t0, t1, n1);
      Await();
      n2 := |trace.cmds|;
      ContinuesOn(t0, t1, trace);
      ghost var t2 := trace;
      PrepReadSignalRule(sys, me);
      Take(PrepReadSignal(me));
      ContinuesOn(t0, t2, trace);
      StaysThere(t0, trace, n1);
      StaysThere(t2, trace, n2);
      ok := PcOf(sys, me).PrepPassed?;
    }

    /** Read the rows, and force them when the grace is over. */
    method RowsDecide() returns (ok: bool, ghost n3: nat)
      requires Valid() && PcOf(sys, me).PrepPassed?
      modifies this
      ensures Valid() && Continues(old(trace), trace) && |old(trace.cmds)| == n3 <= |trace.cmds|
      ensures ok <==> Complete(trace.states[n3].rows)
                      || IsStopGraceElapsed(old(PcOf(sys, me).rec), trace.states[n3].clock)
      ensures if ok then PcOf(sys, me).Admitted? && AllTerminal(sys.rows) else PcOf(sys, me).Idle?
    {
      hide Fresh, Apply, Enabled, Continues, OthersRan, IsStopGraceElapsed, AllTerminal, ForceRows;
      n3 := |trace.cmds|;
      ghost var t0 := trace;
      PrepCheckRowsRule(sys, me);
      Take(PrepCheckRows(me));
      StaysThere(t0, trace, n3);
      if PcOf(sys, me).PrepForcing? {
        ghost var t1 := trace;
        Await();
        ContinuesOn(t0, t1, trace);
        ghost var t2 := trace;
        ForcedRowsEnd(sys.rows, Stopped);
        PrepForceRule(sys, me);
        Take(PrepForce(me));
        ContinuesOn(t0, t2, trace);
        StaysThere(t0, trace, n3);
      }
      ok := PcOf(sys, me).Admitted?;
    }

    /** stopRun: it stops exactly a running run, once, and then sets the signal. */
    method StopRun() returns (stopped: bool)
      requires Valid() && PcOf(sys, me).Idle?
      modifies this
      ensures Valid() && Continues(old(trace), trace) && PcOf(sys, me).Idle?
      ensures stopped <==> old(sys.run.status).RunRunning?
      ensures var n := |old(trace.cmds)|;
              |trace.cmds| > n &&
              if stopped then sys.signal && sys.signalled
                   && trace.states[n + 1].run == old(sys.run).(status := RunStopped, finishedAt := Some(old(sys.clock)))
              else sys.run == old(sys.run) && sys.signal == old(sys.signal)
    {
      hide Fresh, Apply, Enabled, Continues, OthersRan;
      ghost var t0 := trace;
      StopUpdateRule(sys, me);
      Take(StopUpdate(me));
      ghost var t1 := trace;
      stopped := PcOf(sys, me).StopMarking?;
      if stopped {
        Await();
        ContinuesOn(t0, t1, trace);
        ghost var t2 := trace;
        StopMarkRule(sys, me);
        Take(StopMark(me));
        ContinuesOn(t0, t2, trace);
        ContinuesOn(t1, t2, trace);
        StaysThere(t1, trace, |t1.cmds|);
      }
    }

    /** acknowledgeStop: the signal is cleared exactly when it was set and the rows read
        afterwards were complete; in an orderly run every row is terminal then. */
    method AcknowledgeStop() returns (cleared: bool, ghost n: nat)
      requires Valid() && PcOf(sys, me).Acking?
      modifies this
      ensures Valid() && Continues(old(trace), trace) && |old(trace.cmds)| <= n <= |trace.cmds|
      ensures PcOf(sys, me) == Settling(old(PcOf(sys, me).d), old(PcOf(sys, me).how))
      ensures cleared <==> old(sys.signal) && Complete(trace.states[n].rows)
      ensures cleared ==> !sys.signal && trace.cmds[|trace.cmds| - 1] == AckClear(me)
      ensures cleared && OrderlyRun(trace) ==> AllTerminal(sys.rows)
    {
      hide Fresh, Apply, Enabled, Continues, OthersRan, Complete, AllTerminal, OrderlyRun;
      ghost var t0 := trace;
      n := |trace.cmds|;
      AckReadSignalRule(sys, me);
      Take(AckReadSignal(me));
      cleared := false;
      if PcOf(sys, me).AckSignalled? {
        ghost var t1 := trace;
        Await();
        ContinuesOn(t0, t1, trace);
        ghost var t2 := trace;
        cleared, n := ClearIfComplete();
        ContinuesOn(t0, t2, trace);
        StaysThere(t0, trace, |t0.cmds|);
        if cleared && OrderlyRun(trace) { ClearedMeansEnded(trace, |t0.cmds|); }
      }
    }

    /** Read the rows, and clear the signal if they are complete. */
    method ClearIfComplete() returns (cleared: bool, ghost n: nat)
      requires Valid() && PcOf(sys, me).AckSignalled?
      modifies this
      ensures Valid() && Continues(old(trace), trace) && |old(trace.cmds)| == n <= |trace.cmds|
      ensures PcOf(sys, me) == Settling(old(PcOf(sys, me).d), old(PcOf(sys, me).how))
      ensures cleared <==> Complete(trace.states[n].rows)
      ensures cleared ==> !sys.signal && trace.cmds[|trace.cmds| - 1] == AckClear(me)
    {
      hide Fresh, Apply, Enabled, Continues, OthersRan, Complete;
      ghost var t0 := trace;
      n := |trace.cmds|;
      AckCheckRowsRule(sys, me);
      Take(AckCheckRows(me));
      StaysThere(t0, trace, n);
      cleared := PcOf(sys, me).AckClearing?;
      if cleared {
        ghost var t1 := trace;
        Await();
        ContinuesOn(t0, t1, trace);
        ghost var t2 := trace;
        AckClearRule(sys, me);
        Take(AckClear(me));
        ContinuesOn(t0, t2, trace);
        StaysThere(t0, trace, n);
      }
    }

    /** Take a task from the queue and look at the signal. */
    method TakeTask(d: Delivery) returns (stopped: bool, ghost check: nat)
      requires Valid() && PcOf(sys, me).Idle? && d in sys.queue
      modifies this
      ensures Valid() && Continues(old(trace), trace) && |old(trace.cmds)| < check < |trace.cmds|
      ensures trace.cmds[check] == CheckSignal(me) && (stopped <==> trace.states[check].signal)
      ensures PcOf(sys, me) == if stopped then Writing(d, Stopped, true, AckOrFail) else Checked(d)
    {
      hide Fresh, Apply, Enabled, Continues, OthersRan;
      ghost var t0 := trace;
      DeliverRule(sys, me, d);
      Take(Deliver(me, d));
      ghost var t1 := trace;
      Await();
      ContinuesOn(t0, t1, trace);
      ghost var t2 := trace;
      check := |trace.cmds|;
      CheckSignalRule(sys, me);
      Take(CheckSignal(me));
      ContinuesOn(t0, t2, trace);
      StaysThere(t2, trace, check);
      stopped := PcOf(sys, me).Writing?;
    }

    /** Write 'claimed' and 'running' and work on the task. */
    method Work(d: Delivery, c: Course)
      requires Valid() && PcOf(sys, me) == Checked(d) && !c.ending.BadRunId?
      modifies this
      ensures Valid() && Continues(old(trace), trace)
      ensures PcOf(sys, me) == AfterWork(d, c.ending, maxAttempts)
    {
      hide Fresh, Apply, Enabled, Continues, OthersRan, IsTerminalAttempt;
      ghost var t0 := trace;
      Await();
      ghost var t1 := trace;
      if c.ending.ThrowsChecked? {
        FailRule(sys, me);
        Take(Fail(me));
        ContinuesOn(t0, t1, trace);
      } else {
        WriteClaimedRule(sys, me, c.claimOk);
        Take(WriteClaimed(me, c.claimOk));
        ContinuesOn(t0, t1, trace);
        ghost var t2 := trace;
        WorkClaimed(d, c);
        ContinuesOn(t0, t2, trace);
      }
    }

    method WorkClaimed(d: Delivery, c: Course)
      requires Valid() && PcOf(sys, me) == ClaimWritten(d) && !c.ending.BadRunId? && !c.ending.ThrowsChecked?
      modifies this
      ensures Valid() && Continues(old(trace), trace)
      ensures PcOf(sys, me) == AfterWork(d, c.ending, maxAttempts)
    {
      hide Fresh, Apply, Enabled, Continues, OthersRan, IsTerminalAttempt;
      ghost var t0 := trace;
      Await();
      ghost var t1 := trace;
      if c.ending.ModelMissing? || c.ending.KeyMissing? {
        RefuseRule(sys, me, c.ending.KeyMissing?);
        Take(Refuse(me, c.ending.KeyMissing?));
        ContinuesOn(t0, t1, trace);
      } else if c.ending.ThrowsClaimed? {
        FailRule(sys, me);
        Take(Fail(me));
        ContinuesOn(t0, t1, trace);
      } else {
        WriteRunningRule(sys, me, c.runOk);
        Take(WriteRunning(me, c.runOk));
        ContinuesOn(t0, t1, trace);
        ghost var t2 := trace;
        RunTurns(d, c.ending);
        ContinuesOn(t0, t2, trace);
      }
    }

    /** The turn loop returns, or something throws. */
    method RunTurns(d: Delivery, ending: Ending)
      requires Valid() && PcOf(sys, me) == Executing(d) && (ending.Throws? || ending.Completes? || ending.HasErrors?)
      modifies this
      ensures Valid() && Continues(old(trace), trace)
      ensures PcOf(sys, me) == AfterWork(d, ending, maxAttempts)
    {
      hide Fresh, Apply, Enabled, Continues, OthersRan, IsTerminalAttempt;
      ghost var t0 := trace;
      Await();
      ghost var t1 := trace;
      if ending.Throws? {
        FailRule(sys, me);
        Take(Fail(me));
      } else {
        FinishRule(sys, me, ending.HasErrors?);
        Take(Finish(me, ending.HasErrors?));
      }
      ContinuesOn(t0, t1, trace);
    }

    /** The stop state at the end of a task: the signal, and if it is clear the record. The
        row is going to be 'stopped' exactly when either shows a stop. */
    method ReadStopState() returns (ghost n1: nat, ghost n2: nat)
      requires Valid() && PcOf(sys, me).Finishing?
      modifies this
      ensures Valid() && Continues(old(trace), trace) && |old(trace.cmds)| == n1 <= n2 <= |trace.cmds|
      ensures var pc := old(PcOf(sys, me));
              PcOf(sys, me) == if trace.states[n1].signal || trace.states[n2].run.status.RunStopped?
                               then Writing(pc.d, Stopped, true, pc.how)
                               else Writing(pc.d, pc.otherwise, pc.how.NackIt?, pc.how)
    {
      hide Fresh, Apply, Enabled, Continues, OthersRan;
      ghost var t0 := trace;
      n1 := |trace.cmds|;
      n2 := n1;
      ReadStopSignalRule(sys, me);
      Take(ReadStopSignal(me));
      StaysThere(t0, trace, n1);
      if PcOf(sys, me).Writing? { return; }
      ghost var t1 := trace;
      Await();
      ContinuesOn(t0, t1, trace);
      ghost var t2 := trace;
      n2 := |trace.cmds|;
      ReadStopRecordRule(sys, me);
      Take(ReadStopRecord(me));
      ContinuesOn(t0, t2, trace);
      StaysThere(t0, trace, n1);
      StaysThere(t2, trace, n2);
    }

    /** Write the end of the row and acknowledge the stop. A write that goes through leaves
        the row ended, with its old status if it had ended before. */
    method EndTask(ok: bool) returns (ghost end: nat)
      requires Valid() && (PcOf(sys, me).Finishing? || PcOf(sys, me).Writing?)
      modifies this
      ensures Valid() && Continues(old(trace), trace) && |old(trace.cmds)| <= end < |trace.cmds|
      ensures PcOf(sys, me) == Settling(old(PcOf(sys, me).d), old(PcOf(sys, me).how))
      ensures trace.cmds[end] == WriteEnd(me, ok)
      ensures var m := old(PcOf(sys, me).d.model);
              && (ok && m in trace.states[end].rows ==> Ended(trace.states[end + 1], m))
              && (Ended(trace.states[end], m) ==> trace.states[end + 1].rows == trace.states[end].rows)
    {
      hide Fresh, Apply, Enabled, Continues, OthersRan, AllTerminal, Complete, Ended, SetRow;
      ghost var t0 := trace;
      if PcOf(sys, me).Finishing? {
        var _, _ := ReadStopState();
        ghost var t1 := trace;
        Await();
        ContinuesOn(t0, t1, trace);
      }
      ghost var t2 := trace;
      end := |trace.cmds|;
      WriteRow(ok);
      ContinuesOn(t0, t2, trace);
      StaysThere(t2, trace, end);
      ghost var t3 := trace;
      if PcOf(sys, me).Acking? {
        Await();
        ContinuesOn(t0, t3, trace);
        ghost var t4 := trace;
        var _, _ := AcknowledgeStop();
        ContinuesOn(t0, t4, trace);
        ContinuesOn(t3, t4, trace);
        StaysThere(t3, trace, end);
        StaysThere(t3, trace, end + 1);
      }
    }

    /** transitionTaskState with the status of the row's end. */
    method WriteRow(ok: bool)
      requires Valid() && PcOf(sys, me).Writing?
      modifies this
      ensures Valid() && Continues(old(trace), trace) && |trace.cmds| == |old(trace.cmds)| + 1
      ensures trace.cmds[|old(trace.cmds)|] == WriteEnd(me, ok)
      ensures var pc := old(PcOf(sys, me));
              PcOf(sys, me) == if pc.acks then Acking(pc.d, pc.how) else Settling(pc.d, pc.how)
      ensures var m := old(PcOf(sys, me).d.model);
              && (ok && m in old(sys.rows) ==> Ended(sys, m))
              && (old(Ended(sys, m)) ==> sys.rows == old(sys.rows))
    {
      hide Fresh, Apply, Enabled;
      WriteEndRule(sys, me, ok);
      Take(WriteEnd(me, ok));
    }

    /** Ack or nack: a nacked delivery goes back with one more attempt, or to the dead letters
        after its last, unless the queue has handed it to somebody else. */
    method SettleTask(ok: bool) returns (settled: bool)
      requires Valid() && PcOf(sys, me).Settling?
      modifies this
      ensures Valid() && Continues(old(trace), trace)
      ensures settled <==> ok || !old(PcOf(sys, me).how).AckOrFail?
      ensures PcOf(sys, me) == if settled then Idle else FailPc(sys, old(PcOf(sys, me).d))
      ensures var pc := old(PcOf(sys, me));
              pc.how.NackIt? && me !in old(sys.moved) ==>
                if IsTerminalAttempt(pc.d.attempts, maxAttempts)
                then sys.dead == old(sys.dead) + multiset{pc.d} && sys.queue == old(sys.queue)
                else sys.queue == old(sys.queue) + multiset{Delivery(pc.d.model, pc.d.attempts + 1)} && sys.dead == old(sys.dead)
    {
      hide Fresh, Apply, Continues, OthersRan, IsTerminalAttempt;
      ghost var s := sys;
      var done := ok || PcOf(sys, me).how.NackIt?;
      StepPc(sys, Settle(me, done), me);
      StepShared(sys, Settle(me, done));
      Take(Settle(me, done));
      settled := PcOf(sys, me).Idle?;
    }

    /** One round of the runner's loop. The signal is looked at before anything is written,
        unless the run id is bad; the row is ended by this round exactly when the stop was seen
        there, the turn loop returned, or the attempt was the last; and the task is settled
        only afterwards. */
    method RunTask(d: Delivery, c: Course) returns (ghost check: Option<nat>, ghost end: Option<nat>)
      requires Valid() && PcOf(sys, me).Idle? && d in sys.queue
      modifies this
      ensures Valid() && Continues(old(trace), trace) && PcOf(sys, me).Idle?
      ensures ChecksAt(trace, check, |old(trace.cmds)|, me, c.ending)
      ensures end.Some? <==> EndsItsRow(SawStop(trace, check), d, c.ending, maxAttempts)
      ensures end.Some? ==> |old(trace.cmds)| < end.value < |trace.cmds| && trace.cmds[end.value] == WriteEnd(me, c.endOk)
                            && (check.Some? ==> check.value < end.value)
      ensures end.Some? && c.endOk && d.model in trace.states[end.value].rows
              ==> Ended(trace.states[end.value + 1], d.model)
    {
      hide Fresh, Apply, Enabled, Continues, OthersRan, EndsItsRow, Ended, ChecksAt, SawStop;
      ghost var t0 := trace;
      check, end := PerformTask(d, c);
      ghost var t1 := trace;
      Await();
      ContinuesOn(t0, t1, trace);
      ghost var t2 := trace;
      LeaveTask(c);
      ContinuesOn(t0, t2, trace);
      ContinuesOn(t1, t2, trace);
      ChecksStay(t1, trace, check, |t0.cmds|, me, c.ending);
      if end.Some? {
        StaysThere(t1, trace, end.value);
        StaysThere(t1, trace, end.value + 1);
      }
    }

    /** ... up to the ack or nack. */
    method PerformTask(d: Delivery, c: Course) returns (ghost check: Option<nat>, ghost end: Option<nat>)
      requires Valid() && PcOf(sys, me).Idle? && d in sys.queue
      modifies this
      ensures Valid() && Continues(old(trace), trace) && PcOf(sys, me).Settling?
      ensures ChecksAt(trace, check, |old(trace.cmds)|, me, c.ending)
      ensures end.Some? <==> EndsItsRow(SawStop(trace, check), d, c.ending, maxAttempts)
      ensures end.Some? ==> |old(trace.cmds)| < end.value < |trace.cmds| && trace.cmds[end.value] == WriteEnd(me, c.endOk)
                            && (check.Some? ==> check.value < end.value)
      ensures end.Some? && c.endOk && d.model in trace.states[end.value].rows
              ==> Ended(trace.states[end.value + 1], d.model)
    {
      hide Fresh, Apply, Enabled, Continues, OthersRan, EndsItsRow, Ended, SawStop;
      ghost var t0 := trace;
      check := TakeAndWork(d, c);
      end := None;
      if !PcOf(sys, me).Settling? {
        ghost var t1 := trace;
        Await();
        ContinuesOn(t0, t1, trace);
        ghost var t2 := trace;
        ChecksStay(t1, t2, check, |t0.cmds|, me, c.ending);
        StaysThere(t1, t2, |t1.cmds|);
        ghost var at := EndTask(c.endOk);
        end := Some(at);
        ContinuesOn(t0, t2, trace);
        ChecksStay(t2, trace, check, |t0.cmds|, me, c.ending);
      }
    }

    method TakeAndWork(d: Delivery, c: Course) returns (ghost check: Option<nat>)
      requires Valid() && PcOf(sys, me).Idle? && d in sys.queue
      modifies this
      ensures Valid() && Continues(old(trace), trace) && |old(trace.cmds)| < |trace.cmds|
      ensures ChecksAt(trace, check, |old(trace.cmds)|, me, c.ending)
      ensures var pc := PcOf(sys, me);
              if EndsItsRow(SawStop(trace, check), d, c.ending, maxAttempts)
              then (pc.Finishing? || pc.Writing?) && pc.d == d
              else pc == Settling(d, NackIt)
    {
      hide Fresh, Apply, Enabled, Continues, OthersRan, AfterWork, EndsItsRow;
      WorkLeads(d, c.ending, maxAttempts);
      ghost var t0 := trace;
      if c.ending.BadRunId? {
        RejectTask(d, c.ending);
        check := None;
        return;
      }
      var stopped, at := TakeTask(d);
      check := Some(at);
      if !stopped {
        ghost var t1 := trace;
        Work(d, c);
        ContinuesOn(t0, t1, trace);
        ChecksStay(t1, trace, check, |t0.cmds|, me, c.ending);
      }
    }

    /** A task whose run id cannot name a directory: the failure path before anything else. */
    method RejectTask(d: Delivery, ending: Ending)
      requires Valid() && PcOf(sys, me).Idle? && d in sys.queue && ending.BadRunId?
      modifies this
      ensures Valid() && Continues(old(trace), trace) && |old(trace.cmds)| < |trace.cmds|
      ensures PcOf(sys, me) == AfterWork(d, ending, maxAttempts)
    {
      hide Fresh, Apply, Enabled, Continues, OthersRan, IsTerminalAttempt;
      ghost var t0 := trace;
      DeliverRule(sys, me, d);
      Take(Deliver(me, d));
      ghost var t1 := trace;
      Await();
      ContinuesOn(t0, t1, trace);
      ghost var t2 := trace;
      FailRule(sys, me);
      Take(Fail(me));
      ContinuesOn(t0, t2, trace);
    }

    /** Settle; an ack that fails where its failure counts sends the task down the failure path. */
    method LeaveTask(c: Course)
      requires Valid() && PcOf(sys, me).Settling?
      modifies this
      ensures Valid() && Continues(old(trace), trace) && PcOf(sys, me).Idle?
    {
      hide Fresh, Apply, Enabled, Continues, OthersRan, IsTerminalAttempt, Ended;
      ghost var t0 := trace;
      var settled := SettleTask(c.ackOk);
      if settled { return; }
      ghost var t1 := trace;
      Await();
      ContinuesOn(t0, t1, trace);
      if PcOf(sys, me).Finishing? {
        ghost var t2 := trace;
        var _ := EndTask(c.endOk);
        ContinuesOn(t0, t2, trace);
        ghost var t3 := trace;
        Await();
        ContinuesOn(t0, t3, trace);
      }
      ghost var t4 := trace;
      var _ := SettleTask(true);
      ContinuesOn(t0, t4, trace);
    }

    /** reconcileStaleRunningRun: it reaps exactly when the run looked stale and the signal
        read afterwards was clear, and leaves every row terminal. */
    method ReconcileStaleRunningRun(staleAfter: nat) returns (reaped: bool, ghost n: nat)
      requires Valid() && PcOf(sys, me).Idle?
      modifies this
      ensures Valid() && Continues(old(trace), trace) && PcOf(sys, me).Idle? && |old(trace.cmds)| <= n <= |trace.cmds|
      ensures reaped <==> IsStaleRunningRun(old(sys.run), old(sys.clock), staleAfter) && !trace.states[n].signal
      ensures reaped ==> AllTerminal(sys.rows)
    {
      hide Fresh, Apply, Enabled, Continues, OthersRan, AllTerminal, ForceRows, IsStaleRunningRun;
      ghost var t0 := trace;
      n := |trace.cmds|;
      ReapCheckStaleRule(sys, me, staleAfter);
      Take(ReapCheckStale(me, staleAfter));
      if PcOf(sys, me).Idle? { return false, n; }
      ghost var t1 := trace;
      Await();
      ContinuesOn(t0, t1, trace);
      ghost var t2 := trace;
      n := |trace.cmds|;
      ReapReadSignalRule(sys, me);
      Take(ReapReadSignal(me));
      ContinuesOn(t0, t2, trace);
      StaysThere(t2, trace, n);
      if PcOf(sys, me).Idle? { return false, n; }
      ghost var t3 := trace;
      FailStaleRows();
      ContinuesOn(t0, t3, trace);
      StaysThere(t3, trace, n);
      reaped := true;
    }

    method FailStaleRows()
      requires Valid() && PcOf(sys, me).ReapUnsignalled?
      modifies this
      ensures Valid() && Continues(old(trace), trace) && PcOf(sys, me).Idle? && AllTerminal(sys.rows)
    {
      hide Fresh, Apply, Enabled, Continues, OthersRan, AllTerminal, ForceRows;
      ghost var t0 := trace;
      Await();
      ghost var t1 := trace;
      ReapMarkRule(sys, me);
      Take(ReapMark(me));
      ContinuesOn(t0, t1, trace);
      ghost var t2 := trace;
      Await();
      ContinuesOn(t0, t2, trace);
      ghost var t3 := trace;
      ForcedRowsEnd(sys.rows, Failed);
      ReapFailRowsRule(sys, me);
      Take(ReapFailRows(me));
      ContinuesOn(t0, t3, trace);
    }

    /** finalizeRun: claim, patch the index, complete. A run settled by this call was claimed
        by this call; it is 'errored' exactly when it was reaped and no model has a result;
        and in an orderly run every row is terminal then. Every row says whether its model has
        a result, unless somebody else has written it since the claim. */
    method FinalizeRun(success: set<Model>) returns (won: bool, ghost claim: nat, ghost n: nat)
      requires Valid() && PcOf(sys, me).Admitted?
      modifies this
      ensures Valid() && Continues(old(trace), trace) && PcOf(sys, me).Idle?
      ensures |old(trace.cmds)| == claim <= n <= |trace.cmds| && claim < |trace.cmds|
      ensures trace.cmds[claim] == ClaimFinalization(me)
      ensures won ==> Claims(trace, claim)
      ensures won ==> sys.run.status
                      == if trace.states[n].run.reaped && success !! sys.rows.Keys then RunErrored else RunCompleted
      ensures !Claims(trace, claim) ==> trace == Extend(old(trace), ClaimFinalization(me)) && sys.run == old(sys.run)
      ensures won && OrderlyRun(trace) ==> AllTerminal(sys.rows)
      ensures if Claims(trace, claim) then won <==> trace.states[|trace.cmds| - 1].run.status.RunFinalizing? else !won
      ensures Claims(trace, claim) ==> IndexPatched(trace, claim, me, success, sys.rows.Keys)
      ensures Claims(trace, claim) ==> forall m :: m in sys.rows ==>
                sys.rows[m] == Verdict(m in success) || OverwrittenSince(trace, claim, me, m)
    {
      hide Fresh, Apply, Enabled, Continues, OthersRan, AllTerminal, Claimable, OrderlyRun, IndexPatched, OverwrittenSince;
      ghost var t0 := trace;
      claim, n := |trace.cmds|, |trace.cmds|;
      ClaimRule(sys, me);
      Take(ClaimFinalization(me));
      StaysThere(t0, trace, claim);
      won := PcOf(sys, me).Finalizer?;
      if won {
        ghost var t1 := trace;
        won, n := SettleRun(success);
        ContinuesOn(t0, t1, trace);
        StaysThere(t1, trace, claim);
        PatchedEarlier(trace, claim, claim + 1, me, success, sys.rows.Keys);
        forall m | m in sys.rows ensures sys.rows[m] == Verdict(m in success) || OverwrittenSince(trace, claim, me, m) {
          IndexShowsResults(trace, claim, me, success, sys.rows.Keys, m);
        }
        if won && OrderlyRun(trace) { GateSafety.GateSafety(trace, |trace.cmds|); }
      }
    }

    /** The work under a claim. */
    method SettleRun(success: set<Model>) returns (won: bool, ghost n: nat)
      requires Valid() && PcOf(sys, me).Finalizer?
      modifies this
      ensures Valid() && Continues(old(trace), trace) && PcOf(sys, me).Idle? && |old(trace.cmds)| <= n <= |trace.cmds|
      ensures won ==> sys.run.status
                      == if trace.states[n].run.reaped && success !! sys.rows.Keys then RunErrored else RunCompleted
      ensures IndexPatched(trace, |old(trace.cmds)|, me, success, sys.rows.Keys) && |old(trace.cmds)| < |trace.cmds|
      ensures won <==> trace.states[|trace.cmds| - 1].run.status.RunFinalizing?
    {
      hide Fresh, Apply, Enabled, Continues, OthersRan, IndexPatched;
      ghost var t0 := trace;
      Await();
      StaysThere(t0, trace, 0);
      ghost var t1 := trace;
      n := |trace.cmds|;
      var reaped := sys.run.reaped;
      PatchIndex(success);
      ContinuesOn(t0, t1, trace);
      PatchedBeforeWait(t0, t1, trace, me, success, sys.rows.Keys);
      ghost var t2 := trace;
      Await();
      RowsStay(t2, trace);
      PatchedAfterWait(t2, trace, |t0.cmds|, me, success, sys.rows.Keys);
      ContinuesOn(t0, t2, trace);
      ContinuesOn(t1, t2, trace);
      ghost var t3 := trace;
      won := CompleteRunFinalization(if reaped && success !! sys.rows.Keys then RunErrored else RunCompleted);
      PatchedLater(t3, trace, |t0.cmds|, me, success, sys.rows.Keys);
      ContinuesOn(t0, t3, trace);
      ContinuesOn(t1, t3, trace);
      StaysThere(t1, trace, n);
    }

    /** completeRunFinalization: true exactly when the run was still being finalized. */
    method CompleteRunFinalization(outcome: RunStatus) returns (won: bool)
      requires Valid() && PcOf(sys, me).Patched? && (outcome.RunCompleted? || outcome.RunErrored?)
      modifies this
      ensures Valid() && PcOf(sys, me).Idle? && Continues(old(trace), trace) && sys.rows == old(sys.rows)
      ensures Shaped(old(trace)) && trace.cmds == old(trace.cmds) + [CompleteFinalization(me, outcome)]
      ensures won <==> trace.states[|trace.cmds| - 1].run.status.RunFinalizing?
      ensures sys.run == if won then old(sys.run).(status := outcome) else old(sys.run)
    {
      hide Fresh, Apply, Enabled;
      won := sys.run.status.RunFinalizing?;
      CompleteRule(sys, me, outcome);
      Take(CompleteFinalization(me, outcome));
    }

    /** Read the record, write it back, then every row: 'completed' with a result, 'errored'
        without. */
    method PatchIndex(success: set<Model>)
      requires Valid() && PcOf(sys, me).Finalizer?
      modifies this
      ensures Valid() && Continues(old(trace), trace) && PcOf(sys, me).Patched?
      ensures IndexPatched(trace, |old(trace.cmds)|, me, success, sys.rows.Keys)
    {
      hide Fresh, Apply, Enabled, Continues, OthersRan, IndexPatched;
      ghost var t0 := trace;
      NothingPatched(trace, me, success);
      PatchReadRule(sys, me);
      Take(PatchRead(me));
      PatchedLater(t0, trace, |t0.cmds|, me, success, {});
      ghost var t1 := trace;
      Await();
      ContinuesOn(t0, t1, trace);
      PatchedAfterWait(t1, trace, |t0.cmds|, me, success, {});
      ghost var t2 := trace;
      PatchRecordRule(sys, me);
      Take(PatchRecord(me));
      ContinuesOn(t0, t2, trace);
      PatchedLater(t2, trace, |t0.cmds|, me, success, {});
      var todo := sys.rows.Keys;
      assert sys.rows.Keys - todo == {};
      while todo != {}
        invariant Valid() && Continues(t0, trace) && PcOf(sys, me).Patched? && todo <= sys.rows.Keys
        invariant IndexPatched(trace, |t0.cmds|, me, success, sys.rows.Keys - todo)
      {
        ghost var t3, done := trace, sys.rows.Keys - todo;
        Await();
        ContinuesOn(t0, t3, trace);
        RowsStay(t3, trace);
        PatchedAfterWait(t3, trace, |t0.cmds|, me, success, done);
        var m :| m in todo;
        ghost var t4 := trace;
        PatchRowRule(sys, me, m, m in success);
        OnePatchMore(trace, |t0.cmds|, me, success, done, m);
        Take(PatchRow(me, m, m in success));
        ContinuesOn(t0, t4, trace);
        todo := todo - {m};
        assert sys.rows.Keys - todo == done + {m};
      }
      assert sys.rows.Keys - todo == sys.rows.Keys;
    }

    /** One tick of the watcher: recover a dead runner, then finalize through the gate. */
    method AttemptFinalizeCandidate(staleAfter: nat, success: set<Model>) returns (won: bool, ghost claim: nat)
      requires Valid() && PcOf(sys, me).Idle?
      modifies this
      ensures Valid() && Continues(old(trace), trace) && PcOf(sys, me).Idle?
      ensures won ==> |old(trace.cmds)| < claim && Claims(trace, claim) && trace.cmds[claim] == ClaimFinalization(me)
      ensures won && OrderlyRun(trace) ==> AllTerminal(sys.rows)
      ensures won ==> IndexPatched(trace, claim, me, success, sys.rows.Keys)
    {
      hide Fresh, Apply, Enabled, Continues, OthersRan, AllTerminal, Claimable, OrderlyRun, Complete;
      hide IsStaleRunningRun, IsStopAwaitingRunner, IsStopGraceElapsed, IndexPatched;
      ghost var t0 := trace;
      var _, _ := ReconcileStaleRunningRun(staleAfter);
      ghost var t1 := trace;
      Await();
      ContinuesOn(t0, t1, trace);
      ghost var t2 := trace;
      var ok, _, _, _ := PrepareRunFinalization();
      ContinuesOn(t0, t2, trace);
      claim := 0;
      if !ok { return false, claim; }
      ghost var t3 := trace;
      Await();
      ContinuesOn(t0, t3, trace);
      ghost var t4 := trace;
      ghost var n: nat;
      won, claim, n := FinalizeRun(success);
      ContinuesOn(t0, t4, trace);
    }
  }
}
