/** The tasks of a run on their way through queue and runners: who ends a row, and why
    ordinary runs are orderly. */
module GateTasks {
  import opened Wrappers
  import opened TaskQueue
  import opened StopGate
  import opened GateRuns
  import opened GateSafety

  // ---------------------------------------------------------------------------
  // One task for each model
  // ---------------------------------------------------------------------------

  function TaskOf(s: State, a: Actor): Option<Delivery> {
    if HasTask(PcOf(s, a)) then Some(PcOf(s, a).d) else None
  }

  /** No two tasks of one model, in the queue or with runners. */
  ghost predicate OneEach(s: State) {
    && (forall d :: s.queue[d] <= 1)
    && (forall d, e :: d in s.queue && e in s.queue && d.model == e.model ==> d == e)
    && (forall d, a :: d in s.queue && TaskOf(s, a).Some? ==> d.model != TaskOf(s, a).value.model)
    && (forall a, b :: (TaskOf(s, a).Some? && TaskOf(s, b).Some?
                        && TaskOf(s, a).value.model == TaskOf(s, b).value.model) ==> a == b)
  }

  /** Why a runner is about to end its row, or has: the turn loop returned, the stop was seen,
      or the attempt is the last one. */
  predicate HasReason(s: State, pc: Pc) {
    (pc.Finishing? || pc.Rechecking? || pc.Writing? || pc.Acking? || pc.AckSignalled? || pc.AckClearing?)
    ==> || pc.how.AckOrLog?
        || IsTerminalAttempt(pc.d.attempts, s.maxAttempts)
        || (pc.how.AckOrFail? && (pc.Writing? ==> pc.status.Stopped?) && !pc.Finishing? && !pc.Rechecking?)
  }

  /** A task on its way back to the queue passes through acknowledgeStop. */
  predicate AcksFirst(pc: Pc) { pc.Writing? && pc.how.NackIt? ==> pc.acks }

  /** The runner has not written the end of its row, or gives its task back for a retry. */
  predicate Early(s: State, pc: Pc) {
    || pc.Delivered? || OnItsWay(pc) || pc.Executing? || pc.Finishing? || pc.Rechecking? || pc.Writing?
    || (pc.Settling? && pc.how.NackIt? && !IsTerminalAttempt(pc.d.attempts, s.maxAttempts))
  }

  /** Tasks that have not ended their row have a row that has not ended. */
  ghost predicate Calm(s: State) {
    && OneEach(s)
    && (forall a :: HasReason(s, PcOf(s, a)) && AcksFirst(PcOf(s, a)))
    && (forall d :: d in s.queue ==> !Ended(s, d.model))
    && (forall a :: TaskOf(s, a).Some? && Early(s, PcOf(s, a)) ==> !Ended(s, TaskOf(s, a).value.model))
  }

  /** Nothing goes wrong in the step: no runner dies with a task, no entry is reclaimed or
      retried by hand, no ack is lost, and recovery neither forces nor fails rows. Stops,
      failing tasks, failing row updates and dying finalizers are all allowed. */
  predicate Ordinary(s: State, cmd: Command)
    requires Enabled(s, cmd)
  {
    && !cmd.Reclaim? && !cmd.RetryDead? && !cmd.PrepForce? && !cmd.ReapFailRows?
    && (cmd.Settle? ==> cmd.ok)
    && (cmd.Crash? ==> !HasTask(PcOf(s, cmd.a)))
  }

  // ---------------------------------------------------------------------------
  // Steps of a runner with its task
  // ---------------------------------------------------------------------------

  /** A runner with a task had it before, or has just taken it. */
  lemma TaskStays(s: State, cmd: Command, a: Actor)
    requires Enabled(s, cmd) && TaskOf(Apply(s, cmd), a).Some?
    ensures if cmd.Deliver? && cmd.a == a then TaskOf(Apply(s, cmd), a) == Some(cmd.d)
            else TaskOf(Apply(s, cmd), a) == TaskOf(s, a)
  {
    hide Apply, RunnerNext;
    CameWithTask(s, cmd, a);
  }

  lemma ReasonKept(s: State, cmd: Command, a: Actor)
    requires Enabled(s, cmd) && HasReason(s, PcOf(s, a)) && AcksFirst(PcOf(s, a))
    ensures HasReason(Apply(s, cmd), PcOf(Apply(s, cmd), a)) && AcksFirst(PcOf(Apply(s, cmd), a))
  {
    hide Apply, Complete, IsTerminalAttempt;
    if HasTask(PcOf(Apply(s, cmd), a)) { CameWithTask(s, cmd, a); }
  }

  lemma {:induction false} RunHasReasons(t: Trace, k: nat, a: Actor)
    requires IsFreshRun(t) && k <= |t.cmds|
    ensures HasReason(t.states[k], PcOf(t.states[k], a)) && AcksFirst(PcOf(t.states[k], a))
  {
    hide Apply, Enabled, HasReason, AcksFirst;
    if k == 0 {
      IdleHasReason(t.states[0]);
    } else {
      RunHasReasons(t, k - 1, a);
      assert StepOk(t, k - 1);
      ReasonKept(t.states[k - 1], t.cmds[k - 1], a);
    }
  }

  lemma IdleHasReason(s: State)
    ensures HasReason(s, Idle) && AcksFirst(Idle)
  {
  }

  /** A retryable failure leaves its row alone, in every run: whoever writes the end of a row
      has come back from the turn loop, has seen the stop, or is on the last attempt. */
  lemma RetryableFailuresLeaveRows(t: Trace, k: nat, a: Actor)
    requires IsFreshRun(t) && k < |t.cmds| && t.cmds[k].WriteEnd? && t.cmds[k].a == a
    requires PcOf(t.states[k], a).Writing? && !IsTerminalAttempt(PcOf(t.states[k], a).d.attempts, t.states[k].maxAttempts)
    ensures PcOf(t.states[k], a).how.AckOrLog? || PcOf(t.states[k], a).status.Stopped?
  {
    hide IsRun, IsTerminalAttempt;
    RunHasReasons(t, k, a);
  }

  /** Early stages are reached from early stages, or with a task just taken. */
  lemma EarlyBefore(s: State, cmd: Command, a: Actor)
    requires Enabled(s, cmd) && (cmd.Settle? ==> cmd.ok) && Early(Apply(s, cmd), PcOf(Apply(s, cmd), a))
    requires HasReason(s, PcOf(s, a)) && AcksFirst(PcOf(s, a))
    ensures Early(s, PcOf(s, a)) || (cmd.Deliver? && cmd.a == a)
    ensures cmd.WriteEnd? ==> cmd.a != a
  {
    hide Apply, Complete, IsTerminalAttempt;
    CameWithTask(s, cmd, a);
  }

  // ---------------------------------------------------------------------------
  // Ordinary runs are orderly
  // ---------------------------------------------------------------------------

  /** Only a runner's own write ends a row in an ordinary step. */
  lemma OrdinaryEnd(s: State, cmd: Command, m: Model)
    requires Inv(s) && Enabled(s, cmd) && Ordinary(s, cmd) && EndsRow(s, cmd, m)
    ensures cmd.WriteEnd? && PcOf(s, cmd.a).Writing?
    ensures TaskOf(s, cmd.a).Some? && TaskOf(s, cmd.a).value.model == m
  {
    if cmd.PatchRow? { PatchedIsOver(s, cmd); }
  }

  lemma PatchedIsOver(s: State, cmd: Command)
    requires Inv(s) && Enabled(s, cmd) && cmd.PatchRow?
    ensures Terminal(s.rows[cmd.m])
  {
    assert SawEnd(PcOf(s, cmd.a));
  }

  /** A task given back in an ordinary step has its row open. */
  lemma OrdinaryRequeue(s: State, cmd: Command)
    requires Calm(s) && Enabled(s, cmd) && Ordinary(s, cmd) && Requeued(s, cmd).Some?
    ensures cmd.Settle? && TaskOf(s, cmd.a).Some? && Requeued(s, cmd).value.model == TaskOf(s, cmd.a).value.model
    ensures Early(s, PcOf(s, cmd.a)) && !Ended(s, Requeued(s, cmd).value.model)
  {
    hide OneEach, HasReason, AcksFirst, Ended;
  }

  lemma CalmIsOrderly(s: State, cmd: Command)
    requires Calm(s) && Inv(s) && Enabled(s, cmd) && Ordinary(s, cmd)
    ensures Orderly(s, cmd)
  {
    hide Requeued, Enabled, Ordinary, Inv, HasReason, AcksFirst;
    forall m | EndsRow(s, cmd, m) ensures !Loose(s, m) {
      OrdinaryEnd(s, cmd, m);
    }
    if Requeued(s, cmd).Some? { OrdinaryRequeue(s, cmd); }
  }

  lemma CalmNeverReopens(s: State, cmd: Command)
    requires Calm(s) && Enabled(s, cmd)
    ensures !Reopens(s, cmd)
  {
    hide OneEach, HasReason, AcksFirst;
    if Begins(cmd) { assert Early(s, PcOf(s, cmd.a)); }
  }

  lemma OneEachKept(s: State, cmd: Command)
    requires Calm(s) && Enabled(s, cmd) && Ordinary(s, cmd)
    ensures OneEach(Apply(s, cmd))
  {
    hide Apply, Enabled, Ordinary, Requeued, HasReason, AcksFirst, Early, Ended, TaskOf, OneEach;
    var s' := Apply(s, cmd);
    StepShared(s, cmd);
    forall a | TaskOf(s', a).Some?
      ensures TaskOf(s', a) == if cmd.Deliver? && cmd.a == a then Some(cmd.d) else TaskOf(s, a)
    {
      TaskStays(s, cmd, a);
    }
    if cmd.Deliver? {
      DeliverTakes(s, cmd);
      OneEachTaken(s, s', cmd.a, cmd.d);
    } else if Requeued(s, cmd).Some? {
      OrdinaryRequeue(s, cmd);
      SettledLeaves(s, cmd);
      OneEachGiven(s, s', cmd.a, Requeued(s, cmd).value);
    } else {
      OneEachFewer(s, s');
    }
  }

  lemma OneEachTaken(s: State, s': State, a: Actor, d: Delivery)
    requires OneEach(s) && d in s.queue && s'.queue == s.queue - multiset{d}
    requires forall b :: TaskOf(s', b).Some? ==> TaskOf(s', b) == if b == a then Some(d) else TaskOf(s, b)
    ensures OneEach(s')
  {
    hide TaskOf;
  }

  lemma OneEachGiven(s: State, s': State, a: Actor, d: Delivery)
    requires OneEach(s) && TaskOf(s, a).Some? && TaskOf(s', a).None?
    requires d.model == TaskOf(s, a).value.model && s'.queue == s.queue + multiset{d}
    requires forall b :: TaskOf(s', b).Some? ==> TaskOf(s', b) == TaskOf(s, b)
    ensures OneEach(s')
  {
    hide TaskOf;
  }

  lemma OneEachFewer(s: State, s': State)
    requires OneEach(s) && s'.queue == s.queue
    requires forall b :: TaskOf(s', b).Some? ==> TaskOf(s', b) == TaskOf(s, b)
    ensures OneEach(s')
  {
    hide TaskOf;
  }

  lemma DeliverTakes(s: State, cmd: Command)
    requires Enabled(s, cmd) && cmd.Deliver?
    ensures cmd.d in s.queue
  {
  }

  lemma SettledLeaves(s: State, cmd: Command)
    requires Enabled(s, cmd) && cmd.Settle? && Requeued(s, cmd).Some?
    ensures TaskOf(s, cmd.a).Some? && TaskOf(Apply(s, cmd), cmd.a).None?
  {
    hide Apply, IsTerminalAttempt;
    StepPc(s, cmd, cmd.a);
  }

  lemma CalmKept(s: State, cmd: Command)
    requires Calm(s) && Inv(s) && Enabled(s, cmd) && Ordinary(s, cmd)
    ensures Calm(Apply(s, cmd))
  {
    hide Apply, Enabled, Ordinary, HasReason, AcksFirst, Early, Ended, TaskOf, Inv, OneEach;
    var s' := Apply(s, cmd);
    OneEachKept(s, cmd);
    forall a ensures HasReason(s', PcOf(s', a)) && AcksFirst(PcOf(s', a)) {
      ReasonKept(s, cmd, a);
    }
    forall d | d in s'.queue ensures !Ended(s', d.model) {
      QueuedOpen(s, cmd, d);
    }
    forall a | TaskOf(s', a).Some? && Early(s', PcOf(s', a)) ensures !Ended(s', TaskOf(s', a).value.model) {
      EarlyOpen(s, cmd, a);
    }
  }

  lemma SettleOk(s: State, cmd: Command)
    requires Enabled(s, cmd) && Ordinary(s, cmd)
    ensures cmd.Settle? ==> cmd.ok
  {
  }

  lemma QueuedOpen(s: State, cmd: Command, d: Delivery)
    requires Calm(s) && Inv(s) && Enabled(s, cmd) && Ordinary(s, cmd) && d in Apply(s, cmd).queue
    ensures !Ended(Apply(s, cmd), d.model)
  {
    hide Apply, Enabled, Ordinary, HasReason, AcksFirst, Early, Ended, Inv, Requeued, TaskOf;
    StepShared(s, cmd);
    RowStep(s, cmd, d.model);
    if d !in s.queue { OrdinaryRequeue(s, cmd); }
    if EndsRow(s, cmd, d.model) { OrdinaryEnd(s, cmd, d.model); }
  }

  lemma EarlyOpen(s: State, cmd: Command, a: Actor)
    requires Calm(s) && Inv(s) && Enabled(s, cmd) && Ordinary(s, cmd)
    requires TaskOf(Apply(s, cmd), a).Some? && Early(Apply(s, cmd), PcOf(Apply(s, cmd), a))
    ensures !Ended(Apply(s, cmd), TaskOf(Apply(s, cmd), a).value.model)
  {
    hide Apply, Enabled, Ordinary, HasReason, AcksFirst, Early, Ended, Inv, TaskOf;
    TaskStays(s, cmd, a);
    SettleOk(s, cmd);
    EarlyBefore(s, cmd, a);
    var m := TaskOf(Apply(s, cmd), a).value.model;
    RowStep(s, cmd, m);
    if cmd.Deliver? && cmd.a == a { DeliverTakes(s, cmd); }
    if EndsRow(s, cmd, m) { OrdinaryEnd(s, cmd, m); }
  }

  predicate OrdinaryRun(t: Trace)
    requires IsRun(t)
  {
    forall k: nat :: k < |t.cmds| ==> StepOk(t, k) && Ordinary(t.states[k], t.cmds[k])
  }

  lemma FreshIsCalm(s: State)
    requires Fresh(s) && OneEach(s)
    ensures Calm(s) && Inv(s)
  {
    hide OneEach;
  }

  lemma StaysCalm(s: State, cmd: Command)
    requires Calm(s) && Inv(s) && Enabled(s, cmd) && Ordinary(s, cmd)
    ensures Calm(Apply(s, cmd)) && Inv(Apply(s, cmd)) && Orderly(s, cmd)
  {
    hide *;
    CalmNeverReopens(s, cmd);
    CalmKept(s, cmd);
    StepKeepsInv(s, cmd);
    CalmIsOrderly(s, cmd);
  }

  lemma {:induction false} RunStaysCalm(t: Trace, k: nat)
    requires IsFreshRun(t) && OneEach(t.states[0]) && OrdinaryRun(t) && k <= |t.cmds|
    ensures Calm(t.states[k]) && Inv(t.states[k])
  {
    hide Apply, Enabled, Ordinary, OneEach, Orderly, Calm, Inv, Fresh;
    if k == 0 {
      FreshIsCalm(t.states[0]);
    } else {
      RunStaysCalm(t, k - 1);
      assert StepOk(t, k - 1);
      StaysCalm(t.states[k - 1], t.cmds[k - 1]);
    }
  }

  /** With one task for each model, the gate holds in every run in which nothing goes wrong
      between queue and runners and recovery stays out: whoever stops the run, whichever
      tasks fail and are retried, and however runners, stoppers and finalizers interleave. */
  lemma OrdinaryRunsAreSafe(t: Trace, k: nat)
    requires IsFreshRun(t) && OneEach(t.states[0]) && OrdinaryRun(t) && k <= |t.cmds|
    ensures OrderlyRun(t) && GateHolds(t.states[k])
  {
    hide Apply, Enabled, Ordinary, OneEach, Calm, Orderly, AllTerminal;
    forall i: nat | i < |t.cmds| ensures StepOk(t, i) && Orderly(t.states[i], t.cmds[i]) {
      assert StepOk(t, i);
      RunStaysCalm(t, i);
      StaysCalm(t.states[i], t.cmds[i]);
    }
    RunStaysCalm(t, k);
  }
}
