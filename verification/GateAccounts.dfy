/** Where the task of a model is: acknowledged tasks and their rows, models that are forgotten,
    and how they are recovered. */
module GateAccounts {
  import opened Wrappers
  import opened TaskQueue
  import opened StopGate
  import opened GateRules
  import opened GateRuns

  // ---------------------------------------------------------------------------
  // Acknowledged tasks
  // ---------------------------------------------------------------------------

  /** The runner's write of the end of a row went through. */
  predicate EndWritten(cmd: Command) { cmd.WriteEnd? ==> cmd.ok }

  /** Whoever is about to ack has written the end of its row before, and nothing but
      acknowledgeStop lies in between. */
  lemma {:induction false} EndBeforeAck(t: Trace, k: nat, a: Actor) returns (n: nat)
    requires IsFreshRun(t) && k <= |t.cmds| && AtEnd(PcOf(t.states[k], a)) && !PcOf(t.states[k], a).how.NackIt?
    ensures n < k && t.cmds[n].WriteEnd? && t.cmds[n].a == a && PcOf(t.states[n], a).Writing?
    ensures PcOf(t.states[n], a).d == PcOf(t.states[k], a).d
    ensures forall j :: n < j <= k ==> AtEnd(PcOf(t.states[j], a))
  {
    hide Apply, Enabled;
    assert k > 0;
    assert StepOk(t, k - 1);
    CameToEnd(t.states[k - 1], t.cmds[k - 1], a);
    n := k - 1;
    if AtEnd(PcOf(t.states[n], a)) { n := EndBeforeAck(t, n, a); }
  }

  lemma CameToEnd(s: State, cmd: Command, a: Actor)
    requires Enabled(s, cmd) && AtEnd(PcOf(Apply(s, cmd), a)) && !PcOf(Apply(s, cmd), a).how.NackIt?
    ensures var pc, pc' := PcOf(s, a), PcOf(Apply(s, cmd), a);
            || (AtEnd(pc) && pc.how == pc'.how && pc.d == pc'.d)
            || (cmd.WriteEnd? && cmd.a == a && pc.Writing? && pc.d == pc'.d)
  {
    hide Apply, Complete, IsTerminalAttempt;
    CameWithTask(s, cmd, a);
  }

  predicate EndsAt(t: Trace, e: nat, m: Model)
    requires IsRun(t)
  {
    e < |t.cmds| && StepOk(t, e) && EndsRow(t.states[e], t.cmds[e], m)
  }

  predicate ReopensAt(t: Trace, j: nat, m: Model)
    requires IsRun(t)
  {
    j < |t.cmds| && StepOk(t, j) && ReopensRow(t.states[j], t.cmds[j], m)
  }

  /** No step from i on reopens the row of m before k. */
  predicate Unreopened(t: Trace, i: nat, k: nat, m: Model)
    requires IsRun(t)
  {
    forall j: nat :: i <= j < k ==> !ReopensAt(t, j, m)
  }

  /** Some step from i on ends the row of m, and none reopens it afterwards. */
  predicate EndsForGood(t: Trace, i: nat, k: nat, m: Model)
    requires IsRun(t)
  {
    exists e: nat :: i <= e < k && EndsAt(t, e, m) && Unreopened(t, e + 1, k, m)
  }

  /** Exactly when a row has ended. */
  lemma {:induction false} EndedExactly(t: Trace, i: nat, k: nat, m: Model)
    requires IsRun(t) && i <= k <= |t.cmds|
    ensures Ended(t.states[k], m) <==> (Ended(t.states[i], m) && Unreopened(t, i, k, m)) || EndsForGood(t, i, k, m)
  {
    hide IsRun, Ended, Unreopened, EndsForGood, EndsAt, ReopensAt;
    if i == k {
      NothingYet(t, i, m);
    } else {
      EndedExactly(t, i, k - 1, m);
      RowAt(t, k - 1, m);
      OneMore(t, i, k - 1, m);
    }
  }

  lemma RowAt(t: Trace, k: nat, m: Model)
    requires IsRun(t) && k < |t.cmds|
    ensures Ended(t.states[k + 1], m)
            <==> if Ended(t.states[k], m) then !ReopensAt(t, k, m) else EndsAt(t, k, m)
    ensures EndsAt(t, k, m) ==> !Ended(t.states[k], m)
  {
    hide Apply, Enabled;
    assert StepOk(t, k);
    RowStep(t.states[k], t.cmds[k], m);
  }

  lemma NothingYet(t: Trace, i: nat, m: Model)
    requires IsRun(t)
    ensures Unreopened(t, i, i, m) && !EndsForGood(t, i, i, m)
  {
  }

  lemma OneMore(t: Trace, i: nat, k: nat, m: Model)
    requires IsRun(t) && i <= k
    ensures Unreopened(t, i, k + 1, m) <==> Unreopened(t, i, k, m) && !ReopensAt(t, k, m)
    ensures EndsForGood(t, i, k + 1, m) <==> EndsAt(t, k, m) || (EndsForGood(t, i, k, m) && !ReopensAt(t, k, m))
  {
    hide IsRun, EndsAt, ReopensAt;
    if EndsAt(t, k, m) { assert Unreopened(t, k + 1, k + 1, m); }
    if EndsForGood(t, i, k, m) && !ReopensAt(t, k, m) {
      var e: nat :| i <= e < k && EndsAt(t, e, m) && Unreopened(t, e + 1, k, m);
      assert Unreopened(t, e + 1, k + 1, m);
    }
    if EndsForGood(t, i, k + 1, m) && !EndsAt(t, k, m) {
      var e: nat :| i <= e < k + 1 && EndsAt(t, e, m) && Unreopened(t, e + 1, k + 1, m);
      assert Unreopened(t, e + 1, k, m);
    }
  }

  /** What an ack says about the row of its task, exactly: the row has ended if and only if
      the runner's own write went through, or met a row that had ended before, and nobody
      reopened the row since; or some other step has ended it since for good. */
  lemma AckedExactly(t: Trace, k: nat, a: Actor) returns (n: nat)
    requires IsFreshRun(t) && k < |t.cmds| && t.cmds[k].Settle? && t.cmds[k].a == a
    requires PcOf(t.states[k], a).Settling? && !PcOf(t.states[k], a).how.NackIt?
    requires PcOf(t.states[k], a).d.model in t.states[0].rows
    ensures n < k && t.cmds[n].WriteEnd? && t.cmds[n].a == a
    ensures forall j :: n < j <= k ==> AtEnd(PcOf(t.states[j], a))
    ensures var m := PcOf(t.states[k], a).d.model;
            Ended(t.states[k], m)
            <==> || ((t.cmds[n].ok || Ended(t.states[n], m)) && Unreopened(t, n + 1, k, m))
                 || EndsForGood(t, n + 1, k, m)
  {
    hide Apply, Enabled, Ended, Unreopened, EndsForGood;
    var m := PcOf(t.states[k], a).d.model;
    n := EndBeforeAck(t, k, a);
    assert StepOk(t, n);
    SameRows(t, n, m);
    EndWrite(t.states[n], t.cmds[n], m);
    EndedExactly(t, n + 1, k, m);
  }

  /** In particular, a task that is acknowledged has ended its row, in every run in which its
      terminal write went through and no ended row is reopened. */
  lemma AckedHasEnded(t: Trace, k: nat, a: Actor)
    requires IsFreshRun(t) && NeverReopens(t) && k < |t.cmds| && t.cmds[k].Settle? && t.cmds[k].a == a
    requires PcOf(t.states[k], a).Settling? && !PcOf(t.states[k], a).how.NackIt?
    requires PcOf(t.states[k], a).d.model in t.states[0].rows
    requires forall j :: 0 <= j < k ==> EndWritten(t.cmds[j])
    ensures Ended(t.states[k], PcOf(t.states[k], a).d.model)
  {
    hide Apply, Enabled, Ended, Reopens, ReopensRow;
    var m := PcOf(t.states[k], a).d.model;
    var n := AckedExactly(t, k, a);
    forall j: nat | n + 1 <= j < k ensures !ReopensAt(t, j, m) {
      assert StepOk(t, j);
      ReopensSome(t.states[j], t.cmds[j], m);
    }
  }

  lemma ReopensSome(s: State, cmd: Command, m: Model)
    requires Enabled(s, cmd)
    ensures ReopensRow(s, cmd, m) ==> Reopens(s, cmd)
  {
  }

  /** What a runner's write of the end leaves in its row. */
  lemma EndWrite(s: State, cmd: Command, m: Model)
    requires Enabled(s, cmd) && cmd.WriteEnd? && PcOf(s, cmd.a).d.model == m && m in s.rows
    ensures Ended(Apply(s, cmd), m) <==> cmd.ok || Ended(s, m)
  {
    hide Apply;
    StepShared(s, cmd);
  }

  // ---------------------------------------------------------------------------
  // Copies of a task
  // ---------------------------------------------------------------------------

  /** The runner holds the task of m, the queue has not handed it to anybody else, and if the
      runner is done with the row it is going to give the task back. */
  predicate Carries(s: State, a: Actor, m: Model) {
    var pc := PcOf(s, a);
    HasTask(pc) && pc.d.model == m && a !in s.moved && (AtEnd(pc) ==> pc.how.NackIt?)
  }

  ghost predicate Stored(s: State, m: Model) {
    || (exists d :: d in s.queue && d.model == m)
    || (exists d :: d in s.dead && d.model == m)
  }

  /** The task of m is queued, dead-lettered or with a runner that carries it. */
  ghost predicate HasCopy(s: State, m: Model) { Stored(s, m) || exists a :: Carries(s, a, m) }

  /** The row of m has ended, or there is a task to end it. */
  ghost predicate Cared(s: State, m: Model) { Ended(s, m) || HasCopy(s, m) }

  /** The last runner that carries the task writes the end of its row and is going to ack. */
  ghost predicate LosesCopy(s: State, cmd: Command, m: Model)
    requires Enabled(s, cmd)
  {
    && cmd.WriteEnd? && !PcOf(s, cmd.a).how.NackIt? && Carries(s, cmd.a, m) && !Stored(s, m)
    && forall b :: Carries(s, b, m) ==> b == cmd.a
  }

  /** A delivery of m that its runner has done with goes back all the same: reclaimed, left
      behind by a crash, or its ack failed. */
  predicate GainsCopy(s: State, cmd: Command, m: Model)
    requires Enabled(s, cmd)
  {
    || (GivenBack(s, cmd).Some? && GivenBack(s, cmd).value.model == m)
    || (cmd.Settle? && !cmd.ok && PcOf(s, cmd.a).how.AckOrFail? && PcOf(s, cmd.a).d.model == m && cmd.a !in s.moved)
  }

  lemma StoredStays(s: State, cmd: Command, m: Model)
    requires Enabled(s, cmd) && Stored(s, m)
    ensures HasCopy(Apply(s, cmd), m)
  {
    hide Apply, Carries;
    if d :| d in s.queue && d.model == m { QueuedStays(s, cmd, d); }
    else {
      var d :| d in s.dead && d.model == m;
      DeadStays(s, cmd, d);
    }
  }

  lemma QueuedStays(s: State, cmd: Command, d: Delivery)
    requires Enabled(s, cmd) && d in s.queue
    ensures HasCopy(Apply(s, cmd), d.model)
  {
    hide Apply, Requeued, Carries;
    StepShared(s, cmd);
    if cmd.Deliver? && cmd.d == d {
      TakenCarries(s, cmd);
    } else {
      assert d in Apply(s, cmd).queue;
    }
  }

  lemma TakenCarries(s: State, cmd: Command)
    requires Enabled(s, cmd) && cmd.Deliver?
    ensures Carries(Apply(s, cmd), cmd.a, cmd.d.model)
  {
    hide Apply;
    StepShared(s, cmd);
    StepPc(s, cmd, cmd.a);
  }

  lemma DeadStays(s: State, cmd: Command, d: Delivery)
    requires Enabled(s, cmd) && d in s.dead
    ensures HasCopy(Apply(s, cmd), d.model)
  {
    hide Apply, GivenBack, Carries;
    StepShared(s, cmd);
    if cmd == RetryDead(d) {
      assert Delivery(d.model, 0) in Apply(s, cmd).queue;
    } else {
      assert d in Apply(s, cmd).dead;
    }
  }

  lemma GivenBackIsStored(s: State, cmd: Command, m: Model)
    requires Enabled(s, cmd) && GivenBack(s, cmd).Some? && GivenBack(s, cmd).value.model == m
    ensures Stored(Apply(s, cmd), m)
  {
    hide Apply, IsTerminalAttempt;
    StepShared(s, cmd);
    var d := GivenBack(s, cmd).value;
    if IsTerminalAttempt(d.attempts, s.maxAttempts) {
      assert d in Apply(s, cmd).dead;
    } else {
      assert Delivery(m, d.attempts + 1) in Apply(s, cmd).queue;
    }
  }

  /** A carrier goes on carrying, gives its task back, or writes the end of its row to ack. */
  lemma CarrierSteps(s: State, cmd: Command, a: Actor, m: Model)
    requires Enabled(s, cmd) && Carries(s, a, m)
    ensures || Carries(Apply(s, cmd), a, m)
            || (GivenBack(s, cmd).Some? && GivenBack(s, cmd).value.model == m)
            || (cmd.WriteEnd? && cmd.a == a && !PcOf(s, a).how.NackIt?)
  {
    hide Apply, GivenBack;
    StepShared(s, cmd);
    StepPc(s, cmd, a);
    if ActorOf(cmd) == Some(a) {
      if GivenBack(s, cmd).Some? { OwnGivesBack(s, cmd); } else { GoesOnCarrying(s, cmd); }
    } else {
      assert a !in Apply(s, cmd).moved;
    }
  }

  lemma OwnGivesBack(s: State, cmd: Command)
    requires Enabled(s, cmd) && ActorOf(cmd).Some? && GivenBack(s, cmd).Some?
    ensures HasTask(PcOf(s, cmd.a)) && GivenBack(s, cmd).value == PcOf(s, cmd.a).d
  {
  }

  lemma GoesOnCarrying(s: State, cmd: Command)
    requires Enabled(s, cmd) && ActorOf(cmd).Some? && HasTask(PcOf(s, cmd.a)) && cmd.a !in s.moved
    requires AtEnd(PcOf(s, cmd.a)) ==> PcOf(s, cmd.a).how.NackIt?
    requires GivenBack(s, cmd).None?
    ensures Carries(Apply(s, cmd), cmd.a, PcOf(s, cmd.a).d.model) || (cmd.WriteEnd? && !PcOf(s, cmd.a).how.NackIt?)
  {
    hide Apply, Complete, IsTerminalAttempt, GateNext, SettlerNext, RowsAfter, RunAfter, QueueAfter, DeadAfter;
    StepShared(s, cmd);
    StepPc(s, cmd, cmd.a);
  }

  /** Whoever carries after a step has carried before, or has just got the task. */
  lemma CarriedBefore(s: State, cmd: Command, a: Actor, m: Model)
    requires Enabled(s, cmd) && Carries(Apply(s, cmd), a, m)
    ensures Carries(s, a, m) || GainsCopy(s, cmd, m) || (cmd.Deliver? && cmd.d in s.queue && cmd.d.model == m)
    ensures cmd.WriteEnd? && cmd.a == a ==> PcOf(s, a).how.NackIt?
  {
    hide Apply, Complete, IsTerminalAttempt, RowsAfter, RunAfter, QueueAfter, DeadAfter;
    StepShared(s, cmd);
    CameWithTask(s, cmd, a);
  }

  lemma StoredBefore(s: State, cmd: Command, m: Model)
    requires Enabled(s, cmd) && Stored(Apply(s, cmd), m)
    ensures Stored(s, m) || GainsCopy(s, cmd, m)
  {
    hide Apply, GivenBack, IsTerminalAttempt;
    StepShared(s, cmd);
  }

  /** What a step does to the copies of a task, exactly. */
  lemma CopyStep(s: State, cmd: Command, m: Model)
    requires Enabled(s, cmd)
    ensures HasCopy(s, m) ==> (!HasCopy(Apply(s, cmd), m) <==> LosesCopy(s, cmd, m))
    ensures !HasCopy(s, m) ==> (HasCopy(Apply(s, cmd), m) <==> GainsCopy(s, cmd, m))
  {
    hide Apply, Enabled, Carries, GainsCopy, Stored, LosesCopy;
    var s' := Apply(s, cmd);
    if HasCopy(s, m) {
      if LosesCopy(s, cmd, m) { Lost(s, cmd, m); } else { NotLost(s, cmd, m); }
    } else {
      if GainsCopy(s, cmd, m) { Gained(s, cmd, m); }
      if HasCopy(s', m) { NotGained(s, cmd, m); }
    }
  }

  lemma NotLost(s: State, cmd: Command, m: Model)
    requires Enabled(s, cmd) && HasCopy(s, m) && !LosesCopy(s, cmd, m)
    ensures HasCopy(Apply(s, cmd), m)
  {
    hide Apply, Enabled, Carries, Stored;
    if Stored(s, m) {
      StoredStays(s, cmd, m);
    } else {
      var a :| Carries(s, a, m);
      if cmd.WriteEnd? && exists b :: Carries(s, b, m) && b != cmd.a { a :| Carries(s, a, m) && a != cmd.a; }
      CarrierSteps(s, cmd, a, m);
      if GivenBack(s, cmd).Some? && GivenBack(s, cmd).value.model == m { GivenBackIsStored(s, cmd, m); }
    }
  }

  lemma Lost(s: State, cmd: Command, m: Model)
    requires Enabled(s, cmd) && LosesCopy(s, cmd, m)
    ensures !HasCopy(Apply(s, cmd), m)
  {
    hide Apply, Carries, Stored;
    var s' := Apply(s, cmd);
    if Stored(s', m) { StoredBefore(s, cmd, m); }
    if a :| Carries(s', a, m) { CarriedBefore(s, cmd, a, m); }
  }

  lemma Gained(s: State, cmd: Command, m: Model)
    requires Enabled(s, cmd) && GainsCopy(s, cmd, m)
    ensures HasCopy(Apply(s, cmd), m)
  {
    hide Apply, GivenBack, Stored;
    if GivenBack(s, cmd).Some? && GivenBack(s, cmd).value.model == m {
      GivenBackIsStored(s, cmd, m);
    } else {
      FailedAckCarries(s, cmd);
    }
  }

  lemma FailedAckCarries(s: State, cmd: Command)
    requires Enabled(s, cmd) && cmd.Settle? && !cmd.ok && PcOf(s, cmd.a).how.AckOrFail? && cmd.a !in s.moved
    ensures Carries(Apply(s, cmd), cmd.a, PcOf(s, cmd.a).d.model)
  {
    hide Apply, IsTerminalAttempt;
    StepShared(s, cmd);
    StepPc(s, cmd, cmd.a);
  }

  lemma NotGained(s: State, cmd: Command, m: Model)
    requires Enabled(s, cmd) && !HasCopy(s, m) && HasCopy(Apply(s, cmd), m)
    ensures GainsCopy(s, cmd, m)
  {
    hide Apply, Enabled, Carries, GainsCopy;
    var s' := Apply(s, cmd);
    if Stored(s', m) {
      StoredBefore(s, cmd, m);
    } else {
      var a :| Carries(s', a, m);
      CarriedBefore(s, cmd, a, m);
    }
  }

  // ---------------------------------------------------------------------------
  // Forgotten models
  // ---------------------------------------------------------------------------

  /** The step leaves an open row without a task: the last carrier's terminal write fails and
      the task is going to be acked all the same, or a row that has ended is reopened by a
      runner whose task there is no other copy of and is not its own any more. */
  ghost predicate Forgets(s: State, cmd: Command, m: Model)
    requires Enabled(s, cmd)
  {
    || (LosesCopy(s, cmd, m) && !cmd.ok && !Ended(s, m))
    || (ReopensRow(s, cmd, m) && !HasCopy(s, m))
  }

  /** The step ends the row after all, or brings a task back. */
  predicate Recovers(s: State, cmd: Command, m: Model)
    requires Enabled(s, cmd)
  {
    EndsRow(s, cmd, m) || GainsCopy(s, cmd, m)
  }

  lemma CareStep(s: State, cmd: Command, m: Model)
    requires Enabled(s, cmd) && m in s.rows
    ensures Cared(s, m) ==> (!Cared(Apply(s, cmd), m) <==> Forgets(s, cmd, m))
    ensures !Cared(s, m) ==> (Cared(Apply(s, cmd), m) <==> Recovers(s, cmd, m))
    ensures Forgets(s, cmd, m) ==> Cared(s, m)
  {
    hide Apply, HasCopy, Carries, Stored;
    RowStep(s, cmd, m);
    CopyStep(s, cmd, m);
    if LosesCopy(s, cmd, m) {
      LoserHasCopy(s, cmd, m);
      EndWrite(s, cmd, m);
    }
  }

  lemma LoserHasCopy(s: State, cmd: Command, m: Model)
    requires Enabled(s, cmd) && LosesCopy(s, cmd, m)
    ensures HasCopy(s, m) && PcOf(s, cmd.a).d.model == m
  {
  }

  ghost predicate ForgetsAt(t: Trace, j: nat, m: Model)
    requires IsRun(t)
  {
    j < |t.cmds| && StepOk(t, j) && Forgets(t.states[j], t.cmds[j], m)
  }

  predicate RecoversAt(t: Trace, e: nat, m: Model)
    requires IsRun(t)
  {
    e < |t.cmds| && StepOk(t, e) && Recovers(t.states[e], t.cmds[e], m)
  }

  predicate Unrecovered(t: Trace, i: nat, k: nat, m: Model)
    requires IsRun(t)
  {
    forall e: nat :: i <= e < k ==> !RecoversAt(t, e, m)
  }

  /** Some step before k leaves m without a task and its row open, and none since recovers it. */
  ghost predicate ForgottenSince(t: Trace, k: nat, m: Model)
    requires IsRun(t)
  {
    exists j: nat :: j < k && ForgetsAt(t, j, m) && Unrecovered(t, j + 1, k, m)
  }

  /** Exactly when a model is forgotten, over every run, whoever crashes and whatever fails or
      is reclaimed, retried, forced or reopened: its row is open and its task nowhere if and
      only if some step has lost it and none since has recovered it. */
  lemma {:induction false} ForgottenExactly(t: Trace, k: nat, m: Model)
    requires IsFreshRun(t) && k <= |t.cmds| && m in t.states[0].rows && Cared(t.states[0], m)
    ensures !Cared(t.states[k], m) <==> ForgottenSince(t, k, m)
  {
    hide IsRun, Cared, ForgetsAt, RecoversAt, ForgottenSince, Fresh;
    if k == 0 {
      NotYet(t, m);
    } else {
      ForgottenExactly(t, k - 1, m);
      CareAt(t, k - 1, m);
      OneStepMore(t, k - 1, m);
    }
  }

  lemma CareAt(t: Trace, k: nat, m: Model)
    requires IsRun(t) && k < |t.cmds| && m in t.states[0].rows
    ensures Cared(t.states[k + 1], m) <==> if Cared(t.states[k], m) then !ForgetsAt(t, k, m) else RecoversAt(t, k, m)
    ensures ForgetsAt(t, k, m) ==> Cared(t.states[k], m)
  {
    hide Apply, Enabled, Cared, Forgets, Recovers;
    assert StepOk(t, k);
    SameRows(t, k, m);
    CareStep(t.states[k], t.cmds[k], m);
  }

  lemma NotYet(t: Trace, m: Model)
    requires IsRun(t)
    ensures !ForgottenSince(t, 0, m)
  {
  }

  lemma OneStepMore(t: Trace, k: nat, m: Model)
    requires IsRun(t)
    ensures ForgottenSince(t, k + 1, m) <==> ForgetsAt(t, k, m) || (ForgottenSince(t, k, m) && !RecoversAt(t, k, m))
  {
    hide IsRun, ForgetsAt, RecoversAt;
    if ForgetsAt(t, k, m) { assert Unrecovered(t, k + 1, k + 1, m); }
    if ForgottenSince(t, k, m) && !RecoversAt(t, k, m) {
      var j: nat :| j < k && ForgetsAt(t, j, m) && Unrecovered(t, j + 1, k, m);
      assert Unrecovered(t, j + 1, k + 1, m);
    }
    if ForgottenSince(t, k + 1, m) && !ForgetsAt(t, k, m) {
      var j: nat :| j < k + 1 && ForgetsAt(t, j, m) && Unrecovered(t, j + 1, k + 1, m);
      assert Unrecovered(t, j + 1, k, m);
    }
  }

  /** In particular, no model is forgotten in a run in which no ended row is reopened and every
      terminal write goes through. */
  lemma NoModelForgotten(t: Trace, k: nat, m: Model)
    requires IsFreshRun(t) && NeverReopens(t) && k <= |t.cmds| && m in t.states[0].rows && Cared(t.states[0], m)
    requires forall j :: 0 <= j < k ==> EndWritten(t.cmds[j])
    ensures Cared(t.states[k], m)
  {
    hide Apply, Enabled, Cared, Reopens, ReopensRow;
    ForgottenExactly(t, k, m);
    if ForgottenSince(t, k, m) {
      var j: nat :| j < k && ForgetsAt(t, j, m);
      ReopensSome(t.states[j], t.cmds[j], m);
    }
  }

  // ---------------------------------------------------------------------------
  // Recovery
  // ---------------------------------------------------------------------------

  /** The stale-run reaper ends every row that was left open, forgotten or not: an undisturbed
      call on a run that is stale and not stopped leaves every row terminal and the run marked. */
  lemma ReaperRecovers(t: Trace, a: Actor, staleAfter: nat) returns (t': Trace)
    requires IsFreshRun(t) && PcOf(Last(t), a).Idle?
    requires IsStaleRunningRun(Last(t).run, Last(t).clock, staleAfter) && !Last(t).signal
    ensures IsFreshRun(t') && t'.cmds == t.cmds + [ReapCheckStale(a, staleAfter), ReapReadSignal(a), ReapMark(a), ReapFailRows(a)]
    ensures Last(t').rows == ForceRows(Last(t).rows, Failed) && AllTerminal(Last(t').rows)
    ensures Last(t').run == Last(t).run.(reaped := true)
  {
    hide Apply, Enabled, StepOk, Fresh, AllTerminal, ForceRows;
    ForcedRowsEnd(Last(t).rows, Failed);
    ReapCheckStaleRule(Last(t), a, staleAfter);
    t' := Grow(t, ReapCheckStale(a, staleAfter));
    ReapReadSignalRule(Last(t'), a);
    t' := Grow(t', ReapReadSignal(a));
    ReapMarkRule(Last(t'), a);
    t' := Grow(t', ReapMark(a));
    ReapFailRowsRule(Last(t'), a);
    t' := Grow(t', ReapFailRows(a));
  }

  /** The gate opens: an undisturbed call on a run whose rows have all ended, or which has been
      stopped for ten minutes, is admitted unless a stop is still awaiting its runner, and the
      rows it left open are stopped. */
  lemma GateOpens(t: Trace, a: Actor) returns (t': Trace)
    requires IsFreshRun(t) && PcOf(Last(t), a).Idle?
    requires var s := Last(t);
             || !s.run.status.RunStopped? || !s.signal
             || s.run.finishedAt.None? || s.clock >= s.run.finishedAt.value + 600_000
    requires var s := Last(t);
             || (s.rows != map[] && forall m :: m in s.rows ==> Terminal(s.rows[m]))
             || (s.run.status.RunStopped? && (s.run.finishedAt.None? || s.clock >= s.run.finishedAt.value + 600_000))
    ensures IsFreshRun(t') && PcOf(Last(t'), a).Admitted? && Last(t').run == Last(t).run
    ensures t'.cmds == t.cmds + [PrepReadRecord(a), PrepReadSignal(a), PrepCheckRows(a)]
                       + if Complete(Last(t).rows) then [] else [PrepForce(a)]
    ensures Last(t').rows.Keys == Last(t).rows.Keys
    ensures forall m :: m in Last(t).rows ==>
              Last(t').rows[m] == if Terminal(Last(t).rows[m]) then Last(t).rows[m] else Stopped
  {
    hide Apply, Enabled, StepOk, Fresh;
    var rec := Last(t).run;
    PrepReadRecordRule(Last(t), a);
    t' := Grow(t, PrepReadRecord(a));
    PrepReadSignalRule(Last(t'), a);
    t' := Grow(t', PrepReadSignal(a));
    PrepCheckRowsRule(Last(t'), a);
    t' := Grow(t', PrepCheckRows(a));
    if !Complete(Last(t).rows) {
      PrepForceRule(Last(t'), a);
      t' := Grow(t', PrepForce(a));
    }
  }

  lemma Grow(t: Trace, cmd: Command) returns (t': Trace)
    requires IsFreshRun(t) && Enabled(Last(t), cmd)
    ensures IsFreshRun(t') && t'.cmds == t.cmds + [cmd] && Last(t') == Apply(Last(t), cmd)
  {
    hide Apply, Enabled, Fresh;
    ExtendIsRun(t, cmd);
    t' := Extend(t, cmd);
  }
}
