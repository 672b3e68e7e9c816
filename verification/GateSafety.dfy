/** Safety of the stop and finalize gate: which steps keep tasks of ended rows out of the
    runners' hands, and what then holds in every run. */
module GateSafety {
  import opened Wrappers
  import opened TaskQueue
  import opened StopGate
  import opened GateRuns

  // ---------------------------------------------------------------------------
  // Stray deliveries
  // ---------------------------------------------------------------------------

  /** The task of m is in the queue, or with a runner that has yet to look at the signal. */
  ghost predicate Outstanding(s: State, m: Model) {
    || (exists d :: d in s.queue && d.model == m)
    || (exists a :: PcOf(s, a).Delivered? && PcOf(s, a).d.model == m)
  }

  ghost predicate SomeoneOnTheWay(s: State, m: Model) {
    exists a :: OnItsWay(PcOf(s, a)) && PcOf(s, a).d.model == m
  }

  /** A task of m in these places would reopen the row of m, if it had ended. */
  ghost predicate Loose(s: State, m: Model) {
    SomeoneOnTheWay(s, m) || (!s.signal && Outstanding(s, m))
  }

  ghost predicate NoStrays(s: State) {
    forall m :: Ended(s, m) ==> !Loose(s, m)
  }

  // ---------------------------------------------------------------------------
  // The discipline
  // ---------------------------------------------------------------------------

  /** A row is ended only while its task is not loose; the signal is cleared only when no
      ended row has its task outstanding; and the task of an ended row goes back to the queue
      only under the signal. */
  ghost predicate Orderly(s: State, cmd: Command)
    requires Enabled(s, cmd)
  {
    && (forall m :: EndsRow(s, cmd, m) ==> !Loose(s, m))
    && (cmd.AckClear? ==> forall m :: Ended(s, m) ==> !Outstanding(s, m))
    && (Requeued(s, cmd).Some? && Ended(s, Requeued(s, cmd).value.model) ==> s.signal)
  }

  lemma CameDelivered(s: State, cmd: Command, a: Actor)
    requires Enabled(s, cmd) && PcOf(Apply(s, cmd), a).Delivered?
    ensures var pc' := PcOf(Apply(s, cmd), a);
            pc' == PcOf(s, a) || (cmd == Deliver(a, pc'.d) && pc'.d in s.queue)
  {
    hide Apply, Complete, IsTerminalAttempt;
    CameWithTask(s, cmd, a);
  }

  /** A task comes loose by clearing the signal or by going back to the queue without it. */
  lemma LooseBecomes(s: State, cmd: Command, m: Model)
    requires Enabled(s, cmd) && Loose(Apply(s, cmd), m) && !Loose(s, m)
    ensures || (cmd.AckClear? && Outstanding(s, m))
            || (Requeued(s, cmd).Some? && Requeued(s, cmd).value.model == m && !s.signal)
  {
    hide Apply;
    var s' := Apply(s, cmd);
    StepShared(s, cmd);
    if SomeoneOnTheWay(s', m) {
      var a :| OnItsWay(PcOf(s', a)) && PcOf(s', a).d.model == m;
      CameOnItsWay(s, cmd, a);
    } else if Outstanding(s', m) {
      OutstandingBecomes(s, cmd, m);
    }
  }

  lemma OutstandingBecomes(s: State, cmd: Command, m: Model)
    requires Enabled(s, cmd) && Outstanding(Apply(s, cmd), m)
    ensures Outstanding(s, m) || (Requeued(s, cmd).Some? && Requeued(s, cmd).value.model == m)
  {
    hide Apply, Requeued, Enabled;
    var s' := Apply(s, cmd);
    StepShared(s, cmd);
    if d :| d in s'.queue && d.model == m {
    } else {
      var a :| PcOf(s', a).Delivered? && PcOf(s', a).d.model == m;
      CameDelivered(s, cmd, a);
    }
  }

  /** Ending a row and clearing the signal leave every task where it is. */
  lemma LooseStays(s: State, cmd: Command, m: Model)
    requires Enabled(s, cmd) && (cmd.AckClear? || exists other :: EndsRow(s, cmd, other))
    ensures Outstanding(s, m) ==> Outstanding(Apply(s, cmd), m)
    ensures SomeoneOnTheWay(s, m) ==> SomeoneOnTheWay(Apply(s, cmd), m)
  {
    hide Apply;
    StepShared(s, cmd);
    forall a | PcOf(s, a).Delivered? || OnItsWay(PcOf(s, a)) ensures PcOf(Apply(s, cmd), a) == PcOf(s, a) {
      StepPc(s, cmd, a);
    }
  }

  /** Exactly when a step leaves no stray task behind. */
  lemma NoStraysExactlyWhenOrderly(s: State, cmd: Command)
    requires NoStrays(s) && Enabled(s, cmd)
    ensures NoStrays(Apply(s, cmd)) <==> Orderly(s, cmd)
  {
    hide Apply, Enabled, Loose, Outstanding, NoStrays, Orderly;
    if Orderly(s, cmd) { OrderlyKeeps(s, cmd); }
    if NoStrays(Apply(s, cmd)) { KeptIsOrderly(s, cmd); }
  }

  lemma OrderlyKeeps(s: State, cmd: Command)
    requires NoStrays(s) && Enabled(s, cmd) && Orderly(s, cmd)
    ensures NoStrays(Apply(s, cmd))
  {
    hide Apply, Loose, Outstanding, IsTerminalAttempt;
    var s' := Apply(s, cmd);
    forall m | Ended(s', m) ensures !Loose(s', m) {
      RowStep(s, cmd, m);
      if Loose(s', m) { LooseBecomes(s, cmd, m); }
    }
  }

  lemma KeptIsOrderly(s: State, cmd: Command)
    requires NoStrays(s) && Enabled(s, cmd) && NoStrays(Apply(s, cmd))
    ensures Orderly(s, cmd)
  {
    hide Apply, Requeued, Outstanding;
    var s' := Apply(s, cmd);
    StepShared(s, cmd);
    forall m | EndsRow(s, cmd, m) ensures !Loose(s, m) {
      RowStep(s, cmd, m);
      LooseStays(s, cmd, m);
    }
    if cmd.AckClear? {
      forall m | Ended(s, m) ensures !Outstanding(s, m) {
        RowStep(s, cmd, m);
        LooseStays(s, cmd, m);
      }
    }
    if Requeued(s, cmd).Some? && Ended(s, Requeued(s, cmd).value.model) {
      RequeuedIsOutstanding(s, cmd);
    }
  }

  lemma RequeuedIsOutstanding(s: State, cmd: Command)
    requires Enabled(s, cmd) && Requeued(s, cmd).Some? && Ended(s, Requeued(s, cmd).value.model)
    ensures Outstanding(Apply(s, cmd), Requeued(s, cmd).value.model)
    ensures Ended(Apply(s, cmd), Requeued(s, cmd).value.model) && !cmd.AckClear? && !cmd.StopMark?
  {
    hide Apply, IsTerminalAttempt;
    StepShared(s, cmd);
    RowStep(s, cmd, Requeued(s, cmd).value.model);
    assert Requeued(s, cmd).value in Apply(s, cmd).queue;
  }

  // ---------------------------------------------------------------------------
  // The gate
  // ---------------------------------------------------------------------------

  /** Operations that have seen every row terminal. */
  predicate SawEnd(pc: Pc) { pc.AckClearing? || pc.Admitted? || AtFinalizer(pc) }

  ghost predicate Inv(s: State) {
    && (forall a :: SawEnd(PcOf(s, a)) ==> AllTerminal(s.rows))
    && (Settled(s.run.status) ==> AllTerminal(s.rows))
    && (s.signalled && !s.signal ==> AllTerminal(s.rows))
  }

  lemma CameToClear(s: State, cmd: Command, a: Actor)
    requires Enabled(s, cmd) && PcOf(Apply(s, cmd), a).AckClearing?
    ensures PcOf(Apply(s, cmd), a) == PcOf(s, a) || (cmd == AckCheckRows(a) && Complete(s.rows))
  {
    hide Apply, Complete, IsTerminalAttempt;
    CameWithTask(s, cmd, a);
  }

  lemma StepKeepsInv(s: State, cmd: Command)
    requires Inv(s) && Enabled(s, cmd) && !Reopens(s, cmd)
    ensures Inv(Apply(s, cmd))
  {
    hide Apply, Reopens;
    if AllTerminal(s.rows) {
      TerminalUnlessReopened(s, cmd);
    } else {
      hide AllTerminal;
      RowsOpen(s, cmd);
    }
  }

  /** While some row has not ended, the gate opens only by forcing the rows. */
  lemma RowsOpen(s: State, cmd: Command)
    requires Inv(s) && Enabled(s, cmd) && !AllTerminal(s.rows)
    ensures Inv(Apply(s, cmd))
  {
    hide Apply, AllTerminal, Claimable, ForceRows, SetRow, IsStopGraceElapsed, IsStopAwaitingRunner;
    hide QueueAfter, DeadAfter, MovedAfter;
    var s' := Apply(s, cmd);
    StepShared(s, cmd);
    ForcedRowsEnd(s.rows, Stopped);
    forall a | SawEnd(PcOf(s', a)) ensures cmd.PrepForce? {
      if AtGate(PcOf(s', a)) { CameToGate(s, cmd, a); }
      else if AtFinalizer(PcOf(s', a)) { CameToFinalizer(s, cmd, a); }
      else { CameToClear(s, cmd, a); }
    }
  }

  lemma FreshInv(s: State)
    requires Fresh(s)
    ensures Inv(s)
  {
  }

  lemma {:induction false} RunKeepsInv(t: Trace, k: nat)
    requires IsFreshRun(t) && NeverReopens(t) && k <= |t.cmds|
    ensures Inv(t.states[k])
  {
    hide Apply, Enabled, Reopens, Inv, Fresh;
    if k == 0 {
      FreshInv(t.states[0]);
    } else {
      RunKeepsInv(t, k - 1);
      assert StepOk(t, k - 1);
      StepKeepsInv(t.states[k - 1], t.cmds[k - 1]);
    }
  }

  /** What the gate is for: an admitted finalizer finds every row terminal; a cancel signal
      that a stop has set is clear only if every row is; and a run that is finalizing or
      finished has only terminal rows. */
  ghost predicate GateHolds(s: State) {
    && (forall a :: PcOf(s, a).Admitted? ==> AllTerminal(s.rows))
    && (s.signalled && !s.signal ==> AllTerminal(s.rows))
    && (Settled(s.run.status) ==> AllTerminal(s.rows))
  }

  /** The gate holds in every run that overtakes no task. */
  lemma SafeUnlessOvertaken(t: Trace, k: nat)
    requires IsFreshRun(t) && k <= |t.cmds| && forall n: nat, w: nat :: !Overtaken(t, n, w)
    ensures GateHolds(t.states[k])
  {
    hide NeverReopens, Overtaken, AllTerminal;
    ReopensExactlyWhenOvertaken(t);
    RunKeepsInv(t, k);
  }

  // ---------------------------------------------------------------------------
  // Orderly runs
  // ---------------------------------------------------------------------------

  ghost predicate OrderlyRun(t: Trace)
    requires IsRun(t)
  {
    forall k: nat :: k < |t.cmds| ==> StepOk(t, k) && Orderly(t.states[k], t.cmds[k])
  }

  lemma {:induction false} RunHasNoStrays(t: Trace, k: nat)
    requires IsFreshRun(t) && OrderlyRun(t) && k <= |t.cmds|
    ensures NoStrays(t.states[k])
  {
    hide Apply, Enabled, Orderly, Loose;
    if k > 0 {
      RunHasNoStrays(t, k - 1);
      hide NoStrays;
      assert StepOk(t, k - 1);
      NoStraysExactlyWhenOrderly(t.states[k - 1], t.cmds[k - 1]);
    }
  }

  lemma OrderlyNeverReopens(t: Trace)
    requires IsFreshRun(t) && OrderlyRun(t)
    ensures NeverReopens(t)
  {
    hide Apply, Orderly, NoStrays;
    forall k: nat | k < |t.cmds| ensures StepOk(t, k) && !Reopens(t.states[k], t.cmds[k]) {
      assert StepOk(t, k);
      RunHasNoStrays(t, k);
      StraysReopen(t.states[k], t.cmds[k]);
    }
  }

  lemma StraysReopen(s: State, cmd: Command)
    requires NoStrays(s) && Enabled(s, cmd)
    ensures !Reopens(s, cmd)
  {
    if Begins(cmd) {
      assert OnItsWay(PcOf(s, cmd.a));
      assert SomeoneOnTheWay(s, PcOf(s, cmd.a).d.model);
    }
  }

  /** Safety of the gate over every orderly interleaving of runners, stoppers, watchers,
      reapers and queue deliveries. */
  lemma GateSafety(t: Trace, k: nat)
    requires IsFreshRun(t) && OrderlyRun(t) && k <= |t.cmds|
    ensures GateHolds(t.states[k])
  {
    hide AllTerminal, OrderlyRun, NeverReopens;
    OrderlyNeverReopens(t);
    RunKeepsInv(t, k);
  }

  /** ... and once the gate has admitted a finalizer every row stays terminal, with the very
      status it has but for the finalizers' index patch. */
  lemma {:induction false} AdmittedStaysTerminal(t: Trace, n: nat, k: nat, a: Actor)
    requires IsFreshRun(t) && OrderlyRun(t) && n <= k <= |t.cmds| && PcOf(t.states[n], a).Admitted?
    ensures AllTerminal(t.states[k].rows)
    ensures (forall j :: n <= j < k ==> !t.cmds[j].PatchRow?) ==> t.states[k].rows == t.states[n].rows
  {
    hide Apply, Enabled, Reopens, Orderly;
    OrderlyNeverReopens(t);
    if n == k {
      RunKeepsInv(t, n);
    } else {
      AdmittedStaysTerminal(t, n, k - 1, a);
      assert StepOk(t, k - 1);
      TerminalUnlessReopened(t.states[k - 1], t.cmds[k - 1]);
      if !t.cmds[k - 1].PatchRow? { TerminalRowsKept(t.states[k - 1], t.cmds[k - 1]); }
    }
  }

  lemma TerminalRowsKept(s: State, cmd: Command)
    requires Enabled(s, cmd) && AllTerminal(s.rows) && !Reopens(s, cmd) && !cmd.PatchRow?
    ensures Apply(s, cmd).rows == s.rows
  {
    hide Apply, Enabled;
    forall m ensures m in Apply(s, cmd).rows <==> m in s.rows
             ensures m in s.rows ==> Apply(s, cmd).rows[m] == s.rows[m]
    {
      RowStep(s, cmd, m);
      if m in s.rows { EndedRowsKeepStatus(s, cmd, m); }
    }
  }
}
