/** Runs of the stop and finalize gate: what every interleaving has to say about the steps
    of one operation, about the rows, the signal and the claims. */
module GateRuns {
  import opened Wrappers
  import opened TaskQueue
  import opened StopGate

  /** states[k] is the state before cmds[k]. */
  datatype Trace = Trace(states: seq<State>, cmds: seq<Command>)

  predicate Shaped(t: Trace) { |t.states| == |t.cmds| + 1 }

  predicate StepOk(t: Trace, k: nat)
    requires Shaped(t) && k < |t.cmds|
  {
    Enabled(t.states[k], t.cmds[k]) && t.states[k + 1] == Apply(t.states[k], t.cmds[k])
  }

  predicate IsRun(t: Trace) {
    Shaped(t) && forall k: nat :: k < |t.cmds| ==> StepOk(t, k)
  }

  function Last(t: Trace): State
    requires Shaped(t)
  {
    t.states[|t.cmds|]
  }

  /** A run starts with no stop in progress, nobody at work and no row ended. */
  predicate Fresh(s: State) {
    && s.run.status.RunRunning? && !s.signal && !s.signalled
    && s.pcs == map[] && s.moved == {}
    && forall m :: m in s.rows ==> !Terminal(s.rows[m])
  }

  predicate IsFreshRun(t: Trace) { IsRun(t) && Fresh(t.states[0]) }

  function Extend(t: Trace, cmd: Command): Trace
    requires Shaped(t) && Enabled(Last(t), cmd)
  {
    Trace(t.states + [Apply(Last(t), cmd)], t.cmds + [cmd])
  }

  lemma ExtendIsRun(t: Trace, cmd: Command)
    requires IsRun(t) && Enabled(Last(t), cmd)
    ensures IsRun(Extend(t, cmd)) && Last(Extend(t, cmd)) == Apply(Last(t), cmd)
    ensures Extend(t, cmd).states[0] == t.states[0]
  {
    hide Apply, Enabled;
    var t' := Extend(t, cmd);
    forall k: nat | k < |t'.cmds| ensures StepOk(t', k) {
      if k < |t.cmds| { assert StepOk(t, k); }
    }
  }

  // ---------------------------------------------------------------------------
  // One operation
  // ---------------------------------------------------------------------------

  /** `a` takes no step between two positions. */
  predicate Quiet(t: Trace, a: Actor, i: nat, j: nat)
    requires i <= j <= |t.cmds|
  {
    forall k :: i <= k < j ==> ActorOf(t.cmds[k]) != Some(a)
  }

  lemma {:induction false} QuietKeepsPc(t: Trace, a: Actor, i: nat, j: nat)
    requires IsRun(t) && i <= j <= |t.cmds| && Quiet(t, a, i, j)
    ensures PcOf(t.states[j], a) == PcOf(t.states[i], a)
  {
    hide Apply, Enabled, PcOf, ActorOf;
    if i < j {
      QuietKeepsPc(t, a, i, j - 1);
      assert StepOk(t, j - 1);
      StepPc(t.states[j - 1], t.cmds[j - 1], a);
    }
  }

  /** Whoever is at work got there by a step of its own. */
  lemma {:induction false} LastStep(t: Trace, a: Actor, k: nat) returns (n: nat)
    requires IsFreshRun(t) && k <= |t.cmds| && !PcOf(t.states[k], a).Idle?
    ensures n < k && ActorOf(t.cmds[n]) == Some(a) && Quiet(t, a, n + 1, k)
    ensures PcOf(t.states[n + 1], a) == PcOf(t.states[k], a)
  {
    hide Apply, Enabled;
    assert k > 0;
    n := k - 1;
    assert StepOk(t, n);
    StepPc(t.states[n], t.cmds[n], a);
    if ActorOf(t.cmds[n]) != Some(a) { n := LastStep(t, a, n); }
  }

  // ---------------------------------------------------------------------------
  // Rows
  // ---------------------------------------------------------------------------

  /** No write of the run reopens a row that has ended. */
  predicate NeverReopens(t: Trace)
    requires IsRun(t)
  {
    forall k: nat :: k < |t.cmds| ==> StepOk(t, k) && !Reopens(t.states[k], t.cmds[k])
  }

  lemma {:induction false} SameRows(t: Trace, k: nat, m: Model)
    requires IsRun(t) && k <= |t.cmds|
    ensures m in t.states[k].rows <==> m in t.states[0].rows
  {
    hide Apply, Enabled;
    if k > 0 {
      SameRows(t, k - 1, m);
      assert StepOk(t, k - 1);
      RowStep(t.states[k - 1], t.cmds[k - 1], m);
    }
  }

  /** An ended row stays ended until some step reopens it. */
  lemma {:induction false} ReopenedBetween(t: Trace, i: nat, k: nat, m: Model) returns (j: nat)
    requires IsRun(t) && i <= k <= |t.cmds| && Ended(t.states[i], m) && !Ended(t.states[k], m)
    ensures i <= j < k && StepOk(t, j) && ReopensRow(t.states[j], t.cmds[j], m)
  {
    hide Apply, Enabled;
    j := k - 1;
    assert StepOk(t, j);
    RowStep(t.states[j], t.cmds[j], m);
    if !Ended(t.states[j], m) { j := ReopenedBetween(t, i, j, m); }
  }

  /** A row that ends is ended by some step. */
  lemma {:induction false} EndedBetween(t: Trace, i: nat, k: nat, m: Model) returns (j: nat)
    requires IsRun(t) && i <= k <= |t.cmds| && !Ended(t.states[i], m) && Ended(t.states[k], m)
    ensures i <= j < k && StepOk(t, j) && EndsRow(t.states[j], t.cmds[j], m)
  {
    hide Apply, Enabled;
    j := k - 1;
    assert StepOk(t, j);
    RowStep(t.states[j], t.cmds[j], m);
    if Ended(t.states[j], m) { j := EndedBetween(t, i, j, m); }
  }

  /** From position n on until its write at k, `a` is on its way with a task: it passed the
      check at n with the signal clear. */
  predicate UnderWay(t: Trace, n: nat, k: nat)
    requires IsRun(t)
  {
    && n < k < |t.cmds| && t.cmds[n].CheckSignal? && Begins(t.cmds[k]) && t.cmds[k].a == t.cmds[n].a
    && StepOk(t, n) && !t.states[n].signal
    && var a := t.cmds[n].a;
       forall j :: n < j <= k ==> OnItsWay(PcOf(t.states[j], a)) && PcOf(t.states[j], a).d == PcOf(t.states[n], a).d
  }

  /** ... although the row had ended when it passed the check, or was ended since. */
  predicate Overtaken(t: Trace, n: nat, k: nat)
    requires IsRun(t)
  {
    && UnderWay(t, n, k)
    && var m := PcOf(t.states[n], t.cmds[n].a).d.model;
       || Ended(t.states[n], m)
       || exists j: nat :: n < j < k && StepOk(t, j) && EndsRow(t.states[j], t.cmds[j], m)
  }

  /** Every write of 'claimed' or 'running' belongs to a task that passed the check. */
  lemma {:induction false} TakenUp(t: Trace, k: nat, a: Actor) returns (n: nat)
    requires IsFreshRun(t) && k <= |t.cmds| && OnItsWay(PcOf(t.states[k], a))
    ensures n < k && t.cmds[n] == CheckSignal(a) && StepOk(t, n) && !t.states[n].signal
    ensures PcOf(t.states[n], a).Delivered?
    ensures forall j :: n < j <= k ==> OnItsWay(PcOf(t.states[j], a)) && PcOf(t.states[j], a).d == PcOf(t.states[n], a).d
  {
    hide Apply, Enabled;
    assert k > 0;
    assert StepOk(t, k - 1);
    CameOnItsWay(t.states[k - 1], t.cmds[k - 1], a);
    if t.cmds[k - 1] == CheckSignal(a) { n := k - 1; } else { n := TakenUp(t, k - 1, a); }
  }

  lemma CameOnItsWay(s: State, cmd: Command, a: Actor)
    requires Enabled(s, cmd) && OnItsWay(PcOf(Apply(s, cmd), a))
    ensures var pc, pc' := PcOf(s, a), PcOf(Apply(s, cmd), a);
            if cmd == CheckSignal(a) then pc.Delivered? && pc'.d == pc.d && !s.signal
            else OnItsWay(pc) && pc'.d == pc.d
  {
    hide Apply, Complete, IsTerminalAttempt;
    CameWithTask(s, cmd, a);
  }

  /** Exactly when rows that have ended are reopened, over every run: some task is taken up
      past the signal check although its row has ended, or its row is ended by somebody
      between that check and the write. */
  lemma ReopensExactlyWhenOvertaken(t: Trace)
    requires IsFreshRun(t)
    ensures !NeverReopens(t) <==> exists n: nat, k: nat :: Overtaken(t, n, k)
  {
    hide Apply, Enabled, Reopens, ReopensRow, EndsRow, Overtaken;
    if !NeverReopens(t) {
      var k: nat :| k < |t.cmds| && !(StepOk(t, k) && !Reopens(t.states[k], t.cmds[k]));
      var n := OvertakenBefore(t, k);
    }
    if exists n: nat, k: nat :: Overtaken(t, n, k) {
      var n: nat, k: nat :| Overtaken(t, n, k);
      OvertakenReopens(t, n, k);
    }
  }

  lemma OvertakenBefore(t: Trace, k: nat) returns (n: nat)
    requires IsFreshRun(t) && k < |t.cmds| && StepOk(t, k) && Reopens(t.states[k], t.cmds[k])
    ensures Overtaken(t, n, k)
  {
    hide Apply;
    var a := t.cmds[k].a;
    n := TakenUp(t, k, a);
    var m := PcOf(t.states[n], a).d.model;
    if !Ended(t.states[n], m) {
      var j := EndedBetween(t, n, k, m);
      assert j != n;
    }
  }

  lemma OvertakenReopens(t: Trace, n: nat, k: nat)
    requires IsFreshRun(t) && Overtaken(t, n, k)
    ensures !NeverReopens(t)
  {
    hide Apply;
    var m := PcOf(t.states[n], t.cmds[n].a).d.model;
    var i := n;
    if !Ended(t.states[n], m) {
      var j: nat :| n < j < k && StepOk(t, j) && EndsRow(t.states[j], t.cmds[j], m);
      RowStep(t.states[j], t.cmds[j], m);
      i := j + 1;
    }
    assert StepOk(t, k);
    if Ended(t.states[k], m) {
      assert Reopens(t.states[k], t.cmds[k]);
    } else {
      var j := ReopenedBetween(t, i, k, m);
      assert Reopens(t.states[j], t.cmds[j]);
    }
  }

  // ---------------------------------------------------------------------------
  // What prepareRunFinalization decides
  // ---------------------------------------------------------------------------

  /** One call of prepareRunFinalization by `a`, with others running in between: it read the
      record at n1, the signal at n2 and the rows at n3. */
  predicate Consulted(t: Trace, a: Actor, n1: nat, n2: nat, n3: nat)
    requires Shaped(t)
  {
    && n1 < n2 < n3 < |t.cmds|
    && t.cmds[n1] == PrepReadRecord(a) && t.cmds[n2] == PrepReadSignal(a) && t.cmds[n3] == PrepCheckRows(a)
    && Quiet(t, a, n1 + 1, n2) && Quiet(t, a, n2 + 1, n3)
  }

  /** What the three reads have to show, and at which step the call returns true. */
  predicate Admits(t: Trace, a: Actor, n1: nat, n2: nat, n3: nat, k: nat)
    requires Shaped(t) && Consulted(t, a, n1, n2, n3)
  {
    && n3 <= k < |t.cmds|
    && !IsStopAwaitingRunner(t.states[n1].run, t.states[n2].signal, t.states[n2].clock)
    && if Complete(t.states[n3].rows) then k == n3
       else IsStopGraceElapsed(t.states[n1].run, t.states[n3].clock)
            && n3 < k && t.cmds[k] == PrepForce(a) && Quiet(t, a, n3 + 1, k)
  }

  /** Exactly when a step admits `a`, whatever others do between its reads. */
  lemma PrepareDecides(t: Trace, a: Actor, k: nat)
    requires IsFreshRun(t) && k < |t.cmds| && ActorOf(t.cmds[k]) == Some(a)
    ensures PcOf(t.states[k + 1], a).Admitted?
            <==> exists n1: nat, n2: nat, n3: nat :: Consulted(t, a, n1, n2, n3) && Admits(t, a, n1, n2, n3, k)
  {
    hide Apply, Enabled, Quiet, Consulted, Admits;
    if PcOf(t.states[k + 1], a).Admitted? {
      var n1, n2, n3 := AdmittedAfter(t, a, k);
    }
    if exists n1: nat, n2: nat, n3: nat :: Consulted(t, a, n1, n2, n3) && Admits(t, a, n1, n2, n3, k) {
      var n1: nat, n2: nat, n3: nat :| Consulted(t, a, n1, n2, n3) && Admits(t, a, n1, n2, n3, k);
      AdmitsLeads(t, a, n1, n2, n3, k);
    }
  }

  lemma AdmittedAfter(t: Trace, a: Actor, k: nat) returns (n1: nat, n2: nat, n3: nat)
    requires IsFreshRun(t) && k < |t.cmds| && ActorOf(t.cmds[k]) == Some(a) && PcOf(t.states[k + 1], a).Admitted?
    ensures Consulted(t, a, n1, n2, n3) && Admits(t, a, n1, n2, n3, k)
  {
    hide Apply, Enabled, PcOf, IsStopAwaitingRunner, IsStopGraceElapsed, Complete;
    assert StepOk(t, k);
    CameToGate(t.states[k], t.cmds[k], a);
    n3 := k;
    if t.cmds[k].PrepForce? {
      n3 := LastStep(t, a, k);
      assert StepOk(t, n3);
      CameToGate(t.states[n3], t.cmds[n3], a);
    }
    n1, n2 := PassedBefore(t, a, n3);
  }

  /** Whoever reads the rows has passed the stop test. */
  lemma PassedBefore(t: Trace, a: Actor, n3: nat) returns (n1: nat, n2: nat)
    requires IsFreshRun(t) && n3 < |t.cmds| && PcOf(t.states[n3], a).PrepPassed?
    ensures n1 < n2 < n3 && t.cmds[n1] == PrepReadRecord(a) && t.cmds[n2] == PrepReadSignal(a)
    ensures Quiet(t, a, n1 + 1, n2) && Quiet(t, a, n2 + 1, n3)
    ensures PcOf(t.states[n3], a).rec == t.states[n1].run
    ensures !IsStopAwaitingRunner(t.states[n1].run, t.states[n2].signal, t.states[n2].clock)
  {
    hide Apply, Enabled, PcOf, IsStopAwaitingRunner, IsStopGraceElapsed, Complete;
    n2 := LastStep(t, a, n3);
    assert StepOk(t, n2);
    CameToGate(t.states[n2], t.cmds[n2], a);
    n1 := LastStep(t, a, n2);
    assert StepOk(t, n1);
    CameToGate(t.states[n1], t.cmds[n1], a);
  }

  lemma AdmitsLeads(t: Trace, a: Actor, n1: nat, n2: nat, n3: nat, k: nat)
    requires IsRun(t) && Consulted(t, a, n1, n2, n3) && Admits(t, a, n1, n2, n3, k)
    ensures PcOf(t.states[k + 1], a).Admitted?
  {
    hide IsStopAwaitingRunner, IsStopGraceElapsed, Complete, Apply, Enabled;
    assert StepOk(t, k);
    AdmitStep(t.states[k], t.cmds[k], a);
  }

  lemma AdmitStep(s: State, cmd: Command, a: Actor)
    requires Enabled(s, cmd) && (cmd == PrepForce(a) || (cmd == PrepCheckRows(a) && Complete(s.rows)))
    ensures PcOf(Apply(s, cmd), a).Admitted?
  {
    hide Apply, Complete;
    StepPc(s, cmd, a);
  }

  // ---------------------------------------------------------------------------
  // What the reaper does under a signal
  // ---------------------------------------------------------------------------

  /** A stop set the signal at i, and nobody cleared it from then to k. */
  predicate MarkedAt(t: Trace, i: nat, k: nat)
    requires i < k <= |t.cmds|
  {
    t.cmds[i].StopMark? && forall j :: i < j < k ==> !t.cmds[j].AckClear?
  }

  /** ... at n or later. */
  predicate MarkedSince(t: Trace, n: nat, k: nat)
    requires n <= k <= |t.cmds|
  {
    exists i: nat :: n <= i < k && MarkedAt(t, i, k)
  }

  lemma {:induction false} SignalSince(t: Trace, n: nat, k: nat)
    requires IsRun(t) && n <= k <= |t.cmds| && !t.states[n].signal
    ensures t.states[k].signal <==> MarkedSince(t, n, k)
  {
    hide Apply, Enabled;
    if n < k {
      SignalSince(t, n, k - 1);
      assert StepOk(t, k - 1);
      StepShared(t.states[k - 1], t.cmds[k - 1]);
      MarkedOneMore(t, n, k - 1);
    }
  }

  lemma MarkedOneMore(t: Trace, n: nat, k: nat)
    requires n <= k < |t.cmds|
    ensures MarkedSince(t, n, k + 1) <==> t.cmds[k].StopMark? || (MarkedSince(t, n, k) && !t.cmds[k].AckClear?)
  {
    if t.cmds[k].StopMark? { assert MarkedAt(t, k, k + 1); }
    if MarkedSince(t, n, k) && !t.cmds[k].AckClear? {
      var i: nat :| n <= i < k && MarkedAt(t, i, k);
      assert MarkedAt(t, i, k + 1);
    }
    if MarkedSince(t, n, k + 1) {
      var i: nat :| n <= i < k + 1 && MarkedAt(t, i, k + 1);
      if i < k { assert MarkedAt(t, i, k); }
    }
  }

  /** One call of reconcileStaleRunningRun by `a`, with others running in between: it looked
      at the run at n1, at the signal at n2, marked at n3 and fails the rows at k. */
  predicate Reaps(t: Trace, a: Actor, n1: nat, n2: nat, n3: nat, k: nat)
    requires Shaped(t)
  {
    && n1 < n2 < n3 < k < |t.cmds|
    && t.cmds[n1].ReapCheckStale? && t.cmds[n1].a == a && t.cmds[n2] == ReapReadSignal(a)
    && t.cmds[n3] == ReapMark(a) && t.cmds[k] == ReapFailRows(a)
    && Quiet(t, a, n1 + 1, n2) && Quiet(t, a, n2 + 1, n3) && Quiet(t, a, n3 + 1, k)
  }

  /** Whoever fails rows has found the run stale and the signal clear. */
  lemma ReconcileDecides(t: Trace, a: Actor, k: nat) returns (n1: nat, n2: nat, n3: nat)
    requires IsFreshRun(t) && k < |t.cmds| && t.cmds[k] == ReapFailRows(a)
    ensures Reaps(t, a, n1, n2, n3, k)
    ensures IsStaleRunningRun(t.states[n1].run, t.states[n1].clock, t.cmds[n1].staleAfter) && !t.states[n2].signal
  {
    hide Apply, Enabled, PcOf, IsStaleRunningRun;
    assert StepOk(t, k);
    ReadyToFail(t.states[k], a);
    n3 := LastStep(t, a, k);
    assert StepOk(t, n3);
    CameToReaper(t.states[n3], t.cmds[n3], a);
    n2 := LastStep(t, a, n3);
    assert StepOk(t, n2);
    CameToReaper(t.states[n2], t.cmds[n2], a);
    n1 := LastStep(t, a, n2);
    assert StepOk(t, n1);
    CameToReaper(t.states[n1], t.cmds[n1], a);
  }

  lemma ReadyToFail(s: State, a: Actor)
    requires Enabled(s, ReapFailRows(a))
    ensures PcOf(s, a).ReapMarked?
  {
  }

  /** "Runs with a live cancel signal are untouched", exactly: the reaper that found the
      signal clear at n2 fails rows under a live signal if and only if a stop set the signal
      since and nobody cleared it again; and it changes rows if and only if some row had not
      ended. */
  lemma ReapsUnderSignal(t: Trace, a: Actor, n2: nat, k: nat)
    requires IsRun(t) && n2 < k < |t.cmds| && t.cmds[n2] == ReapReadSignal(a) && t.cmds[k] == ReapFailRows(a)
    requires !t.states[n2].signal
    ensures t.states[k].signal <==> MarkedSince(t, n2 + 1, k)
    ensures t.states[k + 1].rows != t.states[k].rows <==> !AllTerminal(t.states[k].rows)
    ensures AllTerminal(t.states[k + 1].rows)
  {
    hide Apply, Enabled, MarkedSince;
    assert StepOk(t, n2) && StepOk(t, k);
    StepShared(t.states[n2], t.cmds[n2]);
    SignalSince(t, n2 + 1, k);
    StepShared(t.states[k], t.cmds[k]);
    ForcedChange(t.states[k].rows, Failed);
  }

  lemma ForcedChange(rows: Rows, status: RowStatus)
    requires Terminal(status)
    ensures ForceRows(rows, status) != rows <==> !AllTerminal(rows)
    ensures AllTerminal(ForceRows(rows, status))
  {
    if AllTerminal(rows) {
      assert forall m :: m in rows ==> ForceRows(rows, status)[m] == rows[m];
    } else {
      var m :| m in rows && !Terminal(rows[m]);
      assert ForceRows(rows, status)[m] == status;
    }
  }

  // ---------------------------------------------------------------------------
  // One stop
  // ---------------------------------------------------------------------------

  /** At most one stopRun has updated the record, and it has not yet set the signal or is
      done; who has won a claim, or read the record since, saw a settled run. */
  ghost predicate OneStop(s: State) {
    && (s.run.status.RunRunning? ==> !s.signalled)
    && (forall a :: PcOf(s, a).StopMarking? ==> !s.signalled && !s.run.status.RunRunning?)
    && (forall a, b :: PcOf(s, a).StopMarking? && PcOf(s, b).StopMarking? ==> a == b)
    && (forall a :: AtFinalizer(PcOf(s, a)) ==> Settled(s.run.status))
    && (forall a :: PcOf(s, a).Patching? ==> Settled(PcOf(s, a).rec.status))
  }

  lemma StepKeepsOneStop(s: State, cmd: Command)
    requires OneStop(s) && Enabled(s, cmd)
    ensures OneStop(Apply(s, cmd))
  {
    hide Apply, Enabled, Claimable;
    var s' := Apply(s, cmd);
    StepShared(s, cmd);
    RecordMoves(s, cmd);
    if cmd.StopMark? { Marking(s, cmd); }
    forall a | PcOf(s', a).StopMarking?
      ensures !s'.signalled && !s'.run.status.RunRunning?
      ensures PcOf(s, a).StopMarking? || (cmd == StopUpdate(a) && s.run.status.RunRunning?)
    {
      CameToGate(s, cmd, a);
    }
    forall a | AtFinalizer(PcOf(s', a))
      ensures Settled(s'.run.status) && (PcOf(s', a).Patching? ==> Settled(PcOf(s', a).rec.status))
    {
      CameToFinalizer(s, cmd, a);
    }
  }

  lemma Marking(s: State, cmd: Command)
    requires Enabled(s, cmd) && cmd.StopMark?
    ensures PcOf(s, cmd.a).StopMarking? && PcOf(Apply(s, cmd), cmd.a).Idle?
  {
  }

  /** The record moves forward only: running, stopped, settled. */
  lemma RecordMoves(s: State, cmd: Command)
    requires OneStop(s) && Enabled(s, cmd)
    ensures var st, st' := s.run.status, Apply(s, cmd).run.status;
            && (Settled(st) ==> Settled(st'))
            && (st.RunStopped? ==> Settled(st') || Apply(s, cmd).run == s.run)
            && (st'.RunRunning? ==> st.RunRunning?)
            && (cmd.StopUpdate? && st.RunRunning? ==> st'.RunStopped?)
            && (cmd.ClaimFinalization? && Claimable(s.run, s.clock) ==> Settled(st'))
  {
    hide Apply, Claimable;
    StepShared(s, cmd);
  }

  lemma {:induction false} RunKeepsOneStop(t: Trace, k: nat)
    requires IsFreshRun(t) && k <= |t.cmds|
    ensures OneStop(t.states[k])
  {
    hide Apply, Enabled;
    if k > 0 {
      RunKeepsOneStop(t, k - 1);
      hide OneStop;
      assert StepOk(t, k - 1);
      StepKeepsOneStop(t.states[k - 1], t.cmds[k - 1]);
    }
  }

  lemma {:induction false} SettledStays(t: Trace, i: nat, k: nat)
    requires IsFreshRun(t) && i <= k <= |t.cmds| && Settled(t.states[i].run.status)
    ensures Settled(t.states[k].run.status)
  {
    hide Apply, Enabled, OneStop;
    if i < k {
      SettledStays(t, i, k - 1);
      assert StepOk(t, k - 1);
      RunKeepsOneStop(t, k - 1);
      RecordMoves(t.states[k - 1], t.cmds[k - 1]);
    }
  }

  /** The grace of a stop is never extended: as long as the run is stopped its record, with
      the time of the stop, does not change. */
  lemma {:induction false} GraceNeverExtended(t: Trace, i: nat, k: nat)
    requires IsFreshRun(t) && i <= k <= |t.cmds|
    requires t.states[i].run.status.RunStopped? && t.states[k].run.status.RunStopped?
    ensures t.states[k].run == t.states[i].run
  {
    hide Apply, Enabled, OneStop;
    if i < k {
      assert StepOk(t, k - 1);
      RunKeepsOneStop(t, k - 1);
      RunKeepsOneStop(t, i);
      RecordMoves(t.states[k - 1], t.cmds[k - 1]);
      NotRunningAgain(t, i, k - 1);
      GraceNeverExtended(t, i, k - 1);
    }
  }

  lemma {:induction false} NotRunningAgain(t: Trace, i: nat, k: nat)
    requires IsFreshRun(t) && i <= k <= |t.cmds| && !t.states[i].run.status.RunRunning?
    ensures !t.states[k].run.status.RunRunning?
  {
    hide Apply, Enabled, OneStop;
    if i < k {
      NotRunningAgain(t, i, k - 1);
      assert StepOk(t, k - 1);
      RunKeepsOneStop(t, k - 1);
      RecordMoves(t.states[k - 1], t.cmds[k - 1]);
    }
  }

  /** Nobody has stopped the run or claimed it yet. */
  predicate LeftAlone(t: Trace, k: nat)
    requires k <= |t.cmds|
  {
    forall i :: 0 <= i < k ==> !t.cmds[i].StopUpdate? && !t.cmds[i].ClaimFinalization?
  }

  lemma RunningStep(s: State, cmd: Command)
    requires OneStop(s) && Enabled(s, cmd) && s.run.status.RunRunning?
    ensures var run' := Apply(s, cmd).run;
            && (run'.status.RunRunning? <==> !cmd.StopUpdate? && !cmd.ClaimFinalization?)
            && (run'.status.RunRunning? ==> run'.startedAt == s.run.startedAt)
  {
    hide Apply;
    StepShared(s, cmd);
  }

  lemma {:induction false} RunningExactly(t: Trace, k: nat)
    requires IsFreshRun(t) && k <= |t.cmds|
    ensures t.states[k].run.status.RunRunning? <==> LeftAlone(t, k)
    ensures t.states[k].run.status.RunRunning? ==> t.states[k].run.startedAt == t.states[0].run.startedAt
  {
    hide Apply, Enabled, OneStop;
    if k > 0 {
      RunningExactly(t, k - 1);
      assert StepOk(t, k - 1);
      RunKeepsOneStop(t, k - 1);
      if t.states[k - 1].run.status.RunRunning? {
        RunningStep(t.states[k - 1], t.cmds[k - 1]);
      } else {
        NotRunningAgain(t, k - 1, k);
      }
    }
  }

  /** In every run: it looks stale exactly when nobody has stopped or claimed it and so much
      time has passed since the start that was known at its launch. */
  lemma StaleExactly(t: Trace, k: nat, staleAfter: nat)
    requires IsFreshRun(t) && k <= |t.cmds|
    ensures IsStaleRunningRun(t.states[k].run, t.states[k].clock, staleAfter)
            <==> LeftAlone(t, k)
                 && exists start: nat :: t.states[0].run.startedAt == Some(start) && start + staleAfter <= t.states[k].clock
  {
    hide Fresh, StepOk, LeftAlone;
    RunningExactly(t, k);
    var started := t.states[0].run.startedAt;
    if started.Some? { assert started == Some(started.value); }
  }

  /** In every run: from a stop on and while the run is stopped, its runner is awaited for ten
      minutes under the signal, and after ten minutes the grace is over. */
  lemma GraceExactly(t: Trace, i: nat, k: nat, signal: bool, now: nat)
    requires IsFreshRun(t) && i < k <= |t.cmds| && t.cmds[i].StopUpdate? && t.states[i].run.status.RunRunning?
    requires t.states[k].run.status.RunStopped?
    ensures IsStopAwaitingRunner(t.states[k].run, signal, now) <==> signal && now < t.states[i].clock + 600_000
    ensures IsStopGraceElapsed(t.states[k].run, now) <==> now >= t.states[i].clock + 600_000
  {
    hide Fresh, Enabled, NextPc, RowsAfter, QueueAfter, DeadAfter, MovedAfter;
    assert StepOk(t, i);
    GraceNeverExtended(t, i + 1, k);
  }

  lemma {:induction false} SignalledStays(t: Trace, i: nat, k: nat)
    requires IsRun(t) && i <= k <= |t.cmds| && t.states[i].signalled
    ensures t.states[k].signalled
  {
    hide Apply, Enabled;
    if i < k {
      SignalledStays(t, i, k - 1);
      assert StepOk(t, k - 1);
      StepShared(t.states[k - 1], t.cmds[k - 1]);
    }
  }

  lemma {:induction false} SignalWasSet(t: Trace, k: nat)
    requires IsFreshRun(t) && k <= |t.cmds| && t.states[k].signal
    ensures t.states[k].signalled
  {
    hide Apply, Enabled;
    if k > 0 {
      assert StepOk(t, k - 1);
      StepShared(t.states[k - 1], t.cmds[k - 1]);
      if t.states[k - 1].signal { SignalWasSet(t, k - 1); }
    }
  }

  /** The signal is set at most once. */
  lemma SignalSetOnce(t: Trace, i: nat, k: nat)
    requires IsFreshRun(t) && i < |t.cmds| && k < |t.cmds| && t.cmds[i].StopMark? && t.cmds[k].StopMark?
    ensures i == k
  {
    hide Apply, Enabled;
    UnsetBefore(t, i);
    UnsetBefore(t, k);
    if i < k { SetAfter(t, i, k); } else if k < i { SetAfter(t, k, i); }
  }

  lemma UnsetBefore(t: Trace, k: nat)
    requires IsFreshRun(t) && k < |t.cmds| && t.cmds[k].StopMark?
    ensures !t.states[k].signalled
  {
    hide Apply, Enabled;
    assert StepOk(t, k);
    RunKeepsOneStop(t, k);
    Marking(t.states[k], t.cmds[k]);
  }

  lemma SetAfter(t: Trace, i: nat, k: nat)
    requires IsRun(t) && i < k < |t.cmds| && t.cmds[i].StopMark?
    ensures t.states[k].signalled
  {
    hide Apply, Enabled;
    assert StepOk(t, i);
    StepShared(t.states[i], t.cmds[i]);
    SignalledStays(t, i + 1, k);
  }

  // ---------------------------------------------------------------------------
  // One finalizer at a time
  // ---------------------------------------------------------------------------

  predicate Claims(t: Trace, k: nat)
    requires Shaped(t)
  {
    k < |t.cmds| && t.cmds[k].ClaimFinalization? && Claimable(t.states[k].run, t.states[k].clock)
  }

  lemma {:induction false} ClockGrows(t: Trace, i: nat, k: nat)
    requires IsRun(t) && i <= k <= |t.cmds|
    ensures t.states[i].clock <= t.states[k].clock
  {
    hide Apply, Enabled;
    if i < k {
      ClockGrows(t, i, k - 1);
      assert StepOk(t, k - 1);
      StepShared(t.states[k - 1], t.cmds[k - 1]);
    }
  }

  /** No step between two positions changes the run record. */
  predicate SameRun(t: Trace, i: nat, k: nat)
    requires Shaped(t) && i <= k <= |t.cmds|
  {
    forall j :: i <= j <= k ==> t.states[j].run == t.states[k].run
  }

  /** The step puts back a record that is claimed, by a claim that has gone stale at `now`. */
  predicate Restores(s: State, cmd: Command, now: nat)
    requires Enabled(s, cmd)
  {
    cmd.PatchRecord? &&
    var rec := PcOf(s, cmd.a).rec;
    rec.status.RunFinalizing? && rec.finishedAt.Some? && Claimable(rec, now)
  }

  /** The last step that changed the record, if any did. */
  lemma {:induction false} LastChange(t: Trace, n: nat, k: nat) returns (i: nat)
    requires IsRun(t) && n <= k <= |t.cmds| && t.states[n].run != t.states[k].run
    ensures n <= i < k && StepOk(t, i) && t.states[i].run != t.states[i + 1].run && SameRun(t, i + 1, k)
  {
    hide StepOk;
    i := k - 1;
    assert StepOk(t, i);
    if t.states[i].run == t.states[k].run { i := LastChange(t, n, i); }
  }

  /** A change that makes a claimed run claimable again, although less than two minutes have
      passed since `since`, restores an older record. */
  lemma ClaimableAgain(s: State, cmd: Command, since: nat, now: nat)
    requires OneStop(s) && Enabled(s, cmd) && Settled(s.run.status) && since <= s.clock
    requires now < since + FINALIZE_STALE_MS
    requires Apply(s, cmd).run != s.run && Claimable(Apply(s, cmd).run, now)
    ensures Restores(s, cmd, now) && Apply(s, cmd).run == PcOf(s, cmd.a).rec
  {
    hide Apply;
    StepShared(s, cmd);
    RecordMoves(s, cmd);
  }

  lemma RestoredRecord(s: State, cmd: Command, now: nat)
    requires Enabled(s, cmd) && Restores(s, cmd, now)
    ensures Claimable(Apply(s, cmd).run, now)
  {
    hide Apply;
    StepShared(s, cmd);
  }

  lemma ClaimStamps(s: State, cmd: Command)
    requires Enabled(s, cmd) && cmd.ClaimFinalization? && Claimable(s.run, s.clock)
    ensures Apply(s, cmd).run == s.run.(status := RunFinalizing, finishedAt := Some(s.clock))
  {
    hide Apply;
    StepShared(s, cmd);
  }

  /** Exactly when a second finalizer gets in within two minutes of a claim: the last change to
      the record is an index patch that has put back a record with a claim gone stale. */
  lemma SecondClaimExactly(t: Trace, n: nat, k: nat)
    requires IsFreshRun(t) && Claims(t, n) && n < k < |t.cmds| && t.cmds[k].ClaimFinalization?
    requires t.states[k].clock < t.states[n].clock + FINALIZE_STALE_MS
    ensures Claims(t, k)
            <==> exists i: nat :: n < i < k && StepOk(t, i) && Restores(t.states[i], t.cmds[i], t.states[k].clock)
                                  && SameRun(t, i + 1, k)
  {
    hide Apply, Enabled, Restores, Claimable, OneStop;
    if Claims(t, k) { var i := RestoredBefore(t, n, k); }
    if i: nat :| n < i < k && StepOk(t, i) && Restores(t.states[i], t.cmds[i], t.states[k].clock)
                 && SameRun(t, i + 1, k) {
      RestoredRecord(t.states[i], t.cmds[i], t.states[k].clock);
      assert t.states[i + 1].run == t.states[k].run;
    }
  }

  lemma RestoredBefore(t: Trace, n: nat, k: nat) returns (i: nat)
    requires IsFreshRun(t) && Claims(t, n) && n < k && Claims(t, k)
    requires t.states[k].clock < t.states[n].clock + FINALIZE_STALE_MS
    ensures n < i < k && StepOk(t, i) && Restores(t.states[i], t.cmds[i], t.states[k].clock) && SameRun(t, i + 1, k)
    ensures t.states[i + 1].run == PcOf(t.states[i], t.cmds[i].a).rec
  {
    hide Apply, Enabled, Restores, OneStop;
    assert StepOk(t, n);
    ClaimStamps(t.states[n], t.cmds[n]);
    ClockGrows(t, n, k);
    i := LastChange(t, n + 1, k);
    ClockGrows(t, n, i);
    SettledStays(t, n + 1, i);
    RunKeepsOneStop(t, i);
    assert t.states[i + 1].run == t.states[k].run;
    ClaimableAgain(t.states[i], t.cmds[i], t.states[n].clock, t.states[k].clock);
  }

  /** In particular: two claims within two minutes only if in between a finalizer writes back
      a record from before the first of them. */
  lemma ClaimsExclude(t: Trace, n: nat, k: nat) returns (i: nat)
    requires IsFreshRun(t) && n < k && Claims(t, n) && Claims(t, k)
    requires t.states[k].clock < t.states[n].clock + FINALIZE_STALE_MS
    ensures n < i < k && StepOk(t, i) && WritesBack(t.states[i], t.cmds[i], t.states[n].clock)
  {
    hide Apply, Enabled;
    i := RestoredBefore(t, n, k);
  }

  /** The step writes back a record from before `since`. */
  predicate WritesBack(s: State, cmd: Command, since: nat)
    requires Enabled(s, cmd)
  {
    cmd.PatchRecord? && PcOf(s, cmd.a).rec.finishedAt.Some? && PcOf(s, cmd.a).rec.finishedAt.value < since
  }
}
