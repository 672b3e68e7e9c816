/** Exactly when the stop and finalize gate holds, over every run and at every moment of it. */
module GateExact {
  import opened Wrappers
  import opened StopGate
  import opened GateRuns
  import opened GateSafety

  // ---------------------------------------------------------------------------
  // From a moment at which every row is terminal
  // ---------------------------------------------------------------------------

  /** At every moment from n to k. */
  predicate TerminalThroughout(t: Trace, n: nat, k: nat)
    requires Shaped(t) && n <= k <= |t.cmds|
  {
    forall j :: n <= j <= k ==> AllTerminal(t.states[j].rows)
  }

  /** Some task makes an overtaken write between n and k. */
  ghost predicate OvertakenWithin(t: Trace, n: nat, k: nat)
    requires IsRun(t)
  {
    exists i: nat, w: nat :: n <= w < k && Overtaken(t, i, w)
  }

  /** "And stays so", exactly: once every row is terminal, every row stays terminal if and only
      if no task makes an overtaken write from then on. */
  lemma StaysTerminalExactly(t: Trace, n: nat, k: nat)
    requires IsFreshRun(t) && n <= k <= |t.cmds| && AllTerminal(t.states[n].rows)
    ensures TerminalThroughout(t, n, k) <==> !OvertakenWithin(t, n, k)
  {
    hide Fresh, StepOk, Overtaken, AllTerminal;
    if OvertakenWithin(t, n, k) {
      var i: nat, w: nat :| n <= w < k && Overtaken(t, i, w);
      OvertakenOpensRow(t, i, w);
      assert !AllTerminal(t.states[w + 1].rows);
    } else {
      NoneOvertaken(t, n, k);
    }
  }

  lemma {:induction false} NoneOvertaken(t: Trace, n: nat, k: nat)
    requires IsFreshRun(t) && n <= k <= |t.cmds| && AllTerminal(t.states[n].rows) && !OvertakenWithin(t, n, k)
    ensures TerminalThroughout(t, n, k)
  {
    hide Apply, Enabled, Reopens, Overtaken, AllTerminal, Fresh;
    if n < k {
      NoneOvertaken(t, n, k - 1);
      assert StepOk(t, k - 1);
      assert AllTerminal(t.states[k - 1].rows);
      TerminalUnlessReopened(t.states[k - 1], t.cmds[k - 1]);
      if Reopens(t.states[k - 1], t.cmds[k - 1]) { var i := OvertakenBefore(t, k - 1); }
    }
  }

  function TaskModel(t: Trace, w: nat): Model
    requires Shaped(t) && w < |t.cmds| && ActorOf(t.cmds[w]).Some? && HasTask(PcOf(t.states[w], t.cmds[w].a))
  {
    PcOf(t.states[w], t.cmds[w].a).d.model
  }

  /** An overtaken write leaves its row open. */
  lemma OvertakenOpensRow(t: Trace, i: nat, w: nat)
    requires IsFreshRun(t) && Overtaken(t, i, w)
    ensures w < |t.cmds| && ActorOf(t.cmds[w]).Some? && HasTask(PcOf(t.states[w], t.cmds[w].a))
    ensures TaskModel(t, w) in t.states[w + 1].rows && !Ended(t.states[w + 1], TaskModel(t, w))
    ensures !AllTerminal(t.states[w + 1].rows)
  {
    hide Apply, Fresh;
    var m := PcOf(t.states[i], t.cmds[i].a).d.model;
    assert StepOk(t, w);
    WasThere(t, i, w, m);
    SameRows(t, w, m);
    BegunRow(t.states[w], t.cmds[w], m);
  }

  lemma WasThere(t: Trace, i: nat, w: nat, m: Model)
    requires IsFreshRun(t) && Overtaken(t, i, w) && m == PcOf(t.states[i], t.cmds[i].a).d.model
    ensures m in t.states[0].rows
  {
    hide Apply, Fresh;
    if Ended(t.states[i], m) {
      SameRows(t, i, m);
    } else {
      var j: nat :| i < j < w && StepOk(t, j) && EndsRow(t.states[j], t.cmds[j], m);
      SameRows(t, j, m);
    }
  }

  lemma BegunRow(s: State, cmd: Command, m: Model)
    requires Enabled(s, cmd) && Begins(cmd) && PcOf(s, cmd.a).d.model == m && m in s.rows
    ensures m in Apply(s, cmd).rows && !Terminal(Apply(s, cmd).rows[m])
  {
    hide Apply;
    StepShared(s, cmd);
  }

  // ---------------------------------------------------------------------------
  // At one later moment
  // ---------------------------------------------------------------------------

  /** Somebody ends the row of m after w and before k. */
  predicate EndedAgain(t: Trace, w: nat, k: nat, m: Model)
    requires IsRun(t)
  {
    exists e: nat :: w < e < k && e < |t.cmds| && StepOk(t, e) && EndsRow(t.states[e], t.cmds[e], m)
  }

  /** Every overtaken write between n and k is followed by a step that ends its row again. */
  ghost predicate AllCaught(t: Trace, n: nat, k: nat)
    requires IsFreshRun(t)
  {
    forall i: nat, w: nat :: n <= w < k && Overtaken(t, i, w) ==> Caught(t, i, w, k)
  }

  ghost predicate Caught(t: Trace, i: nat, w: nat, k: nat)
    requires IsFreshRun(t) && Overtaken(t, i, w)
  {
    EndedAgain(t, w, k, PcOf(t.states[i], t.cmds[i].a).d.model)
  }

  lemma {:induction false} LastReopened(t: Trace, n: nat, k: nat, m: Model) returns (w: nat)
    requires IsRun(t) && n <= k <= |t.cmds| && Ended(t.states[n], m) && !Ended(t.states[k], m)
    ensures n <= w < k && StepOk(t, w) && ReopensRow(t.states[w], t.cmds[w], m)
    ensures forall j :: w < j <= k ==> !Ended(t.states[j], m)
  {
    hide Apply, Enabled, Ended;
    w := k - 1;
    assert StepOk(t, w);
    RowStep(t.states[w], t.cmds[w], m);
    if !Ended(t.states[w], m) { w := LastReopened(t, n, w, m); }
  }

  /** Every row is terminal again at a later moment if and only if each overtaken write since
      has been followed by a step that ends its row. */
  lemma TerminalAgainExactly(t: Trace, n: nat, k: nat)
    requires IsFreshRun(t) && n <= k <= |t.cmds| && AllTerminal(t.states[n].rows)
    ensures AllTerminal(t.states[k].rows) <==> AllCaught(t, n, k)
  {
    hide Fresh, StepOk, Overtaken, AllTerminal;
    if AllTerminal(t.states[k].rows) {
      forall i: nat, w: nat | n <= w < k && Overtaken(t, i, w) ensures Caught(t, i, w, k) {
        TerminalCatches(t, i, w, k);
      }
    } else if AllCaught(t, n, k) {
      NotAllCaught(t, n, k);
    }
  }

  lemma TerminalCatches(t: Trace, i: nat, w: nat, k: nat)
    requires IsFreshRun(t) && w < k <= |t.cmds| && Overtaken(t, i, w) && AllTerminal(t.states[k].rows)
    ensures Caught(t, i, w, k)
  {
    hide Apply, EndsRow, Fresh;
    OvertakenOpensRow(t, i, w);
    var m := PcOf(t.states[i], t.cmds[i].a).d.model;
    SameRows(t, w + 1, m);
    SameRows(t, k, m);
    var e := EndedBetween(t, w + 1, k, m);
  }

  lemma NotAllCaught(t: Trace, n: nat, k: nat)
    requires IsFreshRun(t) && n <= k <= |t.cmds| && AllTerminal(t.states[n].rows) && !AllTerminal(t.states[k].rows)
    ensures !AllCaught(t, n, k)
  {
    hide Apply, Fresh, Overtaken, Reopens;
    var m :| m in t.states[k].rows && !Terminal(t.states[k].rows[m]);
    SameRows(t, k, m);
    SameRows(t, n, m);
    var w := LastReopened(t, n, k, m);
    ReopensIt(t.states[w], t.cmds[w], m);
    var i := OvertakenBefore(t, w);
    OvertakenTask(t, i, w);
    if Caught(t, i, w, k) {
      var e: nat :| w < e < k && e < |t.cmds| && StepOk(t, e) && EndsRow(t.states[e], t.cmds[e], m);
      RowStep(t.states[e], t.cmds[e], m);
    }
  }

  lemma ReopensIt(s: State, cmd: Command, m: Model)
    requires Enabled(s, cmd) && ReopensRow(s, cmd, m)
    ensures Reopens(s, cmd)
  {
  }

  lemma OvertakenTask(t: Trace, i: nat, w: nat)
    requires IsRun(t) && Overtaken(t, i, w)
    ensures HasTask(PcOf(t.states[w], t.cmds[w].a))
    ensures PcOf(t.states[w], t.cmds[w].a).d.model == PcOf(t.states[i], t.cmds[i].a).d.model
  {
  }

  // ---------------------------------------------------------------------------
  // The gate
  // ---------------------------------------------------------------------------

  /** The step reads the rows of a run that is complete, or forces them. */
  predicate Looks(s: State, cmd: Command) {
    ((cmd.PrepCheckRows? || cmd.AckCheckRows?) && Complete(s.rows)) || cmd.PrepForce?
  }

  lemma LooksEnded(s: State, cmd: Command)
    requires Enabled(s, cmd) && Looks(s, cmd)
    ensures AllTerminal(Apply(s, cmd).rows)
  {
    hide Apply, AllTerminal, ForceRows;
    StepShared(s, cmd);
    ForcedRowsEnd(s.rows, Stopped);
  }

  /** The gate is open: a finalizer is admitted, a signal that a stop has set is clear, or the
      run is finalizing or finished. */
  ghost predicate Open(s: State) {
    (exists a :: PcOf(s, a).Admitted?) || (s.signalled && !s.signal) || Settled(s.run.status)
  }

  /** Somebody has looked before k. */
  predicate LookedBefore(t: Trace, k: nat)
    requires IsRun(t)
  {
    exists c: nat :: c < k && c < |t.cmds| && StepOk(t, c) && Looks(t.states[c], t.cmds[c])
  }

  lemma StillLooked(t: Trace, c: nat, k: nat)
    requires IsRun(t) && c <= k && LookedBefore(t, c)
    ensures LookedBefore(t, k)
  {
  }

  lemma JustLooked(t: Trace, c: nat)
    requires IsRun(t) && c < |t.cmds| && StepOk(t, c) && Looks(t.states[c], t.cmds[c])
    ensures LookedBefore(t, c + 1)
  {
  }

  /** Whoever has seen every row terminal has looked, or somebody at its step has. */
  lemma {:induction false} SawEndLooked(t: Trace, k: nat, a: Actor)
    requires IsFreshRun(t) && k <= |t.cmds| && SawEnd(PcOf(t.states[k], a))
    ensures LookedBefore(t, k)
  {
    hide Apply, Enabled, LookedBefore, Looks;
    assert k > 0;
    assert StepOk(t, k - 1);
    CameToSee(t.states[k - 1], t.cmds[k - 1], a);
    if SawEnd(PcOf(t.states[k - 1], a)) {
      SawEndLooked(t, k - 1, a);
      StillLooked(t, k - 1, k);
    } else {
      JustLooked(t, k - 1);
    }
  }

  lemma CameToSee(s: State, cmd: Command, a: Actor)
    requires Enabled(s, cmd) && SawEnd(PcOf(Apply(s, cmd), a))
    ensures SawEnd(PcOf(s, a)) || Looks(s, cmd)
  {
    hide Apply, Complete, IsStopAwaitingRunner, IsStopGraceElapsed, Claimable;
    var pc' := PcOf(Apply(s, cmd), a);
    if pc'.Admitted? { CameToGate(s, cmd, a); }
    else if pc'.AckClearing? { CameToClear(s, cmd, a); }
    else { CameToFinalizer(s, cmd, a); }
  }

  /** The gate opens only by the hand of somebody who has seen every row terminal. */
  lemma OpenedBySight(s: State, cmd: Command)
    requires Enabled(s, cmd)
    ensures var s' := Apply(s, cmd);
            (s'.signalled && !s'.signal) || Settled(s'.run.status)
            ==> || (s.signalled && !s.signal) || Settled(s.run.status)
                || (ActorOf(cmd).Some? && SawEnd(PcOf(s, cmd.a)))
  {
    hide Apply, Claimable;
    StepShared(s, cmd);
  }

  lemma {:induction false} OpenLooked(t: Trace, k: nat)
    requires IsFreshRun(t) && k <= |t.cmds| && Open(t.states[k])
    ensures LookedBefore(t, k)
  {
    hide Apply, Enabled, LookedBefore;
    if a :| PcOf(t.states[k], a).Admitted? {
      SawEndLooked(t, k, a);
    } else {
      assert k > 0;
      assert StepOk(t, k - 1);
      OpenedBySight(t.states[k - 1], t.cmds[k - 1]);
      if Open(t.states[k - 1]) { OpenLooked(t, k - 1); } else { SawEndLooked(t, k - 1, t.cmds[k - 1].a); }
      StillLooked(t, k - 1, k);
    }
  }

  /** Every overtaken write since anybody looked has been caught. */
  ghost predicate CaughtSinceLooks(t: Trace, k: nat)
    requires IsFreshRun(t)
  {
    forall c: nat :: c < k && c < |t.cmds| && StepOk(t, c) && Looks(t.states[c], t.cmds[c]) ==> AllCaught(t, c + 1, k)
  }

  /** Exactly when the gate holds, at every moment of every run: it is not open, or every
      overtaken write since somebody has seen the rows terminal has been followed by a step
      that ends its row again. */
  lemma GateHoldsExactly(t: Trace, k: nat)
    requires IsFreshRun(t) && k <= |t.cmds|
    ensures GateHolds(t.states[k]) <==> (Open(t.states[k]) ==> CaughtSinceLooks(t, k))
  {
    hide Apply, Enabled, Fresh, AllTerminal, AllCaught, Looks;
    forall c: nat | c < k && c < |t.cmds| && StepOk(t, c) && Looks(t.states[c], t.cmds[c])
      ensures AllTerminal(t.states[k].rows) <==> AllCaught(t, c + 1, k)
    {
      LooksEnded(t.states[c], t.cmds[c]);
      TerminalAgainExactly(t, c + 1, k);
    }
    if Open(t.states[k]) { OpenLooked(t, k); }
  }

  // ---------------------------------------------------------------------------
  // From an admission, and from the check before a signal is cleared
  // ---------------------------------------------------------------------------

  /** From an admission on every row stays terminal if and only if no task makes an overtaken
      write. */
  lemma AdmittedStaysExactly(t: Trace, n: nat, k: nat, a: Actor)
    requires IsFreshRun(t) && n < k <= |t.cmds|
    requires ActorOf(t.cmds[n]) == Some(a) && PcOf(t.states[n + 1], a).Admitted?
    ensures AllTerminal(t.states[n + 1].rows)
    ensures TerminalThroughout(t, n + 1, k) <==> !OvertakenWithin(t, n + 1, k)
  {
    hide Apply, Enabled, Fresh, AllTerminal, Looks, TerminalThroughout, OvertakenWithin;
    assert StepOk(t, n);
    AdmittedLooks(t.states[n], t.cmds[n], a);
    LooksEnded(t.states[n], t.cmds[n]);
    StaysTerminalExactly(t, n + 1, k);
  }

  lemma AdmittedLooks(s: State, cmd: Command, a: Actor)
    requires Enabled(s, cmd) && ActorOf(cmd) == Some(a) && PcOf(Apply(s, cmd), a).Admitted?
    ensures Looks(s, cmd)
  {
    hide Apply, Complete;
    CameToGate(s, cmd, a);
  }

  /** The signal is cleared after a look at complete rows; when it is cleared every row is
      terminal if and only if each overtaken write since that look has been caught, and every
      row has been so all along if and only if there was no such write. */
  lemma ClearedExactly(t: Trace, k: nat) returns (n: nat)
    requires IsFreshRun(t) && k < |t.cmds| && t.cmds[k].AckClear?
    ensures n < k && t.cmds[n] == AckCheckRows(t.cmds[k].a) && Complete(t.states[n].rows)
    ensures AllTerminal(t.states[k + 1].rows) <==> AllCaught(t, n, k)
    ensures TerminalThroughout(t, n, k) <==> !OvertakenWithin(t, n, k)
  {
    hide Apply, Fresh, AllTerminal, AllCaught, TerminalThroughout, OvertakenWithin;
    assert StepOk(t, k);
    n := ClearingSince(t, k, t.cmds[k].a);
    StepShared(t.states[k], t.cmds[k]);
    TerminalAgainExactly(t, n, k);
    StaysTerminalExactly(t, n, k);
  }

  lemma {:induction false} ClearingSince(t: Trace, k: nat, a: Actor) returns (n: nat)
    requires IsFreshRun(t) && k <= |t.cmds| && PcOf(t.states[k], a).AckClearing?
    ensures n < k && t.cmds[n] == AckCheckRows(a) && Complete(t.states[n].rows)
    ensures forall j :: n < j <= k ==> PcOf(t.states[j], a).AckClearing?
  {
    hide Apply, Enabled, Complete;
    assert k > 0;
    n := k - 1;
    assert StepOk(t, n);
    CameToClear(t.states[n], t.cmds[n], a);
    if !(t.cmds[n] == AckCheckRows(a) && Complete(t.states[n].rows)) { n := ClearingSince(t, n, a); }
  }
}
