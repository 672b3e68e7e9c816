/** deliverDueNotifications (src/notifications/outbox.ts) as it is written, with other sweeps,
    crashes and manual retries between any two of its updates. */
module OutboxSweeps {
  import opened Wrappers
  import opened Outbox
  import TaskQueue

  // ---------------------------------------------------------------------------
  // Runs as traces
  // ---------------------------------------------------------------------------

  /** states[k] is before cmds[k]. */
  datatype Trace = Trace(states: seq<State>, cmds: seq<Command>)

  predicate Shaped(t: Trace) { |t.states| == |t.cmds| + 1 }

  predicate StepAt(t: Trace, k: nat)
    requires Shaped(t) && k < |t.cmds|
  {
    Enabled(t.states[k], t.cmds[k]) && t.states[k + 1] == Apply(t.states[k], t.cmds[k])
  }

  /** A run from the beginning. */
  ghost predicate IsRun(t: Trace) {
    Shaped(t) && t.states[0] == Init() && forall k: nat :: k < |t.cmds| ==> StepAt(t, k)
  }

  function Last(t: Trace): State
    requires Shaped(t)
  {
    t.states[|t.cmds|]
  }

  function Extend(t: Trace, cmd: Command): Trace
    requires Shaped(t) && Enabled(Last(t), cmd)
  {
    Trace(t.states + [Apply(Last(t), cmd)], t.cmds + [cmd])
  }

  predicate Continues(t: Trace, t': Trace) { t.states <= t'.states && t.cmds <= t'.cmds }

  /** From position i to position k only others have acted. */
  predicate OthersOnly(t: Trace, i: nat, k: nat, w: SweepId)
    requires k <= |t.cmds|
  {
    forall n: nat :: i <= n < k ==> !By(t.cmds[n], w)
  }

  predicate OthersRan(t: Trace, t': Trace, w: SweepId) {
    Continues(t, t') && OthersOnly(t', |t.cmds|, |t'.cmds|, w)
  }

  lemma ExtendIsRun(t: Trace, cmd: Command)
    requires IsRun(t) && Enabled(Last(t), cmd)
    ensures IsRun(Extend(t, cmd)) && Last(Extend(t, cmd)) == Apply(Last(t), cmd) && Continues(t, Extend(t, cmd))
  {
    hide Apply, Enabled;
    forall k: nat | k <= |t.cmds| ensures StepAt(Extend(t, cmd), k) {
      if k < |t.cmds| { assert StepAt(t, k); }
    }
  }

  lemma {:induction false} EarlierStartsAt(t: Trace, i: nat, k: nat)
    requires IsRun(t) && i <= k <= |t.cmds| && DistinctStarts(t.states[k])
    ensures DistinctStarts(t.states[i])
  {
    hide Apply, Enabled, DistinctStarts;
    if i < k {
      assert StepAt(t, k - 1);
      EarlierStarts(t.states[k - 1], t.cmds[k - 1]);
      EarlierStartsAt(t, i, k - 1);
    }
  }

  /** What Await relies on: any update by somebody else, or a new sweep with a start of its
      own, keeps the invariant, leaves this sweep where it is and settles nothing anew. */
  lemma OthersMayStep(t: Trace, t': Trace, cmd: Command, w: SweepId)
    requires IsRun(t) && IsRun(t') && OthersRan(t, t', w) && Inv(Last(t')) && Enabled(Last(t'), cmd) && !By(cmd, w)
    requires DistinctStarts(Last(t')) && DistinctStarts(Apply(Last(t'), cmd)) && w in Last(t').sweeps
    ensures var s, s' := Last(t'), Last(Extend(t', cmd));
            && Inv(s') && w in s'.sweeps && s'.sweeps[w] == s.sweeps[w] && s.settled <= s'.settled
    ensures IsRun(Extend(t', cmd)) && OthersRan(t, Extend(t', cmd), w)
  {
    hide Inv, DistinctStarts, Apply, Enabled, By;
    ExtendIsRun(t', cmd);
    CommandKeepsInv(Last(t'), cmd);
    OthersStay(Last(t'), cmd, w);
    SettledGrows(Last(t'), cmd);
  }

  // ---------------------------------------------------------------------------
  // What becomes of a row
  // ---------------------------------------------------------------------------

  /** The step at k writes this row and no other. */
  predicate SetsRow(t: Trace, k: nat, r: RowId, row: Row)
    requires Shaped(t) && k < |t.cmds|
  {
    t.states[k + 1].rows == t.states[k].rows[r := row]
  }

  predicate WritesNothing(t: Trace, k: nat)
    requires Shaped(t) && k < |t.cmds|
  {
    t.states[k + 1].rows == t.states[k].rows
  }

  /** A row after its failure number n, recorded at that time. */
  function AfterFailure(n: nat, now: nat): Row
    requires n >= 1
  {
    if n >= MAX_DELIVERY_ATTEMPTS then Row(Dead, n, None) else Row(Pending, n, Some(now + Backoff(n)))
  }

  /** The first retry waits a minute, each further one twice as long up to fifteen minutes. */
  lemma RetryDelays(n: nat)
    requires n >= 1
    ensures Backoff(1) == 60_000
    ensures Backoff(n + 1) == if 2 * Backoff(n) < MAX_BACKOFF_MS then 2 * Backoff(n) else MAX_BACKOFF_MS
  {
    assert TaskQueue.Pow2(n) == 2 * TaskQueue.Pow2(n - 1);
  }

  /** One row of a sweep: claimed, sent with that success, resolved. A row that is not due at
      the start of the sweep stays as it is. Otherwise the claim leases it and the resolution at
      `mark` is recorded exactly when the lease still stands then: a success delivers the row;
      a failure adds one to its count, and then, at `last`, it waits for a retry or is given up,
      unless the lease was lost in between. */
  predicate HandledAt(t: Trace, claim: nat, mark: nat, last: nat, w: SweepId, r: RowId, start: nat, success: bool, counted: bool)
    requires Shaped(t)
  {
    && claim <= last < |t.cmds| && t.cmds[claim] == Claim(w) && r in t.states[claim].rows
    && var row, lease := t.states[claim].rows[r], start + CLAIM_LEASE_MS;
       if !DueAt(row, start) then !counted && last == claim && WritesNothing(t, claim)
       else
         && claim < mark <= last && SetsRow(t, claim, r, row.(status := Sending, nextAttemptAt := Some(lease)))
         && OthersOnly(t, claim + 1, mark, w) && OthersOnly(t, mark + 1, last, w)
         && counted == OwnedRow(t.states[mark], r, lease)
         && if !counted then last == mark && WritesNothing(t, mark)
            else
              var sent := t.states[mark].rows[r];
              if success then last == mark && SetsRow(t, mark, r, Row(Delivered, sent.attempts, None))
              else
                && mark < last && SetsRow(t, mark, r, sent.(attempts := sent.attempts + 1))
                && if OwnedRow(t.states[last], r, lease)
                   then SetsRow(t, last, r, AfterFailure(sent.attempts + 1, t.states[last].clock))
                   else WritesNothing(t, last)
  }

  ghost predicate Handled(t: Trace, w: SweepId, r: RowId, start: nat, success: bool, counted: bool)
    requires Shaped(t)
  {
    exists claim: nat, mark: nat, last: nat :: HandledAt(t, claim, mark, last, w, r, start, success, counted)
  }

  lemma HandledStays(t: Trace, t': Trace, w: SweepId, r: RowId, start: nat, success: bool, counted: bool)
    requires Shaped(t) && Shaped(t') && Continues(t, t') && Handled(t, w, r, start, success, counted)
    ensures Handled(t', w, r, start, success, counted)
  {
    var claim: nat, mark: nat, last: nat :| HandledAt(t, claim, mark, last, w, r, start, success, counted);
    StillHandledAt(t, t', claim, mark, last, w, r, start, success, counted);
  }

  lemma StillHandledAt(t: Trace, t': Trace, claim: nat, mark: nat, last: nat, w: SweepId, r: RowId, start: nat,
                       success: bool, counted: bool)
    requires Shaped(t) && Shaped(t') && Continues(t, t')
    requires HandledAt(t, claim, mark, last, w, r, start, success, counted)
    ensures HandledAt(t', claim, mark, last, w, r, start, success, counted)
  {
    hide DueAt, Backoff, By, AfterFailure;
    assert forall k: nat :: k < |t.cmds| ==> t'.cmds[k] == t.cmds[k];
    assert forall k: nat :: k <= |t.cmds| ==> t'.states[k] == t.states[k];
  }

  /** Somebody retries the row by hand, or a sweep claims it that started after its lease
      had run out. */
  predicate TakesLease(s: State, cmd: Command, r: RowId)
    requires Enabled(s, cmd)
  {
    || cmd == ManualRetry(r)
    || (cmd.Claim? && s.sweeps[cmd.w].todo[0] == r && DueAt(s.rows[r], s.sweeps[cmd.w].start))
  }

  predicate TakesLeaseAt(t: Trace, k: nat, r: RowId)
    requires IsRun(t) && k < |t.cmds|
  {
    assert StepAt(t, k);
    TakesLease(t.states[k], t.cmds[k], r)
  }

  lemma LeaseStep(s: State, cmd: Command, w: SweepId, r: RowId)
    requires Enabled(s, cmd) && DistinctStarts(s) && w in s.sweeps && !By(cmd, w)
    requires OwnedRow(s, r, Lease(s.sweeps[w])) && !TakesLease(s, cmd, r)
    requires forall v :: v in s.sweeps && v != w && (s.sweeps[v].pc.Claimed? || s.sweeps[v].pc.Bumped?) ==>
               Lease(s.sweeps[v]) != Lease(s.sweeps[w])
    ensures var s' := Apply(s, cmd); w in s'.sweeps && s'.sweeps[w] == s.sweeps[w] && OwnedRow(s', r, Lease(s.sweeps[w]))
  {
    hide Backoff, DistinctStarts;
  }

  /** A send goes unrecorded only if the row was retried by hand or its lease had run out. */
  lemma {:induction false} LeaseLost(t: Trace, i: nat, k: nat, w: SweepId, r: RowId)
    requires IsRun(t) && i <= k <= |t.cmds| && DistinctStarts(Last(t)) && OthersOnly(t, i, k, w)
    requires w in t.states[i].sweeps && OwnedRow(t.states[i], r, Lease(t.states[i].sweeps[w]))
    ensures w in t.states[k].sweeps && t.states[k].sweeps[w] == t.states[i].sweeps[w]
    ensures OwnedRow(t.states[k], r, Lease(t.states[i].sweeps[w])) || exists n: nat :: i <= n < k && TakesLeaseAt(t, n, r)
  {
    hide Apply, Enabled, DistinctStarts, OwnedRow, TakesLease, By, Lease;
    if i < k {
      LeaseLost(t, i, k - 1, w, r);
      assert StepAt(t, k - 1);
      OthersStay(t.states[k - 1], t.cmds[k - 1], w);
      if OwnedRow(t.states[k - 1], r, Lease(t.states[i].sweeps[w])) && !TakesLeaseAt(t, k - 1, r) {
        EarlierStartsAt(t, k - 1, |t.cmds|);
        OwnLeases(t.states[k - 1], w);
        LeaseStep(t.states[k - 1], t.cmds[k - 1], w, r);
      }
    }
  }

  lemma UncountedLostLease(t: Trace, claim: nat, mark: nat, last: nat, w: SweepId, r: RowId, start: nat, success: bool)
    requires IsRun(t) && DistinctStarts(Last(t)) && HandledAt(t, claim, mark, last, w, r, start, success, false)
    requires DueAt(t.states[claim].rows[r], start) && w in t.states[claim].sweeps && t.states[claim].sweeps[w].start == start
    ensures exists n: nat :: claim < n < mark && TakesLeaseAt(t, n, r)
  {
    hide Apply, Enabled, DueAt, DistinctStarts, TakesLease;
    assert StepAt(t, claim);
    StartsStay(t.states[claim], t.cmds[claim], w);
    LeaseLost(t, claim + 1, mark, w, r);
    var n: nat :| claim + 1 <= n < mark && TakesLeaseAt(t, n, r);
  }

  lemma OwnLeases(s: State, w: SweepId)
    requires DistinctStarts(s) && w in s.sweeps
    ensures forall v :: v in s.sweeps && v != w ==> Lease(s.sweeps[v]) != Lease(s.sweeps[w])
  {
  }

  lemma SettledGrows(s: State, cmd: Command)
    requires Enabled(s, cmd)
    ensures s.settled <= Apply(s, cmd).settled
  {
    hide Backoff;
  }

  // ---------------------------------------------------------------------------
  // One sweep, with others running between its updates
  // ---------------------------------------------------------------------------

  class OutboxSweep {
    const me: SweepId
    var sys: State
    ghost var trace: Trace       // the run so far

    ghost predicate Valid()
      reads this
    {
      Shaped(trace) && IsRun(trace) && Last(trace) == sys && Inv(sys) && DistinctStarts(sys)
    }

    constructor (me: SweepId)
      ensures Valid() && sys == Init() && trace.cmds == [] && this.me == me
    {
      InitInv();
      this.me, sys, trace := me, Init(), Trace([Init()], []);
    }

    /** Whatever happens between two updates of this sweep: callers know only that the
        invariant holds, that this sweep has not moved and that what is settled stays so. */
    method Await()
      requires Valid() && me in sys.sweeps
      modifies this
      ensures Valid() && me in sys.sweeps && sys.sweeps[me] == old(sys.sweeps[me])
      ensures old(sys.settled) <= sys.settled && OthersRan(old(trace), trace, me) && Continues(old(trace), trace)
    {
    }

    method Update(cmd: Command)
      requires Valid() && Enabled(sys, cmd) && DistinctStarts(Apply(sys, cmd))
      modifies this
      ensures Valid() && sys == Apply(old(sys), cmd) && trace == Extend(old(trace), cmd) && Continues(old(trace), trace)
    {
      hide Inv, Apply, Enabled, DistinctStarts;
      CommandKeepsInv(sys, cmd);
      ExtendIsRun(trace, cmd);
      sys, trace := Apply(sys, cmd), Extend(trace, cmd);
    }

    /** Deliver every row of the batch; `sent` says how each send goes. Every row is claimed,
        sent and resolved. The counts are of distinct rows of the batch whose outcome was
        recorded, each counted once: as delivered when its send went well, as failed when it
        did not. */
    method DeliverDue(batch: seq<RowId>, sent: seq<bool>) returns (delivered: nat, failed: nat)
      requires Valid() && me !in sys.sweeps && IsBatch(sys, batch) && |sent| == |batch|
      requires forall w :: w in sys.sweeps ==> sys.sweeps[w].start != sys.clock
      modifies this
      ensures Valid() && me in sys.sweeps && Continues(old(trace), trace)
      ensures var w := sys.sweeps[me];
              && w.pc.Scanning? && w.todo == [] && w.start == old(sys.clock)
              && delivered == |w.delivered| && failed == |w.failed| && w.delivered !! w.failed
              && (forall r :: r in w.delivered + w.failed ==> r in batch)
              && (forall r :: r in w.delivered ==> (me, r) in sys.settled)
              && Results(trace, w, me, batch, sent, |batch|)
    {
      hide Inv, IsBatch, Apply, Enabled, DistinctStarts, Tally, Distinct, DueAt, Results, IsRun, Extend, OthersRan, Handled, Lease;
      ghost var t0 := trace;
      NewStart(sys, me, batch);
      Update(StartSweep(me, batch));
      delivered, failed := 0, 0;
      TallyStart(sys.sweeps[me].start, sys.settled, me, batch);
      NoResults(trace, sys.sweeps[me], me, batch, sent);
      for k := 0 to |batch|
        invariant Valid() && me in sys.sweeps && sys.sweeps[me].pc.Scanning? && sys.sweeps[me].start == old(sys.clock)
        invariant Tally(sys.sweeps[me], sys.settled, me, batch, k, delivered, failed)
        invariant Continues(t0, trace) && Results(trace, sys.sweeps[me], me, batch, sent, k)
      {
        ghost var before, t1 := sys, trace;
        Await();
        ghost var t2 := trace;
        TallyTodo(before.sweeps[me], before.settled, me, batch, k, delivered, failed);
        ResultsStay(t1, trace, sys.sweeps[me], me, batch, sent, k);
        var won, counted := DeliverRow(sent[k]);
        TallyStep(before, sys, me, batch, k, delivered, failed, counted, won);
        OneResultMore(t2, trace, before.sweeps[me], sys.sweeps[me], me, batch, sent, k, delivered, failed, before.settled, won, counted);
        if counted {
          if won { delivered := delivered + 1; } else { failed := failed + 1; }
        }
      }
      TallyDone(sys.sweeps[me], sys.settled, me, batch, delivered, failed);
    }

    /** Claim the first row of the list, send, and resolve. */
    method DeliverRow(success: bool) returns (won: bool, counted: bool)
      requires Valid() && me in sys.sweeps && sys.sweeps[me].pc.Scanning? && sys.sweeps[me].todo != []
      modifies this
      ensures Valid() && me in sys.sweeps && sys.sweeps[me].pc.Scanning? && old(sys.settled) <= sys.settled
      ensures Continues(old(trace), trace) && (counted ==> (won <==> success))
      ensures var w, w' := old(sys.sweeps[me]), sys.sweeps[me];
              && w'.todo == w.todo[1..] && w'.start == w.start
              && w'.delivered == w.delivered + (if counted && won then {w.todo[0]} else {})
              && w'.failed == w.failed + (if counted && !won then {w.todo[0]} else {})
              && (counted && won ==> (me, w.todo[0]) in sys.settled)
              && Handled(trace, me, w.todo[0], w.start, success, counted)
    {
      hide Inv, OwnedRow, DueAt, Backoff, Apply, DistinctStarts, IsRun, Handled, HandledAt;
      ghost var t0, claim := trace, |trace.cmds|;
      ghost var r, start := sys.sweeps[me].todo[0], sys.sweeps[me].start;
      won, counted := false, false;
      TodoExists(sys, me);
      StartsKept(sys, Claim(me));
      ClaimStep(sys, me);
      Update(Claim(me));
      ghost var t1 := trace;
      if !sys.sweeps[me].pc.Claimed? {
        NotDue(t0, t1, me, r, start, success);
        return;
      }
      Await();
      ghost var t2, mark := trace, |trace.cmds|;
      counted := OwnedRow(sys, sys.sweeps[me].pc.row, Lease(sys.sweeps[me]));
      if success {
        StartsKept(sys, MarkDelivered(me));
        MarkStep(sys, me);
        Update(MarkDelivered(me));
        won := true;
        SendRecorded(t0, t1, t2, trace, me, r, start, counted);
      } else {
        StartsKept(sys, Bump(me));
        BumpStep(sys, me);
        Update(Bump(me));
        ghost var t3 := trace;
        if sys.sweeps[me].pc.Bumped? {
          Await();
          ghost var t4 := trace;
          BumpedCount(sys, me);
          StartsKept(sys, Settle(me));
          SettleStep(sys, me);
          Update(Settle(me));
          FailureRecorded(t0, t1, t2, t3, t4, trace, me, r, start);
        } else {
          FailureLost(t0, t1, t2, trace, me, r, start);
        }
      }
    }
  }

  // ---------------------------------------------------------------------------
  // Its single updates
  // ---------------------------------------------------------------------------

  lemma ClaimStep(s: State, w: SweepId)
    requires Enabled(s, Claim(w))
    ensures var sweep, r, s' := s.sweeps[w], s.sweeps[w].todo[0], Apply(s, Claim(w));
            && w in s'.sweeps && s'.settled == s.settled
            && if DueAt(s.rows[r], sweep.start)
               then
                 && s'.sweeps[w] == sweep.(todo := sweep.todo[1..], pc := Claimed(r))
                 && s'.rows == s.rows[r := s.rows[r].(status := Sending, nextAttemptAt := Some(Lease(sweep)))]
               else s'.sweeps[w] == sweep.(todo := sweep.todo[1..]) && s'.rows == s.rows
  {
  }

  lemma MarkStep(s: State, w: SweepId)
    requires Enabled(s, MarkDelivered(w))
    ensures var sweep, r, s' := s.sweeps[w], s.sweeps[w].pc.row, Apply(s, MarkDelivered(w));
            && w in s'.sweeps && s.settled <= s'.settled
            && if OwnedRow(s, r, Lease(sweep))
               then
                 && s'.sweeps[w] == sweep.(pc := Scanning, delivered := sweep.delivered + {r}) && (w, r) in s'.settled
                 && r in s.rows && s'.rows == s.rows[r := Row(Delivered, s.rows[r].attempts, None)]
               else s'.sweeps[w] == sweep.(pc := Scanning) && s'.rows == s.rows
  {
  }

  lemma BumpStep(s: State, w: SweepId)
    requires Enabled(s, Bump(w))
    ensures var sweep, r, s' := s.sweeps[w], s.sweeps[w].pc.row, Apply(s, Bump(w));
            && w in s'.sweeps && s.settled <= s'.settled
            && if OwnedRow(s, r, Lease(sweep))
               then
                 && r in s.rows && s'.sweeps[w] == sweep.(pc := Bumped(r, s.rows[r].attempts + 1))
                 && s'.rows == s.rows[r := s.rows[r].(attempts := s.rows[r].attempts + 1)]
               else s'.sweeps[w] == sweep.(pc := Scanning) && s'.rows == s.rows
  {
  }

  lemma SettleStep(s: State, w: SweepId)
    requires Inv(s) && Enabled(s, Settle(w))
    ensures var sweep, r, n, s' := s.sweeps[w], s.sweeps[w].pc.row, s.sweeps[w].pc.attempts, Apply(s, Settle(w));
            && w in s'.sweeps && s'.sweeps[w] == sweep.(pc := Scanning, failed := sweep.failed + {r})
            && s.settled <= s'.settled
            && s'.rows == if OwnedRow(s, r, Lease(sweep)) then s.rows[r := AfterFailure(n, s.clock)] else s.rows
  {
    hide Backoff;
    assert SweepOk(s, s.sweeps[w]);
  }

  /** Where a step is in a run that goes on after it. */
  lemma StepIn(t: Trace, cmd: Command, t': Trace)
    requires Shaped(t) && Shaped(t') && Enabled(Last(t), cmd) && Continues(Extend(t, cmd), t')
    ensures |t.cmds| < |t'.cmds| && t'.cmds[|t.cmds|] == cmd
    ensures t'.states[|t.cmds|] == Last(t) && t'.states[|t.cmds| + 1] == Apply(Last(t), cmd)
  {
    hide Apply, Enabled;
    var e := Extend(t, cmd);
    assert t'.states[|t.cmds|] == e.states[|t.cmds|] && t'.states[|t.cmds| + 1] == e.states[|t.cmds| + 1];
    assert t'.cmds[|t.cmds|] == e.cmds[|t.cmds|];
  }

  lemma OthersIn(t: Trace, t': Trace, t'': Trace, w: SweepId)
    requires OthersRan(t, t', w) && Continues(t', t'')
    ensures |t.cmds| <= |t'.cmds| <= |t''.cmds| && OthersOnly(t'', |t.cmds|, |t'.cmds|, w)
  {
    hide By;
    assert forall k: nat :: k < |t'.cmds| ==> t''.cmds[k] == t'.cmds[k];
  }

  lemma NotDue(t: Trace, t': Trace, w: SweepId, r: RowId, start: nat, success: bool)
    requires Shaped(t) && Enabled(Last(t), Claim(w)) && t' == Extend(t, Claim(w))
    requires r in Last(t).rows && !DueAt(Last(t).rows[r], start) && Last(t').rows == Last(t).rows
    ensures Handled(t', w, r, start, success, false)
  {
    hide Apply, Enabled, DueAt;
    StepIn(t, Claim(w), t');
    assert HandledAt(t', |t.cmds|, 0, |t.cmds|, w, r, start, success, false);
  }

  /** The claim at the end of t0, then others up to t2. */
  predicate ClaimedThen(t0: Trace, t1: Trace, t2: Trace, w: SweepId, r: RowId, start: nat) {
    && Shaped(t0) && Enabled(Last(t0), Claim(w)) && t1 == Extend(t0, Claim(w)) && OthersRan(t1, t2, w)
    && r in Last(t0).rows && DueAt(Last(t0).rows[r], start)
    && Last(t1).rows == Last(t0).rows[r := Last(t0).rows[r].(status := Sending, nextAttemptAt := Some(start + CLAIM_LEASE_MS))]
  }

  lemma ClaimIn(t0: Trace, t1: Trace, t2: Trace, t: Trace, w: SweepId, r: RowId, start: nat)
    requires ClaimedThen(t0, t1, t2, w, r, start) && Shaped(t) && Continues(t2, t)
    ensures var claim := |t0.cmds|;
            && claim < |t2.cmds| <= |t.cmds| && t.cmds[claim] == Claim(w)
            && r in t.states[claim].rows && DueAt(t.states[claim].rows[r], start)
            && SetsRow(t, claim, r, t.states[claim].rows[r].(status := Sending, nextAttemptAt := Some(start + CLAIM_LEASE_MS)))
            && OthersOnly(t, claim + 1, |t2.cmds|, w)
  {
    hide Apply, Enabled, DueAt, By;
    StepIn(t0, Claim(w), t);
    OthersIn(t1, t2, t, w);
  }

  lemma SendRecorded(t0: Trace, t1: Trace, t2: Trace, t: Trace, w: SweepId, r: RowId, start: nat, counted: bool)
    requires ClaimedThen(t0, t1, t2, w, r, start) && Shaped(t2) && Enabled(Last(t2), MarkDelivered(w))
    requires t == Extend(t2, MarkDelivered(w)) && counted == OwnedRow(Last(t2), r, start + CLAIM_LEASE_MS)
    requires counted ==> r in Last(t2).rows && Last(t).rows == Last(t2).rows[r := Row(Delivered, Last(t2).rows[r].attempts, None)]
    requires !counted ==> Last(t).rows == Last(t2).rows
    ensures Handled(t, w, r, start, true, counted)
  {
    hide ClaimedThen, Apply, Enabled, DueAt, By;
    StepIn(t2, MarkDelivered(w), t);
    ClaimIn(t0, t1, t2, t, w, r, start);
    assert HandledAt(t, |t0.cmds|, |t2.cmds|, |t2.cmds|, w, r, start, true, counted);
  }

  lemma FailureLost(t0: Trace, t1: Trace, t2: Trace, t: Trace, w: SweepId, r: RowId, start: nat)
    requires ClaimedThen(t0, t1, t2, w, r, start) && Shaped(t2) && Enabled(Last(t2), Bump(w))
    requires t == Extend(t2, Bump(w)) && !OwnedRow(Last(t2), r, start + CLAIM_LEASE_MS) && Last(t).rows == Last(t2).rows
    ensures Handled(t, w, r, start, false, false)
  {
    hide ClaimedThen, Apply, Enabled, DueAt, By;
    StepIn(t2, Bump(w), t);
    ClaimIn(t0, t1, t2, t, w, r, start);
    assert HandledAt(t, |t0.cmds|, |t2.cmds|, |t2.cmds|, w, r, start, false, false);
  }

  lemma FailureRecorded(t0: Trace, t1: Trace, t2: Trace, t3: Trace, t4: Trace, t: Trace, w: SweepId, r: RowId, start: nat)
    requires ClaimedThen(t0, t1, t2, w, r, start) && Shaped(t2) && Enabled(Last(t2), Bump(w)) && t3 == Extend(t2, Bump(w))
    requires OwnedRow(Last(t2), r, start + CLAIM_LEASE_MS)
    requires Last(t3).rows == Last(t2).rows[r := Last(t2).rows[r].(attempts := Last(t2).rows[r].attempts + 1)]
    requires OthersRan(t3, t4, w) && Shaped(t4) && Enabled(Last(t4), Settle(w)) && t == Extend(t4, Settle(w))
    requires Last(t).rows == if OwnedRow(Last(t4), r, start + CLAIM_LEASE_MS)
                             then Last(t4).rows[r := AfterFailure(Last(t2).rows[r].attempts + 1, Last(t4).clock)]
                             else Last(t4).rows
    ensures Handled(t, w, r, start, false, true)
  {
    hide ClaimedThen, Apply, Enabled, DueAt, By, AfterFailure;
    ContinuesOn(t2, t3, t4, t);
    StepIn(t2, Bump(w), t);
    StepIn(t4, Settle(w), t);
    ClaimIn(t0, t1, t2, t, w, r, start);
    OthersIn(t3, t4, t, w);
    assert HandledAt(t, |t0.cmds|, |t2.cmds|, |t4.cmds|, w, r, start, false, true);
  }

  lemma ContinuesOn(t2: Trace, t3: Trace, t4: Trace, t: Trace)
    requires Continues(t2, t3) && Continues(t3, t4) && Continues(t4, t)
    ensures Continues(t3, t) && Continues(t2, t)
  {
  }

  // ---------------------------------------------------------------------------
  // The counts of a sweep
  // ---------------------------------------------------------------------------

  /** The first k rows of the batch have been dealt with, and counted as their sends went. */
  ghost predicate Results(t: Trace, w: Sweep, me: SweepId, batch: seq<RowId>, sent: seq<bool>, k: nat)
    requires Shaped(t) && k <= |batch| == |sent|
  {
    forall j :: 0 <= j < k ==> Result(t, w, me, batch[j], sent[j])
  }

  ghost predicate Result(t: Trace, w: Sweep, me: SweepId, r: RowId, success: bool)
    requires Shaped(t)
  {
    && Handled(t, me, r, w.start, success, r in w.delivered + w.failed)
    && (r in w.delivered ==> success) && (r in w.failed ==> !success)
  }

  lemma NoResults(t: Trace, w: Sweep, me: SweepId, batch: seq<RowId>, sent: seq<bool>)
    requires Shaped(t) && |batch| == |sent|
    ensures Results(t, w, me, batch, sent, 0)
  {
  }

  lemma ResultsStay(t: Trace, t': Trace, w: Sweep, me: SweepId, batch: seq<RowId>, sent: seq<bool>, k: nat)
    requires Shaped(t) && Shaped(t') && Continues(t, t') && k <= |batch| == |sent| && Results(t, w, me, batch, sent, k)
    ensures Results(t', w, me, batch, sent, k)
  {
    hide Handled;
    forall j | 0 <= j < k ensures Result(t', w, me, batch[j], sent[j]) {
      assert Result(t, w, me, batch[j], sent[j]);
      HandledStays(t, t', me, batch[j], w.start, sent[j], batch[j] in w.delivered + w.failed);
    }
  }

  lemma OneResultMore(t: Trace, t': Trace, w: Sweep, w': Sweep, me: SweepId, batch: seq<RowId>, sent: seq<bool>, k: nat,
                      delivered: nat, failed: nat, settled: set<(SweepId, RowId)>, won: bool, counted: bool)
    requires Shaped(t) && Shaped(t') && Continues(t, t') && k < |batch| == |sent| && Results(t, w, me, batch, sent, k)
    requires Tally(w, settled, me, batch, k, delivered, failed) && w'.start == w.start
    requires w'.delivered == w.delivered + (if counted && won then {w.todo[0]} else {})
    requires w'.failed == w.failed + (if counted && !won then {w.todo[0]} else {})
    requires Handled(t', me, w.todo[0], w.start, sent[k], counted) && (counted ==> (won <==> sent[k]))
    ensures Results(t', w', me, batch, sent, k + 1)
  {
    hide Result, FirstRows, Distinct, Results;
    ResultsStay(t, t', w, me, batch, sent, k);
    NextRow(batch, k);
    NewResult(t', w, w', me, batch[k], sent[k], won, counted);
    forall j | 0 <= j < k + 1 ensures Result(t', w', me, batch[j], sent[j]) {
      if j < k {
        ResultAt(t', w, me, batch, sent, k, j);
        DistinctAt(batch, j, k);
        SameResult(t', w, w', me, batch[j], sent[j]);
      }
    }
    ResultsAre(t', w', me, batch, sent, k + 1);
  }

  lemma ResultAt(t: Trace, w: Sweep, me: SweepId, batch: seq<RowId>, sent: seq<bool>, k: nat, j: nat)
    requires Shaped(t) && j < k <= |batch| == |sent| && Results(t, w, me, batch, sent, k)
    ensures Result(t, w, me, batch[j], sent[j])
  {
  }

  lemma ResultsAre(t: Trace, w: Sweep, me: SweepId, batch: seq<RowId>, sent: seq<bool>, k: nat)
    requires Shaped(t) && k <= |batch| == |sent|
    requires forall j :: 0 <= j < k ==> Result(t, w, me, batch[j], sent[j])
    ensures Results(t, w, me, batch, sent, k)
  {
  }

  lemma SameResult(t: Trace, w: Sweep, w': Sweep, me: SweepId, r: RowId, success: bool)
    requires Shaped(t) && Result(t, w, me, r, success) && w'.start == w.start
    requires (r in w'.delivered <==> r in w.delivered) && (r in w'.failed <==> r in w.failed)
    ensures Result(t, w', me, r, success)
  {
    hide Handled;
  }

  lemma NewResult(t: Trace, w: Sweep, w': Sweep, me: SweepId, r: RowId, success: bool, won: bool, counted: bool)
    requires Shaped(t) && r !in w.delivered + w.failed && w'.start == w.start
    requires w'.delivered == w.delivered + (if counted && won then {r} else {})
    requires w'.failed == w.failed + (if counted && !won then {r} else {})
    requires Handled(t, me, r, w.start, success, counted) && (counted ==> (won <==> success))
    ensures Result(t, w', me, r, success)
  {
    hide Handled;
  }

  lemma DistinctAt(batch: seq<RowId>, j: nat, k: nat)
    requires Distinct(batch) && j < k < |batch|
    ensures batch[j] != batch[k]
  {
  }

  function FirstRows(batch: seq<RowId>, k: nat): set<RowId>
    requires k <= |batch|
  {
    if k == 0 then {} else FirstRows(batch, k - 1) + {batch[k - 1]}
  }

  lemma {:induction false} FirstRowsAre(batch: seq<RowId>, k: nat)
    requires k <= |batch|
    ensures forall r :: r in FirstRows(batch, k) ==> exists j :: 0 <= j < k && batch[j] == r
  {
    if k > 0 { FirstRowsAre(batch, k - 1); }
  }

  /** The counts after the first k rows of the batch. */
  predicate Tally(w: Sweep, settled: set<(SweepId, RowId)>, me: SweepId, batch: seq<RowId>, k: nat, delivered: nat, failed: nat)
    requires k <= |batch|
  {
    && Distinct(batch) && w.todo == batch[k..]
    && delivered == |w.delivered| && failed == |w.failed| && w.delivered !! w.failed
    && w.delivered + w.failed <= FirstRows(batch, k)
    && (forall r :: r in w.delivered ==> (me, r) in settled)
  }

  lemma TallyStep(s: State, s': State, me: SweepId, batch: seq<RowId>, k: nat, delivered: nat, failed: nat,
                  counted: bool, won: bool)
    requires k < |batch| && me in s.sweeps && me in s'.sweeps && s.settled <= s'.settled
    requires Tally(s.sweeps[me], s.settled, me, batch, k, delivered, failed)
    requires var w, w' := s.sweeps[me], s'.sweeps[me];
             && w'.todo == w.todo[1..]
             && w'.delivered == w.delivered + (if counted && won then {w.todo[0]} else {})
             && w'.failed == w.failed + (if counted && !won then {w.todo[0]} else {})
             && (counted && won ==> (me, w.todo[0]) in s'.settled)
    ensures Tally(s'.sweeps[me], s'.settled, me, batch, k + 1,
                  delivered + (if counted && won then 1 else 0), failed + (if counted && !won then 1 else 0))
  {
    hide Distinct, FirstRows;
    assert FirstRows(batch, k + 1) == FirstRows(batch, k) + {batch[k]} && batch[k] !in FirstRows(batch, k) by {
      NextRow(batch, k);
    }
    assert batch[k..][1..] == batch[k + 1..] && batch[k..][0] == batch[k];
  }

  lemma TallyStart(start: nat, settled: set<(SweepId, RowId)>, me: SweepId, batch: seq<RowId>)
    requires Distinct(batch)
    ensures Tally(Sweep(start, batch, Scanning, {}, {}), settled, me, batch, 0, 0, 0)
  {
  }

  lemma TallyTodo(w: Sweep, settled: set<(SweepId, RowId)>, me: SweepId, batch: seq<RowId>, k: nat, delivered: nat, failed: nat)
    requires k < |batch| && Tally(w, settled, me, batch, k, delivered, failed)
    ensures w.todo != []
  {
  }

  lemma TallyDone(w: Sweep, settled: set<(SweepId, RowId)>, me: SweepId, batch: seq<RowId>, delivered: nat, failed: nat)
    requires Tally(w, settled, me, batch, |batch|, delivered, failed)
    ensures w.todo == [] && delivered == |w.delivered| && failed == |w.failed| && w.delivered !! w.failed
    ensures forall r :: r in w.delivered + w.failed ==> r in batch
    ensures forall r :: r in w.delivered ==> (me, r) in settled
  {
    FirstRowsAre(batch, |batch|);
  }

  lemma NextRow(batch: seq<RowId>, k: nat)
    requires k < |batch| && Distinct(batch)
    ensures FirstRows(batch, k + 1) == FirstRows(batch, k) + {batch[k]} && batch[k] !in FirstRows(batch, k)
  {
    FirstRowsAre(batch, k);
  }

  lemma NewStart(s: State, w: SweepId, batch: seq<RowId>)
    requires DistinctStarts(s) && w !in s.sweeps && IsBatch(s, batch)
    requires forall v :: v in s.sweeps ==> s.sweeps[v].start != s.clock
    ensures Enabled(s, StartSweep(w, batch)) && DistinctStarts(Apply(s, StartSweep(w, batch))) && Distinct(batch)
    ensures Apply(s, StartSweep(w, batch)).sweeps == s.sweeps[w := Sweep(s.clock, batch, Scanning, {}, {})]
  {
  }

  lemma TodoExists(s: State, w: SweepId)
    requires Inv(s) && w in s.sweeps && s.sweeps[w].todo != []
    ensures s.sweeps[w].todo[0] in s.rows
  {
    assert SweepOk(s, s.sweeps[w]);
  }

  lemma BumpedCount(s: State, w: SweepId)
    requires Inv(s) && w in s.sweeps && s.sweeps[w].pc.Bumped?
    ensures s.sweeps[w].pc.attempts >= 1
  {
    assert SweepOk(s, s.sweeps[w]);
  }

  /** Only starting a sweep adds a start. */
  lemma StartsKept(s: State, cmd: Command)
    requires DistinctStarts(s) && Enabled(s, cmd) && !cmd.StartSweep?
    ensures DistinctStarts(Apply(s, cmd))
  {
    hide Backoff, DueAt, OwnedRow;
    var s' := Apply(s, cmd);
    assert forall v :: v in s'.sweeps ==> v in s.sweeps && s'.sweeps[v].start == s.sweeps[v].start;
  }
}
