/** The notification outbox (src/notifications/outbox.ts) as a machine whose steps are single
    conditional updates of a row. Any number of delivery sweeps overlap, crash, and race with
    manual retries. */
module Outbox {
  import opened Wrappers
  import TaskQueue

  type RowId = nat
  type SweepId = nat

  const MAX_DELIVERY_ATTEMPTS: nat := 5
  const CLAIM_LEASE_MS: nat := 5 * 60 * 1000
  const MAX_BACKOFF_MS: nat := 15 * 60 * 1000
  const DUE_BATCH_LIMIT: nat := 50

  datatype Status = Pending | Sending | Delivered | Dead
  datatype Row = Row(status: Status, attempts: nat, nextAttemptAt: Option<nat>)

  /** Where a sweep stands with the row it is working on. */
  datatype Pc =
    | Scanning
    | Claimed(row: RowId)                  // its claim took effect, the send is in flight
    | Bumped(row: RowId, attempts: nat)    // failRow read back the new count
    | Gone                                 // crashed

  /** `delivered` and `failed` are the rows the sweep counted. */
  datatype Sweep = Sweep(start: nat, todo: seq<RowId>, pc: Pc, delivered: set<RowId>, failed: set<RowId>)

  /** `settled` records which sweep brought which row out of `sending`. */
  datatype State = State(
    rows: map<RowId, Row>,
    sweeps: map<SweepId, Sweep>,
    clock: nat,
    settled: set<(SweepId, RowId)>)

  function Init(): State { State(map[], map[], 0, {}) }

  function Lease(w: Sweep): nat { w.start + CLAIM_LEASE_MS }

  predicate DueAt(r: Row, now: nat) {
    (r.status.Pending? || r.status.Sending?) && (r.nextAttemptAt.None? || r.nextAttemptAt.value <= now)
  }

  /** The condition of every resolution. */
  predicate OwnedRow(s: State, r: RowId, lease: nat) {
    r in s.rows && s.rows[r].status.Sending? && s.rows[r].nextAttemptAt == Some(lease)
  }

  /** Delay after failure number `attempts`: a minute, doubling, at most fifteen. */
  function Backoff(attempts: nat): nat
    requires attempts >= 1
  {
    var d := 60_000 * TaskQueue.Pow2(attempts - 1);
    if d < MAX_BACKOFF_MS then d else MAX_BACKOFF_MS
  }

  datatype Command =
    | Persist(r: RowId)
    | StartSweep(w: SweepId, batch: seq<RowId>)
    | Claim(w: SweepId)
    | MarkDelivered(w: SweepId)
    | Bump(w: SweepId)
    | Settle(w: SweepId)
    | Crash(w: SweepId)
    | ManualRetry(r: RowId)
    | Tick

  predicate Distinct(batch: seq<RowId>) {
    forall i, j :: 0 <= i < j < |batch| ==> batch[i] != batch[j]
  }

  /** A select of due rows: all of them, or as many as the limit allows. */
  predicate IsBatch(s: State, batch: seq<RowId>) {
    && Distinct(batch) && |batch| <= DUE_BATCH_LIMIT
    && (forall k :: 0 <= k < |batch| ==> batch[k] in s.rows && DueAt(s.rows[batch[k]], s.clock))
    && (|batch| < DUE_BATCH_LIMIT ==> forall r :: r in s.rows && DueAt(s.rows[r], s.clock) ==> r in batch)
  }

  predicate Enabled(s: State, cmd: Command) {
    match cmd
    case Persist(r) => r !in s.rows
    case StartSweep(w, batch) => w !in s.sweeps && IsBatch(s, batch)
    case Claim(w) => w in s.sweeps && s.sweeps[w].pc.Scanning? && s.sweeps[w].todo != [] && s.sweeps[w].todo[0] in s.rows
    case MarkDelivered(w) => w in s.sweeps && s.sweeps[w].pc.Claimed?
    case Bump(w) => w in s.sweeps && s.sweeps[w].pc.Claimed?
    case Settle(w) => w in s.sweeps && s.sweeps[w].pc.Bumped? && s.sweeps[w].pc.attempts >= 1
    case Crash(w) => w in s.sweeps
    case ManualRetry(_) => true
    case Tick => true
  }

  function SetRow(s: State, r: RowId, row: Row): State { s.(rows := s.rows[r := row]) }

  function SetSweep(s: State, w: SweepId, sweep: Sweep): State { s.(sweeps := s.sweeps[w := sweep]) }

  function Apply(s: State, cmd: Command): State
    requires Enabled(s, cmd)
  {
    match cmd
    case Persist(r) => SetRow(s, r, Row(Pending, 0, None))
    case StartSweep(w, batch) => SetSweep(s, w, Sweep(s.clock, batch, Scanning, {}, {}))
    case Claim(w) =>
      var sweep := s.sweeps[w];
      var r := sweep.todo[0];
      if DueAt(s.rows[r], sweep.start)
      then SetSweep(SetRow(s, r, s.rows[r].(status := Sending, nextAttemptAt := Some(Lease(sweep)))), w,
                    sweep.(todo := sweep.todo[1..], pc := Claimed(r)))
      else SetSweep(s, w, sweep.(todo := sweep.todo[1..]))
    case MarkDelivered(w) =>
      var sweep := s.sweeps[w];
      var r := sweep.pc.row;
      if OwnedRow(s, r, Lease(sweep))
      then SetSweep(SetRow(s, r, s.rows[r].(status := Delivered, nextAttemptAt := None)), w,
                    sweep.(pc := Scanning, delivered := sweep.delivered + {r})).(settled := s.settled + {(w, r)})
      else SetSweep(s, w, sweep.(pc := Scanning))
    case Bump(w) =>
      var sweep := s.sweeps[w];
      var r := sweep.pc.row;
      if OwnedRow(s, r, Lease(sweep))
      then SetSweep(SetRow(s, r, s.rows[r].(attempts := s.rows[r].attempts + 1)), w,
                    sweep.(pc := Bumped(r, s.rows[r].attempts + 1)))
      else SetSweep(s, w, sweep.(pc := Scanning))
    case Settle(w) =>
      var sweep := s.sweeps[w];
      var r, n := sweep.pc.row, sweep.pc.attempts;
      var s1 := SetSweep(s, w, sweep.(pc := Scanning, failed := sweep.failed + {r}));
      if !OwnedRow(s, r, Lease(sweep)) then s1
      else
        SetRow(s1, r, if n >= MAX_DELIVERY_ATTEMPTS
                      then s.rows[r].(status := Dead, nextAttemptAt := None)
                      else s.rows[r].(status := Pending, nextAttemptAt := Some(s.clock + Backoff(n))))
        .(settled := s.settled + {(w, r)})
    case Crash(w) => SetSweep(s, w, s.sweeps[w].(pc := Gone))
    case ManualRetry(r) => if r in s.rows then SetRow(s, r, Row(Pending, 0, None)) else s
    case Tick => s.(clock := s.clock + 1)
  }

  // ---------------------------------------------------------------------------
  // Invariants
  // ---------------------------------------------------------------------------

  predicate WorksOn(w: Sweep, r: RowId) { (w.pc.Claimed? || w.pc.Bumped?) && w.pc.row == r }

  /** The sweep could resolve its row now. */
  predicate Owner(s: State, w: SweepId, r: RowId) {
    w in s.sweeps && WorksOn(s.sweeps[w], r) && OwnedRow(s, r, Lease(s.sweeps[w]))
  }

  predicate DistinctStarts(s: State) {
    forall v, w :: v in s.sweeps && w in s.sweeps && s.sweeps[v].start == s.sweeps[w].start ==> v == w
  }

  predicate RowOk(r: Row, clock: nat) {
    && (r.status.Pending? ==> r.attempts < MAX_DELIVERY_ATTEMPTS)
    && (r.status.Dead? ==> r.attempts >= MAX_DELIVERY_ATTEMPTS)
    && (r.status.Sending? ==> r.nextAttemptAt.Some?)
    && (r.status.Delivered? || r.status.Dead? ==> r.nextAttemptAt.None?)
    && (r.nextAttemptAt.Some? ==> r.nextAttemptAt.value <= clock + MAX_BACKOFF_MS)
  }

  /** A sweep still has its list, each row once; a count read back is the row's for as long
      as the sweep owns the row. */
  predicate SweepOk(s: State, w: Sweep) {
    && w.start <= s.clock && Distinct(w.todo)
    && (forall r :: r in w.todo ==> r in s.rows)
    && (w.pc.Claimed? || w.pc.Bumped? ==> w.pc.row in s.rows && w.pc.row !in w.todo)
    && (w.pc.Bumped? ==> w.pc.attempts >= 1)
    && (w.pc.Bumped? && OwnedRow(s, w.pc.row, Lease(w)) ==> s.rows[w.pc.row].attempts == w.pc.attempts)
  }

  /** A sweep has settled only rows it is done with. */
  predicate SettledOk(s: State, w: SweepId, r: RowId) {
    w in s.sweeps && r !in s.sweeps[w].todo && !WorksOn(s.sweeps[w], r)
  }

  /** A lease belongs to a sweep that is working on the row or has crashed. */
  predicate LeaseOk(s: State, w: Sweep, r: RowId) {
    OwnedRow(s, r, Lease(w)) ==> WorksOn(w, r) || w.pc.Gone?
  }

  /** The deadline on a row being sent was set by some sweep. */
  predicate HasClaimant(s: State, row: Row) {
    exists w :: w in s.sweeps && row.nextAttemptAt == Some(Lease(s.sweeps[w]))
  }

  predicate Inv(s: State) {
    && (forall r :: r in s.rows && s.rows[r].status.Sending? ==> HasClaimant(s, s.rows[r]))
    && (forall r :: r in s.rows ==> RowOk(s.rows[r], s.clock))
    && (forall w :: w in s.sweeps ==> SweepOk(s, s.sweeps[w]))
    && (forall p :: p in s.settled ==> SettledOk(s, p.0, p.1))
    && (forall w, r :: w in s.sweeps && r in s.rows ==> LeaseOk(s, s.sweeps[w], r))
  }

  lemma BackoffBounded(n: nat)
    requires n >= 1
    ensures Backoff(n) <= MAX_BACKOFF_MS
  {
  }

  lemma RowsKept(s: State, cmd: Command, r: RowId)
    requires Inv(s) && Enabled(s, cmd) && r in Apply(s, cmd).rows
    ensures RowOk(Apply(s, cmd).rows[r], Apply(s, cmd).clock)
  {
    hide Backoff, SettledOk, LeaseOk;
    if cmd.Settle? { BackoffBounded(s.sweeps[cmd.w].pc.attempts); }
  }

  /** The sweep a command belongs to. */
  predicate By(cmd: Command, w: SweepId) {
    (cmd.StartSweep? || cmd.Claim? || cmd.MarkDelivered? || cmd.Bump? || cmd.Settle? || cmd.Crash?) && cmd.w == w
  }

  lemma OthersStay(s: State, cmd: Command, w: SweepId)
    requires Enabled(s, cmd) && !By(cmd, w)
    ensures w in Apply(s, cmd).sweeps <==> w in s.sweeps
    ensures w in s.sweeps ==> Apply(s, cmd).sweeps[w] == s.sweeps[w]
  {
    hide Backoff;
  }

  lemma StartsStay(s: State, cmd: Command, w: SweepId)
    requires Enabled(s, cmd) && w in s.sweeps
    ensures w in Apply(s, cmd).sweeps && Apply(s, cmd).sweeps[w].start == s.sweeps[w].start
    ensures s.clock <= Apply(s, cmd).clock
    ensures forall r :: r in s.rows ==> r in Apply(s, cmd).rows
  {
    hide Backoff;
  }

  lemma EarlierStarts(s: State, cmd: Command)
    requires Enabled(s, cmd) && DistinctStarts(Apply(s, cmd))
    ensures DistinctStarts(s)
  {
    hide Apply, Enabled;
    forall v, w | v in s.sweeps && w in s.sweeps && s.sweeps[v].start == s.sweeps[w].start ensures v == w {
      StartsStay(s, cmd, v);
      StartsStay(s, cmd, w);
    }
  }

  /** A command can only give a row the lease of its own sweep. */
  lemma LeaseFromClaim(s: State, cmd: Command, w: SweepId, r: RowId)
    requires Enabled(s, cmd) && DistinctStarts(s) && w in s.sweeps && !By(cmd, w)
    requires OwnedRow(Apply(s, cmd), r, Lease(s.sweeps[w]))
    ensures OwnedRow(s, r, Lease(s.sweeps[w]))
    ensures (cmd.Bump? && WorksOn(s.sweeps[cmd.w], r)) || Apply(s, cmd).rows[r].attempts == s.rows[r].attempts
  {
    hide Backoff;
  }

  lemma OtherSweepKept(s: State, cmd: Command, w: SweepId)
    requires Inv(s) && DistinctStarts(s) && Enabled(s, cmd) && !By(cmd, w) && w in s.sweeps
    ensures SweepOk(Apply(s, cmd), s.sweeps[w])
  {
    hide Apply, Enabled, SettledOk, LeaseOk, RowOk;
    var sweep := s.sweeps[w];
    StartsStay(s, cmd, w);
    if sweep.pc.Bumped? && OwnedRow(Apply(s, cmd), sweep.pc.row, Lease(sweep)) {
      LeaseFromClaim(s, cmd, w, sweep.pc.row);
      if cmd.Bump? && Apply(s, cmd).rows[sweep.pc.row].attempts != s.rows[sweep.pc.row].attempts {
        OtherBump(s, cmd, w, sweep.pc.row);
      }
    }
  }

  /** While a sweep owns a row, no other sweep's count reaches it. */
  lemma OtherBump(s: State, cmd: Command, w: SweepId, r: RowId)
    requires cmd.Bump? && Enabled(s, cmd) && DistinctStarts(s) && w in s.sweeps && cmd.w != w
    requires OwnedRow(s, r, Lease(s.sweeps[w]))
    ensures r in Apply(s, cmd).rows && Apply(s, cmd).rows[r].attempts == s.rows[r].attempts
  {
  }

  lemma MovedSweepKept(s: State, cmd: Command, w: SweepId)
    requires Inv(s) && Enabled(s, cmd) && By(cmd, w)
    ensures SweepOk(Apply(s, cmd), Apply(s, cmd).sweeps[w])
  {
    hide Backoff, SettledOk, LeaseOk, RowOk;
    if w in s.sweeps { assert SweepOk(s, s.sweeps[w]); }
    if cmd.Claim? {
      var todo := s.sweeps[w].todo;
      assert forall i :: 0 <= i < |todo[1..]| ==> todo[1..][i] == todo[i + 1];
    }
  }

  lemma SettledKept(s: State, cmd: Command, p: (SweepId, RowId))
    requires Inv(s) && Enabled(s, cmd) && p in Apply(s, cmd).settled
    ensures SettledOk(Apply(s, cmd), p.0, p.1)
  {
    hide Backoff, LeaseOk, RowOk;
    if p in s.settled { assert SettledOk(s, p.0, p.1); }
    if p.0 in s.sweeps { assert SweepOk(s, s.sweeps[p.0]); }
  }

  lemma ClaimantKept(s: State, cmd: Command, r: RowId)
    requires Inv(s) && Enabled(s, cmd) && r in Apply(s, cmd).rows && Apply(s, cmd).rows[r].status.Sending?
    ensures HasClaimant(Apply(s, cmd), Apply(s, cmd).rows[r])
  {
    hide Backoff, SettledOk, LeaseOk, RowOk, SweepOk, HasClaimant;
    if cmd.Claim? && s.sweeps[cmd.w].todo[0] == r && DueAt(s.rows[r], s.sweeps[cmd.w].start) {
      IsClaimant(Apply(s, cmd), cmd.w, Apply(s, cmd).rows[r]);
    } else {
      var w := Claimant(s, r);
      StartsStay(s, cmd, w);
      IsClaimant(Apply(s, cmd), w, Apply(s, cmd).rows[r]);
    }
  }

  lemma IsClaimant(s: State, w: SweepId, row: Row)
    requires w in s.sweeps && row.nextAttemptAt == Some(Lease(s.sweeps[w]))
    ensures HasClaimant(s, row)
  {
  }

  lemma Claimant(s: State, r: RowId) returns (w: SweepId)
    requires Inv(s) && r in s.rows && s.rows[r].status.Sending?
    ensures w in s.sweeps && s.rows[r].nextAttemptAt == Some(Lease(s.sweeps[w]))
  {
    w :| w in s.sweeps && s.rows[r].nextAttemptAt == Some(Lease(s.sweeps[w]));
  }

  lemma LeaseKeptByMover(s: State, cmd: Command, w: SweepId, r: RowId)
    requires Inv(s) && Enabled(s, cmd) && By(cmd, w) && r in Apply(s, cmd).rows && !cmd.StartSweep?
    ensures LeaseOk(Apply(s, cmd), Apply(s, cmd).sweeps[w], r)
  {
    hide Backoff, SettledOk, HasClaimant;
    assert RowOk(s.rows[r], s.clock);
    assert LeaseOk(s, s.sweeps[w], r);
  }

  /** No row carries the deadline of a sweep that has only now started. */
  lemma LeaseOfNewSweep(s: State, cmd: Command, w: SweepId, r: RowId)
    requires Inv(s) && Enabled(s, cmd) && cmd.StartSweep? && cmd.w == w && r in s.rows
    requires DistinctStarts(Apply(s, cmd))
    ensures LeaseOk(Apply(s, cmd), Apply(s, cmd).sweeps[w], r)
  {
    hide Inv, IsBatch, DistinctStarts;
    var s' := Apply(s, cmd);
    if OwnedRow(s', r, Lease(s'.sweeps[w])) {
      var v := Claimant(s, r);
      SameStart(s', v, w);
    }
  }

  lemma SameStart(s: State, v: SweepId, w: SweepId)
    requires DistinctStarts(s) && v in s.sweeps && w in s.sweeps && s.sweeps[v].start == s.sweeps[w].start
    ensures v == w
  {
  }

  lemma LeaseKeptByOther(s: State, cmd: Command, w: SweepId, r: RowId)
    requires Inv(s) && Enabled(s, cmd) && !By(cmd, w) && w in s.sweeps && r in Apply(s, cmd).rows && DistinctStarts(s)
    ensures LeaseOk(Apply(s, cmd), s.sweeps[w], r)
  {
    hide Apply, Enabled, HasClaimant, SettledOk, RowOk, SweepOk;
    if OwnedRow(Apply(s, cmd), r, Lease(s.sweeps[w])) {
      LeaseFromClaim(s, cmd, w, r);
      assert LeaseOk(s, s.sweeps[w], r);
    }
  }

  lemma CommandKeepsInv(s: State, cmd: Command)
    requires Inv(s) && Enabled(s, cmd) && DistinctStarts(Apply(s, cmd))
    ensures Inv(Apply(s, cmd))
  {
    hide Inv, Apply, Enabled, HasClaimant, SettledOk, RowOk, SweepOk, LeaseOk;
    var s' := Apply(s, cmd);
    EarlierStarts(s, cmd);
    forall r | r in s'.rows ensures RowOk(s'.rows[r], s'.clock) { RowsKept(s, cmd, r); }
    forall r | r in s'.rows && s'.rows[r].status.Sending? ensures HasClaimant(s', s'.rows[r]) { ClaimantKept(s, cmd, r); }
    forall w | w in s'.sweeps ensures SweepOk(s', s'.sweeps[w]) { SweepKept(s, cmd, w); }
    forall p | p in s'.settled ensures SettledOk(s', p.0, p.1) { SettledKept(s, cmd, p); }
    forall w, r | w in s'.sweeps && r in s'.rows ensures LeaseOk(s', s'.sweeps[w], r) { LeaseKept(s, cmd, w, r); }
    InvIs(s');
  }

  lemma InvIs(s: State)
    requires forall r :: r in s.rows ==> RowOk(s.rows[r], s.clock)
    requires forall r :: r in s.rows && s.rows[r].status.Sending? ==> HasClaimant(s, s.rows[r])
    requires forall w :: w in s.sweeps ==> SweepOk(s, s.sweeps[w])
    requires forall p :: p in s.settled ==> SettledOk(s, p.0, p.1)
    requires forall w, r :: w in s.sweeps && r in s.rows ==> LeaseOk(s, s.sweeps[w], r)
    ensures Inv(s)
  {
  }

  lemma SweepKept(s: State, cmd: Command, w: SweepId)
    requires Inv(s) && Enabled(s, cmd) && DistinctStarts(s) && w in Apply(s, cmd).sweeps
    ensures SweepOk(Apply(s, cmd), Apply(s, cmd).sweeps[w])
  {
    hide Inv, Apply, Enabled, SweepOk;
    if By(cmd, w) {
      MovedSweepKept(s, cmd, w);
    } else {
      OthersStay(s, cmd, w);
      OtherSweepKept(s, cmd, w);
    }
  }

  lemma LeaseKept(s: State, cmd: Command, w: SweepId, r: RowId)
    requires Inv(s) && Enabled(s, cmd) && DistinctStarts(s) && DistinctStarts(Apply(s, cmd))
    requires w in Apply(s, cmd).sweeps && r in Apply(s, cmd).rows
    ensures LeaseOk(Apply(s, cmd), Apply(s, cmd).sweeps[w], r)
  {
    hide Inv, Enabled, LeaseOk;
    if !By(cmd, w) {
      OthersStay(s, cmd, w);
      LeaseKeptByOther(s, cmd, w, r);
    } else if cmd.StartSweep? {
      LeaseOfNewSweep(s, cmd, w, r);
    } else {
      LeaseKeptByMover(s, cmd, w, r);
    }
  }

  // ---------------------------------------------------------------------------
  // Whole runs
  // ---------------------------------------------------------------------------

  function Run(cmds: seq<Command>): Option<State> {
    if cmds == [] then Some(Init())
    else
      var n := |cmds| - 1;
      var s := Run(cmds[..n]);
      if s.Some? && Enabled(s.value, cmds[n]) then Some(Apply(s.value, cmds[n])) else None
  }

  /** In every run whose sweeps start at distinct instants, with crashes and manual retries
      anywhere: pending rows have failed fewer than five times and dead ones at least five,
      every deadline is within fifteen minutes, and a lease is only ever held by a sweep that
      is working on the row or has crashed. */
  lemma {:induction false} RunInv(cmds: seq<Command>)
    requires Run(cmds).Some? && DistinctStarts(Run(cmds).value)
    ensures Inv(Run(cmds).value)
  {
    hide Inv, Apply, Enabled, DistinctStarts;
    if cmds == [] {
      InitInv();
    } else {
      var n := |cmds| - 1;
      EarlierStarts(Run(cmds[..n]).value, cmds[n]);
      RunInv(cmds[..n]);
      CommandKeepsInv(Run(cmds[..n]).value, cmds[n]);
    }
  }

  lemma InitInv()
    ensures Inv(Init())
  {
  }

  /** At most one sweep can resolve a row. */
  lemma OneOwner(cmds: seq<Command>, v: SweepId, w: SweepId, r: RowId)
    requires Run(cmds).Some? && DistinctStarts(Run(cmds).value)
    requires Owner(Run(cmds).value, v, r) && Owner(Run(cmds).value, w, r)
    ensures v == w
  {
    hide Run;
  }

  predicate Settles(s: State, cmd: Command, w: SweepId, r: RowId)
    requires Enabled(s, cmd)
  {
    (w, r) in Apply(s, cmd).settled
    && r in s.rows && s.rows[r].status.Sending? && !Apply(s, cmd).rows[r].status.Sending? && By(cmd, w)
  }

  /** A sweep resolves each row at most once, and only while it owns it: when it does, it
      had not resolved that row before, and it never owns it again. */
  lemma {:induction false} ResolvedOnce(cmds: seq<Command>, cmd: Command, w: SweepId, r: RowId)
    requires Run(cmds).Some? && DistinctStarts(Run(cmds).value) && Enabled(Run(cmds).value, cmd)
    requires Settles(Run(cmds).value, cmd, w, r)
    ensures Owner(Run(cmds).value, w, r)
    ensures (w, r) !in Run(cmds).value.settled
  {
    hide Run, Backoff, LeaseOk, RowOk, SweepOk, HasClaimant, DistinctStarts;
    RunInv(cmds);
    var s := Run(cmds).value;
    SettledAt(s, w, r);
  }

  lemma SettledAt(s: State, w: SweepId, r: RowId)
    requires Inv(s)
    ensures (w, r) in s.settled ==> SettledOk(s, w, r)
  {
    hide SettledOk;
    assert forall p :: p in s.settled ==> SettledOk(s, p.0, p.1);
  }

  lemma {:induction false} SettledNeverOwnsAgain(cmds: seq<Command>, w: SweepId, r: RowId)
    requires Run(cmds).Some? && DistinctStarts(Run(cmds).value) && (w, r) in Run(cmds).value.settled
    ensures !Owner(Run(cmds).value, w, r)
  {
    hide Run, DistinctStarts, OwnedRow;
    RunInv(cmds);
    assert SettledOk(Run(cmds).value, w, r);
  }

  /** A row leaves `sending` only through its owner or a manual retry, and its count changes
      only by one for a failure its owner records, or to zero by a manual retry. */
  lemma OnlyOwnersAndRetries(s: State, cmd: Command, r: RowId)
    requires Enabled(s, cmd) && r in s.rows
    ensures var row, row' := s.rows[r], Apply(s, cmd).rows[r];
            && (row.status.Sending? && !row'.status.Sending? ==>
                  cmd == ManualRetry(r) || ((cmd.MarkDelivered? || cmd.Settle?) && Owner(s, cmd.w, r)))
            && (row'.attempts != row.attempts ==>
                  || (cmd == ManualRetry(r) && row'.attempts == 0)
                  || (cmd.Bump? && Owner(s, cmd.w, r) && row'.attempts == row.attempts + 1))
            && (row' != row && !row'.status.Sending? && cmd != ManualRetry(r) ==> Owner(s, cmd.w, r))
  {
    hide Backoff;
  }

  /** A claim takes a row only when it is due at the sweep's start: past its backoff, or
      with its lease run out. */
  lemma ClaimRespectsDeadlines(s: State, w: SweepId, r: RowId)
    requires Enabled(s, Claim(w)) && s.sweeps[w].todo[0] == r
    ensures var s' := Apply(s, Claim(w));
            if DueAt(s.rows[r], s.sweeps[w].start)
            then Owner(s', w, r) && s'.rows[r].attempts == s.rows[r].attempts
            else s'.rows == s.rows && !WorksOn(s'.sweeps[w], r)
  {
  }

  /** Nothing is stranded: a row that is neither delivered nor dead is due again within
      fifteen minutes, whoever crashed while sending it. */
  lemma {:induction false} NeverStranded(cmds: seq<Command>, r: RowId, later: nat)
    requires Run(cmds).Some? && DistinctStarts(Run(cmds).value) && r in Run(cmds).value.rows
    requires Run(cmds).value.clock + MAX_BACKOFF_MS <= later
    ensures var row := Run(cmds).value.rows[r]; DueAt(row, later) || row.status.Delivered? || row.status.Dead?
  {
    hide Run, DistinctStarts;
    RunInv(cmds);
    assert RowOk(Run(cmds).value.rows[r], Run(cmds).value.clock);
  }

  // ---------------------------------------------------------------------------
  // Sweeps that start at the same instant
  // ---------------------------------------------------------------------------

  /** Exactly when a claim creates a second owner: another sweep is still working on the row
      and started at the same instant. */
  lemma SecondOwner(s: State, w: SweepId, v: SweepId, r: RowId)
    requires Enabled(s, Claim(w)) && s.sweeps[w].todo[0] == r && DueAt(s.rows[r], s.sweeps[w].start)
    requires v in s.sweeps && v != w
    ensures Owner(Apply(s, Claim(w)), v, r)
            <==> WorksOn(s.sweeps[v], r) && s.sweeps[v].start == s.sweeps[w].start
  {
  }

  /** Two sweeps start in the same millisecond; the first claims the row, someone retries it
      by hand, and the second claims it too: both own it. */
  function SameInstantRun(): seq<Command> {
    [Persist(7), StartSweep(0, [7]), StartSweep(1, [7]), Claim(0), ManualRetry(7), Claim(1)]
  }

  lemma SameInstantTwoOwners()
    ensures var s := Run(SameInstantRun()); s.Some? && Owner(s.value, 0, 7) && Owner(s.value, 1, 7)
  {
    hide Run;
    var c, s := Start();
    AndThen(c, s, Persist(7)); c, s := c + [Persist(7)], Apply(s, Persist(7));
    AndThen(c, s, StartSweep(0, [7])); c, s := c + [StartSweep(0, [7])], Apply(s, StartSweep(0, [7]));
    AndThen(c, s, StartSweep(1, [7])); c, s := c + [StartSweep(1, [7])], Apply(s, StartSweep(1, [7]));
    AndThen(c, s, Claim(0)); c, s := c + [Claim(0)], Apply(s, Claim(0));
    AndThen(c, s, ManualRetry(7)); c, s := c + [ManualRetry(7)], Apply(s, ManualRetry(7));
    AndThen(c, s, Claim(1)); c, s := c + [Claim(1)], Apply(s, Claim(1));
    assert c == SameInstantRun();
  }

  lemma Start() returns (cmds: seq<Command>, s: State)
    ensures cmds == [] && s == Init() && Run(cmds) == Some(s)
  {
    cmds, s := [], Init();
  }

  lemma AndThen(cmds: seq<Command>, s: State, cmd: Command)
    requires Run(cmds) == Some(s) && Enabled(s, cmd)
    ensures Run(cmds + [cmd]) == Some(Apply(s, cmd))
  {
    hide Apply, Enabled;
    assert (cmds + [cmd])[..|cmds|] == cmds;
  }
}
