/** The stop and finalize gate of one run (src/orchestrator/run-lifecycle.ts, src/runner.ts,
    src/dashboard-server/live.ts): the run record, one row per model, the cancel signal, the
    queue of tasks, and any number of runners, watchers, stoppers and reapers whose steps are
    single reads and conditional updates. No run is restarted. */
module StopGate {
  import opened Wrappers
  import opened TaskQueue

  type Model = nat
  type Actor = nat

  const STOP_FINALIZE_GRACE_MS: nat := 10 * 60 * 1000
  const FINALIZE_STALE_MS: nat := 2 * 60 * 1000

  datatype RunStatus = RunRunning | RunStopped | RunFinalizing | RunCompleted | RunErrored
  datatype RowStatus = Pending | Claimed | Running | Completed | Failed | Stopped | Dead | Errored

  predicate Terminal(r: RowStatus) {
    r.Completed? || r.Failed? || r.Stopped? || r.Dead? || r.Errored?
  }

  type EndStatus = r: RowStatus | Terminal(r) witness Completed

  /** Times are None when missing or unparsable. */
  datatype RunRecord = RunRecord(status: RunStatus, startedAt: Option<nat>, finishedAt: Option<nat>, reaped: bool)

  type Rows = map<Model, RowStatus>

  // ---------------------------------------------------------------------------
  // The decisions
  // ---------------------------------------------------------------------------

  predicate Within(t: Option<nat>, now: nat, window: nat) { t.Some? && now - t.value < window }

  predicate IsStopAwaitingRunner(run: RunRecord, signal: bool, now: nat) {
    run.status.RunStopped? && signal && Within(run.finishedAt, now, STOP_FINALIZE_GRACE_MS)
  }

  predicate IsStopGraceElapsed(run: RunRecord, now: nat) {
    run.status.RunStopped? && !Within(run.finishedAt, now, STOP_FINALIZE_GRACE_MS)
  }

  predicate IsStaleRunningRun(run: RunRecord, now: nat, staleAfter: nat) {
    run.status.RunRunning? && run.startedAt.Some? && now - run.startedAt.value >= staleAfter
  }

  predicate Settled(st: RunStatus) { st.RunFinalizing? || st.RunCompleted? || st.RunErrored? }

  /** The condition of the atomic finalization claim. */
  predicate Claimable(run: RunRecord, now: nat) {
    || run.status.RunRunning? || run.status.RunStopped?
    || (run.status.RunFinalizing? && !Within(run.finishedAt, now, FINALIZE_STALE_MS))
  }

  predicate AllTerminal(rows: Rows) {
    forall m :: m in rows ==> Terminal(rows[m])
  }

  /** isRunCompleteByRunId: a run without rows is not complete. */
  predicate Complete(rows: Rows) { rows != map[] && AllTerminal(rows) }

  /** The guard of transitionTaskState: it protects a terminal row from another terminal
      status, and from nothing else. */
  predicate MayWrite(was: RowStatus, status: RowStatus) {
    Terminal(status) ==> !Terminal(was) || was == status
  }

  /** transitionTaskState; `ok` is false when the update fails, which its callers only log. */
  function SetRow(rows: Rows, m: Model, status: RowStatus, ok: bool): Rows {
    if ok && m in rows && MayWrite(rows[m], status) then rows[m := status] else rows
  }

  function ForceRows(rows: Rows, status: RowStatus): Rows {
    map m | m in rows :: if Terminal(rows[m]) then rows[m] else status
  }

  // ---------------------------------------------------------------------------
  // The machine
  // ---------------------------------------------------------------------------

  /** One delivery of a model's task; `attempts` counts earlier failures. */
  datatype Delivery = Delivery(model: Model, attempts: nat)

  /** What ends a task: an ack whose failure is logged, an ack whose failure counts as a
      failure of the task, or a nack. */
  datatype How = AckOrLog | AckOrFail | NackIt

  datatype Pc =
    | Idle
    // a runner and its task
    | Delivered(d: Delivery)              // taken from the queue, signal not looked at yet
    | Checked(d: Delivery)                // the signal was clear: write 'claimed' next
    | ClaimWritten(d: Delivery)           // write 'running' next
    | Executing(d: Delivery)
    | Finishing(d: Delivery, otherwise: EndStatus, how: How)    // read the signal next
    | Rechecking(d: Delivery, otherwise: EndStatus, how: How)   // it was clear: read the record
    | Writing(d: Delivery, status: EndStatus, acks: bool, how: How)
    | Acking(d: Delivery, how: How)       // acknowledgeStop: read the signal next
    | AckSignalled(d: Delivery, how: How) // it was set: read the rows next
    | AckClearing(d: Delivery, how: How)  // every row had ended: clear next
    | Settling(d: Delivery, how: How)     // ack or nack next
    // stopRun
    | StopMarking                         // updated the record, signal next
    // prepareRunFinalization
    | PrepRead(rec: RunRecord)            // read the record
    | PrepPassed(rec: RunRecord)          // no stop is awaiting its runner
    | PrepForcing                         // grace elapsed: force-stop the rows next
    | Admitted                            // returned true
    // the finalizer
    | Finalizer                           // won the claim
    | Patching(rec: RunRecord)            // read the record for the index patch
    | Patched                             // wrote it back; rows and completion next
    // reconcileStaleRunningRun
    | ReapStale                           // the run looked stale
    | ReapUnsignalled                     // and no cancel signal was set
    | ReapMarked                          // markRunReaped is done, fail the rows next

  /** `signalled` remembers that some stopRun has set the signal, `moved` the runners whose
      delivery the queue has meanwhile handed to somebody else. */
  datatype State = State(
    run: RunRecord,
    rows: Rows,
    signal: bool,
    clock: nat,
    pcs: map<Actor, Pc>,
    queue: multiset<Delivery>,
    dead: multiset<Delivery>,
    moved: set<Actor>,
    signalled: bool,
    maxAttempts: nat)

  datatype Command =
    | Deliver(a: Actor, d: Delivery)
    | CheckSignal(a: Actor)
    | WriteClaimed(a: Actor, ok: bool)
    | WriteRunning(a: Actor, ok: bool)
    | Refuse(a: Actor, missingKey: bool)      // unknown model, or no key for its provider
    | Finish(a: Actor, errors: bool)          // the turn loop returned
    | Fail(a: Actor)                          // something threw
    | ReadStopSignal(a: Actor)
    | ReadStopRecord(a: Actor)
    | WriteEnd(a: Actor, ok: bool)
    | AckReadSignal(a: Actor)
    | AckCheckRows(a: Actor)
    | AckClear(a: Actor)
    | Settle(a: Actor, ok: bool)
    | Reclaim(a: Actor)                       // the queue hands a's delivery to others
    | RetryDead(d: Delivery)                  // an operator retries a dead letter
    | StopUpdate(a: Actor)
    | StopMark(a: Actor)
    | PrepReadRecord(a: Actor)
    | PrepReadSignal(a: Actor)
    | PrepCheckRows(a: Actor)
    | PrepForce(a: Actor)
    | ClaimFinalization(a: Actor)
    | PatchRead(a: Actor)
    | PatchRecord(a: Actor)
    | PatchRow(a: Actor, m: Model, success: bool)
    | CompleteFinalization(a: Actor, outcome: RunStatus)
    | ReapCheckStale(a: Actor, staleAfter: nat)
    | ReapReadSignal(a: Actor)
    | ReapMark(a: Actor)
    | ReapFailRows(a: Actor)
    | Crash(a: Actor)
    | Tick(ms: nat)

  function PcOf(s: State, a: Actor): Pc { if a in s.pcs then s.pcs[a] else Idle }

  /** Every step but two is a step of some operation. */
  function ActorOf(cmd: Command): Option<Actor> {
    if cmd.Tick? || cmd.RetryDead? then None else Some(cmd.a)
  }

  predicate AtEnd(pc: Pc) { pc.Acking? || pc.AckSignalled? || pc.AckClearing? || pc.Settling? }

  /** Past the signal check, with a write of 'claimed' or 'running' ahead. */
  predicate OnItsWay(pc: Pc) { pc.Checked? || pc.ClaimWritten? }

  predicate HasTask(pc: Pc) {
    || pc.Delivered? || OnItsWay(pc) || pc.Executing?
    || pc.Finishing? || pc.Rechecking? || pc.Writing? || AtEnd(pc)
  }

  predicate Enabled(s: State, cmd: Command) {
    match cmd
    case Deliver(a, d) => PcOf(s, a).Idle? && d in s.queue
    case CheckSignal(a) => PcOf(s, a).Delivered?
    case WriteClaimed(a, _) => PcOf(s, a).Checked?
    case WriteRunning(a, _) => PcOf(s, a).ClaimWritten?
    case Refuse(a, _) => PcOf(s, a).ClaimWritten?
    case Finish(a, _) => PcOf(s, a).Executing?
    case Fail(a) => PcOf(s, a).Delivered? || OnItsWay(PcOf(s, a)) || PcOf(s, a).Executing?
    case ReadStopSignal(a) => PcOf(s, a).Finishing?
    case ReadStopRecord(a) => PcOf(s, a).Rechecking?
    case WriteEnd(a, _) => PcOf(s, a).Writing?
    case AckReadSignal(a) => PcOf(s, a).Acking?
    case AckCheckRows(a) => PcOf(s, a).AckSignalled?
    case AckClear(a) => PcOf(s, a).AckClearing?
    case Settle(a, ok) => PcOf(s, a).Settling? && (PcOf(s, a).how.NackIt? ==> ok)
    case Reclaim(a) => HasTask(PcOf(s, a)) && a !in s.moved
    case RetryDead(d) => d in s.dead
    case StopUpdate(a) => PcOf(s, a).Idle?
    case StopMark(a) => PcOf(s, a).StopMarking?
    case PrepReadRecord(a) => PcOf(s, a).Idle?
    case PrepReadSignal(a) => PcOf(s, a).PrepRead?
    case PrepCheckRows(a) => PcOf(s, a).PrepPassed?
    case PrepForce(a) => PcOf(s, a).PrepForcing?
    case ClaimFinalization(a) => PcOf(s, a).Admitted?
    case PatchRead(a) => PcOf(s, a).Finalizer?
    case PatchRecord(a) => PcOf(s, a).Patching?
    case PatchRow(a, m, _) => PcOf(s, a).Patched? && m in s.rows
    case CompleteFinalization(a, st) => PcOf(s, a).Patched? && (st.RunCompleted? || st.RunErrored?)
    case ReapCheckStale(a, _) => PcOf(s, a).Idle?
    case ReapReadSignal(a) => PcOf(s, a).ReapStale?
    case ReapMark(a) => PcOf(s, a).ReapUnsignalled?
    case ReapFailRows(a) => PcOf(s, a).ReapMarked?
    case Crash(_) => true
    case Tick(_) => true
  }

  // ---------------------------------------------------------------------------
  // Where a step takes its operation
  // ---------------------------------------------------------------------------

  /** The failure path: a retryable attempt leaves its row alone and is given back, the last
      one ends its row first. */
  function FailPc(s: State, d: Delivery): Pc {
    if IsTerminalAttempt(d.attempts, s.maxAttempts) then Finishing(d, Failed, NackIt) else Settling(d, NackIt)
  }

  /** The steps of a runner with its task. */
  predicate ByRunner(cmd: Command) {
    || cmd.Deliver? || cmd.CheckSignal? || cmd.WriteClaimed? || cmd.WriteRunning? || cmd.Refuse?
    || cmd.Finish? || cmd.Fail? || cmd.ReadStopSignal? || cmd.ReadStopRecord? || cmd.WriteEnd?
    || cmd.AckReadSignal? || cmd.AckCheckRows? || cmd.AckClear? || cmd.Settle?
  }

  function RunnerNext(s: State, cmd: Command): Pc
    requires ByRunner(cmd) && Enabled(s, cmd)
  {
    var pc := PcOf(s, cmd.a);
    match cmd
    case Deliver(_, d) => Delivered(d)
    case CheckSignal(_) => if s.signal then Writing(pc.d, Stopped, true, AckOrFail) else Checked(pc.d)
    case WriteClaimed(_, _) => ClaimWritten(pc.d)
    case WriteRunning(_, _) => Executing(pc.d)
    case Refuse(_, missingKey) =>
      if IsTerminalAttempt(pc.d.attempts, s.maxAttempts)
      then Writing(pc.d, Failed, true, if missingKey then AckOrFail else NackIt)
      else Settling(pc.d, NackIt)
    case Finish(_, errors) => Finishing(pc.d, if errors then Failed else Completed, AckOrLog)
    case Fail(_) => FailPc(s, pc.d)
    case ReadStopSignal(_) =>
      if s.signal then Writing(pc.d, Stopped, true, pc.how) else Rechecking(pc.d, pc.otherwise, pc.how)
    case ReadStopRecord(_) =>
      if s.run.status.RunStopped? then Writing(pc.d, Stopped, true, pc.how)
      else Writing(pc.d, pc.otherwise, pc.how.NackIt?, pc.how)
    case WriteEnd(_, _) => if pc.acks then Acking(pc.d, pc.how) else Settling(pc.d, pc.how)
    case AckReadSignal(_) => if s.signal then AckSignalled(pc.d, pc.how) else Settling(pc.d, pc.how)
    case AckCheckRows(_) => if Complete(s.rows) then AckClearing(pc.d, pc.how) else Settling(pc.d, pc.how)
    case AckClear(_) => Settling(pc.d, pc.how)
    case Settle(_, ok) => if ok || !pc.how.AckOrFail? then Idle else FailPc(s, pc.d)
  }

  /** The steps of stopRun and of prepareRunFinalization. */
  predicate ByGate(cmd: Command) {
    || cmd.StopUpdate? || cmd.StopMark?
    || cmd.PrepReadRecord? || cmd.PrepReadSignal? || cmd.PrepCheckRows? || cmd.PrepForce?
  }

  function GateNext(s: State, cmd: Command): Pc
    requires ByGate(cmd) && Enabled(s, cmd)
  {
    var pc := PcOf(s, cmd.a);
    match cmd
    case StopUpdate(_) => if s.run.status.RunRunning? then StopMarking else Idle
    case StopMark(_) => Idle
    case PrepReadRecord(_) => PrepRead(s.run)
    case PrepReadSignal(_) => if IsStopAwaitingRunner(pc.rec, s.signal, s.clock) then Idle else PrepPassed(pc.rec)
    case PrepCheckRows(_) =>
      if Complete(s.rows) then Admitted
      else if IsStopGraceElapsed(pc.rec, s.clock) then PrepForcing else Idle
    case PrepForce(_) => Admitted
  }

  /** The steps of a finalizer and of reconcileStaleRunningRun. */
  predicate BySettler(cmd: Command) {
    || cmd.ClaimFinalization? || cmd.PatchRead? || cmd.PatchRecord? || cmd.PatchRow? || cmd.CompleteFinalization?
    || cmd.ReapCheckStale? || cmd.ReapReadSignal? || cmd.ReapMark? || cmd.ReapFailRows?
  }

  function SettlerNext(s: State, cmd: Command): Pc
    requires BySettler(cmd) && Enabled(s, cmd)
  {
    match cmd
    case ClaimFinalization(_) => if Claimable(s.run, s.clock) then Finalizer else Idle
    case PatchRead(_) => Patching(s.run)
    case PatchRecord(_) => Patched
    case PatchRow(_, _, _) => Patched
    case CompleteFinalization(_, _) => Idle
    case ReapCheckStale(_, staleAfter) => if IsStaleRunningRun(s.run, s.clock, staleAfter) then ReapStale else Idle
    case ReapReadSignal(_) => if s.signal then Idle else ReapUnsignalled
    case ReapMark(_) => ReapMarked
    case ReapFailRows(_) => Idle
  }

  function NextPc(s: State, cmd: Command): Pc
    requires Enabled(s, cmd) && ActorOf(cmd).Some?
  {
    if ByRunner(cmd) then RunnerNext(s, cmd)
    else if ByGate(cmd) then GateNext(s, cmd)
    else if BySettler(cmd) then SettlerNext(s, cmd)
    else if cmd.Crash? then Idle
    else PcOf(s, cmd.a)
  }

  // ---------------------------------------------------------------------------
  // What a step does to what all operations share
  // ---------------------------------------------------------------------------

  /** Six kinds of step touch rows. */
  function RowsAfter(s: State, cmd: Command): Rows
    requires Enabled(s, cmd)
  {
    match cmd
    case WriteClaimed(a, ok) => SetRow(s.rows, PcOf(s, a).d.model, Claimed, ok)
    case WriteRunning(a, ok) => SetRow(s.rows, PcOf(s, a).d.model, Running, ok)
    case WriteEnd(a, ok) => SetRow(s.rows, PcOf(s, a).d.model, PcOf(s, a).status, ok)
    case PrepForce(_) => ForceRows(s.rows, Stopped)
    case ReapFailRows(_) => ForceRows(s.rows, Failed)
    case PatchRow(_, m, success) => s.rows[m := if success then Completed else Errored]
    case _ => s.rows
  }

  /** Five kinds of step touch the run record, all but the index patch by a conditional update. */
  function RunAfter(s: State, cmd: Command): RunRecord
    requires Enabled(s, cmd)
  {
    match cmd
    case StopUpdate(_) =>
      if s.run.status.RunRunning? then s.run.(status := RunStopped, finishedAt := Some(s.clock)) else s.run
    case ClaimFinalization(_) =>
      if Claimable(s.run, s.clock) then s.run.(status := RunFinalizing, finishedAt := Some(s.clock)) else s.run
    case PatchRecord(a) =>
      var rec := PcOf(s, a).rec;
      if rec.finishedAt.Some? then rec else rec.(finishedAt := Some(s.clock))
    case CompleteFinalization(_, st) => if s.run.status.RunFinalizing? then s.run.(status := st) else s.run
    case ReapMark(_) => if s.run.status.RunRunning? then s.run.(reaped := true) else s.run
    case _ => s.run
  }

  /** The delivery that the step gives back to the queue: nacked, left behind by a crash, not
      acknowledged, or reclaimed. An entry that was handed to somebody else before is no
      longer its runner's to give back. */
  function GivenBack(s: State, cmd: Command): Option<Delivery>
    requires Enabled(s, cmd)
  {
    match cmd
    case Reclaim(a) => Some(PcOf(s, a).d)
    case Crash(a) => if HasTask(PcOf(s, a)) && a !in s.moved then Some(PcOf(s, a).d) else None
    case Settle(a, ok) =>
      var pc := PcOf(s, a);
      if (pc.how.NackIt? || (pc.how.AckOrLog? && !ok)) && a !in s.moved then Some(pc.d) else None
    case _ => None
  }

  /** What enters the queue: the next attempt of a delivery given back, unless it was the
      last, or a dead letter retried by hand. */
  function Requeued(s: State, cmd: Command): Option<Delivery>
    requires Enabled(s, cmd)
  {
    if cmd.RetryDead? then Some(Delivery(cmd.d.model, 0))
    else
      match GivenBack(s, cmd)
      case Some(d) => if IsTerminalAttempt(d.attempts, s.maxAttempts) then None else Some(Delivery(d.model, d.attempts + 1))
      case None => None
  }

  function QueueAfter(s: State, cmd: Command): multiset<Delivery>
    requires Enabled(s, cmd)
  {
    if cmd.Deliver? then s.queue - multiset{cmd.d}
    else if Requeued(s, cmd).Some? then s.queue + multiset{Requeued(s, cmd).value}
    else s.queue
  }

  function DeadAfter(s: State, cmd: Command): multiset<Delivery>
    requires Enabled(s, cmd)
  {
    if cmd.RetryDead? then s.dead - multiset{cmd.d}
    else
      match GivenBack(s, cmd)
      case Some(d) => if IsTerminalAttempt(d.attempts, s.maxAttempts) then s.dead + multiset{d} else s.dead
      case None => s.dead
  }

  function MovedAfter(s: State, cmd: Command): set<Actor>
    requires Enabled(s, cmd)
  {
    if cmd.Reclaim? then s.moved + {cmd.a}
    else if cmd.Deliver? || cmd.Crash? || (cmd.Settle? && RunnerNext(s, cmd).Idle?) then s.moved - {cmd.a}
    else s.moved
  }

  function Apply(s: State, cmd: Command): (s': State)
    requires Enabled(s, cmd)
    ensures s'.clock >= s.clock && s'.maxAttempts == s.maxAttempts
  {
    State(
      RunAfter(s, cmd),
      RowsAfter(s, cmd),
      cmd.StopMark? || (s.signal && !cmd.AckClear?),
      if cmd.Tick? then s.clock + cmd.ms else s.clock,
      if ActorOf(cmd).Some? then s.pcs[cmd.a := NextPc(s, cmd)] else s.pcs,
      QueueAfter(s, cmd),
      DeadAfter(s, cmd),
      MovedAfter(s, cmd),
      s.signalled || cmd.StopMark?,
      s.maxAttempts)
  }

  /** An operation is moved by its own steps only. */
  lemma StepPc(s: State, cmd: Command, a: Actor)
    requires Enabled(s, cmd)
    ensures PcOf(Apply(s, cmd), a) == if ActorOf(cmd) == Some(a) then NextPc(s, cmd) else PcOf(s, a)
  {
    hide NextPc, RowsAfter, RunAfter, QueueAfter, DeadAfter, MovedAfter, Enabled;
  }

  lemma StepShared(s: State, cmd: Command)
    requires Enabled(s, cmd)
    ensures var s' := Apply(s, cmd);
            && s'.run == RunAfter(s, cmd) && s'.rows == RowsAfter(s, cmd)
            && s'.signal == (cmd.StopMark? || (s.signal && !cmd.AckClear?))
            && s'.signalled == (s.signalled || cmd.StopMark?)
            && s'.queue == QueueAfter(s, cmd) && s'.dead == DeadAfter(s, cmd) && s'.moved == MovedAfter(s, cmd)
  {
    hide NextPc, RowsAfter, RunAfter, QueueAfter, DeadAfter, MovedAfter, Enabled;
  }

  predicate AtGate(pc: Pc) {
    pc.StopMarking? || pc.PrepRead? || pc.PrepPassed? || pc.PrepForcing? || pc.Admitted?
  }

  predicate AtFinalizer(pc: Pc) { pc.Finalizer? || pc.Patching? || pc.Patched? }

  predicate AtReaper(pc: Pc) { pc.ReapStale? || pc.ReapUnsignalled? || pc.ReapMarked? }

  /** Where an operation's own step can leave it. */
  lemma OwnStepLands(s: State, cmd: Command)
    requires Enabled(s, cmd) && ActorOf(cmd).Some?
    ensures var pc' := NextPc(s, cmd);
            || pc'.Idle?
            || (ByRunner(cmd) && HasTask(pc'))
            || (ByGate(cmd) && AtGate(pc'))
            || (BySettler(cmd) && (AtFinalizer(pc') || AtReaper(pc')))
            || (cmd.Reclaim? && HasTask(pc') && pc' == PcOf(s, cmd.a))
  {
    hide Complete, IsStopAwaitingRunner, IsStopGraceElapsed, IsStaleRunningRun, Claimable, IsTerminalAttempt;
  }

  lemma ReachedBy(s: State, cmd: Command)
    requires Enabled(s, cmd) && ActorOf(cmd).Some?
    ensures HasTask(NextPc(s, cmd)) ==> ByRunner(cmd) || cmd.Reclaim?
    ensures AtGate(NextPc(s, cmd)) ==> ByGate(cmd)
    ensures AtFinalizer(NextPc(s, cmd)) || AtReaper(NextPc(s, cmd)) ==> BySettler(cmd)
  {
    hide NextPc, Enabled;
    OwnStepLands(s, cmd);
  }

  /** How an operation got where it is: it was there, or its own step brought it there. */
  lemma CameToGate(s: State, cmd: Command, a: Actor)
    requires Enabled(s, cmd) && AtGate(PcOf(Apply(s, cmd), a))
    ensures var pc, pc' := PcOf(s, a), PcOf(Apply(s, cmd), a);
            || (pc' == pc && ActorOf(cmd) != Some(a))
            || (pc'.StopMarking? && cmd == StopUpdate(a) && s.run.status.RunRunning?)
            || (pc' == PrepRead(s.run) && cmd == PrepReadRecord(a))
            || (pc'.PrepPassed? && cmd == PrepReadSignal(a) && pc == PrepRead(pc'.rec)
                && !IsStopAwaitingRunner(pc'.rec, s.signal, s.clock))
            || (pc'.PrepForcing? && cmd == PrepCheckRows(a) && pc.PrepPassed? && !Complete(s.rows)
                && IsStopGraceElapsed(pc.rec, s.clock))
            || (pc'.Admitted? && cmd == PrepCheckRows(a) && pc.PrepPassed? && Complete(s.rows))
            || (pc'.Admitted? && cmd == PrepForce(a) && pc.PrepForcing?)
  {
    hide Apply, IsStopAwaitingRunner, IsStopGraceElapsed, Complete, RunnerNext, SettlerNext, HasTask;
    StepPc(s, cmd, a);
    if ActorOf(cmd) == Some(a) { ReachedBy(s, cmd); }
  }

  lemma CameToFinalizer(s: State, cmd: Command, a: Actor)
    requires Enabled(s, cmd) && AtFinalizer(PcOf(Apply(s, cmd), a))
    ensures var pc, pc' := PcOf(s, a), PcOf(Apply(s, cmd), a);
            || (pc' == pc && (ActorOf(cmd) == Some(a) ==> cmd.PatchRow?))
            || (pc'.Finalizer? && cmd == ClaimFinalization(a) && Claimable(s.run, s.clock))
            || (pc' == Patching(s.run) && cmd == PatchRead(a) && pc.Finalizer?)
            || (pc'.Patched? && cmd == PatchRecord(a) && pc.Patching?)
  {
    hide Apply, Claimable, IsStaleRunningRun, RunnerNext, GateNext, HasTask;
    StepPc(s, cmd, a);
    if ActorOf(cmd) == Some(a) { ReachedBy(s, cmd); }
  }

  lemma CameToReaper(s: State, cmd: Command, a: Actor)
    requires Enabled(s, cmd) && AtReaper(PcOf(Apply(s, cmd), a))
    ensures var pc, pc' := PcOf(s, a), PcOf(Apply(s, cmd), a);
            || (pc' == pc && ActorOf(cmd) != Some(a))
            || (pc'.ReapStale? && cmd.ReapCheckStale? && cmd.a == a && IsStaleRunningRun(s.run, s.clock, cmd.staleAfter))
            || (pc'.ReapUnsignalled? && cmd == ReapReadSignal(a) && pc.ReapStale? && !s.signal)
            || (pc'.ReapMarked? && cmd == ReapMark(a) && pc.ReapUnsignalled?)
  {
    hide Apply, Claimable, IsStaleRunningRun, RunnerNext, GateNext, HasTask;
    StepPc(s, cmd, a);
    if ActorOf(cmd) == Some(a) { ReachedBy(s, cmd); }
  }

  /** A runner with a task had it before, or has just taken it. */
  lemma CameWithTask(s: State, cmd: Command, a: Actor)
    requires Enabled(s, cmd) && HasTask(PcOf(Apply(s, cmd), a))
    ensures var pc, pc' := PcOf(s, a), PcOf(Apply(s, cmd), a);
            || (pc' == pc && (ActorOf(cmd) == Some(a) ==> cmd.Reclaim?))
            || (ByRunner(cmd) && cmd.a == a && pc' == RunnerNext(s, cmd)
                && if cmd.Deliver? then pc' == Delivered(cmd.d) else HasTask(pc) && pc'.d == pc.d)
  {
    hide Apply, Complete, IsTerminalAttempt, GateNext, SettlerNext;
    StepPc(s, cmd, a);
    if ActorOf(cmd) == Some(a) { ReachedBy(s, cmd); }
  }

  // ---------------------------------------------------------------------------
  // Rows that end and rows that are reopened
  // ---------------------------------------------------------------------------

  predicate Ended(s: State, m: Model) { m in s.rows && Terminal(s.rows[m]) }

  /** The step ends the row of m. */
  predicate EndsRow(s: State, cmd: Command, m: Model)
    requires Enabled(s, cmd)
  {
    && m in s.rows && !Terminal(s.rows[m])
    && match cmd
       case WriteEnd(a, ok) => ok && PcOf(s, a).d.model == m
       case PrepForce(_) => true
       case ReapFailRows(_) => true
       case PatchRow(_, other, _) => other == m
       case _ => false
  }

  /** The step writes 'claimed' or 'running'. */
  predicate Begins(cmd: Command) { (cmd.WriteClaimed? || cmd.WriteRunning?) && cmd.ok }

  /** ... over the row of m, which had ended. */
  predicate ReopensRow(s: State, cmd: Command, m: Model)
    requires Enabled(s, cmd)
  {
    Begins(cmd) && PcOf(s, cmd.a).d.model == m && Ended(s, m)
  }

  predicate Reopens(s: State, cmd: Command)
    requires Enabled(s, cmd)
  {
    Begins(cmd) && Ended(s, PcOf(s, cmd.a).d.model)
  }

  /** What one step does to a row: the steps that end it, that reopen it, and no others. */
  lemma RowStep(s: State, cmd: Command, m: Model)
    requires Enabled(s, cmd)
    ensures m in Apply(s, cmd).rows <==> m in s.rows
    ensures !Ended(s, m) ==> (Ended(Apply(s, cmd), m) <==> EndsRow(s, cmd, m))
    ensures Ended(s, m) ==> (!Ended(Apply(s, cmd), m) <==> ReopensRow(s, cmd, m))
  {
    hide NextPc, RunAfter, QueueAfter, DeadAfter, MovedAfter;
  }

  /** Exactly when the rows stop being all terminal. */
  lemma TerminalUnlessReopened(s: State, cmd: Command)
    requires Enabled(s, cmd) && AllTerminal(s.rows)
    ensures AllTerminal(Apply(s, cmd).rows) <==> !Reopens(s, cmd)
  {
    hide Apply, Enabled;
    if Reopens(s, cmd) {
      ReopenedRow(s, cmd);
    } else {
      forall m | m in Apply(s, cmd).rows ensures Terminal(Apply(s, cmd).rows[m]) {
        RowStep(s, cmd, m);
      }
    }
  }

  lemma ReopenedRow(s: State, cmd: Command)
    requires Enabled(s, cmd) && Reopens(s, cmd)
    ensures !AllTerminal(Apply(s, cmd).rows)
  {
    hide Apply;
    RowStep(s, cmd, PcOf(s, cmd.a).d.model);
  }

  /** A row that has ended keeps its very status, but for a reopening write and for the
      finalizer's index patch. */
  lemma EndedRowsKeepStatus(s: State, cmd: Command, m: Model)
    requires Enabled(s, cmd) && Ended(s, m)
    ensures m in Apply(s, cmd).rows
    ensures Apply(s, cmd).rows[m] == s.rows[m] || ReopensRow(s, cmd, m) || (cmd.PatchRow? && cmd.m == m)
  {
    hide NextPc, RunAfter, QueueAfter, DeadAfter, MovedAfter;
  }

  lemma ForcedRowsEnd(rows: Rows, status: RowStatus)
    requires Terminal(status)
    ensures AllTerminal(ForceRows(rows, status))
  {
  }
}
