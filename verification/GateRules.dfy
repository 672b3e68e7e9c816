/** Each step of the stop and finalize gate as one equation. */
module GateRules {
  import opened Wrappers
  import opened TaskQueue
  import opened StopGate

  function Moved(s: State, a: Actor, pc: Pc): State { s.(pcs := s.pcs[a := pc]) }

  predicate TouchesRows(cmd: Command) {
    cmd.WriteClaimed? || cmd.WriteRunning? || cmd.WriteEnd? || cmd.PrepForce? || cmd.ReapFailRows? || cmd.PatchRow?
  }

  predicate TouchesRun(cmd: Command) {
    cmd.StopUpdate? || cmd.ClaimFinalization? || cmd.PatchRecord? || cmd.CompleteFinalization? || cmd.ReapMark?
  }

  predicate TouchesQueue(cmd: Command) {
    cmd.Deliver? || cmd.Settle? || cmd.Reclaim? || cmd.RetryDead? || cmd.Crash?
  }

  lemma RowsUntouched(s: State, cmd: Command)
    requires Enabled(s, cmd) && !TouchesRows(cmd)
    ensures RowsAfter(s, cmd) == s.rows
  {
    hide Enabled;
  }

  lemma RunUntouched(s: State, cmd: Command)
    requires Enabled(s, cmd) && !TouchesRun(cmd)
    ensures RunAfter(s, cmd) == s.run
  {
    hide Enabled;
  }

  lemma QueueUntouched(s: State, cmd: Command)
    requires Enabled(s, cmd) && !TouchesQueue(cmd)
    ensures QueueAfter(s, cmd) == s.queue && DeadAfter(s, cmd) == s.dead && MovedAfter(s, cmd) == s.moved
  {
    hide Enabled, IsTerminalAttempt;
  }

  /** A step, with what it leaves alone left out. */
  lemma OneStep(s: State, cmd: Command)
    requires Enabled(s, cmd) && ActorOf(cmd).Some?
    ensures Apply(s, cmd)
            == State(if TouchesRun(cmd) then RunAfter(s, cmd) else s.run,
                     if TouchesRows(cmd) then RowsAfter(s, cmd) else s.rows,
                     cmd.StopMark? || (s.signal && !cmd.AckClear?),
                     s.clock,
                     s.pcs[cmd.a := NextPc(s, cmd)],
                     if TouchesQueue(cmd) then QueueAfter(s, cmd) else s.queue,
                     if TouchesQueue(cmd) then DeadAfter(s, cmd) else s.dead,
                     if TouchesQueue(cmd) then MovedAfter(s, cmd) else s.moved,
                     s.signalled || cmd.StopMark?,
                     s.maxAttempts)
  {
    hide NextPc, RowsAfter, RunAfter, QueueAfter, DeadAfter, MovedAfter, Enabled, TouchesRows, TouchesRun, TouchesQueue;
    if !TouchesRows(cmd) { RowsUntouched(s, cmd); }
    if !TouchesRun(cmd) { RunUntouched(s, cmd); }
    if !TouchesQueue(cmd) { QueueUntouched(s, cmd); }
  }

  lemma TickRule(s: State, ms: nat)
    ensures Enabled(s, Tick(ms)) && Apply(s, Tick(ms)) == s.(clock := s.clock + ms)
  {
  }

  lemma DeliverRule(s: State, a: Actor, d: Delivery)
    requires PcOf(s, a).Idle? && d in s.queue
    ensures Enabled(s, Deliver(a, d))
    ensures Apply(s, Deliver(a, d))
            == Moved(s, a, Delivered(d)).(queue := s.queue - multiset{d}, moved := s.moved - {a})
  {
    hide Apply, RowsAfter, RunAfter, GateNext, SettlerNext;
    OneStep(s, Deliver(a, d));
  }

  lemma CheckSignalRule(s: State, a: Actor)
    requires PcOf(s, a).Delivered?
    ensures Enabled(s, CheckSignal(a))
    ensures Apply(s, CheckSignal(a))
            == Moved(s, a, if s.signal then Writing(PcOf(s, a).d, Stopped, true, AckOrFail)
               else Checked(PcOf(s, a).d))
  {
    hide Apply, RowsAfter, RunAfter, QueueAfter, DeadAfter, MovedAfter, GateNext, SettlerNext;
    OneStep(s, CheckSignal(a));
  }

  lemma WriteClaimedRule(s: State, a: Actor, ok: bool)
    requires PcOf(s, a).Checked?
    ensures Enabled(s, WriteClaimed(a, ok))
    ensures Apply(s, WriteClaimed(a, ok))
            == Moved(s, a, ClaimWritten(PcOf(s, a).d)).(rows := SetRow(s.rows, PcOf(s, a).d.model, Claimed, ok))
  {
    hide Apply, RunAfter, QueueAfter, DeadAfter, MovedAfter, GateNext, SettlerNext;
    OneStep(s, WriteClaimed(a, ok));
  }

  lemma WriteRunningRule(s: State, a: Actor, ok: bool)
    requires PcOf(s, a).ClaimWritten?
    ensures Enabled(s, WriteRunning(a, ok))
    ensures Apply(s, WriteRunning(a, ok))
            == Moved(s, a, Executing(PcOf(s, a).d)).(rows := SetRow(s.rows, PcOf(s, a).d.model, Running, ok))
  {
    hide Apply, RunAfter, QueueAfter, DeadAfter, MovedAfter, GateNext, SettlerNext;
    OneStep(s, WriteRunning(a, ok));
  }

  lemma RefuseRule(s: State, a: Actor, missingKey: bool)
    requires PcOf(s, a).ClaimWritten?
    ensures Enabled(s, Refuse(a, missingKey))
    ensures Apply(s, Refuse(a, missingKey))
            == Moved(s, a, if IsTerminalAttempt(PcOf(s, a).d.attempts, s.maxAttempts)
               then Writing(PcOf(s, a).d, Failed, true, if missingKey then AckOrFail else NackIt)
               else Settling(PcOf(s, a).d, NackIt))
  {
    hide Apply, RowsAfter, RunAfter, QueueAfter, DeadAfter, MovedAfter, GateNext, SettlerNext;
    OneStep(s, Refuse(a, missingKey));
  }

  lemma FinishRule(s: State, a: Actor, errors: bool)
    requires PcOf(s, a).Executing?
    ensures Enabled(s, Finish(a, errors))
    ensures Apply(s, Finish(a, errors))
            == Moved(s, a, Finishing(PcOf(s, a).d, if errors then Failed else Completed, AckOrLog))
  {
    hide Apply, RowsAfter, RunAfter, QueueAfter, DeadAfter, MovedAfter, GateNext, SettlerNext;
    OneStep(s, Finish(a, errors));
  }

  lemma FailRule(s: State, a: Actor)
    requires PcOf(s, a).Delivered? || OnItsWay(PcOf(s, a)) || PcOf(s, a).Executing?
    ensures Enabled(s, Fail(a))
    ensures Apply(s, Fail(a)) == Moved(s, a, FailPc(s, PcOf(s, a).d))
  {
    hide Apply, RowsAfter, RunAfter, QueueAfter, DeadAfter, MovedAfter, GateNext, SettlerNext;
    OneStep(s, Fail(a));
  }

  lemma ReadStopSignalRule(s: State, a: Actor)
    requires PcOf(s, a).Finishing?
    ensures Enabled(s, ReadStopSignal(a))
    ensures Apply(s, ReadStopSignal(a))
            == (var pc := PcOf(s, a); Moved(s, a, if s.signal then Writing(pc.d, Stopped, true, pc.how)
               else Rechecking(pc.d, pc.otherwise, pc.how)))
  {
    hide Apply, RowsAfter, RunAfter, QueueAfter, DeadAfter, MovedAfter, GateNext, SettlerNext;
    OneStep(s, ReadStopSignal(a));
  }

  lemma ReadStopRecordRule(s: State, a: Actor)
    requires PcOf(s, a).Rechecking?
    ensures Enabled(s, ReadStopRecord(a))
    ensures Apply(s, ReadStopRecord(a))
            == (var pc := PcOf(s, a); Moved(s, a, if s.run.status.RunStopped?
               then Writing(pc.d, Stopped, true, pc.how) else Writing(pc.d, pc.otherwise, pc.how.NackIt?, pc.how)))
  {
    hide Apply, RowsAfter, RunAfter, QueueAfter, DeadAfter, MovedAfter, GateNext, SettlerNext;
    OneStep(s, ReadStopRecord(a));
  }

  lemma WriteEndRule(s: State, a: Actor, ok: bool)
    requires PcOf(s, a).Writing?
    ensures Enabled(s, WriteEnd(a, ok))
    ensures Apply(s, WriteEnd(a, ok))
            == (var pc := PcOf(s, a); Moved(s, a, if pc.acks then Acking(pc.d, pc.how) else Settling(pc.d, pc.how))
               .(rows := SetRow(s.rows, pc.d.model, pc.status, ok)))
  {
    hide Apply, RunAfter, QueueAfter, DeadAfter, MovedAfter, GateNext, SettlerNext;
    OneStep(s, WriteEnd(a, ok));
  }

  lemma AckReadSignalRule(s: State, a: Actor)
    requires PcOf(s, a).Acking?
    ensures Enabled(s, AckReadSignal(a))
    ensures Apply(s, AckReadSignal(a))
            == (var pc := PcOf(s, a); Moved(s, a, if s.signal then AckSignalled(pc.d, pc.how)
               else Settling(pc.d, pc.how)))
  {
    hide Apply, RowsAfter, RunAfter, QueueAfter, DeadAfter, MovedAfter, GateNext, SettlerNext;
    OneStep(s, AckReadSignal(a));
  }

  lemma AckCheckRowsRule(s: State, a: Actor)
    requires PcOf(s, a).AckSignalled?
    ensures Enabled(s, AckCheckRows(a))
    ensures Apply(s, AckCheckRows(a))
            == (var pc := PcOf(s, a); Moved(s, a, if Complete(s.rows) then AckClearing(pc.d, pc.how)
               else Settling(pc.d, pc.how)))
  {
    hide Apply, RowsAfter, RunAfter, QueueAfter, DeadAfter, MovedAfter, GateNext, SettlerNext;
    OneStep(s, AckCheckRows(a));
  }

  lemma AckClearRule(s: State, a: Actor)
    requires PcOf(s, a).AckClearing?
    ensures Enabled(s, AckClear(a))
    ensures Apply(s, AckClear(a)) == Moved(s, a, Settling(PcOf(s, a).d, PcOf(s, a).how)).(signal := false)
  {
    hide Apply, RowsAfter, RunAfter, QueueAfter, DeadAfter, MovedAfter, GateNext, SettlerNext;
    OneStep(s, AckClear(a));
  }

  lemma AckedRule(s: State, a: Actor)
    requires PcOf(s, a).Settling? && !PcOf(s, a).how.NackIt?
    ensures Enabled(s, Settle(a, true))
    ensures Apply(s, Settle(a, true)) == Moved(s, a, Idle).(moved := s.moved - {a})
  {
    hide Apply, RowsAfter, RunAfter, GateNext, SettlerNext;
    OneStep(s, Settle(a, true));
  }

  lemma LostRule(s: State, a: Actor)
    requires PcOf(s, a).Settling? && PcOf(s, a).how.AckOrLog? && a !in s.moved
    requires !IsTerminalAttempt(PcOf(s, a).d.attempts, s.maxAttempts)
    ensures Enabled(s, Settle(a, false))
    ensures Apply(s, Settle(a, false))
            == Moved(s, a, Idle)
               .(moved := s.moved - {a}, queue := s.queue + multiset{Delivery(PcOf(s, a).d.model, PcOf(s, a).d.attempts + 1)})
  {
    hide Apply, RowsAfter, RunAfter, GateNext, SettlerNext;
    OneStep(s, Settle(a, false));
  }

  lemma StopUpdateRule(s: State, a: Actor)
    requires PcOf(s, a).Idle?
    ensures Enabled(s, StopUpdate(a))
    ensures Apply(s, StopUpdate(a))
            == (if s.run.status.RunRunning? then Moved(s, a, StopMarking)
               .(run := s.run.(status := RunStopped, finishedAt := Some(s.clock))) else Moved(s, a, Idle))
  {
    hide Apply, RowsAfter, QueueAfter, DeadAfter, MovedAfter, RunnerNext, SettlerNext;
    OneStep(s, StopUpdate(a));
  }

  lemma StopMarkRule(s: State, a: Actor)
    requires PcOf(s, a).StopMarking?
    ensures Enabled(s, StopMark(a))
    ensures Apply(s, StopMark(a)) == Moved(s, a, Idle).(signal := true, signalled := true)
  {
    hide Apply, RowsAfter, RunAfter, QueueAfter, DeadAfter, MovedAfter, RunnerNext, SettlerNext;
    OneStep(s, StopMark(a));
  }

  lemma PrepReadRecordRule(s: State, a: Actor)
    requires PcOf(s, a).Idle?
    ensures Enabled(s, PrepReadRecord(a))
    ensures Apply(s, PrepReadRecord(a)) == Moved(s, a, PrepRead(s.run))
  {
    hide Apply, RowsAfter, RunAfter, QueueAfter, DeadAfter, MovedAfter, RunnerNext, SettlerNext;
    OneStep(s, PrepReadRecord(a));
  }

  lemma PrepReadSignalRule(s: State, a: Actor)
    requires PcOf(s, a).PrepRead?
    ensures Enabled(s, PrepReadSignal(a))
    ensures Apply(s, PrepReadSignal(a))
            == (var rec := PcOf(s, a).rec; Moved(s, a, if IsStopAwaitingRunner(rec, s.signal, s.clock) then Idle
               else PrepPassed(rec)))
  {
    hide Apply, RowsAfter, RunAfter, QueueAfter, DeadAfter, MovedAfter, RunnerNext, SettlerNext;
    OneStep(s, PrepReadSignal(a));
  }

  lemma PrepCheckRowsRule(s: State, a: Actor)
    requires PcOf(s, a).PrepPassed?
    ensures Enabled(s, PrepCheckRows(a))
    ensures Apply(s, PrepCheckRows(a))
            == Moved(s, a, if Complete(s.rows) then Admitted else if IsStopGraceElapsed(PcOf(s, a).rec, s.clock)
               then PrepForcing else Idle)
  {
    hide Apply, RowsAfter, RunAfter, QueueAfter, DeadAfter, MovedAfter, RunnerNext, SettlerNext;
    OneStep(s, PrepCheckRows(a));
  }

  lemma PrepForceRule(s: State, a: Actor)
    requires PcOf(s, a).PrepForcing?
    ensures Enabled(s, PrepForce(a))
    ensures Apply(s, PrepForce(a)) == Moved(s, a, Admitted).(rows := ForceRows(s.rows, Stopped))
  {
    hide Apply, RunAfter, QueueAfter, DeadAfter, MovedAfter, RunnerNext, SettlerNext;
    OneStep(s, PrepForce(a));
  }

  lemma ClaimRule(s: State, a: Actor)
    requires PcOf(s, a).Admitted?
    ensures Enabled(s, ClaimFinalization(a))
    ensures Apply(s, ClaimFinalization(a))
            == (if Claimable(s.run, s.clock) then Moved(s, a, Finalizer)
               .(run := s.run.(status := RunFinalizing, finishedAt := Some(s.clock))) else Moved(s, a, Idle))
  {
    hide Apply, RowsAfter, QueueAfter, DeadAfter, MovedAfter, RunnerNext, GateNext;
    OneStep(s, ClaimFinalization(a));
  }

  lemma PatchReadRule(s: State, a: Actor)
    requires PcOf(s, a).Finalizer?
    ensures Enabled(s, PatchRead(a))
    ensures Apply(s, PatchRead(a)) == Moved(s, a, Patching(s.run))
  {
    hide Apply, RowsAfter, RunAfter, QueueAfter, DeadAfter, MovedAfter, RunnerNext, GateNext;
    OneStep(s, PatchRead(a));
  }

  lemma PatchRecordRule(s: State, a: Actor)
    requires PcOf(s, a).Patching?
    ensures Enabled(s, PatchRecord(a))
    ensures Apply(s, PatchRecord(a))
            == (var rec := PcOf(s, a).rec; Moved(s, a, Patched).(run := if rec.finishedAt.Some? then rec
               else rec.(finishedAt := Some(s.clock))))
  {
    hide Apply, RowsAfter, QueueAfter, DeadAfter, MovedAfter, RunnerNext, GateNext;
    OneStep(s, PatchRecord(a));
  }

  lemma PatchRowRule(s: State, a: Actor, m: Model, success: bool)
    requires PcOf(s, a).Patched? && m in s.rows
    ensures Enabled(s, PatchRow(a, m, success))
    ensures Apply(s, PatchRow(a, m, success))
            == Moved(s, a, Patched).(rows := s.rows[m := if success then Completed else Errored])
  {
    hide Apply, RunAfter, QueueAfter, DeadAfter, MovedAfter, RunnerNext, GateNext;
    OneStep(s, PatchRow(a, m, success));
  }

  lemma CompleteRule(s: State, a: Actor, st: RunStatus)
    requires PcOf(s, a).Patched? && (st.RunCompleted? || st.RunErrored?)
    ensures Enabled(s, CompleteFinalization(a, st))
    ensures Apply(s, CompleteFinalization(a, st))
            == Moved(if s.run.status.RunFinalizing? then s.(run := s.run.(status := st)) else s, a, Idle)
  {
    hide Apply, RowsAfter, QueueAfter, DeadAfter, MovedAfter, RunnerNext, GateNext;
    OneStep(s, CompleteFinalization(a, st));
  }

  lemma ReapCheckStaleRule(s: State, a: Actor, staleAfter: nat)
    requires PcOf(s, a).Idle?
    ensures Enabled(s, ReapCheckStale(a, staleAfter))
    ensures Apply(s, ReapCheckStale(a, staleAfter))
            == Moved(s, a, if IsStaleRunningRun(s.run, s.clock, staleAfter) then ReapStale else Idle)
  {
    hide Apply, RowsAfter, RunAfter, QueueAfter, DeadAfter, MovedAfter, RunnerNext, GateNext;
    OneStep(s, ReapCheckStale(a, staleAfter));
  }

  lemma ReapReadSignalRule(s: State, a: Actor)
    requires PcOf(s, a).ReapStale?
    ensures Enabled(s, ReapReadSignal(a))
    ensures Apply(s, ReapReadSignal(a)) == Moved(s, a, if s.signal then Idle else ReapUnsignalled)
  {
    hide Apply, RowsAfter, RunAfter, QueueAfter, DeadAfter, MovedAfter, RunnerNext, GateNext;
    OneStep(s, ReapReadSignal(a));
  }

  lemma ReapMarkRule(s: State, a: Actor)
    requires PcOf(s, a).ReapUnsignalled?
    ensures Enabled(s, ReapMark(a))
    ensures Apply(s, ReapMark(a))
            == Moved(if s.run.status.RunRunning? then s.(run := s.run.(reaped := true)) else s, a, ReapMarked)
  {
    hide Apply, RowsAfter, QueueAfter, DeadAfter, MovedAfter, RunnerNext, GateNext;
    OneStep(s, ReapMark(a));
  }

  lemma ReapFailRowsRule(s: State, a: Actor)
    requires PcOf(s, a).ReapMarked?
    ensures Enabled(s, ReapFailRows(a))
    ensures Apply(s, ReapFailRows(a)) == Moved(s, a, Idle).(rows := ForceRows(s.rows, Failed))
  {
    hide Apply, RunAfter, QueueAfter, DeadAfter, MovedAfter, RunnerNext, GateNext;
    OneStep(s, ReapFailRows(a));
  }
}
