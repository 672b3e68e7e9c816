/** The ledger file under its lock (src/cost-tracking/budget.ts): processes that take the
    lock, read the file, change what they read, write it back and release. The lock and the
    ledger are the machines of BudgetLock and BudgetLedger; here they run together. */
module BudgetFile {
  import opened Wrappers
  import BudgetLock
  import BudgetLedger

  type Pid = BudgetLock.Pid

  /** `drafts` is what each process inside the locked section has read; `done` lists the
      operations written back, oldest first. */
  datatype World = World(
    lock: BudgetLock.State,
    file: BudgetLedger.Ledger,
    drafts: map<Pid, BudgetLedger.Ledger>,
    done: seq<BudgetLedger.Op>)

  datatype Settings = Settings(stale: nat, budget: BudgetLedger.Config)

  datatype Action =
    | LockCall(cmd: BudgetLock.Command)
    | ReadFile(p: Pid)
    | WriteFile(p: Pid, op: BudgetLedger.Op)

  function Init(): World { World(BudgetLock.Init(), BudgetLedger.Empty(), map[], []) }

  predicate Holds(w: World, p: Pid) { BudgetLock.PcOf(w.lock, p).Holding? }

  predicate Enabled(w: World, act: Action) {
    match act
    case LockCall(cmd) => BudgetLock.Enabled(w.lock, cmd)
    case ReadFile(p) => Holds(w, p)
    case WriteFile(p, _) => Holds(w, p) && p in w.drafts
  }

  /** Leaving the locked section, by release or crash, drops what was read. */
  function Apply(cfg: Settings, w: World, act: Action): World
    requires Enabled(w, act)
  {
    match act
    case LockCall(cmd) =>
      w.(lock := BudgetLock.Apply(cfg.stale, w.lock, cmd),
         drafts := if cmd.CheckRelease? || cmd.Crash? then w.drafts - {cmd.p} else w.drafts)
    case ReadFile(p) => w.(drafts := w.drafts[p := w.file])
    case WriteFile(p, op) =>
      w.(file := BudgetLedger.Step(cfg.budget, w.drafts[p], op), drafts := w.drafts - {p}, done := w.done + [op])
  }

  /** The file is the outcome of the operations written back, one after the other, and what a
      process has read is still what the file holds. */
  ghost predicate Inv(cfg: Settings, w: World) {
    && BudgetLock.Inv(w.lock) && BudgetLock.CalmInv(w.lock)
    && w.file == BudgetLedger.Run(cfg.budget, BudgetLedger.Empty(), w.done)
    && (forall p :: p in w.drafts ==> Holds(w, p) && w.drafts[p] == w.file)
  }

  /** Timely locks and no overlapping breaks, as for mutual exclusion. */
  ghost predicate Calm(cfg: Settings, w: World) { BudgetLock.Calm(cfg.stale, w.lock) }

  lemma HolderStays(cfg: Settings, w: World, cmd: BudgetLock.Command, p: Pid)
    requires BudgetLock.Enabled(w.lock, cmd) && Holds(w, p) && !(cmd.p == p && (cmd.CheckRelease? || cmd.Crash?))
    ensures BudgetLock.PcOf(BudgetLock.Apply(cfg.stale, w.lock, cmd), p).Holding?
  {
    if p != cmd.p {
      BudgetLock.OthersUntouched(cfg.stale, w.lock, cmd, p);
    }
  }

  lemma LockCallKeeps(cfg: Settings, w: World, cmd: BudgetLock.Command)
    requires Inv(cfg, w) && Calm(cfg, w) && BudgetLock.Enabled(w.lock, cmd)
    ensures Inv(cfg, Apply(cfg, w, LockCall(cmd)))
  {
    hide BudgetLock.Inv, BudgetLock.CalmInv, BudgetLock.Apply, BudgetLock.Enabled, BudgetLedger.Run, BudgetLock.PcOf;
    BudgetLock.CommandKeepsInv(cfg.stale, w.lock, cmd);
    BudgetLock.CalmKept(cfg.stale, w.lock, cmd);
    var w' := Apply(cfg, w, LockCall(cmd));
    forall p | p in w'.drafts ensures Holds(w', p) { HolderStays(cfg, w, cmd, p); }
  }

  lemma OneHolder(cfg: Settings, w: World, p: Pid, q: Pid)
    requires Inv(cfg, w) && Holds(w, p) && Holds(w, q)
    ensures p == q
  {
    hide BudgetLock.Inv, BudgetLedger.Run;
    BudgetLock.OwnedMeansExclusive(w.lock, p, q);
  }

  lemma WriteKeeps(cfg: Settings, w: World, p: Pid, op: BudgetLedger.Op)
    requires Inv(cfg, w) && Enabled(w, WriteFile(p, op))
    ensures Inv(cfg, Apply(cfg, w, WriteFile(p, op)))
  {
    hide BudgetLock.Inv, BudgetLock.CalmInv, BudgetLedger.Step, BudgetLock.PcOf;
    var w' := Apply(cfg, w, WriteFile(p, op));
    assert w'.done[..|w.done|] == w.done;
    forall q | q in w.drafts ensures q == p { OneHolder(cfg, w, p, q); }
  }

  lemma ActionKeepsInv(cfg: Settings, w: World, act: Action)
    requires Inv(cfg, w) && Calm(cfg, w) && Enabled(w, act)
    ensures Inv(cfg, Apply(cfg, w, act))
  {
    match act
    case LockCall(cmd) => LockCallKeeps(cfg, w, cmd);
    case WriteFile(p, op) => WriteKeeps(cfg, w, p, op);
    case ReadFile(_) => hide BudgetLock.Inv, BudgetLock.CalmInv, BudgetLedger.Run;
  }

  function Run(cfg: Settings, acts: seq<Action>): Option<World> {
    if acts == [] then Some(Init())
    else
      var n := |acts| - 1;
      var w := Run(cfg, acts[..n]);
      if w.Some? && Enabled(w.value, acts[n]) then Some(Apply(cfg, w.value, acts[n])) else None
  }

  ghost predicate CalmRun(cfg: Settings, acts: seq<Action>) {
    forall n :: 0 <= n <= |acts| ==> Run(cfg, acts[..n]).Some? && Calm(cfg, Run(cfg, acts[..n]).value)
  }

  lemma {:induction false} RunInv(cfg: Settings, acts: seq<Action>)
    requires CalmRun(cfg, acts)
    ensures Run(cfg, acts).Some? && Inv(cfg, Run(cfg, acts).value)
  {
    hide Inv, Calm, Apply, Enabled;
    assert acts[..|acts|] == acts;
    if acts == [] {
      InitInv(cfg);
    } else {
      var most := acts[..|acts| - 1];
      forall n | 0 <= n <= |most| ensures Run(cfg, most[..n]).Some? && Calm(cfg, Run(cfg, most[..n]).value) {
        assert most[..n] == acts[..n];
      }
      RunInv(cfg, most);
      ActionKeepsInv(cfg, Run(cfg, most).value, acts[|acts| - 1]);
    }
  }

  lemma InitInv(cfg: Settings)
    ensures Inv(cfg, Init())
  {
    BudgetLock.InitInv();
    BudgetLock.InitCalm();
  }

  /** No update is lost: whatever processes do at the same time and wherever they crash, while
      locks are timely and breaks do not overlap, the file is what the operations written
      back give one after the other. So its totals agree, and it holds all the spend that was
      recorded. */
  lemma {:induction false} NoUpdateLost(cfg: Settings, acts: seq<Action>)
    requires CalmRun(cfg, acts) && Run(cfg, acts).Some?
    ensures var w := Run(cfg, acts).value;
            && w.file == BudgetLedger.Run(cfg.budget, BudgetLedger.Empty(), w.done)
            && BudgetLedger.Conserved(w.file)
            && BudgetLedger.Total(w.file.global.monthly) == BudgetLedger.RecordedBy(w.done)
  {
    hide Run, CalmRun, BudgetLock.Inv, BudgetLock.CalmInv, BudgetLedger.Conserved, BudgetLedger.Run, BudgetLedger.RecordedBy;
    RunInv(cfg, acts);
    BudgetLedger.LedgerConserved(cfg.budget, Run(cfg, acts).value.done);
  }
}
