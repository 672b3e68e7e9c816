/** The budget lockfile (src/cost-tracking/budget.ts) as a machine whose steps are single
    system calls. The directory maps names to inodes; each process is somewhere inside
    tryAcquireLock or releaseLock, holds the lock, or has crashed. */
module BudgetLock {
  import opened Wrappers

  type Pid = nat
  type Ino = nat
  type Token = nat

  /** The shared lock path and, per process, the unique path it renames the lock to. */
  datatype Name = LockPath | Side(p: Pid)

  /** `token` is None until the creator has written the file. */
  datatype Inode = Inode(creator: Pid, token: Option<Token>, createdAt: nat, mtime: nat)

  datatype Pc =
    | Idle
    | Trying(token: Token)                 // tryAcquireLock, before the exclusive create
    | Created(ino: Ino, token: Token)      // file created, content not written yet
    | Holding(ino: Ino, token: Token)      // tryAcquireLock returned the token
    | Blocked                              // create failed: the path is occupied
    | ReadEmpty                            // read a lock without a token, stat next
    | Breaking(observed: Option<Token>)    // decided that the lock is stale, rename next
    | Renamed(observed: Option<Token>)     // renamed aside, verification next
    | Releasing(ino: Ino, token: Token)    // releaseLock saw its token, rename next
    | ReleaseRenamed(token: Token)         // renamed aside, verification next
    | Removing                             // verified, unlink of the side file next
    | Restoring                            // mismatch, link back next
    | Unlinking                            // linked or left alone, unlink of the side file next
    | Crashed

  /** `returned` lists the tokens tryAcquireLock has returned, oldest first. */
  datatype State = State(
    fs: map<Name, Ino>,
    inodes: map<Ino, Inode>,
    pcs: map<Pid, Pc>,
    clock: nat,
    nextToken: Token,
    returned: seq<Token>)

  function Init(): State { State(map[], map[], map[], 0, 0, []) }

  function PcOf(s: State, p: Pid): Pc { if p in s.pcs then s.pcs[p] else Idle }

  function Goto(s: State, p: Pid, pc: Pc): State { s.(pcs := s.pcs[p := pc]) }

  predicate Fresh(s: State, ino: Ino) { ino !in s.inodes }

  /** What lockTokenAt reads: None when the name is free or the file has no token. */
  function TokenAt(s: State, n: Name): Option<Token> {
    if n in s.fs && s.fs[n] in s.inodes then s.inodes[s.fs[n]].token else None
  }

  datatype Command =
    | Begin(p: Pid)
    | Create(p: Pid, ino: Ino, createdAt: nat)
    | WriteToken(p: Pid)
    | ReadLock(p: Pid)
    | StatLock(p: Pid)
    | RenameStale(p: Pid)
    | VerifyStale(p: Pid)
    | CheckRelease(p: Pid)
    | RenameRelease(p: Pid)
    | VerifyRelease(p: Pid)
    | RemoveSide(p: Pid)
    | LinkBack(p: Pid)
    | UnlinkSide(p: Pid)
    | Crash(p: Pid)
    | Tick(p: Pid)                         // a millisecond passes for everybody

  predicate Enabled(s: State, cmd: Command) {
    var pc := PcOf(s, cmd.p);
    match cmd
    case Begin(_) => pc.Idle?
    case Create(_, ino, createdAt) => pc.Trying? && Fresh(s, ino) && createdAt <= s.clock
    case WriteToken(_) => pc.Created? && pc.ino in s.inodes
    case ReadLock(_) => pc.Blocked?
    case StatLock(_) => pc.ReadEmpty?
    case RenameStale(_) => pc.Breaking?
    case VerifyStale(_) => pc.Renamed?
    case CheckRelease(_) => pc.Holding?
    case RenameRelease(_) => pc.Releasing?
    case VerifyRelease(_) => pc.ReleaseRenamed?
    case RemoveSide(_) => pc.Removing?
    case LinkBack(_) => pc.Restoring?
    case UnlinkSide(_) => pc.Unlinking?
    case Crash(_) => true
    case Tick(_) => true
  }

  /** rename(lockPath, side path): fails when the lock is gone. */
  function RenameAside(s: State, p: Pid): State {
    if LockPath in s.fs then s.(fs := (s.fs - {LockPath})[Side(p) := s.fs[LockPath]]) else s
  }

  function Unlink(s: State, n: Name): State { s.(fs := s.fs - {n}) }

  /** link(side path, lockPath): fails when the path is occupied. */
  function LinkIfAbsent(s: State, p: Pid): State {
    if Side(p) in s.fs && LockPath !in s.fs then s.(fs := s.fs[LockPath := s.fs[Side(p)]]) else s
  }

  /** `stale` is the window in milliseconds after which a lock may be broken. */
  function Apply(stale: nat, s: State, cmd: Command): State
    requires Enabled(s, cmd)
  {
    var p, pc := cmd.p, PcOf(s, cmd.p);
    match cmd
    case Begin(_) => Goto(s, p, Trying(s.nextToken)).(nextToken := s.nextToken + 1)
    case Create(_, ino, createdAt) =>
      if LockPath in s.fs then Goto(s, p, Blocked)
      else Goto(s, p, Created(ino, pc.token)).(
             fs := s.fs[LockPath := ino],
             inodes := s.inodes[ino := Inode(p, None, createdAt, s.clock)])
    case WriteToken(_) =>
      var file := s.inodes[pc.ino].(token := Some(pc.token), mtime := s.clock);
      Goto(s, p, Holding(pc.ino, pc.token)).(
        inodes := s.inodes[pc.ino := file], returned := s.returned + [pc.token])
    case ReadLock(_) =>
      if LockPath !in s.fs || s.fs[LockPath] !in s.inodes then Goto(s, p, Idle)
      else
        var file := s.inodes[s.fs[LockPath]];
        if file.token.None? then Goto(s, p, ReadEmpty)
        else if s.clock - file.createdAt > stale then Goto(s, p, Breaking(file.token))
        else Goto(s, p, Idle)
    case StatLock(_) =>
      if LockPath in s.fs && s.fs[LockPath] in s.inodes && s.clock - s.inodes[s.fs[LockPath]].mtime > stale
      then Goto(s, p, Breaking(None))
      else Goto(s, p, Idle)
    case RenameStale(_) => Goto(RenameAside(s, p), p, if LockPath in s.fs then Renamed(pc.observed) else Idle)
    case VerifyStale(_) => Goto(s, p, if TokenAt(s, Side(p)) == pc.observed then Removing else Restoring)
    case CheckRelease(_) =>
      Goto(s, p, if TokenAt(s, LockPath) == Some(pc.token) then Releasing(pc.ino, pc.token) else Idle)
    case RenameRelease(_) => Goto(RenameAside(s, p), p, if LockPath in s.fs then ReleaseRenamed(pc.token) else Idle)
    case VerifyRelease(_) => Goto(s, p, if TokenAt(s, Side(p)) == Some(pc.token) then Removing else Restoring)
    case RemoveSide(_) => Goto(Unlink(s, Side(p)), p, Idle)
    case LinkBack(_) => Goto(LinkIfAbsent(s, p), p, Unlinking)
    case UnlinkSide(_) => Goto(Unlink(s, Side(p)), p, Idle)
    case Crash(_) => Goto(s, p, Crashed)
    case Tick(_) => s.(clock := s.clock + 1)
  }

  // ---------------------------------------------------------------------------
  // What holds in every run
  // ---------------------------------------------------------------------------

  /** The lock path is never overwritten: a step that finds it occupied leaves the same file
      there or frees it, and no step rewrites a token. */
  lemma PathNeverOverwritten(stale: nat, s: State, cmd: Command)
    requires Inv(s) && Enabled(s, cmd)
    ensures var s' := Apply(stale, s, cmd);
            && (LockPath in s.fs && LockPath in s'.fs ==> s'.fs[LockPath] == s.fs[LockPath])
            && (LockPath in s.fs && LockPath !in s'.fs ==> cmd.RenameStale? || cmd.RenameRelease?)
            && (LockPath !in s.fs && LockPath in s'.fs ==> cmd.Create? || cmd.LinkBack?)
            && (forall i :: i in s.inodes ==> i in s'.inodes && Rewritten(s.inodes[i], s'.inodes[i]))
  {
    hide SidesOk, TokensOk, ReturnedOnce;
  }

  /** A file keeps its creator and creation time, and its content once it has any. */
  predicate Rewritten(f: Inode, f': Inode) {
    f'.creator == f.creator && f'.createdAt == f.createdAt && (f.token.Some? ==> f' == f)
  }

  /** A process inside an acquire attempt carries a token nobody else has. */
  predicate Attempting(pc: Pc) { pc.Trying? || pc.Created? }

  predicate ReturnedOnce(s: State) {
    && (forall i :: 0 <= i < |s.returned| ==> s.returned[i] < s.nextToken)
    && (forall i, j :: 0 <= i < j < |s.returned| ==> s.returned[i] != s.returned[j])
  }

  predicate SameToken(f: Inode, g: Inode) { f.token.Some? && f.token == g.token }

  ghost predicate TokensOk(s: State) {
    && (forall p :: p in s.pcs && Attempting(s.pcs[p]) ==> s.pcs[p].token < s.nextToken && s.pcs[p].token !in s.returned)
    && (forall p, q :: p in s.pcs && q in s.pcs && Attempting(s.pcs[p]) && Attempting(s.pcs[q]) && p != q ==>
          s.pcs[p].token != s.pcs[q].token)
    && (forall i :: i in s.inodes && s.inodes[i].token.Some? ==> s.inodes[i].token.value in s.returned)
    && (forall i, j :: i in s.inodes && j in s.inodes && SameToken(s.inodes[i], s.inodes[j]) ==> i == j)
  }

  predicate HasFile(pc: Pc) { pc.Created? || pc.Holding? || pc.Releasing? }

  /** A process that has created the file knows it by its inode. */
  predicate KnowsFile(s: State, p: Pid, pc: Pc)
    requires HasFile(pc)
  {
    pc.ino in s.inodes && s.inodes[pc.ino].creator == p
    && s.inodes[pc.ino].token == if pc.Created? then None else Some(pc.token)
  }

  predicate NamesOk(s: State) {
    && (forall n :: n in s.fs ==> s.fs[n] in s.inodes)
    && (forall i :: i in s.inodes ==> s.inodes[i].createdAt <= s.inodes[i].mtime <= s.clock)
  }

  predicate FilesKnown(s: State) {
    forall p :: p in s.pcs && HasFile(s.pcs[p]) ==> KnowsFile(s, p, s.pcs[p])
  }

  predicate FilesOk(s: State) { NamesOk(s) && FilesKnown(s) }

  predicate UsesSide(pc: Pc) {
    pc.Renamed? || pc.ReleaseRenamed? || pc.Removing? || pc.Restoring? || pc.Unlinking?
  }

  /** A live process has a side file exactly while it is verifying one. */
  ghost predicate SidesOk(s: State) {
    forall p :: !PcOf(s, p).Crashed? ==> (Side(p) in s.fs <==> UsesSide(PcOf(s, p)))
  }

  ghost predicate Inv(s: State) {
    ReturnedOnce(s) && TokensOk(s) && FilesOk(s) && SidesOk(s)
  }

  lemma QuietStep(stale: nat, s: State, cmd: Command)
    requires Enabled(s, cmd) && !cmd.Begin? && !cmd.Create? && !cmd.WriteToken?
    ensures var s' := Apply(stale, s, cmd);
            && s'.inodes == s.inodes && s'.returned == s.returned && s'.nextToken == s.nextToken
            && (forall q :: q in s'.pcs && Attempting(s'.pcs[q]) ==> q in s.pcs && s'.pcs[q] == s.pcs[q])
  {
    hide RenameAside, LinkIfAbsent, Unlink, TokenAt;
    AsideOnlyNames(s, cmd.p);
  }

  lemma TokensKept(stale: nat, s: State, cmd: Command)
    requires Inv(s) && Enabled(s, cmd)
    ensures TokensOk(Apply(stale, s, cmd)) && ReturnedOnce(Apply(stale, s, cmd))
  {
    hide SidesOk, FilesOk, Apply;
    if cmd.WriteToken? {
      WriteTokenKept(stale, s, cmd);
    } else if cmd.Begin? {
      BeginKept(stale, s, cmd);
    } else if cmd.Create? {
      CreateKept(stale, s, cmd);
    } else {
      QuietStep(stale, s, cmd);
    }
  }

  lemma BeginKept(stale: nat, s: State, cmd: Command)
    requires Inv(s) && Enabled(s, cmd) && cmd.Begin?
    ensures TokensOk(Apply(stale, s, cmd)) && ReturnedOnce(Apply(stale, s, cmd))
  {
    hide SidesOk, FilesOk;
    var s' := Apply(stale, s, cmd);
    assert forall q :: q in s'.pcs && q != cmd.p ==> q in s.pcs && s'.pcs[q] == s.pcs[q];
  }

  lemma CreateKept(stale: nat, s: State, cmd: Command)
    requires Inv(s) && Enabled(s, cmd) && cmd.Create?
    ensures TokensOk(Apply(stale, s, cmd)) && ReturnedOnce(Apply(stale, s, cmd))
  {
    hide SidesOk, FilesOk, ReturnedOnce;
    var s', p := Apply(stale, s, cmd), cmd.p;
    assert s'.returned == s.returned && s'.nextToken == s.nextToken;
    ReturnedOnceSame(s, s');
    assert forall q :: q in s'.pcs && q != p ==> q in s.pcs && s'.pcs[q] == s.pcs[q];
    assert Attempting(s'.pcs[p]) ==> s'.pcs[p].token == s.pcs[p].token;
    assert forall i :: i in s'.inodes && s'.inodes[i].token.Some? ==> i in s.inodes && s'.inodes[i] == s.inodes[i];
    TokensSame(s, s', p);
  }

  lemma ReturnedOnceSame(s: State, s': State)
    requires ReturnedOnce(s) && s'.returned == s.returned && s'.nextToken == s.nextToken
    ensures ReturnedOnce(s')
  {
  }

  lemma TokensSame(s: State, s': State, p: Pid)
    requires TokensOk(s) && s'.returned == s.returned && s'.nextToken == s.nextToken
    requires p in s.pcs && Attempting(s.pcs[p]) && p in s'.pcs
    requires Attempting(s'.pcs[p]) ==> s'.pcs[p].token == s.pcs[p].token
    requires forall q :: q in s'.pcs && q != p ==> q in s.pcs && s'.pcs[q] == s.pcs[q]
    requires forall i :: i in s'.inodes && s'.inodes[i].token.Some? ==> i in s.inodes && s'.inodes[i] == s.inodes[i]
    ensures TokensOk(s')
  {
  }

  lemma WriteTokenKept(stale: nat, s: State, cmd: Command)
    requires Inv(s) && Enabled(s, cmd) && cmd.WriteToken?
    ensures TokensOk(Apply(stale, s, cmd)) && ReturnedOnce(Apply(stale, s, cmd))
  {
    hide SidesOk, FilesOk;
    var s' := Apply(stale, s, cmd);
    assert forall t :: t in s'.returned <==> t in s.returned || t == PcOf(s, cmd.p).token;
  }

  lemma AsideOnlyNames(s: State, p: Pid)
    ensures RenameAside(s, p) == s.(fs := RenameAside(s, p).fs)
    ensures LinkIfAbsent(s, p) == s.(fs := LinkIfAbsent(s, p).fs)
    ensures Unlink(s, Side(p)) == s.(fs := Unlink(s, Side(p)).fs)
  {
  }

  lemma NamesKept(stale: nat, s: State, cmd: Command)
    requires Inv(s) && Enabled(s, cmd)
    ensures NamesOk(Apply(stale, s, cmd))
  {
    hide SidesOk, TokensOk, ReturnedOnce, FilesKnown, TokenAt;
  }

  lemma FilesKnownKept(stale: nat, s: State, cmd: Command)
    requires Inv(s) && Enabled(s, cmd)
    ensures FilesKnown(Apply(stale, s, cmd))
  {
    hide SidesOk, TokensOk, ReturnedOnce, NamesOk, TokenAt, RenameAside, LinkIfAbsent, Unlink;
    AsideOnlyNames(s, cmd.p);
  }

  lemma FilesKept(stale: nat, s: State, cmd: Command)
    requires Inv(s) && Enabled(s, cmd)
    ensures FilesOk(Apply(stale, s, cmd))
  {
    hide Inv, Apply, NamesOk, FilesKnown;
    NamesKept(stale, s, cmd);
    FilesKnownKept(stale, s, cmd);
  }

  lemma SidesKept(stale: nat, s: State, cmd: Command)
    requires Inv(s) && Enabled(s, cmd)
    ensures SidesOk(Apply(stale, s, cmd))
  {
    hide TokensOk, ReturnedOnce, FilesOk;
  }

  lemma CommandKeepsInv(stale: nat, s: State, cmd: Command)
    requires Inv(s) && Enabled(s, cmd)
    ensures Inv(Apply(stale, s, cmd))
  {
    hide TokensOk, ReturnedOnce, FilesOk, SidesOk, Apply, Enabled;
    TokensKept(stale, s, cmd);
    FilesKept(stale, s, cmd);
    SidesKept(stale, s, cmd);
  }

  function Run(stale: nat, cmds: seq<Command>): Option<State> {
    if cmds == [] then Some(Init())
    else
      var n := |cmds| - 1;
      var s := Run(stale, cmds[..n]);
      if s.Some? && Enabled(s.value, cmds[n]) then Some(Apply(stale, s.value, cmds[n])) else None
  }

  /** In every run, whoever crashes and whatever overlaps: no token is returned by two
      acquires, and no live process leaves a side file behind. */
  lemma {:induction false} RunInv(stale: nat, cmds: seq<Command>)
    requires Run(stale, cmds).Some?
    ensures Inv(Run(stale, cmds).value)
  {
    hide Inv, Apply, Enabled;
    if cmds == [] {
      InitInv();
    } else {
      RunInv(stale, cmds[..|cmds| - 1]);
      CommandKeepsInv(stale, Run(stale, cmds[..|cmds| - 1]).value, cmds[|cmds| - 1]);
    }
  }

  lemma InitInv()
    ensures Inv(Init())
  {
  }

  /** A stretch of a run, from a state that a run can reach: states[k] is before cmds[k]. */
  ghost predicate Follows(stale: nat, states: seq<State>, cmds: seq<Command>) {
    && |states| == |cmds| + 1 && Inv(states[0])
    && forall k: nat :: k < |cmds| ==> StepAt(stale, states, cmds, k)
  }

  predicate StepAt(stale: nat, states: seq<State>, cmds: seq<Command>, k: nat)
    requires |states| == |cmds| + 1 && k < |cmds|
  {
    Enabled(states[k], cmds[k]) && states[k + 1] == Apply(stale, states[k], cmds[k])
  }

  /** The step renames the file at the lock path away. */
  predicate FreesPath(s: State, cmd: Command) {
    (cmd.RenameStale? || cmd.RenameRelease?) && LockPath in s.fs
  }

  lemma {:induction false} FollowsInv(stale: nat, states: seq<State>, cmds: seq<Command>, k: nat)
    requires Follows(stale, states, cmds) && k <= |cmds|
    ensures Inv(states[k])
  {
    hide Inv, Apply, Enabled;
    if k > 0 {
      FollowsInv(stale, states, cmds, k - 1);
      assert StepAt(stale, states, cmds, k - 1);
      CommandKeepsInv(stale, states[k - 1], cmds[k - 1]);
    }
  }

  /** A file stays at the lock path until somebody renames it away. */
  lemma {:induction false} PathUntilFreed(stale: nat, states: seq<State>, cmds: seq<Command>, i: nat, k: nat)
    requires Follows(stale, states, cmds) && i <= k <= |cmds| && LockPath in states[i].fs
    ensures || (LockPath in states[k].fs && states[k].fs[LockPath] == states[i].fs[LockPath])
            || exists j: nat :: i <= j < k && FreesPath(states[j], cmds[j])
  {
    hide Inv, Apply, Enabled;
    if i < k {
      PathUntilFreed(stale, states, cmds, i, k - 1);
      assert StepAt(stale, states, cmds, k - 1);
      FollowsInv(stale, states, cmds, k - 1);
      PathNeverOverwritten(stale, states[k - 1], cmds[k - 1]);
      if LockPath in states[k - 1].fs && LockPath !in states[k].fs {
        assert FreesPath(states[k - 1], cmds[k - 1]);
      }
    }
  }

  /** A mismatched break or release, whatever other processes do between its link and its
      unlink: the link leaves the path occupied, by the newer lock if there is one and by the
      file set aside otherwise; that file is still there after the unlink unless somebody has
      renamed it away in between; and the unlink takes the side file and leaves the path. */
  lemma RestoreOccupiesPath(stale: nat, states: seq<State>, cmds: seq<Command>, p: Pid)
    requires Follows(stale, states, cmds) && |cmds| >= 2
    requires cmds[0] == LinkBack(p) && cmds[|cmds| - 1] == UnlinkSide(p)
    ensures var s0, s1, last, s' := states[0], states[1], states[|cmds| - 1], states[|cmds|];
            && LockPath in s1.fs && (LockPath !in s0.fs ==> Side(p) in s0.fs)
            && s1.fs[LockPath] == (if LockPath in s0.fs then s0.fs[LockPath] else s0.fs[Side(p)])
            && (|| (LockPath in s'.fs && s'.fs[LockPath] == s1.fs[LockPath])
                || exists j: nat :: 1 <= j < |cmds| && FreesPath(states[j], cmds[j]))
            && Side(p) !in s'.fs && PcOf(s', p).Idle?
            && (LockPath in s'.fs <==> LockPath in last.fs)
            && (LockPath in s'.fs ==> s'.fs[LockPath] == last.fs[LockPath])
  {
    hide Inv, Apply, Enabled;
    var n := |cmds|;
    assert StepAt(stale, states, cmds, 0) && StepAt(stale, states, cmds, n - 1);
    Linked(stale, states[0], p);
    PathUntilFreed(stale, states, cmds, 1, n);
    Unlinked(stale, states[n - 1], p);
  }

  lemma Linked(stale: nat, s: State, p: Pid)
    requires Inv(s) && Enabled(s, LinkBack(p))
    ensures var s' := Apply(stale, s, LinkBack(p));
            LockPath in s'.fs && (LockPath !in s.fs ==> Side(p) in s.fs)
            && s'.fs[LockPath] == if LockPath in s.fs then s.fs[LockPath] else s.fs[Side(p)]
  {
  }

  lemma Unlinked(stale: nat, s: State, p: Pid)
    requires Enabled(s, UnlinkSide(p))
    ensures var s' := Apply(stale, s, UnlinkSide(p));
            Side(p) !in s'.fs && PcOf(s', p).Idle?
            && (LockPath in s'.fs <==> LockPath in s.fs)
            && (LockPath in s'.fs ==> s'.fs[LockPath] == s.fs[LockPath])
  {
  }

  // ---------------------------------------------------------------------------
  // Mutual exclusion
  // ---------------------------------------------------------------------------

  /** A live process from its exclusive create until its release renames the lock. */
  predicate Owner(s: State, p: Pid) {
    HasFile(PcOf(s, p))
  }

  /** Every owner's file is the one at the lock path. */
  ghost predicate Owned(s: State) {
    forall p :: Owner(s, p) ==> LockPath in s.fs && s.fs[LockPath] == PcOf(s, p).ino
  }

  /** Then there is at most one owner. */
  lemma OwnedMeansExclusive(s: State, p: Pid, q: Pid)
    requires Inv(s) && Owned(s) && Owner(s, p) && Owner(s, q)
    ensures p == q
  {
    hide TokensOk, ReturnedOnce, SidesOk;
    assert s.inodes[s.fs[LockPath]].creator == p;
    assert s.inodes[s.fs[LockPath]].creator == q;
  }

  /** The exact condition for one step, in any state reached so far: exclusion survives
      unless a stale break renames away the file of a process that still owns it. */
  lemma ExclusionLostOnlyByRename(stale: nat, s: State, cmd: Command)
    requires Inv(s) && Owned(s) && Enabled(s, cmd)
    ensures Owned(Apply(stale, s, cmd))
            <==> !(cmd.RenameStale? && exists q :: Owner(s, q))
  {
    hide TokensOk, ReturnedOnce, SidesOk;
    var s' := Apply(stale, s, cmd);
    if cmd.RenameStale? && exists q :: Owner(s, q) {
      var q :| Owner(s, q);
      assert Owner(s', q) && LockPath !in s'.fs;
    } else {
      forall q | Owner(s', q) ensures LockPath in s'.fs && s'.fs[LockPath] == PcOf(s', q).ino {
        if q != cmd.p || !cmd.Create? { assert Owner(s, q); }
        if Owner(s, cmd.p) && Owner(s, q) { OwnedMeansExclusive(s, cmd.p, q); }
      }
    }
  }

  predicate Dead(s: State, i: Ino) {
    i in s.inodes && PcOf(s, s.inodes[i].creator).Crashed?
  }

  /** A lock outlives the stale window only if its creator crashed. */
  predicate Timely(stale: nat, s: State) {
    LockPath in s.fs && s.fs[LockPath] in s.inodes && s.clock - s.inodes[s.fs[LockPath]].createdAt > stale
    ==> Dead(s, s.fs[LockPath])
  }

  /** No two processes have decided to break the lock at the same time. */
  ghost predicate OneBreaker(s: State) {
    forall p, q :: PcOf(s, p).Breaking? && PcOf(s, q).Breaking? ==> p == q
  }

  ghost predicate Calm(stale: nat, s: State) { Timely(stale, s) && OneBreaker(s) }

  predicate Match(observed: Option<Token>, found: Option<Token>) {
    observed.Some? ==> found == observed
  }

  /** What a break or release in progress will find at its path. */
  predicate Expected(s: State, p: Pid) {
    var pc := PcOf(s, p);
    && (pc.Breaking? ==> LockPath in s.fs && Dead(s, s.fs[LockPath]) && Match(pc.observed, TokenAt(s, LockPath)))
    && (pc.Renamed? ==> Side(p) in s.fs && Dead(s, s.fs[Side(p)]) && Match(pc.observed, TokenAt(s, Side(p))))
    && (pc.ReleaseRenamed? ==> TokenAt(s, Side(p)) == Some(pc.token))
    && (pc.Restoring? ==> Side(p) in s.fs && Dead(s, s.fs[Side(p)]))
  }

  ghost predicate CalmInv(s: State) {
    Owned(s) && forall p :: Expected(s, p)
  }

  lemma ExpectedByMover(stale: nat, s: State, cmd: Command)
    requires Inv(s) && CalmInv(s) && Timely(stale, s) && Enabled(s, cmd)
    ensures Expected(Apply(stale, s, cmd), cmd.p)
  {
    hide TokensOk, ReturnedOnce, SidesOk, OneBreaker;
    assert Expected(s, cmd.p);
    if Owner(s, cmd.p) { assert LockPath in s.fs && s.fs[LockPath] == PcOf(s, cmd.p).ino; }
  }

  lemma DeadStays(stale: nat, s: State, cmd: Command, i: Ino)
    requires Inv(s) && Enabled(s, cmd) && Dead(s, i)
    ensures Dead(Apply(stale, s, cmd), i) && Apply(stale, s, cmd).inodes[i] == s.inodes[i]
  {
    hide TokensOk, ReturnedOnce, SidesOk, RenameAside, LinkIfAbsent, Unlink, TokenAt;
    AsideOnlyNames(s, cmd.p);
  }

  lemma OthersUntouched(stale: nat, s: State, cmd: Command, p: Pid)
    requires Enabled(s, cmd) && p != cmd.p
    ensures var s' := Apply(stale, s, cmd);
            && PcOf(s', p) == PcOf(s, p)
            && (Side(p) in s'.fs <==> Side(p) in s.fs)
            && (Side(p) in s.fs ==> s'.fs[Side(p)] == s.fs[Side(p)])
  {
  }

  lemma ExpectedByOther(stale: nat, s: State, cmd: Command, p: Pid)
    requires Inv(s) && CalmInv(s) && OneBreaker(s) && Enabled(s, cmd) && p != cmd.p
    ensures Expected(Apply(stale, s, cmd), p)
  {
    hide TokensOk, ReturnedOnce, SidesOk, Apply;
    assert Expected(s, p);
    OthersUntouched(stale, s, cmd, p);
    PathNeverOverwritten(stale, s, cmd);
    if Owner(s, cmd.p) { assert LockPath in s.fs && s.fs[LockPath] == PcOf(s, cmd.p).ino; }
    if PcOf(s, p).Breaking? { DeadStays(stale, s, cmd, s.fs[LockPath]); }
    if PcOf(s, p).Renamed? || PcOf(s, p).Restoring? { DeadStays(stale, s, cmd, s.fs[Side(p)]); }
  }

  lemma CalmKept(stale: nat, s: State, cmd: Command)
    requires Inv(s) && CalmInv(s) && Calm(stale, s) && Enabled(s, cmd)
    ensures CalmInv(Apply(stale, s, cmd))
  {
    hide Apply, Expected, Timely;
    forall p ensures Expected(Apply(stale, s, cmd), p) {
      if p == cmd.p { ExpectedByMover(stale, s, cmd); } else { ExpectedByOther(stale, s, cmd, p); }
    }
    ExclusionLostOnlyByRename(stale, s, cmd);
    if cmd.RenameStale? {
      forall q ensures !Owner(s, q) { BreakerMeansNoOwner(s, cmd.p, q); }
    }
  }

  lemma BreakerMeansNoOwner(s: State, p: Pid, q: Pid)
    requires Inv(s) && CalmInv(s) && PcOf(s, p).Breaking?
    ensures !Owner(s, q)
  {
    hide TokensOk, ReturnedOnce, SidesOk;
    assert Expected(s, p);
  }

  ghost predicate CalmRun(stale: nat, cmds: seq<Command>) {
    forall n :: 0 <= n <= |cmds| ==> Run(stale, cmds[..n]).Some? && Calm(stale, Run(stale, cmds[..n]).value)
  }

  lemma {:induction false} CalmRunInv(stale: nat, cmds: seq<Command>)
    requires CalmRun(stale, cmds)
    ensures Run(stale, cmds).Some? && CalmInv(Run(stale, cmds).value)
  {
    hide Inv, Apply, Enabled, CalmInv, Calm;
    assert cmds[..|cmds|] == cmds;
    if cmds == [] {
      InitCalm();
    } else {
      var most := cmds[..|cmds| - 1];
      forall n | 0 <= n <= |most| ensures Run(stale, most[..n]).Some? && Calm(stale, Run(stale, most[..n]).value) {
        assert most[..n] == cmds[..n];
      }
      CalmRunInv(stale, most);
      RunInv(stale, most);
      CalmKept(stale, Run(stale, most).value, cmds[|cmds| - 1]);
    }
  }

  lemma InitCalm()
    ensures CalmInv(Init())
  {
  }

  /** In every run in which a lock outlives the stale window only if its creator crashed and
      stale breaks do not overlap, at most one live process owns the lock. */
  lemma {:induction false} MutualExclusion(stale: nat, cmds: seq<Command>, p: Pid, q: Pid)
    requires CalmRun(stale, cmds) && Run(stale, cmds).Some?
    requires Owner(Run(stale, cmds).value, p) && Owner(Run(stale, cmds).value, q)
    ensures p == q
  {
    hide Run, Calm, CalmRun, Inv;
    CalmRunInv(stale, cmds);
    RunInv(stale, cmds);
    OwnedMeansExclusive(Run(stale, cmds).value, p, q);
  }

  /** In such a run every rename-then-verify finds the token it expects. A break that read
      the file before its creator had written it has no token to expect; the file it finds
      then is a dead one all the same. */
  lemma {:induction false} VerifyFindsToken(stale: nat, cmds: seq<Command>, p: Pid)
    requires CalmRun(stale, cmds) && Run(stale, cmds).Some?
    ensures var s := Run(stale, cmds).value;
            var pc := PcOf(s, p);
            && (pc.ReleaseRenamed? ==> PcOf(Apply(stale, s, VerifyRelease(p)), p).Removing?)
            && (pc.Renamed? && pc.observed.Some? ==> PcOf(Apply(stale, s, VerifyStale(p)), p).Removing?)
            && (pc.Renamed? ==> Side(p) in s.fs && Dead(s, s.fs[Side(p)]))
  {
    hide Run, Calm, CalmRun, Owned;
    CalmRunInv(stale, cmds);
    assert Expected(Run(stale, cmds).value, p);
  }

  // ---------------------------------------------------------------------------
  // Other processes
  // ---------------------------------------------------------------------------

  /** What Await relies on: any system call of another process keeps the invariant, leaves
      this process where it is and takes nothing back. */
  lemma OthersMayStep(stale: nat, s: State, cmd: Command, me: Pid)
    requires Inv(s) && Enabled(s, cmd) && (cmd.p != me || cmd.Tick?)
    ensures var s' := Apply(stale, s, cmd);
            Inv(s') && PcOf(s', me) == PcOf(s, me) && s.returned <= s'.returned && s.clock <= s'.clock
  {
    hide TokensOk, ReturnedOnce, FilesOk, SidesOk, Inv;
    CommandKeepsInv(stale, s, cmd);
  }

  lemma NotReturnedYet(s: State)
    requires Inv(s)
    ensures s.nextToken !in s.returned
  {
    hide TokensOk, FilesOk, SidesOk;
  }

  lemma KnowsItsFile(s: State, p: Pid)
    requires Inv(s) && HasFile(PcOf(s, p))
    ensures PcOf(s, p).ino in s.inodes && KnowsFile(s, p, PcOf(s, p))
  {
    hide TokensOk, ReturnedOnce, SidesOk;
  }

  lemma NoSide(s: State, p: Pid)
    requires Inv(s) && PcOf(s, p).Idle?
    ensures Side(p) !in s.fs
  {
    hide TokensOk, ReturnedOnce, FilesOk;
  }

  // ---------------------------------------------------------------------------
  // Overlapping breaks
  // ---------------------------------------------------------------------------

  /** 1 and 2 both decide to break the lock of the crashed 0; 1 finishes and 3 takes the
      lock; 2 renames it away and 4 takes the lock. */
  function OverlapRun(): seq<Command> {
    [Begin(0), Create(0, 0, 0), WriteToken(0), Crash(0), Tick(0),
     Begin(1), Create(1, 1, 1), ReadLock(1), Begin(2), Create(2, 1, 1), ReadLock(2),
     RenameStale(1), VerifyStale(1), RemoveSide(1), Begin(3), Create(3, 1, 1), WriteToken(3),
     RenameStale(2), Begin(4), Create(4, 2, 1), WriteToken(4)]
  }

  ghost predicate TimelyRun(stale: nat, cmds: seq<Command>) {
    forall n :: 0 <= n <= |cmds| ==> Run(stale, cmds[..n]).Some? && Timely(stale, Run(stale, cmds[..n]).value)
  }

  lemma Extend(stale: nat, cmds: seq<Command>, s: State, cmd: Command)
    requires TimelyRun(stale, cmds) && Run(stale, cmds) == Some(s)
    requires Enabled(s, cmd) && Timely(stale, Apply(stale, s, cmd))
    ensures TimelyRun(stale, cmds + [cmd]) && Run(stale, cmds + [cmd]) == Some(Apply(stale, s, cmd))
  {
    hide Apply, Enabled, Timely;
    var more := cmds + [cmd];
    assert more[..|cmds|] == cmds;
    assert more[..|more|] == more;
    forall n | 0 <= n <= |more| ensures Run(stale, more[..n]).Some? && Timely(stale, Run(stale, more[..n]).value) {
      if n <= |cmds| { assert more[..n] == cmds[..n]; }
    }
  }

  function StaleLock(): State {
    State(map[LockPath := 0], map[0 := Inode(0, Some(0), 0, 0)], map[0 := Crashed], 1, 1, [0])
  }

  function TwoBreakers(): State {
    StaleLock().(pcs := map[0 := Crashed, 1 := Breaking(Some(0)), 2 := Breaking(Some(0))], nextToken := 3)
  }

  function BrokenLock(): State {
    State(map[], map[0 := Inode(0, Some(0), 0, 0)], map[0 := Crashed, 1 := Idle, 2 := Breaking(Some(0))], 1, 3, [0])
  }

  function ReplacedLock(): State {
    State(map[LockPath := 1], map[0 := Inode(0, Some(0), 0, 0), 1 := Inode(3, Some(3), 1, 1)],
          map[0 := Crashed, 1 := Idle, 2 := Breaking(Some(0)), 3 := Holding(1, 3)], 1, 4, [0, 3])
  }

  lemma LockGoesStale()
    ensures TimelyRun(0, OverlapRun()[..5]) && Run(0, OverlapRun()[..5]) == Some(StaleLock())
  {
    hide TimelyRun, Run;
    var c, s := Start();
    Extend(0, c, s, Begin(0)); c, s := c + [Begin(0)], Apply(0, s, Begin(0));
    Extend(0, c, s, Create(0, 0, 0)); c, s := c + [Create(0, 0, 0)], Apply(0, s, Create(0, 0, 0));
    Extend(0, c, s, WriteToken(0)); c, s := c + [WriteToken(0)], Apply(0, s, WriteToken(0));
    Extend(0, c, s, Crash(0)); c, s := c + [Crash(0)], Apply(0, s, Crash(0));
    Extend(0, c, s, Tick(0)); c, s := c + [Tick(0)], Apply(0, s, Tick(0));
    assert s == StaleLock();
    assert c == OverlapRun()[..5];
  }

  lemma Start() returns (cmds: seq<Command>, s: State)
    ensures cmds == [] && s == Init() && TimelyRun(0, cmds) && Run(0, cmds) == Some(s)
  {
    cmds, s := [], Init();
  }

  lemma TwoDecide()
    ensures TimelyRun(0, OverlapRun()[..11]) && Run(0, OverlapRun()[..11]) == Some(TwoBreakers())
  {
    hide TimelyRun, Run;
    LockGoesStale();
    var c, s := OverlapRun()[..5], StaleLock();
    Extend(0, c, s, Begin(1)); c, s := c + [Begin(1)], Apply(0, s, Begin(1));
    Extend(0, c, s, Create(1, 1, 1)); c, s := c + [Create(1, 1, 1)], Apply(0, s, Create(1, 1, 1));
    Extend(0, c, s, ReadLock(1)); c, s := c + [ReadLock(1)], Apply(0, s, ReadLock(1));
    Extend(0, c, s, Begin(2)); c, s := c + [Begin(2)], Apply(0, s, Begin(2));
    Extend(0, c, s, Create(2, 1, 1)); c, s := c + [Create(2, 1, 1)], Apply(0, s, Create(2, 1, 1));
    Extend(0, c, s, ReadLock(2)); c, s := c + [ReadLock(2)], Apply(0, s, ReadLock(2));
    assert s == TwoBreakers();
    assert c == OverlapRun()[..11];
  }

  lemma OneBreaks()
    ensures TimelyRun(0, OverlapRun()[..14]) && Run(0, OverlapRun()[..14]) == Some(BrokenLock())
  {
    hide TimelyRun, Run;
    TwoDecide();
    var c, s := OverlapRun()[..11], TwoBreakers();
    Extend(0, c, s, RenameStale(1)); c, s := c + [RenameStale(1)], Apply(0, s, RenameStale(1));
    Extend(0, c, s, VerifyStale(1)); c, s := c + [VerifyStale(1)], Apply(0, s, VerifyStale(1));
    Extend(0, c, s, RemoveSide(1)); c, s := c + [RemoveSide(1)], Apply(0, s, RemoveSide(1));
    assert s == BrokenLock();
    assert c == OverlapRun()[..14];
  }

  lemma OneFinishes()
    ensures TimelyRun(0, OverlapRun()[..17]) && Run(0, OverlapRun()[..17]) == Some(ReplacedLock())
  {
    hide TimelyRun, Run;
    OneBreaks();
    var c, s := OverlapRun()[..14], BrokenLock();
    Extend(0, c, s, Begin(3)); c, s := c + [Begin(3)], Apply(0, s, Begin(3));
    Extend(0, c, s, Create(3, 1, 1)); c, s := c + [Create(3, 1, 1)], Apply(0, s, Create(3, 1, 1));
    Extend(0, c, s, WriteToken(3)); c, s := c + [WriteToken(3)], Apply(0, s, WriteToken(3));
    assert s == ReplacedLock();
    assert c == OverlapRun()[..17];
  }

  /** Without the second condition exclusion fails, even though no lock outlives the stale
      window while its creator is alive: 3 and 4 both hold the lock. */
  lemma OverlapLosesExclusion()
    ensures TimelyRun(0, OverlapRun()) && Run(0, OverlapRun()).Some?
    ensures var s := Run(0, OverlapRun()).value; PcOf(s, 3).Holding? && PcOf(s, 4).Holding?
  {
    hide TimelyRun, Run;
    OneFinishes();
    var c, s := OverlapRun()[..17], ReplacedLock();
    Extend(0, c, s, RenameStale(2)); c, s := c + [RenameStale(2)], Apply(0, s, RenameStale(2));
    Extend(0, c, s, Begin(4)); c, s := c + [Begin(4)], Apply(0, s, Begin(4));
    Extend(0, c, s, Create(4, 2, 1)); c, s := c + [Create(4, 2, 1)], Apply(0, s, Create(4, 2, 1));
    Extend(0, c, s, WriteToken(4)); c, s := c + [WriteToken(4)], Apply(0, s, WriteToken(4));
    assert c == OverlapRun();
  }
}
