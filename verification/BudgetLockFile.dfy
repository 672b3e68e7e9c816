/** tryAcquireLock and releaseLock (src/cost-tracking/budget.ts) as they are written, with other
    processes running between any two of their system calls. */
module BudgetLockFile {
  import opened Wrappers
  import opened BudgetLock

  // ---------------------------------------------------------------------------
  // Names of one file
  // ---------------------------------------------------------------------------

  function NamesOf(s: State, ino: Ino): set<Name> { set n | n in s.fs && s.fs[n] == ino }

  /** The process has renamed a file aside and not yet linked it back. */
  predicate InHand(pc: Pc) { pc.Renamed? || pc.ReleaseRenamed? || pc.Restoring? || pc.Removing? }

  ghost predicate ApartFromPath(s: State) {
    forall q :: InHand(PcOf(s, q)) && Side(q) in s.fs && LockPath in s.fs ==> s.fs[Side(q)] != s.fs[LockPath]
  }

  ghost predicate ApartInHand(s: State) {
    forall q, r :: InHand(PcOf(s, q)) && InHand(PcOf(s, r)) && q != r && Side(q) in s.fs && Side(r) in s.fs ==>
      s.fs[Side(q)] != s.fs[Side(r)]
  }

  /** The lock path and the side files in hand name different files. */
  ghost predicate Apart(s: State) { ApartFromPath(s) && ApartInHand(s) }

  ghost predicate Sound(s: State) { Inv(s) && Apart(s) }

  lemma PathApartKept(stale: nat, s: State, cmd: Command)
    requires Sound(s) && Enabled(s, cmd)
    ensures ApartFromPath(Apply(stale, s, cmd))
  {
    hide TokensOk, ReturnedOnce, FilesKnown, TokenAt;
  }

  lemma InHandApartKept(stale: nat, s: State, cmd: Command)
    requires Sound(s) && Enabled(s, cmd)
    ensures ApartInHand(Apply(stale, s, cmd))
  {
    hide Inv, TokenAt;
  }

  lemma ApartKept(stale: nat, s: State, cmd: Command)
    requires Sound(s) && Enabled(s, cmd)
    ensures Apart(Apply(stale, s, cmd))
  {
    hide Sound, ApartFromPath, ApartInHand, Apply, Enabled;
    PathApartKept(stale, s, cmd);
    InHandApartKept(stale, s, cmd);
  }

  lemma SoundKept(stale: nat, s: State, cmd: Command)
    requires Sound(s) && Enabled(s, cmd)
    ensures Sound(Apply(stale, s, cmd))
  {
    hide Inv, Apart, Apply, Enabled;
    CommandKeepsInv(stale, s, cmd);
    ApartKept(stale, s, cmd);
  }

  /** A file at the lock path that nobody renames away stays there and gets no new name. */
  lemma PathStep(stale: nat, s: State, cmd: Command, ino: Ino)
    requires Sound(s) && Enabled(s, cmd) && LockPath in s.fs && s.fs[LockPath] == ino && !FreesPath(s, cmd)
    ensures var s' := Apply(stale, s, cmd);
            LockPath in s'.fs && s'.fs[LockPath] == ino && NamesOf(s', ino) <= NamesOf(s, ino)
  {
    hide Inv, Apart, TokenAt;
  }

  /** A file in hand stays there, whatever others do, and gets no new name. */
  lemma SideStep(stale: nat, s: State, cmd: Command, p: Pid, ino: Ino)
    requires Sound(s) && Enabled(s, cmd) && (cmd.p != p || cmd.Tick?)
    requires InHand(PcOf(s, p)) && Side(p) in s.fs && s.fs[Side(p)] == ino
    ensures var s' := Apply(stale, s, cmd);
            && PcOf(s', p) == PcOf(s, p) && Side(p) in s'.fs && s'.fs[Side(p)] == ino
            && NamesOf(s', ino) <= NamesOf(s, ino)
  {
    hide Inv, Sound, Apart, InHand, NamesOf;
    OthersKeepSide(stale, s, cmd, p);
    NewNames(stale, s, cmd, p, ino);
  }

  lemma OthersKeepSide(stale: nat, s: State, cmd: Command, p: Pid)
    requires Enabled(s, cmd) && (cmd.p != p || cmd.Tick?) && Side(p) in s.fs
    ensures var s' := Apply(stale, s, cmd); PcOf(s', p) == PcOf(s, p) && Side(p) in s'.fs && s'.fs[Side(p)] == s.fs[Side(p)]
  {
    hide TokenAt;
  }

  lemma NewNames(stale: nat, s: State, cmd: Command, p: Pid, ino: Ino)
    requires Sound(s) && Enabled(s, cmd) && (cmd.p != p || cmd.Tick?)
    requires InHand(PcOf(s, p)) && Side(p) in s.fs && s.fs[Side(p)] == ino
    ensures NamesOf(Apply(stale, s, cmd), ino) <= NamesOf(s, ino)
  {
    hide TokensOk, ReturnedOnce, FilesKnown, TokenAt, SidesOk;
  }

  // ---------------------------------------------------------------------------
  // Runs
  // ---------------------------------------------------------------------------

  /** A run from the beginning: states[k] is before cmds[k]. */
  ghost predicate IsRun(stale: nat, states: seq<State>, cmds: seq<Command>) {
    Follows(stale, states, cmds) && states[0] == Init()
  }

  /** From position i on only others have acted. */
  predicate OthersFrom(cmds: seq<Command>, i: nat, me: Pid) {
    forall k :: i <= k < |cmds| ==> cmds[k].p != me || cmds[k].Tick?
  }

  /** From position i on nobody else has renamed the file at the lock path away. */
  predicate Undisturbed(states: seq<State>, cmds: seq<Command>, i: nat, me: Pid)
    requires |states| == |cmds| + 1
  {
    forall k: nat :: i <= k < |cmds| && cmds[k].p != me ==> !FreesPath(states[k], cmds[k])
  }

  lemma {:induction false} RunSound(stale: nat, states: seq<State>, cmds: seq<Command>, k: nat)
    requires IsRun(stale, states, cmds) && k <= |cmds|
    ensures Sound(states[k])
  {
    hide Sound, Apply, Enabled, Inv;
    if k == 0 {
      StartSound();
    } else {
      RunSound(stale, states, cmds, k - 1);
      assert StepAt(stale, states, cmds, k - 1);
      SoundKept(stale, states[k - 1], cmds[k - 1]);
    }
  }

  lemma StartSound()
    ensures Sound(Init())
  {
    InitInv();
  }

  lemma {:induction false} PathStays(stale: nat, states: seq<State>, cmds: seq<Command>, i: nat, k: nat, me: Pid, ino: Ino)
    requires IsRun(stale, states, cmds) && i <= k <= |cmds| && LockPath in states[i].fs && states[i].fs[LockPath] == ino
    requires Undisturbed(states, cmds, i, me) && forall j :: i <= j < k ==> cmds[j].p != me || cmds[j].Tick?
    ensures LockPath in states[k].fs && states[k].fs[LockPath] == ino && NamesOf(states[k], ino) <= NamesOf(states[i], ino)
  {
    hide Sound, Apply, Enabled, Inv, NamesOf;
    if i < k {
      PathStays(stale, states, cmds, i, k - 1, me, ino);
      RunSound(stale, states, cmds, k - 1);
      assert StepAt(stale, states, cmds, k - 1);
      PathStep(stale, states[k - 1], cmds[k - 1], ino);
    }
  }

  lemma {:induction false} SideStays(stale: nat, states: seq<State>, cmds: seq<Command>, i: nat, k: nat, p: Pid, ino: Ino)
    requires IsRun(stale, states, cmds) && i <= k <= |cmds|
    requires InHand(PcOf(states[i], p)) && Side(p) in states[i].fs && states[i].fs[Side(p)] == ino
    requires forall j :: i <= j < k ==> cmds[j].p != p || cmds[j].Tick?
    ensures PcOf(states[k], p) == PcOf(states[i], p) && Side(p) in states[k].fs && states[k].fs[Side(p)] == ino
    ensures NamesOf(states[k], ino) <= NamesOf(states[i], ino)
  {
    hide Sound, Apply, Enabled, Inv, NamesOf, PcOf;
    if i < k {
      SideStays(stale, states, cmds, i, k - 1, p, ino);
      RunSound(stale, states, cmds, k - 1);
      assert StepAt(stale, states, cmds, k - 1);
      SideStep(stale, states[k - 1], cmds[k - 1], p, ino);
    }
  }

  // ---------------------------------------------------------------------------
  // Single steps of one process
  // ---------------------------------------------------------------------------

  /** The lock carries the token of a holder exactly when it is the holder's own file. */
  lemma OwnToken(s: State, p: Pid)
    requires Inv(s) && (PcOf(s, p).Holding? || PcOf(s, p).Releasing?)
    ensures TokenAt(s, LockPath) == Some(PcOf(s, p).token) <==> LockPath in s.fs && s.fs[LockPath] == PcOf(s, p).ino
  {
    hide ReturnedOnce, SidesOk;
    var pc := PcOf(s, p);
    assert KnowsFile(s, p, pc);
    if TokenAt(s, LockPath) == Some(pc.token) { assert SameToken(s.inodes[s.fs[LockPath]], s.inodes[pc.ino]); }
  }

  lemma CheckStep(stale: nat, s: State, p: Pid)
    requires Inv(s) && PcOf(s, p).Holding?
    ensures var s', pc := Apply(stale, s, CheckRelease(p)), PcOf(s, p);
            && s'.fs == s.fs && s'.inodes == s.inodes
            && PcOf(s', p) == if LockPath in s.fs && s.fs[LockPath] == pc.ino then Releasing(pc.ino, pc.token) else Idle
  {
    hide Inv, TokenAt;
    OwnToken(s, p);
  }

  /** Renaming the lock aside, to be released or to be broken. */
  lemma RenameStep(stale: nat, s: State, cmd: Command)
    requires Inv(s) && Enabled(s, cmd) && (cmd.RenameRelease? || cmd.RenameStale?)
    ensures var s', p, pc := Apply(stale, s, cmd), cmd.p, PcOf(s, cmd.p);
            && s'.inodes == s.inodes
            && if LockPath !in s.fs then s'.fs == s.fs && PcOf(s', p).Idle?
               else
                 var ino := s.fs[LockPath];
                 && Side(p) in s'.fs && s'.fs[Side(p)] == ino && NamesOf(s', ino) == NamesOf(s, ino) - {LockPath} + {Side(p)}
                 && PcOf(s', p) == if cmd.RenameRelease? then ReleaseRenamed(pc.token) else Renamed(pc.observed)
  {
    hide Inv;
    assert PcOf(Apply(stale, s, cmd), cmd.p) != PcOf(s, cmd.p);
    SideFree(s, cmd.p);
  }

  lemma SideFree(s: State, p: Pid)
    requires Inv(s) && (PcOf(s, p).Releasing? || PcOf(s, p).Breaking?)
    ensures Side(p) !in s.fs
  {
    hide TokensOk, ReturnedOnce, FilesOk;
  }

  lemma VerifyStep(stale: nat, s: State, cmd: Command, ino: Ino)
    requires Inv(s) && Enabled(s, cmd) && (cmd.VerifyRelease? || cmd.VerifyStale?)
    requires Side(cmd.p) in s.fs && s.fs[Side(cmd.p)] == ino
    ensures ino in s.inodes
    ensures var s', pc := Apply(stale, s, cmd), PcOf(s, cmd.p);
            && s'.fs == s.fs && s'.inodes == s.inodes
            && PcOf(s', cmd.p) == if s.inodes[ino].token == (if cmd.VerifyRelease? then Some(pc.token) else pc.observed)
                                  then Removing else Restoring
  {
    hide TokensOk, ReturnedOnce, FilesKnown, SidesOk;
  }

  lemma RemoveStep(stale: nat, s: State, p: Pid, ino: Ino)
    requires PcOf(s, p).Removing?
    ensures var s' := Apply(stale, s, RemoveSide(p));
            PcOf(s', p).Idle? && NamesOf(s', ino) == NamesOf(s, ino) - {Side(p)}
  {
  }

  /** The token of a process's own file, once written, is the one it knows. */
  lemma {:induction false} FileStays(stale: nat, states: seq<State>, cmds: seq<Command>, i: nat, k: nat, ino: Ino)
    requires IsRun(stale, states, cmds) && i <= k <= |cmds| && ino in states[i].inodes
    ensures ino in states[k].inodes && Rewritten(states[i].inodes[ino], states[k].inodes[ino])
  {
    hide Sound, Apply, Enabled, Inv;
    if i < k {
      FileStays(stale, states, cmds, i, k - 1, ino);
      RunSound(stale, states, cmds, k - 1);
      SoundIsInv(states[k - 1]);
      assert StepAt(stale, states, cmds, k - 1);
      PathNeverOverwritten(stale, states[k - 1], cmds[k - 1]);
    }
  }

  lemma SoundIsInv(s: State)
    requires Sound(s)
    ensures Inv(s)
  {
  }

  // ---------------------------------------------------------------------------
  // The lock functions
  // ---------------------------------------------------------------------------

  /** What makes an acquire break the lock: the file it reads has a token and is older than the
      window, or it has none and the file it then looks at has not been touched for so long. */
  predicate SeenStale(stale: nat, read: State, stat: State) {
    && LockPath in read.fs && read.fs[LockPath] in read.inodes
    && var file := read.inodes[read.fs[LockPath]];
       if file.token.Some? then read.clock - file.createdAt > stale
       else LockPath in stat.fs && stat.fs[LockPath] in stat.inodes && stat.clock - stat.inodes[stat.fs[LockPath]].mtime > stale
  }

  /** From position i on, the process renames aside a lock it has seen with that token. */
  ghost predicate Breaks(states: seq<State>, cmds: seq<Command>, i: nat, me: Pid, observed: Option<Token>)
    requires |states| == |cmds| + 1
  {
    exists b: nat :: i <= b < |cmds| && cmds[b] == RenameStale(me) && PcOf(states[b], me) == Breaking(observed)
  }

  predicate NeverRenames(cmds: seq<Command>, i: nat, me: Pid) {
    forall k :: i <= k < |cmds| ==> cmds[k] != RenameStale(me)
  }

  class LockFile {
    const stale: nat
    const me: Pid
    var sys: State                   // the directory and every process
    ghost var states: seq<State>     // the run so far
    ghost var cmds: seq<Command>

    ghost predicate Valid()
      reads this
    {
      |states| == |cmds| + 1 && IsRun(stale, states, cmds) && sys == states[|cmds|]
    }

    constructor (stale: nat, me: Pid)
      ensures Valid() && sys == Init() && cmds == [] && this.stale == stale && this.me == me
    {
      InitInv();
      this.stale, this.me, sys := stale, me, Init();
      states, cmds := [Init()], [];
    }

    /** Whatever other processes do between two system calls. */
    method Await()
      requires Valid()
      modifies this
      ensures Valid() && old(states) <= states && old(cmds) <= cmds && OthersFrom(cmds, |old(cmds)|, me)
      ensures PcOf(sys, me) == old(PcOf(sys, me))
    {
    }

    method Call(cmd: Command)
      requires Valid() && cmd.p == me && Enabled(sys, cmd)
      modifies this
      ensures Valid() && sys == Apply(stale, old(sys), cmd)
      ensures states == old(states) + [sys] && cmds == old(cmds) + [cmd]
    {
      hide Apply, Enabled;
      OneMoreStep(stale, states, cmds, cmd);
      sys := Apply(stale, sys, cmd);
      states, cmds := states + [sys], cmds + [cmd];
    }

    method FreshIno() returns (ino: Ino)
      ensures Fresh(sys, ino)
    {
      ino := 0;
      var rest := sys.inodes.Keys;
      while rest != {}
        invariant rest <= sys.inodes.Keys
        invariant forall i :: i in sys.inodes && i !in rest ==> i < ino
      {
        var i :| i in rest;
        if i >= ino { ino := i + 1; }
        rest := rest - {i};
      }
    }

    /** tryAcquireLock. `c` is the position of its create, `r` and `t` those of its looks at a
        lock that is already there. A token is returned exactly when the create found the path
        free, with the file put there then, and never one returned before. Otherwise no side
        file is left, and the lock is renamed aside exactly when it was seen to be stale. */
    method TryAcquireLock() returns (token: Option<Token>, ghost c: nat, ghost r: nat, ghost t: nat)
      requires Valid() && PcOf(sys, me).Idle?
      modifies this
      ensures Valid() && old(states) <= states && old(cmds) <= cmds
      ensures |old(cmds)| < c < |cmds| && cmds[c].Create? && cmds[c].p == me
      ensures token.Some? <==> LockPath !in states[c].fs
      ensures token.Some? ==>
                && PcOf(sys, me).Holding? && PcOf(sys, me).token == token.value
                && KnowsFile(sys, me, PcOf(sys, me)) && token.value !in old(sys.returned)
                && LockPath in states[c + 1].fs && states[c + 1].fs[LockPath] == PcOf(sys, me).ino
      ensures token.None? ==>
                && PcOf(sys, me).Idle? && Side(me) !in sys.fs && c < r <= t < |cmds|
                && (if SeenStale(stale, states[r], states[t])
                    then Breaks(states, cmds, t, me, TokenAt(states[r], LockPath)) else NeverRenames(cmds, c, me))
    {
      hide Apply, Inv, Sound, TokenAt, KnowsFile, IsRun, NamesOf, SeenStale, Breaks, NeverRenames, OthersFrom;
      Reached(stale, states, cmds);
      NotReturnedYet(sys);
      BeginStep(stale, sys, me);
      Call(Begin(me));
      var createdAt := sys.clock;
      ghost var b := |cmds|;
      Await();
      ClockGrows(stale, states, cmds, b, |cmds|);
      c, r, t := |cmds|, 0, 0;
      var ino := FreshIno();
      CreateStep(stale, sys, me, ino, createdAt);
      Call(Create(me, ino, createdAt));
      if PcOf(sys, me).Created? {
        Await();
        Reached(stale, states, cmds);
        KnowsItsFile(sys, me);
        WriteStep(stale, sys, me);
        Call(WriteToken(me));
        Reached(stale, states, cmds);
        KnowsItsFile(sys, me);
        token := Some(PcOf(sys, me).token);
      } else {
        ghost var i := |cmds|;
        r, t := BreakIfStale();
        QuietUntil(cmds, c, i, me);
        Reached(stale, states, cmds);
        NoSide(sys, me);
        token := None;
      }
    }

    /** The lock is read, and looked at again when it has no token yet. */
    method BreakIfStale() returns (ghost r: nat, ghost t: nat)
      requires Valid() && PcOf(sys, me).Blocked?
      modifies this
      ensures Valid() && old(states) <= states && old(cmds) <= cmds
      ensures PcOf(sys, me).Idle? && |old(cmds)| <= r <= t < |cmds|
      ensures if SeenStale(stale, states[r], states[t])
              then Breaks(states, cmds, t, me, TokenAt(states[r], LockPath)) else NeverRenames(cmds, |old(cmds)|, me)
    {
      hide Apply, Inv, Sound, TokenAt, IsRun, NamesOf, SeenStale;
      Await();
      Reached(stale, states, cmds);
      r, t := |cmds|, |cmds|;
      ReadStep(stale, sys, me);
      Call(ReadLock(me));
      if PcOf(sys, me).ReadEmpty? {
        Await();
        Reached(stale, states, cmds);
        t := |cmds|;
        StatStep(stale, states[r], sys, me);
        Call(StatLock(me));
      }
      if PcOf(sys, me).Breaking? {
        ghost var b, v := BreakLock();
        assert cmds[b] == RenameStale(me);
      }
    }

    /** The lock is renamed aside and verified. The file that was at the path, at position `b`,
        loses all names it got there when it has the token seen before, at position `v`;
        otherwise it is linked back and its side name removed. */
    method BreakLock() returns (ghost b: nat, ghost v: nat)
      requires Valid() && PcOf(sys, me).Breaking?
      modifies this
      ensures Valid() && old(states) <= states && old(cmds) <= cmds && PcOf(sys, me).Idle?
      ensures |old(cmds)| <= b < |cmds| && cmds[b] == RenameStale(me)
      ensures PcOf(states[b], me) == old(PcOf(sys, me))
      ensures LockPath in states[b].fs ==>
                var ino := states[b].fs[LockPath];
                && b < v < |cmds| && ino in states[v].inodes
                && if states[v].inodes[ino].token == old(PcOf(sys, me).observed)
                   then NamesOf(sys, ino) <= NamesOf(states[b], ino) - {LockPath, Side(me)}
                   else cmds[|cmds| - 1] == UnlinkSide(me)
    {
      hide Apply, Inv, Sound, IsRun, NamesOf, OthersFrom;
      Await();
      Reached(stale, states, cmds);
      b, v := |cmds|, 0;
      RenameStep(stale, sys, RenameStale(me));
      Call(RenameStale(me));
      if PcOf(sys, me).Renamed? { v := VerifyAside(PcOf(sys, me).observed); }
    }

    /** The file set aside is read again. When it has the expected token it is removed, and no
        name is left but those it had besides; otherwise it is linked back and its side name
        removed. `v` is the position of that look. */
    method VerifyAside(expected: Option<Token>) returns (ghost v: nat)
      requires Valid() && Side(me) in sys.fs
      requires PcOf(sys, me) == Renamed(expected) || (expected.Some? && PcOf(sys, me) == ReleaseRenamed(expected.value))
      modifies this
      ensures Valid() && old(states) <= states && old(cmds) <= cmds && PcOf(sys, me).Idle?
      ensures |old(cmds)| <= v < |cmds| && old(sys.fs[Side(me)]) in states[v].inodes
      ensures var ino := old(sys.fs[Side(me)]);
              if states[v].inodes[ino].token == expected
              then NamesOf(sys, ino) <= old(NamesOf(sys, ino)) - {Side(me)}
              else cmds[|cmds| - 1] == UnlinkSide(me)
    {
      hide Apply, Inv, Sound, NamesOf, IsRun, RenameAside, LinkIfAbsent, Unlink;
      ghost var ino, i := sys.fs[Side(me)], |cmds|;
      Await();
      Reached(stale, states, cmds);
      SideStays(stale, states, cmds, i, |cmds|, me, ino);
      v := |cmds|;
      ghost var verify := if PcOf(sys, me).Renamed? then VerifyStale(me) else VerifyRelease(me);
      VerifyStep(stale, sys, verify, ino);
      if PcOf(sys, me).Renamed? { Call(VerifyStale(me)); } else { Call(VerifyRelease(me)); }
      ghost var j := |cmds|;
      Await();
      Reached(stale, states, cmds);
      if PcOf(sys, me).Removing? {
        SameNames(states[v], states[j], ino);
        SideStays(stale, states, cmds, j, |cmds|, me, ino);
        RemoveStep(stale, sys, me, ino);
        Call(RemoveSide(me));
      } else {
        RestoreSideFile();
      }
    }

    /** Link the side file back unless the path is taken, and remove its side name. */
    method RestoreSideFile()
      requires Valid() && PcOf(sys, me).Restoring?
      modifies this
      ensures Valid() && old(states) <= states && old(cmds) <= cmds
      ensures PcOf(sys, me).Idle? && Side(me) !in sys.fs && cmds[|cmds| - 1] == UnlinkSide(me)
    {
      hide Inv, IsRun, RenameAside, LinkIfAbsent, Unlink, TokenAt;
      Call(LinkBack(me));
      Await();
      Call(UnlinkSide(me));
      Reached(stale, states, cmds);
      NoSide(sys, me);
    }

    /** releaseLock. When the lock path holds another file, or none, nothing is renamed and no
        name changes. When it holds the file of this process, and nobody else renames that away,
        the file loses the lock path and is left with none but the side names it had before; so
        with no name, unless somebody had just restored it. */
    method ReleaseLock()
      requires Valid() && PcOf(sys, me).Holding?
      modifies this
      ensures Valid() && old(states) <= states && old(cmds) <= cmds
      ensures PcOf(sys, me).Idle? && Side(me) !in sys.fs
      ensures var ino := old(PcOf(sys, me).ino);
              if old(LockPath in sys.fs && sys.fs[LockPath] == PcOf(sys, me).ino)
              then Undisturbed(states, cmds, |old(cmds)|, me) ==>
                     NamesOf(sys, ino) <= old(NamesOf(sys, PcOf(sys, me).ino)) - {LockPath, Side(me)}
              else cmds == old(cmds) + [CheckRelease(me)] && sys.fs == old(sys.fs)
    {
      hide Apply, Inv, Sound, NamesOf, IsRun, Undisturbed;
      var own := Some(PcOf(sys, me).token);
      ghost var i, ino := |cmds|, PcOf(sys, me).ino;
      Reached(stale, states, cmds);
      CheckStep(stale, sys, me);
      Call(CheckRelease(me));
      SameNames(states[i], sys, ino);
      if PcOf(sys, me).Releasing? {
        ghost var j := |cmds|;
        Await();
        Reached(stale, states, cmds);
        ghost var k := |cmds|;
        RenameStep(stale, sys, RenameRelease(me));
        Call(RenameRelease(me));
        if PcOf(sys, me).ReleaseRenamed? {
          ghost var v := VerifyAside(own);
          OwnTokenStays(stale, states, cmds, i, v, me);
          if Undisturbed(states, cmds, i, me) { PathStaysIn(stale, states, cmds, i, j, k, me, ino); }
        } else if Undisturbed(states, cmds, i, me) {
          PathStaysIn(stale, states, cmds, i, j, k, me, ino);
        }
      }
      Reached(stale, states, cmds);
      NoSide(sys, me);
    }
  }

  lemma SameNames(s: State, s': State, ino: Ino)
    requires s'.fs == s.fs
    ensures NamesOf(s', ino) == NamesOf(s, ino)
  {
  }

  lemma Reached(stale: nat, states: seq<State>, cmds: seq<Command>)
    requires IsRun(stale, states, cmds)
    ensures |states| == |cmds| + 1 && Sound(states[|cmds|]) && Inv(states[|cmds|])
  {
    hide Sound, Inv;
    RunSound(stale, states, cmds, |cmds|);
    SoundIsInv(states[|cmds|]);
  }

  lemma OneMoreStep(stale: nat, states: seq<State>, cmds: seq<Command>, cmd: Command)
    requires IsRun(stale, states, cmds) && Enabled(states[|cmds|], cmd)
    ensures IsRun(stale, states + [Apply(stale, states[|cmds|], cmd)], cmds + [cmd])
  {
    hide Apply, Enabled, Inv;
    var states', cmds' := states + [Apply(stale, states[|cmds|], cmd)], cmds + [cmd];
    forall k: nat | k < |cmds'| ensures StepAt(stale, states', cmds', k) {
      if k < |cmds| { assert StepAt(stale, states, cmds, k); }
    }
  }

  /** The file stays at the path while the process waits between its check and its rename. */
  lemma PathStaysIn(stale: nat, states: seq<State>, cmds: seq<Command>, i: nat, j: nat, k: nat, me: Pid, ino: Ino)
    requires IsRun(stale, states, cmds) && i <= j <= k <= |cmds| && Undisturbed(states, cmds, i, me)
    requires LockPath in states[j].fs && states[j].fs[LockPath] == ino
    requires forall n :: j <= n < k ==> cmds[n].p != me || cmds[n].Tick?
    ensures LockPath in states[k].fs && states[k].fs[LockPath] == ino && NamesOf(states[k], ino) <= NamesOf(states[j], ino)
  {
    hide IsRun, NamesOf, FreesPath, Inv;
    ShapedRun(stale, states, cmds);
    assert Undisturbed(states, cmds, j, me);
    PathStays(stale, states, cmds, j, k, me, ino);
  }

  lemma ShapedRun(stale: nat, states: seq<State>, cmds: seq<Command>)
    requires IsRun(stale, states, cmds)
    ensures |states| == |cmds| + 1
  {
  }

  /** The file of a holder keeps the token that the holder knows. */
  lemma OwnTokenStays(stale: nat, states: seq<State>, cmds: seq<Command>, i: nat, v: nat, me: Pid)
    requires IsRun(stale, states, cmds) && i <= v <= |cmds| && PcOf(states[i], me).Holding?
    ensures var pc := PcOf(states[i], me); pc.ino in states[v].inodes && states[v].inodes[pc.ino].token == Some(pc.token)
  {
    hide Inv, Apply, Enabled, Apart;
    RunSound(stale, states, cmds, i);
    KnowsItsFile(states[i], me);
    FileStays(stale, states, cmds, i, v, PcOf(states[i], me).ino);
  }

  lemma BeginStep(stale: nat, s: State, p: Pid)
    requires PcOf(s, p).Idle?
    ensures var s' := Apply(stale, s, Begin(p)); PcOf(s', p) == Trying(s.nextToken) && s'.clock == s.clock
  {
  }

  lemma CreateStep(stale: nat, s: State, p: Pid, ino: Ino, createdAt: nat)
    requires Enabled(s, Create(p, ino, createdAt))
    ensures var s' := Apply(stale, s, Create(p, ino, createdAt));
            if LockPath in s.fs then PcOf(s', p).Blocked?
            else PcOf(s', p) == Created(ino, PcOf(s, p).token) && LockPath in s'.fs && s'.fs[LockPath] == ino
  {
  }

  lemma WriteStep(stale: nat, s: State, p: Pid)
    requires Enabled(s, WriteToken(p))
    ensures PcOf(Apply(stale, s, WriteToken(p)), p) == Holding(PcOf(s, p).ino, PcOf(s, p).token)
  {
  }

  lemma ReadStep(stale: nat, s: State, p: Pid)
    requires Inv(s) && PcOf(s, p).Blocked?
    ensures var pc := PcOf(Apply(stale, s, ReadLock(p)), p);
            if pc.ReadEmpty? then LockPath in s.fs && TokenAt(s, LockPath) == None
            else pc == if SeenStale(stale, s, s) then Breaking(TokenAt(s, LockPath)) else Idle
  {
    hide TokensOk, ReturnedOnce, FilesKnown, SidesOk;
  }

  lemma StatStep(stale: nat, read: State, s: State, p: Pid)
    requires Inv(read) && LockPath in read.fs && TokenAt(read, LockPath) == None && PcOf(s, p).ReadEmpty?
    ensures PcOf(Apply(stale, s, StatLock(p)), p) == if SeenStale(stale, read, s) then Breaking(None) else Idle
  {
    hide TokensOk, ReturnedOnce, FilesKnown, SidesOk;
  }

  lemma QuietUntil(cmds: seq<Command>, c: nat, i: nat, me: Pid)
    requires c < |cmds| && i == c + 1 && cmds[c].Create?
    ensures NeverRenames(cmds, i, me) ==> NeverRenames(cmds, c, me)
  {
  }

  lemma {:induction false} ClockGrows(stale: nat, states: seq<State>, cmds: seq<Command>, i: nat, k: nat)
    requires IsRun(stale, states, cmds) && i <= k <= |cmds|
    ensures |states| == |cmds| + 1 && states[i].clock <= states[k].clock
  {
    hide Apply, Enabled;
    if i < k {
      ClockGrows(stale, states, cmds, i, k - 1);
      assert StepAt(stale, states, cmds, k - 1);
      ClockStep(stale, states[k - 1], cmds[k - 1]);
    }
  }

  lemma ClockStep(stale: nat, s: State, cmd: Command)
    requires Enabled(s, cmd)
    ensures s.clock <= Apply(stale, s, cmd).clock
  {
  }

  /** What Await relies on: any system call of another process may come next. */
  lemma OthersMayStep(stale: nat, states: seq<State>, cmds: seq<Command>, i: nat, cmd: Command, me: Pid)
    requires IsRun(stale, states, cmds) && i <= |cmds| && OthersFrom(cmds, i, me)
    requires Enabled(states[|cmds|], cmd) && (cmd.p != me || cmd.Tick?)
    ensures var s' := Apply(stale, states[|cmds|], cmd);
            && IsRun(stale, states + [s'], cmds + [cmd]) && OthersFrom(cmds + [cmd], i, me)
            && PcOf(s', me) == PcOf(states[|cmds|], me)
  {
    hide Apply, Enabled, Inv, Sound;
    RunSound(stale, states, cmds, |cmds|);
    SoundIsInv(states[|cmds|]);
    OneMoreStep(stale, states, cmds, cmd);
    BudgetLock.OthersMayStep(stale, states[|cmds|], cmd, me);
  }
}
