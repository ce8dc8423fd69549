/**
 A completed session as a copy: what lies on the receiver's disk afterwards, file by file, and that below the name of
 the resource these are the leaves of the tree that the sender zipped.
 */
module Copies {
  import opened Bytes
  import opened Cipher
  import opened Disk
  import opened Protocol
  import opened Invariant
  import opened Preservation
  import opened History
  import opened SessionProperties
  import opened Recovery
  import T = Trees
  import Z = Zipping

  // ---------------------------------------------------------------- the disk around a session

  /** The receiver has extracted the archive. */
  predicate Unpacked(pc: Pc) {
    pc == R(RemoveFile(true)) || pc == R(RemoveCkpt(true)) || pc == R(RecvEnd(true))
  }

  /** Apart from the session's own files: what lay there, and what the archive holds once it is extracted. */
  ghost predicate Around(env: Env, job: Job, pc: Pc, before: Fs, fs: Fs) {
    forall n: CString | n !in Footprint(env, job) ::
      if Unpacked(pc) && n in job.Content(env) then n in fs && fs[n] == job.Content(env)[n] else SameAt(before, fs, n)
  }

  /** The disk as the session found it, or the same without the old resource. */
  function Before(env: Env, job: Job, base: Fs, removed: bool): Fs {
    if removed then Removed(base, job.Home(env)) else base
  }

  /** Until the transfer begins, only the removal of the old resource changes the disk. */
  ghost predicate Tracked(env: Env, job: Job, pc: Pc, base: Fs, removed: bool, fs: Fs) {
    Around(env, job, pc, Before(env, job, base, removed), fs) && (pc.C? || pc.V? ==> fs == base && !removed)
  }

  lemma Untouched(env: Env, job: Job, pc: Pc, before: Fs)
    requires !Unpacked(pc)
    ensures Around(env, job, pc, before, before)
  {
    assert forall n: CString :: SameAt(before, before, n);
  }

  lemma TrackedAct(env: Env, job: Job, side: Side, base: Fs, removed: bool, l: Local, ch: Choice)
    requires job.Valid(env) && Receives(job, side) && DataGood(env, job, side, l) && Next(env, job, l, ch).Some?
    requires NoSecondPreimage(env, job.archive) && Tracked(env, job, l.proc.pc, base, removed, l.fs)
    ensures var l' := Next(env, job, l, ch).value;
            Tracked(env, job, l'.proc.pc, base, removed || l.proc.pc == V(PutRemove), l'.fs)
  {
    if Waits(l.proc.pc) {
      TrackedHearing(env, job, side, base, removed, l.proc, l.fs, l.inq[0]);
    } else {
      HearsOnlyWaiting(env, job, l.proc, l.fs, ch);
      if l.proc.pc.R? {
        TrackedTurn(env, job, side, base, removed, l, ch);
      } else {
        TrackedEarly(env, job, side, base, removed, l.proc, l.fs, ch);
      }
    }
  }

  lemma TrackedHearing(env: Env, job: Job, side: Side, base: Fs, removed: bool, p: Proc, fs: Fs, m: Msg)
    requires env.Valid() && Receives(job, side) && PcGood(env, job, side, p) && Waits(p.pc)
    requires Tracked(env, job, p.pc, base, removed, fs) && OnMsg(env, p, m).Hears?
    ensures Tracked(env, job, OnMsg(env, p, m).proc.pc, base, removed, fs)
  {
    HearingEarly(env, p, m);
  }

  lemma HearingEarly(env: Env, p: Proc, m: Msg)
    requires env.Valid() && Waits(p.pc) && OnMsg(env, p, m).Hears?
    ensures var pc := OnMsg(env, p, m).proc.pc;
            !Unpacked(p.pc) && !Unpacked(pc) && (pc.C? || pc.V? ==> p.pc.C? || p.pc.V?)
  {
  }

  lemma TrackedEarly(env: Env, job: Job, side: Side, base: Fs, removed: bool, p: Proc, fs: Fs, ch: Choice)
    requires job.Valid(env) && Receives(job, side) && PcGood(env, job, side, p) && CkptOk(env, fs, job.archive)
    requires !p.pc.R? && !Waits(p.pc) && Tracked(env, job, p.pc, base, removed, fs)
    ensures var e, removed' := OnTurn(env, job, p, fs, ch), removed || p.pc == V(PutRemove);
            && (e.Says? ==> Tracked(env, job, e.pc, base, removed', fs))
            && (e.Works? ==> Tracked(env, job, e.pc, base, removed', e.fs))
  {
    var e := OnTurn(env, job, p, fs, ch);
    TurnGood(env, job, side, p, fs, ch);
    StillEarly(env, job, side, p, fs, ch);
    if e.Works? {
      Untouched(env, job, e.pc, e.fs);
    } else if e.Says? {
      Untouched(env, job, e.pc, base);
    }
  }

  lemma TrackedTurn(env: Env, job: Job, side: Side, base: Fs, removed: bool, l: Local, ch: Choice)
    requires job.Valid(env) && Receives(job, side) && DataGood(env, job, side, l) && l.proc.pc.R? && !Waits(l.proc.pc)
    requires NoSecondPreimage(env, job.archive) && Tracked(env, job, l.proc.pc, base, removed, l.fs)
    ensures var e := ReceiverActs(env, l.proc, l.proc.pc.r, l.fs, ch);
            && (e.Says? ==> Tracked(env, job, e.pc, base, removed, l.fs))
            && (e.Works? ==> Tracked(env, job, e.pc, base, removed, e.fs))
  {
    var e := ReceiverActs(env, l.proc, l.proc.pc.r, l.fs, ch);
    var before := Before(env, job, base, removed);
    OnlyExtractionUnpacks(env, l.proc, l.fs, ch);
    if e.Says? {
      assert Around(env, job, e.pc, before, l.fs);
    } else if e.Works? {
      if l.proc.pc.r.Extract? {
        AroundExtract(env, job, side, before, l, ch);
      } else {
        AroundOther(env, job, side, before, l, ch);
      }
      assert Around(env, job, e.pc, before, e.fs);
    }
  }

  lemma OnlyExtractionUnpacks(env: Env, p: Proc, fs: Fs, ch: Choice)
    requires p.pc.R?
    ensures var e := ReceiverActs(env, p, p.pc.r, fs, ch);
            e.Says? || e.Works? ==> e.pc.R? && (Unpacked(e.pc) <==> Unpacked(p.pc) || (p.pc.r.Extract? && e.Works?))
  {
  }

  lemma AroundExtract(env: Env, job: Job, side: Side, before: Fs, l: Local, ch: Choice)
    requires job.Valid(env) && Receives(job, side) && DataGood(env, job, side, l) && l.proc.pc == R(Extract)
    requires NoSecondPreimage(env, job.archive) && Around(env, job, l.proc.pc, before, l.fs)
    ensures var e := ReceiverActs(env, l.proc, l.proc.pc.r, l.fs, ch); e.Works? && Around(env, job, e.pc, before, e.fs)
  {
    assert l.fs[job.File(env)] == job.archive;
  }

  lemma AroundOther(env: Env, job: Job, side: Side, before: Fs, l: Local, ch: Choice)
    requires job.Valid(env) && Receives(job, side) && DataGood(env, job, side, l)
    requires l.proc.pc.R? && !Waits(l.proc.pc) && !l.proc.pc.r.Extract?
    requires Around(env, job, l.proc.pc, before, l.fs) && ReceiverActs(env, l.proc, l.proc.pc.r, l.fs, ch).Works?
    ensures var e := ReceiverActs(env, l.proc, l.proc.pc.r, l.fs, ch); Around(env, job, e.pc, before, e.fs)
  {
    var e := ReceiverActs(env, l.proc, l.proc.pc.r, l.fs, ch);
    OnlyExtractionUnpacks(env, l.proc, l.fs, ch);
    forall n: CString | n !in Footprint(env, job) ensures SameAt(l.fs, e.fs, n) {
      OwnFilesOnly(env, job, l.proc, l.fs, ch, n);
    }
  }

  lemma OwnFilesOnly(env: Env, job: Job, p: Proc, fs: Fs, ch: Choice, n: CString)
    requires p.pc.R? && !Waits(p.pc) && !p.pc.r.Extract? && p.resource == job.Resource() && n !in Footprint(env, job)
    requires !p.pc.r.AwaitHash? ==> p.hash == env.md5(job.archive)
    requires ReceiverActs(env, p, p.pc.r, fs, ch).Works?
    ensures SameAt(fs, ReceiverActs(env, p, p.pc.r, fs, ch).fs, n)
  {
  }

  /** The server removes an old resource. */
  predicate Removing(w: World, a: Action) { a.Act? && w.Of(a.side).pc == V(PutRemove) }

  /** In the course of the run it does so. */
  ghost predicate Replaces(env: Env, job: Job, w: World, actions: seq<Action>)
    requires env.Valid()
    decreases |actions|
  {
    actions != [] && (Removing(w, actions[0]) ||
                      match Do(env, job, w, actions[0])
                      case None => false
                      case Some(w') => Replaces(env, job, w', actions[1..]))
  }

  lemma {:induction false} TrackedRun(env: Env, job: Job, side: Side, base: Fs, removed: bool, w: World,
                                      actions: seq<Action>)
    requires job.Valid(env) && Receives(job, side) && NoSecondPreimage(env, job.archive) && Inv(env, job, w)
    requires Run(env, job, w, actions).Some? && (w.Up(side) ==> Tracked(env, job, w.Of(side).pc, base, removed, w.fs))
    ensures var w' := Run(env, job, w, actions).value;
            w'.Up(side) ==>
              Tracked(env, job, w'.Of(side).pc, base, removed || Replaces(env, job, w, actions), w'.fs)
    decreases |actions|
  {
    if actions != [] {
      var w1 := Do(env, job, w, actions[0]).value;
      TrackedKept(env, job, side, base, removed, w, actions[0], w1);
      DoKeeps(env, job, w, actions[0]);
      TrackedRun(env, job, side, base, removed || Removing(w, actions[0]), w1, actions[1..]);
    }
  }

  lemma TrackedKept(env: Env, job: Job, side: Side, base: Fs, removed: bool, w: World, a: Action, w': World)
    requires job.Valid(env) && Receives(job, side) && NoSecondPreimage(env, job.archive) && Inv(env, job, w)
    requires Do(env, job, w, a) == Some(w') && (w.Up(side) ==> Tracked(env, job, w.Of(side).pc, base, removed, w.fs))
    ensures w'.Up(side) ==> Tracked(env, job, w'.Of(side).pc, base, removed || Removing(w, a), w'.fs)
  {
    if a.side != side {
      OtherFrame(env, job, w, a, w');
      OnlyReceiversRemove(env, job, w, a.side);
    } else if a.Act? {
      InvGivesLocal(env, job, w, side);
      TrackedAct(env, job, side, base, removed, w.View(side), a.choice);
    }
  }

  lemma OnlyReceiversRemove(env: Env, job: Job, w: World, side: Side)
    requires job.Valid(env) && Inv(env, job, w)
    ensures w.Of(side).pc == V(PutRemove) ==> Receives(job, side) && !Receives(job, side.Other())
  {
  }

  /**
   A session as a copy. When the receiver reports success, every file on its disk apart from the session's own three is
   the archive's if the archive has one of that name, and otherwise what lay there when the session began: all of it,
   or what lay outside the old resource, exactly if the session had that removed. The partial file and its checkpoint
   are gone.
   */
  lemma Completed(env: Env, past: seq<Session>, job: Job, actions: seq<Action>, base: Fs, w: World, side: Side)
    requires Legal(env, AllJobs(past, job)) && NoSecondPreimage(env, job.archive)
    requires RunAll(env, map[], past) == Some(base) && Reach(env, past, job, actions) == Some(w)
    requires w.Up(side) && w.Of(side).pc == R(RecvEnd(true))
    ensures Cleaned(env, job, w.fs)
    ensures var removed := Replaces(env, job, Start(job, base), actions);
            Copied(env, job, Before(env, job, base, removed), w.fs)
  {
    ReachedGood(env, past, job, [], Start(job, base));
    CompletedRun(env, job, actions, base, w, side);
  }

  /** Apart from the session's own files the disk is the earlier one with the files of the archive over it. */
  ghost predicate Copied(env: Env, job: Job, before: Fs, fs: Fs) {
    forall n: CString | n !in Footprint(env, job) :: SameAt(before + job.Content(env), fs, n)
  }

  lemma CompletedRun(env: Env, job: Job, actions: seq<Action>, base: Fs, w: World, side: Side)
    requires job.Valid(env) && NoSecondPreimage(env, job.archive) && Inv(env, job, Start(job, base))
    requires Run(env, job, Start(job, base), actions) == Some(w)
    requires w.Up(side) && w.Of(side).pc == R(RecvEnd(true))
    ensures Cleaned(env, job, w.fs)
    ensures var removed := Replaces(env, job, Start(job, base), actions);
            Copied(env, job, Before(env, job, base, removed), w.fs)
  {
    RunKeeps(env, job, Start(job, base), actions);
    EndIsReceiver(env, job, w, side);
    Untouched(env, job, Start(job, base).Of(side).pc, base);
    TrackedRun(env, job, side, base, false, Start(job, base), actions);
    AroundAll(env, job, Before(env, job, base, Replaces(env, job, Start(job, base), actions)), w.fs);
  }

  lemma EndIsReceiver(env: Env, job: Job, w: World, side: Side)
    requires job.Valid(env) && Inv(env, job, w) && w.Up(side) && w.Of(side).pc == R(RecvEnd(true))
    ensures Receives(job, side) && Cleaned(env, job, w.fs)
  {
  }

  lemma AroundAll(env: Env, job: Job, before: Fs, fs: Fs)
    requires Around(env, job, R(RecvEnd(true)), before, fs)
    ensures Copied(env, job, before, fs)
  {
  }

  // ---------------------------------------------------------------- names of the nodes of a tree

  /** A file name as the system has it. */
  predicate Proper(n: T.Name) {
    n != [] && forall i | 0 <= i < |n| :: n[i] != 0 && n[i] != SLASH
  }

  predicate AllProper(q: T.Path) {
    forall i | 0 <= i < |q| :: Proper(q[i])
  }

  /** Each component behind a slash. */
  function Joined(q: T.Path): CString
    requires AllProper(q)
  {
    if q == [] then [] else [SLASH] + q[0] + Joined(q[1..])
  }

  lemma {:induction false} JoinedInjective(p: T.Path, q: T.Path)
    requires AllProper(p) && AllProper(q) && Joined(p) == Joined(q)
    ensures p == q
  {
    if p != [] && q != [] {
      FirstComponent(p);
      FirstComponent(q);
      var m, n := |p[0]|, |q[0]|;
      if m < n {
        SlashAfter(p, q);
        assert false;
      } else if n < m {
        SlashAfter(q, p);
        assert false;
      }
      assert p[0] == Joined(p)[1..m + 1] == q[0];
      assert Joined(p[1..]) == Joined(p)[m + 1..];
      assert Joined(q[1..]) == Joined(q)[m + 1..];
      JoinedInjective(p[1..], q[1..]);
      assert p == [p[0]] + p[1..] && q == [q[0]] + q[1..];
    }
  }

  lemma FirstComponent(p: T.Path)
    requires AllProper(p) && p != []
    ensures |Joined(p)| == 1 + |p[0]| + |Joined(p[1..])|
    ensures Joined(p)[1..|p[0]| + 1] == p[0] && Joined(p)[|p[0]| + 1..] == Joined(p[1..])
  {
  }

  /** A component ends where the next slash is. */
  lemma SlashAfter(p: T.Path, q: T.Path)
    requires AllProper(p) && AllProper(q) && p != [] && q != [] && |p[0]| < |q[0]|
    ensures Joined(p) != Joined(q)
  {
    var m := |p[0]|;
    FirstComponent(p);
    FirstComponent(q);
    assert Proper(q[0]) && Joined(q)[1..|q[0]| + 1][m] == q[0][m];
    if p[1..] != [] {
      assert Joined(p)[m + 1..][0] == Joined(p[1..])[0] == SLASH;
    }
  }

  /** Where the node q of a resource p lies, when the resource has this name. */
  function NameOf(home: CString, p: T.Path, q: T.Path): CString
    requires p <= q && AllProper(q[|p|..])
  {
    home + Joined(q[|p|..])
  }

  lemma NamesDiffer(home: CString, p: T.Path, q: T.Path, r: T.Path)
    requires p <= q && p <= r && AllProper(q[|p|..]) && AllProper(r[|p|..]) && q != r
    ensures NameOf(home, p, q) != NameOf(home, p, r)
  {
    assert q == p + q[|p|..] && r == p + r[|p|..];
    if NameOf(home, p, q) == NameOf(home, p, r) {
      assert Joined(q[|p|..]) == NameOf(home, p, q)[|home|..] == Joined(r[|p|..]);
      JoinedInjective(q[|p|..], r[|p|..]);
    }
  }

  lemma NameWithin(home: CString, p: T.Path, q: T.Path)
    requires p <= q && AllProper(q[|p|..])
    ensures Within(home, NameOf(home, p, q))
  {
    var rest := q[|p|..];
    if rest == [] {
      assert home + [] == home;
    } else {
      assert home + [SLASH] <= home + ([SLASH] + rest[0] + Joined(rest[1..]));
    }
  }

  // ---------------------------------------------------------------- the files of an archive

  /** The entries lie below p, under names the system has. */
  predicate Named(p: T.Path, es: seq<Z.Entry>) {
    forall e | e in es :: p <= e.path && AllProper(e.path[|p|..])
  }

  /** The files that extracting the entries of resource p creates, where the resource has this name. */
  function Files(home: CString, p: T.Path, es: seq<Z.Entry>): Fs
    requires Named(p, es)
  {
    if es == [] then map[] else
      var e := es[|es| - 1];
      Files(home, p, es[..|es| - 1])[NameOf(home, p, e.path) := e.data]
  }

  /** One file for each entry, and no other. */
  lemma {:induction false} FilesAre(home: CString, p: T.Path, es: seq<Z.Entry>)
    requires Named(p, es) && Z.Distinct(es)
    ensures forall e | e in es ::
              var n := NameOf(home, p, e.path); n in Files(home, p, es) && Files(home, p, es)[n] == e.data
    ensures forall n | n in Files(home, p, es) :: Within(home, n) && exists e :: e in es && n == NameOf(home, p, e.path)
  {
    if es != [] {
      var before, last := es[..|es| - 1], es[|es| - 1];
      assert es == before + [last];
      Z.DistinctLast(before, last);
      FilesAre(home, p, before);
      NameWithin(home, p, last.path);
      forall e | e in before ensures NameOf(home, p, e.path) != NameOf(home, p, last.path) {
        assert e.path in Z.Paths(before);
        NamesDiffer(home, p, e.path, last.path);
      }
    }
  }

  /** The archive of the job is that of resource p of the tree t. */
  ghost predicate Archives(env: Env, job: Job, t: T.Tree, p: T.Path, es: seq<Z.Entry>) {
    && Z.Zipped(t, p, es) && Named(p, es)
    && env.unzip(job.Home(env), job.archive) == Files(job.Home(env), p, es)
  }

  /** The leaf q has arrived with its content. */
  ghost predicate Arrived(env: Env, job: Job, t: T.Tree, p: T.Path, q: T.Path, fs: Fs) {
    && p <= q && AllProper(q[|p|..])
    && var n := NameOf(job.Home(env), p, q);
       n in fs && Z.Read(t, q) == Some(fs[n])
  }

  lemma ContentIs(env: Env, job: Job, t: T.Tree, p: T.Path, es: seq<Z.Entry>)
    requires Archives(env, job, t, p, es)
    ensures job.Content(env) == Files(job.Home(env), p, es)
  {
    FilesAre(job.Home(env), p, es);
  }

  lemma LeafArrives(env: Env, job: Job, t: T.Tree, p: T.Path, es: seq<Z.Entry>, q: T.Path)
    requires Archives(env, job, t, p, es) && Z.Leaf(t, p, q)
    ensures Arrived(env, job, t, p, q, job.Content(env))
  {
    ContentIs(env, job, t, p, es);
    FilesAre(job.Home(env), p, es);
    assert q in Z.Paths(es);
    var e :| e in es && e.path == q;
  }

  lemma OnlyLeaves(env: Env, job: Job, t: T.Tree, p: T.Path, es: seq<Z.Entry>, n: CString)
    requires Archives(env, job, t, p, es) && n in job.Content(env)
    ensures exists q :: Z.Leaf(t, p, q) && AllProper(q[|p|..]) && n == NameOf(job.Home(env), p, q)
  {
    ContentIs(env, job, t, p, es);
    FilesAre(job.Home(env), p, es);
    var e :| e in es && n == NameOf(job.Home(env), p, e.path);
    assert Z.Leaf(t, p, e.path);
  }

  /**
   A session that succeeds has copied the tree. When the archive is that of a file or folder, every leaf of it, at any
   depth, lies at its place below the name of the resource with its content; every other file there, or elsewhere but
   for the session's own, was there before and is unchanged; and what was there before is still there unless it has one
   of those names, or lay in an old resource that the session had removed.
   */
  lemma TreeCopied(env: Env, past: seq<Session>, job: Job, actions: seq<Action>, base: Fs, w: World, side: Side,
                   t: T.Tree, p: T.Path, es: seq<Z.Entry>)
    requires Legal(env, AllJobs(past, job)) && NoSecondPreimage(env, job.archive) && Archives(env, job, t, p, es)
    requires RunAll(env, map[], past) == Some(base) && Reach(env, past, job, actions) == Some(w)
    requires w.Up(side) && w.Of(side).pc == R(RecvEnd(true))
    ensures forall q | Z.Leaf(t, p, q) :: Arrived(env, job, t, p, q, w.fs)
    ensures forall n: CString | n in w.fs && n !in Footprint(env, job) ::
              || (n in base && w.fs[n] == base[n])
              || exists q :: Z.Leaf(t, p, q) && AllProper(q[|p|..]) && n == NameOf(job.Home(env), p, q)
    ensures forall n: CString | n in base && n !in Footprint(env, job) && n !in job.Content(env)
                                && !(Within(job.Home(env), n) && Replaces(env, job, Start(job, base), actions)) ::
              n in w.fs && w.fs[n] == base[n]
  {
    Completed(env, past, job, actions, base, w, side);
    ReachedGood(env, past, job, actions, w);
    var removed := Replaces(env, job, Start(job, base), actions);
    var before := Before(env, job, base, removed);
    CopiedLeaves(env, job, t, p, es, before, w.fs);
    CopiedRest(env, job, t, p, es, base, removed, w.fs);
  }

  lemma CopiedLeaves(env: Env, job: Job, t: T.Tree, p: T.Path, es: seq<Z.Entry>, before: Fs, fs: Fs)
    requires job.Valid(env) && Archives(env, job, t, p, es) && Copied(env, job, before, fs)
    ensures forall q | Z.Leaf(t, p, q) :: Arrived(env, job, t, p, q, fs)
  {
    forall q | Z.Leaf(t, p, q) ensures Arrived(env, job, t, p, q, fs) {
      LeafArrives(env, job, t, p, es, q);
      var n := NameOf(job.Home(env), p, q);
      assert n in job.Content(env) && n !in Footprint(env, job);
      assert SameAt(before + job.Content(env), fs, n);
    }
  }

  lemma CopiedRest(env: Env, job: Job, t: T.Tree, p: T.Path, es: seq<Z.Entry>, base: Fs, removed: bool, fs: Fs)
    requires job.Valid(env) && Archives(env, job, t, p, es)
    requires Copied(env, job, Before(env, job, base, removed), fs)
    ensures forall n: CString | n in fs && n !in Footprint(env, job) ::
              || (n in base && fs[n] == base[n])
              || exists q :: Z.Leaf(t, p, q) && AllProper(q[|p|..]) && n == NameOf(job.Home(env), p, q)
    ensures forall n: CString | n in base && n !in Footprint(env, job) && n !in job.Content(env)
                                && !(Within(job.Home(env), n) && removed) ::
              n in fs && fs[n] == base[n]
  {
    var before := Before(env, job, base, removed);
    forall n: CString | n in fs && n !in Footprint(env, job) && n in job.Content(env)
      ensures exists q :: Z.Leaf(t, p, q) && AllProper(q[|p|..]) && n == NameOf(job.Home(env), p, q)
    {
      OnlyLeaves(env, job, t, p, es, n);
    }
    forall n: CString | n !in Footprint(env, job) ensures SameAt(before + job.Content(env), fs, n) {
    }
  }
}
