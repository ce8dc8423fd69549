/**
 What resuming buys: convergence to the archive from any disk, and exactly when a resumed transfer succeeds.
 */
module Recovery {
  import opened Bytes
  import opened Cipher
  import opened Disk
  import opened Protocol
  import opened Invariant
  import opened Preservation
  import opened History
  import opened SessionProperties

  /** Before the hash check of a transfer. */
  predicate Early(pc: Pc) {
    pc.R? ==> !(pc.r.Verify? || pc.r.SayOk? || pc.r.SayBad? || pc.r.Extract?
                || pc.r.RemoveFile? || pc.r.RemoveCkpt? || pc.r.RecvEnd?)
  }

  lemma LateStays(env: Env, p: Proc, fs: Fs, ch: Choice)
    requires p.pc.R? && !Early(p.pc)
    ensures var e := ReceiverActs(env, p, p.pc.r, fs, ch);
            e.Says? || e.Works? ==> e.pc.R? && !Early(e.pc) && !e.pc.r.Verify?
  {
  }

  // ---------------------------------------------------------------- outcome of one transfer

  /** Fresh transfers: no checkpoint was there, so the receiver restarts at 0 and cannot find a bad digest. */
  predicate Fresh(env: Env, job: Job, pc: Pc, fs: Fs) {
    match pc
    case R(AwaitHash) => CkptName(env.dir, env.md5(job.archive)) !in fs
    case R(Lookup) => CkptName(env.dir, env.md5(job.archive)) !in fs
    case R(SayRestart) => true
    case R(OpenFile(o)) => o == 0
    case R(AwaitSize(o)) => o == 0
    case R(RecvLoop(st, _, _)) => st == 0
    case R(WriteData(st, _, _, _)) => st == 0
    case R(WriteTmp(st, _, _)) => st == 0
    case R(RenameTmp(st, _, _)) => st == 0
    case R(Verify(st)) => st == 0
    case R(SayOk) => true
    case R(Extract) => true
    case R(RemoveFile(g)) => g
    case R(RemoveCkpt(g)) => g
    case R(RecvEnd(g)) => g
    case R(_) => false
    case _ => CkptName(env.dir, env.md5(job.archive)) !in fs
  }

  lemma FreshTurn(env: Env, job: Job, side: Side, p: Proc, fs: Fs, ch: Choice)
    requires job.Valid(env) && Receives(job, side) && PcGood(env, job, side, p) && !Waits(p.pc)
    requires Fresh(env, job, p.pc, fs)
    requires p.pc.R? ==> DiskGood(env, job, p.pc.r, fs)
    ensures var e := OnTurn(env, job, p, fs, ch);
            (e.Says? ==> Fresh(env, job, e.pc, fs)) && (e.Works? ==> Fresh(env, job, e.pc, e.fs))
  {
    if p.pc.R? {
      FreshReceiverTurn(env, job, p, fs, ch);
    }
  }

  lemma FreshReceiverTurn(env: Env, job: Job, p: Proc, fs: Fs, ch: Choice)
    requires job.Valid(env) && p.pc.R? && !Waits(p.pc) && Fresh(env, job, p.pc, fs) && DiskGood(env, job, p.pc.r, fs)
    requires p.resource == job.Resource() && (!p.pc.r.AwaitHash? ==> p.hash == env.md5(job.archive))
    ensures var e := ReceiverActs(env, p, p.pc.r, fs, ch);
            (e.Says? ==> Fresh(env, job, e.pc, fs)) && (e.Works? ==> Fresh(env, job, e.pc, e.fs))
  {
    if p.pc.r.Verify? {
      FreshMatches(env, job, fs);
    } else if Early(p.pc) {
      FreshEarly(env, job, p, fs, ch);
    }
  }

  /** A file written from the start has the digest of the archive. */
  lemma FreshMatches(env: Env, job: Job, fs: Fs)
    requires Written(job.archive, job.File(env), 0, |job.archive|, fs)
    ensures fs[job.File(env)] == job.archive
  {
    var f := fs[job.File(env)];
    assert f[0..|job.archive|] == f && job.archive[0..|job.archive|] == job.archive;
  }

  lemma FreshEarly(env: Env, job: Job, p: Proc, fs: Fs, ch: Choice)
    requires job.Valid(env) && p.pc.R? && !Waits(p.pc) && Fresh(env, job, p.pc, fs) && Early(p.pc)
    requires p.resource == job.Resource() && (!p.pc.r.AwaitHash? ==> p.hash == env.md5(job.archive))
    ensures var e := ReceiverActs(env, p, p.pc.r, fs, ch);
            (e.Says? ==> Fresh(env, job, e.pc, fs)) && (e.Works? ==> Fresh(env, job, e.pc, e.fs))
  {
  }

  lemma FreshHearing(env: Env, job: Job, p: Proc, fs: Fs, m: Msg)
    requires env.Valid() && Waits(p.pc) && Fresh(env, job, p.pc, fs) && OnMsg(env, p, m).Hears?
    ensures Fresh(env, job, OnMsg(env, p, m).proc.pc, fs)
  {
  }

  lemma FreshKept(env: Env, job: Job, side: Side, w: World, a: Action, w': World)
    requires job.Valid(env) && Receives(job, side) && Inv(env, job, w) && Do(env, job, w, a) == Some(w')
    requires Fresh(env, job, w.Of(side).pc, w.fs)
    ensures Fresh(env, job, w'.Of(side).pc, w'.fs)
  {
    if a.side != side {
      OtherFrame(env, job, w, a, w');
    } else if a.Stop? {
      DoDisk(env, job, w, a, w');
      StepFrameStop(env, job, w.Of(side), w.fs, a, w'.fs);
    } else {
      FreshAct(env, job, side, w.View(side), a.choice);
    }
  }

  lemma FreshAct(env: Env, job: Job, side: Side, l: Local, ch: Choice)
    requires job.Valid(env) && Receives(job, side) && PcGood(env, job, side, l.proc)
    requires l.proc.pc.R? ==> DiskGood(env, job, l.proc.pc.r, l.fs)
    requires Fresh(env, job, l.proc.pc, l.fs) && Next(env, job, l, ch).Some?
    ensures var l' := Next(env, job, l, ch).value; Fresh(env, job, l'.proc.pc, l'.fs)
  {
    if Waits(l.proc.pc) {
      FreshHearing(env, job, l.proc, l.fs, l.inq[0]);
    } else {
      FreshTurn(env, job, side, l.proc, l.fs, ch);
      HearsOnlyWaiting(env, job, l.proc, l.fs, ch);
    }
  }

  lemma HearsOnlyWaiting(env: Env, job: Job, p: Proc, fs: Fs, ch: Choice)
    requires env.Valid()
    ensures !OnTurn(env, job, p, fs, ch).Hears?
  {
  }

  lemma StepFrameStop(env: Env, job: Job, p: Proc, fs: Fs, a: Action, fs': Fs)
    requires job.Valid(env) && a.Stop? && DiskStep(env, job, p, fs, a, fs')
    ensures SameAt(fs, fs', CkptName(env.dir, env.md5(job.archive)))
    ensures var file := job.File(env); file in fs ==> file in fs' && |fs[file]| <= |fs'[file]|
  {
    NamesDistinct(env.dir, p.hash, env.md5(job.archive));
  }

  lemma {:induction false} FreshRun(env: Env, job: Job, side: Side, w: World, actions: seq<Action>)
    requires job.Valid(env) && Receives(job, side) && Inv(env, job, w) && Run(env, job, w, actions).Some?
    requires Fresh(env, job, w.Of(side).pc, w.fs)
    ensures var w' := Run(env, job, w, actions).value; Fresh(env, job, w'.Of(side).pc, w'.fs)
    decreases |actions|
  {
    if actions != [] {
      var w1 := Do(env, job, w, actions[0]).value;
      FreshKept(env, job, side, w, actions[0], w1);
      DoKeeps(env, job, w, actions[0]);
      FreshRun(env, job, side, w1, actions[1..]);
    }
  }

  // ---------------------------------------------------------------- convergence

  /** The preliminaries led to a transfer. */
  predicate Transferred(w: World) {
    (w.client.pc.R? || w.client.pc.S?) && (w.server.pc.R? || w.server.pc.S?)
  }

  /** An uninterrupted session ends with both processes finished, and agreed on the outcome. */
  lemma QuiescentDone(env: Env, past: seq<Session>, job: Job, actions: seq<Action>, w: World)
    requires Legal(env, AllJobs(past, job)) && Reach(env, past, job, actions) == Some(w) && Quiescent(env, job, w)
    ensures Done(w.client.pc) && Done(w.server.pc)
  {
    if !(Done(w.client.pc) && Done(w.server.pc)) {
      LiveWithAnyCapacity(env, past, job, actions, w);
    }
  }

  predicate Cleaned(env: Env, job: Job, fs: Fs) {
    job.File(env) !in fs && CkptName(env.dir, env.md5(job.archive)) !in fs
  }

  lemma FinishedTransfer(env: Env, job: Job, w: World, side: Side)
    requires job.Valid(env) && Inv(env, job, w) && w.Up(side) && Receives(job, side)
    requires w.Of(side).pc.R? && Done(w.Of(side).pc) && NoSecondPreimage(env, job.archive)
    ensures Cleaned(env, job, w.fs)
    ensures w.log == if w.Of(side).pc.r.good then [Verified(job.archive), Extracted(job.archive)] else []
  {
    LogsExact(env, job, w);
  }

  function Receiver(job: Job): Side { if job.mode == Get then Client else Server }

  lemma TransferEnds(env: Env, past: seq<Session>, job: Job, actions: seq<Action>, w: World)
    requires Legal(env, AllJobs(past, job)) && Reach(env, past, job, actions) == Some(w)
    requires Quiescent(env, job, w) && Transferred(w)
    ensures Inv(env, job, w) && Receives(job, Receiver(job))
    ensures w.Of(Receiver(job)).pc.R? && Done(w.Of(Receiver(job)).pc)
  {
    ReachedGood(env, past, job, actions, w);
    QuiescentDone(env, past, job, actions, w);
  }

  /**
   Convergence. From any reachable disk, whatever else was put into the same file before, an uninterrupted transfer
   either extracts the archive or removes both the partial file and its checkpoint; a second uninterrupted transfer to
   the same path then extracts exactly the archive.
   */
  lemma Convergence(env: Env, past: seq<Session>, job: Job, actions: seq<Action>, w: World,
                    again: Job, more: seq<Action>, w2: World)
    requires Legal(env, AllJobs(past + [Session(job, actions)], again))
    requires Reach(env, past, job, actions) == Some(w) && Quiescent(env, job, w) && Transferred(w)
    requires again.archive == job.archive && again.Path() == job.Path() && NoSecondPreimage(env, job.archive)
    requires Reach(env, past + [Session(job, actions)], again, more) == Some(w2)
    requires Quiescent(env, again, w2) && Transferred(w2)
    ensures Cleaned(env, job, w.fs) && (w.log == [Verified(job.archive), Extracted(job.archive)] || w.log == [])
    ensures Cleaned(env, job, w2.fs) && w2.log == [Verified(job.archive), Extracted(job.archive)]
  {
    LegalPrefix(env, past, job, actions, again);
    OneTransfer(env, past, job, actions, w);
    RunAllSnoc(env, map[], past, Session(job, actions));
    OneTransfer(env, past + [Session(job, actions)], again, more, w2);
    FreshTransfer(env, again, w.fs, more, w2);
  }

  /** An uninterrupted transfer cleans up behind itself, and extracts the archive or nothing. */
  lemma OneTransfer(env: Env, past: seq<Session>, job: Job, actions: seq<Action>, w: World)
    requires Legal(env, AllJobs(past, job)) && Reach(env, past, job, actions) == Some(w)
    requires Quiescent(env, job, w) && Transferred(w) && NoSecondPreimage(env, job.archive)
    ensures Cleaned(env, job, w.fs) && job.mode != Ping
    ensures var pc := w.Of(Receiver(job)).pc;
            && pc.R? && pc.r.RecvEnd?
            && w.log == if pc.r.good then [Verified(job.archive), Extracted(job.archive)] else []
  {
    TransferEnds(env, past, job, actions, w);
    FinishedTransfer(env, job, w, Receiver(job));
  }

  /** Without a checkpoint a transfer that gets to its end has found a match. */
  lemma FreshTransfer(env: Env, job: Job, fs: Fs, actions: seq<Action>, w: World)
    requires job.Valid(env) && job.mode != Ping && CkptName(env.dir, env.md5(job.archive)) !in fs
    requires Run(env, job, Start(job, fs), actions) == Some(w)
    requires w.Of(Receiver(job)).pc.R? && w.Of(Receiver(job)).pc.r.RecvEnd?
    ensures w.Of(Receiver(job)).pc.r.good
  {
    StartGood(env, job, fs);
    FreshRun(env, job, Receiver(job), Start(job, fs), actions);
  }

  lemma LegalPrefix(env: Env, past: seq<Session>, job: Job, actions: seq<Action>, again: Job)
    requires Legal(env, AllJobs(past + [Session(job, actions)], again))
    ensures Legal(env, AllJobs(past, job))
  {
    var longer, jobs := past + [Session(job, actions)], AllJobs(past, job);
    var more := AllJobs(longer, again);
    forall j | j in jobs ensures j in more {
      var i :| 0 <= i < |jobs| && jobs[i] == j;
      assert longer[|past|].job == job == more[|past|];
      if i < |past| && past[i].Session? { assert longer[i] == past[i] && more[i] == j; }
    }
    FewerLegal(env, jobs, more);
  }

  lemma FewerLegal(env: Env, jobs: seq<Job>, more: seq<Job>)
    requires Legal(env, more) && forall j | j in jobs :: j in more
    ensures Legal(env, jobs)
  {
    forall i, j | 0 <= i < |jobs| && 0 <= j < |jobs| && jobs[i].archive != jobs[j].archive
      ensures env.md5(jobs[i].archive) != env.md5(jobs[j].archive)
    {
      assert jobs[i] in jobs && jobs[j] in jobs;
      Different(env, more, jobs[i], jobs[j]);
    }
  }

  lemma {:induction false} RunAllSnoc(env: Env, fs: Fs, past: seq<Session>, s: Session)
    requires env.Valid() && RunAll(env, fs, past).Some?
    ensures RunAll(env, fs, past + [s]) == Outcome(env, RunAll(env, fs, past).value, s)
    decreases |past|
  {
    if past == [] {
      assert [s][1..] == [] && past + [s] == [s];
    } else {
      RunAllSnoc(env, Outcome(env, fs, past[0]).value, past[1..], s);
      assert (past + [s])[1..] == past[1..] + [s];
    }
  }

  // ---------------------------------------------------------------- where a transfer starts

  /** The offset recorded for an archive, 0 if there is no checkpoint. */
  function Mark(env: Env, job: Job, fs: Fs): nat {
    var name := CkptName(env.dir, env.md5(job.archive));
    if name in fs && |fs[name]| == RECORD_SIZE then ParseRecord(fs[name]).offset else 0
  }

  /** The offset a session offers to resume from, given the disk it starts on. */
  function Offered(env: Env, job: Job, fs: Fs): Option<nat> {
    Resumable(env, job.Path(), env.md5(job.archive), fs)
  }

  /** The step neither fails to read a checkpoint nor hears a resume offer declined. */
  predicate Accepting(w: World, a: Action) {
    a.Act? ==>
      var pc, q := w.Of(a.side).pc, w.In(a.side);
      && !(pc == R(Lookup) && a.choice == ReadError)
      && !(pc.R? && pc.r.AwaitChoice? && q != [] && q[0] == Code(ABORT))
  }

  ghost predicate AllAccepting(env: Env, job: Job, w: World, actions: seq<Action>)
    requires env.Valid()
    decreases |actions|
  {
    actions == [] || (Accepting(w, actions[0]) &&
                      match Do(env, job, w, actions[0])
                      case None => true
                      case Some(w') => AllAccepting(env, job, w', actions[1..]))
  }

  /** Where the transfer begins: at the offer if there is one and nothing speaks against it, else at 0. */
  function Chosen(env: Env, job: Job, base: Fs, accepted: bool): nat {
    var o := Offered(env, job, base);
    if accepted && o.Some? then o.value else 0
  }

  /** What the receiver has made so far of the disk its session began with; `ok` if every step was accepting. */
  predicate Course(env: Env, job: Job, pc: Pc, base: Fs, fs: Fs, ok: bool) {
    var o, start := Offered(env, job, base), Chosen(env, job, base, ok);
    match pc
    case R(AskResume(c)) => ok && o == Some(c)
    case R(AwaitChoice(c)) => ok && o == Some(c)
    case R(SayOffset(c)) => ok && o == Some(c)
    case R(SayRestart) => start == 0
    case R(OpenFile(c)) => c == start
    case R(AwaitSize(c)) => c == start
    case R(RecvLoop(st, _, _)) => st == start
    case R(WriteData(st, _, _, _)) => st == start
    case R(WriteTmp(st, _, _)) => st == start
    case R(RenameTmp(st, _, _)) => st == start
    case R(Verify(st)) => st == start
    case R(AwaitHash) => ok && Offered(env, job, fs) == o
    case R(Lookup) => ok && Offered(env, job, fs) == o
    case R(_) => true
    case End => true
    case _ => ok && Offered(env, job, fs) == o
  }

  lemma HeardIsAccepted(env: Env, job: Job, l: Local, y: Pc)
    requires env.Valid() && OneWay(env, job, l.proc.pc, l.inq, y, l.outq) && l.inq != [] && Waits(l.proc.pc)
    ensures Accept(env, job, Norm(l.proc.pc), l.inq[0]).Some?
    ensures l.proc.pc.R? && l.proc.pc.r.AwaitChoice? ==> l.inq[0] == Code(OK) || l.inq[0] == Code(ABORT)
  {
    assert Conn(env, job, y, l.inq, l.proc.pc);
  }

  /** A process that is not yet a receiver leaves file and checkpoint alone, and becomes one at the first step only. */
  lemma StillEarly(env: Env, job: Job, side: Side, p: Proc, fs: Fs, ch: Choice)
    requires job.Valid(env) && Receives(job, side) && PcGood(env, job, side, p) && !Waits(p.pc) && !p.pc.R?
    ensures var e := OnTurn(env, job, p, fs, ch);
            && (e.Works? ==>
                  && SameAt(fs, e.fs, job.File(env))
                  && SameAt(fs, e.fs, CkptName(env.dir, env.md5(job.archive))))
            && (e.Says? || e.Works? ==> !e.pc.R? || e.pc == R(AwaitHash))
  {
    if p.pc == V(PutRemove) {
      RemovalKeeps(env, job, fs);
    }
  }

  lemma SameOffer(env: Env, job: Job, fs: Fs, fs': Fs)
    requires SameAt(fs, fs', job.File(env)) && SameAt(fs, fs', CkptName(env.dir, env.md5(job.archive)))
    ensures Offered(env, job, fs') == Offered(env, job, fs)
  {
  }

  predicate LocalAccepting(l: Local, ch: Choice) {
    && !(l.proc.pc == R(Lookup) && ch == ReadError)
    && !(l.proc.pc.R? && l.proc.pc.r.AwaitChoice? && l.inq != [] && l.inq[0] == Code(ABORT))
  }

  lemma CourseHearing(env: Env, job: Job, p: Proc, base: Fs, fs: Fs, ok: bool, m: Msg)
    requires env.Valid() && Waits(p.pc) && OnMsg(env, p, m).Hears? && Course(env, job, p.pc, base, fs, ok)
    ensures Course(env, job, OnMsg(env, p, m).proc.pc, base, fs,
                   ok && !(p.pc.R? && p.pc.r.AwaitChoice? && m == Code(ABORT)))
  {
  }

  lemma CourseTurn(env: Env, job: Job, p: Proc, base: Fs, fs: Fs, ok: bool, ch: Choice)
    requires env.Valid() && p.pc.R? && p.resource == job.Resource()
    requires !p.pc.r.AwaitHash? ==> p.hash == env.md5(job.archive)
    requires Course(env, job, p.pc, base, fs, ok)
    ensures var e, ok' := ReceiverActs(env, p, p.pc.r, fs, ch), ok && !(p.pc.r.Lookup? && ch == ReadError);
            && (e.Says? ==> Course(env, job, e.pc, base, fs, ok'))
            && (e.Works? ==> Course(env, job, e.pc, base, e.fs, ok'))
  {
    if !p.pc.r.Lookup? {
      if Early(p.pc) {
        CourseEarly(env, job, p, base, fs, ok, ch);
      } else {
        LateStays(env, p, fs, ch);
      }
    }
  }

  lemma CourseEarly(env: Env, job: Job, p: Proc, base: Fs, fs: Fs, ok: bool, ch: Choice)
    requires env.Valid() && p.pc.R? && p.resource == job.Resource() && Early(p.pc) && !p.pc.r.Lookup?
    requires Course(env, job, p.pc, base, fs, ok)
    ensures var e := ReceiverActs(env, p, p.pc.r, fs, ch);
            && (e.Says? ==> Course(env, job, e.pc, base, fs, ok))
            && (e.Works? ==> Course(env, job, e.pc, base, e.fs, ok))
  {
  }

  lemma CourseAct(env: Env, job: Job, side: Side, base: Fs, ok: bool, l: Local, ch: Choice)
    requires job.Valid(env) && Receives(job, side) && PcGood(env, job, side, l.proc) && Next(env, job, l, ch).Some?
    requires Course(env, job, l.proc.pc, base, l.fs, ok)
    ensures var l' := Next(env, job, l, ch).value;
            Course(env, job, l'.proc.pc, base, l'.fs, ok && LocalAccepting(l, ch))
  {
    if Waits(l.proc.pc) {
      CourseHearing(env, job, l.proc, base, l.fs, ok, l.inq[0]);
    } else {
      HearsOnlyWaiting(env, job, l.proc, l.fs, ch);
      if l.proc.pc.R? {
        CourseTurn(env, job, l.proc, base, l.fs, ok, ch);
      } else {
        StillEarly(env, job, side, l.proc, l.fs, ch);
        SameOffer(env, job, l.fs, Next(env, job, l, ch).value.fs);
      }
    }
  }

  lemma CourseKept(env: Env, job: Job, side: Side, base: Fs, ok: bool, w: World, a: Action, w': World)
    requires job.Valid(env) && Receives(job, side) && Inv(env, job, w) && Do(env, job, w, a) == Some(w')
    requires Course(env, job, w.Of(side).pc, base, w.fs, ok)
    ensures Course(env, job, w'.Of(side).pc, base, w'.fs, ok && Accepting(w, a))
  {
    if a.side != side {
      OtherFrame(env, job, w, a, w');
    } else if a.Act? {
      CourseAct(env, job, side, base, ok, w.View(side), a.choice);
    }
  }

  lemma {:induction false} CourseRun(env: Env, job: Job, side: Side, base: Fs, ok: bool, w: World, actions: seq<Action>)
    requires job.Valid(env) && Receives(job, side) && Inv(env, job, w) && Run(env, job, w, actions).Some?
    requires Course(env, job, w.Of(side).pc, base, w.fs, ok)
    ensures var w' := Run(env, job, w, actions).value;
            Course(env, job, w'.Of(side).pc, base, w'.fs, ok && AllAccepting(env, job, w, actions))
    decreases |actions|
  {
    if actions != [] {
      var w1 := Do(env, job, w, actions[0]).value;
      CourseKept(env, job, side, base, ok, w, actions[0], w1);
      DoKeeps(env, job, w, actions[0]);
      CourseRun(env, job, side, base, ok && Accepting(w, actions[0]), w1, actions[1..]);
    }
  }

  // ---------------------------------------------------------------- when a resumed transfer succeeds

  /** How the partial file of a running receiver relates to the file that lay there when the session began. */
  predicate Based(env: Env, job: Job, pc: Pc, base: Fs, fs: Fs) {
    var a, file := job.archive, job.File(env);
    match pc
    case R(AwaitSize(o)) => o > 0 ==> Overlaid(a, file, base, o, o, fs)
    case R(RecvLoop(st, pos, _)) => st > 0 ==> Overlaid(a, file, base, st, pos, fs)
    case R(WriteData(st, pos, _, _)) => st > 0 ==> Overlaid(a, file, base, st, pos, fs)
    case R(WriteTmp(st, pos, _)) => st > 0 ==> Overlaid(a, file, base, st, pos, fs)
    case R(RenameTmp(st, pos, _)) => st > 0 ==> Overlaid(a, file, base, st, pos, fs)
    case R(Verify(st)) => st > 0 ==> Overlaid(a, file, base, st, |a|, fs)
    case R(SayOk) => true
    case R(SayBad) => true
    case R(Extract) => true
    case R(RemoveFile(_)) => true
    case R(RemoveCkpt(_)) => true
    case R(RecvEnd(_)) => true
    case _ => SameAt(base, fs, file)
  }

  /** The old file with octets st..pos of the archive written over it. */
  predicate Overlaid(a: Bytes, file: CString, base: Fs, st: nat, pos: nat, fs: Fs) {
    && file in base && st <= |base[file]| && st <= pos <= |a|
    && file in fs && fs[file] == Overwrite(base[file], st, a[st..pos])
  }

  lemma OverlayGrows(a: Bytes, file: CString, base: Fs, st: nat, pos: nat, data: Bytes, fs: Fs)
    requires Overlaid(a, file, base, st, pos, fs) && pos + |data| <= |a| && data == a[pos..pos + |data|]
    requires pos <= |fs[file]|
    ensures Overlaid(a, file, base, st, pos + |data|, fs[file := Overwrite(fs[file], pos, data)])
  {
    assert a[st..pos + |data|] == a[st..pos] + data;
    assert Overwrite(fs[file], pos, data) == Overwrite(base[file], st, a[st..pos + |data|]);
  }

  lemma BasedAct(env: Env, job: Job, side: Side, base: Fs, l: Local, ch: Choice)
    requires job.Valid(env) && Receives(job, side) && PcGood(env, job, side, l.proc)
    requires l.proc.pc.R? ==> DiskGood(env, job, l.proc.pc.r, l.fs)
    requires Based(env, job, l.proc.pc, base, l.fs) && Next(env, job, l, ch).Some?
    ensures var l' := Next(env, job, l, ch).value; Based(env, job, l'.proc.pc, base, l'.fs)
  {
    if Waits(l.proc.pc) {
      BasedHearing(env, job, base, l.proc, l.fs, l.inq[0]);
    } else {
      HearsOnlyWaiting(env, job, l.proc, l.fs, ch);
      if l.proc.pc.R? {
        BasedTurn(env, job, base, l.proc, l.fs, ch);
      } else {
        StillEarly(env, job, side, l.proc, l.fs, ch);
      }
    }
  }

  lemma BasedHearing(env: Env, job: Job, base: Fs, p: Proc, fs: Fs, m: Msg)
    requires job.Valid(env) && Waits(p.pc) && Numbers(job.archive, p.pc) && OnMsg(env, p, m).Hears?
    requires Based(env, job, p.pc, base, fs) && (p.pc.R? ==> DiskGood(env, job, p.pc.r, fs))
    ensures Based(env, job, OnMsg(env, p, m).proc.pc, base, fs)
  {
  }

  lemma BasedTurn(env: Env, job: Job, base: Fs, p: Proc, fs: Fs, ch: Choice)
    requires job.Valid(env) && p.pc.R? && !Waits(p.pc) && p.resource == job.Resource() && Numbers(job.archive, p.pc)
    requires !p.pc.r.AwaitHash? ==> p.hash == env.md5(job.archive)
    requires Based(env, job, p.pc, base, fs) && DiskGood(env, job, p.pc.r, fs)
    ensures var e := ReceiverActs(env, p, p.pc.r, fs, ch);
            (e.Says? ==> Based(env, job, e.pc, base, fs)) && (e.Works? ==> Based(env, job, e.pc, base, e.fs))
  {
    match p.pc.r
    case WriteData(_, _, _, _) => BasedWrite(env, job, base, p, fs, ch);
    case OpenFile(_) => BasedOpen(env, job, base, p, fs, ch);
    case _ => BasedOther(env, job, base, p, fs, ch);
  }

  lemma BasedWrite(env: Env, job: Job, base: Fs, p: Proc, fs: Fs, ch: Choice)
    requires job.Valid(env) && p.pc.R? && p.resource == job.Resource() && Numbers(job.archive, p.pc)
    requires Based(env, job, p.pc, base, fs) && DiskGood(env, job, p.pc.r, fs) && p.pc.r.WriteData?
    ensures var e := ReceiverActs(env, p, p.pc.r, fs, ch); e.Works? && Based(env, job, e.pc, base, e.fs)
  {
    var r := p.pc.r;
    WriteActs(env, p, fs, ch);
    NextAligned(job.archive, r.pos, r.left);
    if r.start > 0 {
      OverlayGrows(job.archive, p.File(env), base, r.start, r.pos, r.data, fs);
    }
  }

  lemma WriteActs(env: Env, p: Proc, fs: Fs, ch: Choice)
    requires p.pc.R? && p.pc.r.WriteData? && p.File(env) in fs && p.pc.r.pos <= |fs[p.File(env)]|
    ensures var r, file := p.pc.r, p.File(env);
            ReceiverActs(env, p, r, fs, ch)
            == Works(R(WriteTmp(r.start, r.pos + |r.data|, Sub64(r.left, |r.data|))),
                     fs[file := Overwrite(fs[file], r.pos, r.data)], [])
  {
  }

  lemma BasedOpen(env: Env, job: Job, base: Fs, p: Proc, fs: Fs, ch: Choice)
    requires job.Valid(env) && p.pc.R? && p.resource == job.Resource() && Numbers(job.archive, p.pc)
    requires Based(env, job, p.pc, base, fs) && DiskGood(env, job, p.pc.r, fs) && p.pc.r.OpenFile?
    ensures var e := ReceiverActs(env, p, p.pc.r, fs, ch); e.Works? && Based(env, job, e.pc, base, e.fs)
  {
    if p.pc.r.offset > 0 {
      var o := p.pc.r.offset;
      assert job.archive[o..o] == [] && Overwrite(base[p.File(env)], o, []) == base[p.File(env)];
    }
  }

  lemma BasedOther(env: Env, job: Job, base: Fs, p: Proc, fs: Fs, ch: Choice)
    requires job.Valid(env) && p.pc.R? && !Waits(p.pc) && p.resource == job.Resource() && Numbers(job.archive, p.pc)
    requires !p.pc.r.AwaitHash? ==> p.hash == env.md5(job.archive)
    requires Based(env, job, p.pc, base, fs) && !p.pc.r.WriteData? && !p.pc.r.OpenFile?
    ensures var e := ReceiverActs(env, p, p.pc.r, fs, ch);
            (e.Says? ==> Based(env, job, e.pc, base, fs)) && (e.Works? ==> Based(env, job, e.pc, base, e.fs))
  {
    if Early(p.pc) {
      BasedEarly(env, job, base, p, fs, ch);
    } else {
      LateStays(env, p, fs, ch);
    }
  }

  lemma BasedEarly(env: Env, job: Job, base: Fs, p: Proc, fs: Fs, ch: Choice)
    requires job.Valid(env) && p.pc.R? && !Waits(p.pc) && p.resource == job.Resource() && Numbers(job.archive, p.pc)
    requires !p.pc.r.AwaitHash? ==> p.hash == env.md5(job.archive)
    requires Based(env, job, p.pc, base, fs) && !p.pc.r.WriteData? && !p.pc.r.OpenFile? && Early(p.pc)
    ensures var e := ReceiverActs(env, p, p.pc.r, fs, ch);
            (e.Says? ==> Based(env, job, e.pc, base, fs)) && (e.Works? ==> Based(env, job, e.pc, base, e.fs))
  {
  }

  lemma {:induction false} BasedRun(env: Env, job: Job, side: Side, base: Fs, w: World, actions: seq<Action>)
    requires job.Valid(env) && Receives(job, side) && Inv(env, job, w) && Run(env, job, w, actions).Some?
    requires w.Up(side) ==> Based(env, job, w.Of(side).pc, base, w.fs)
    ensures var w' := Run(env, job, w, actions).value; w'.Up(side) ==> Based(env, job, w'.Of(side).pc, base, w'.fs)
    decreases |actions|
  {
    if actions != [] {
      var w1 := Do(env, job, w, actions[0]).value;
      BasedKept(env, job, side, base, w, actions[0], w1);
      DoKeeps(env, job, w, actions[0]);
      BasedRun(env, job, side, base, w1, actions[1..]);
    }
  }

  lemma BasedKept(env: Env, job: Job, side: Side, base: Fs, w: World, a: Action, w': World)
    requires job.Valid(env) && Receives(job, side) && Inv(env, job, w) && Do(env, job, w, a) == Some(w')
    requires w.Up(side) ==> Based(env, job, w.Of(side).pc, base, w.fs)
    ensures w'.Up(side) ==> Based(env, job, w'.Of(side).pc, base, w'.fs)
  {
    if a.side != side {
      OtherFrame(env, job, w, a, w');
    } else if a.Act? {
      BasedAct(env, job, side, base, w.View(side), a.choice);
    }
  }

  /** The offset the transfer of this session begins at, decided by the disk before it and the answers during it. */
  ghost function StartsAt(env: Env, job: Job, fs: Fs, actions: seq<Action>): nat
    requires env.Valid()
  {
    Chosen(env, job, fs, AllAccepting(env, job, Start(job, fs), actions))
  }

  /**
   Exactly when a transfer delivers, in terms of the disk before it. The transfer begins at the offset that the
   checkpoint found there offers, unless the offer is declined or the checkpoint cannot be read or fails a test; then
   at 0. When the receiver compares digests, the file equals the archive if and only if the transfer began at 0, or
   the file found at the start agreed with the archive up to the offered offset and was no longer than the archive.
   */
  lemma ResumeOutcome(env: Env, past: seq<Session>, job: Job, actions: seq<Action>, fs: Fs, w: World, side: Side)
    requires Legal(env, AllJobs(past, job)) && RunAll(env, map[], past) == Some(fs)
    requires Reach(env, past, job, actions) == Some(w)
    requires w.Up(side) && w.Of(side).pc.R? && w.Of(side).pc.r.Verify?
    ensures var o, file, a := StartsAt(env, job, fs, actions), job.File(env), job.archive;
            && o == w.Of(side).pc.r.start && file in w.fs && o <= |a|
            && (o > 0 ==> file in fs && o <= |fs[file]|)
            && (w.fs[file] == a <==> o == 0 || (fs[file][..o] == a[..o] && |fs[file]| <= |a|))
  {
    ReachedGood(env, past, job, [], Start(job, fs));
    RunToVerify(env, job, actions, fs, w, side);
    OutcomeAtVerify(env, job, w.Of(side).pc.r.start, fs, w.fs);
  }

  lemma RunToVerify(env: Env, job: Job, actions: seq<Action>, fs: Fs, w: World, side: Side)
    requires job.Valid(env) && Inv(env, job, Start(job, fs)) && Run(env, job, Start(job, fs), actions) == Some(w)
    requires w.Up(side) && w.Of(side).pc.R? && w.Of(side).pc.r.Verify?
    ensures var st := w.Of(side).pc.r.start;
            && Based(env, job, R(Verify(st)), fs, w.fs) && Written(job.archive, job.File(env), st, |job.archive|, w.fs)
            && st == StartsAt(env, job, fs, actions)
  {
    RunKeeps(env, job, Start(job, fs), actions);
    BasedRun(env, job, side, fs, Start(job, fs), actions);
    CourseRun(env, job, side, fs, true, Start(job, fs), actions);
  }

  lemma OutcomeAtVerify(env: Env, job: Job, st: nat, base: Fs, fs: Fs)
    requires Based(env, job, R(Verify(st)), base, fs) && Written(job.archive, job.File(env), st, |job.archive|, fs)
    ensures var file, a := job.File(env), job.archive;
            fs[file] == a <==>
              st == 0 || (file in base && st <= |base[file]| && base[file][..st] == a[..st] && |base[file]| <= |a|)
  {
    var file, a := job.File(env), job.archive;
    if st == 0 {
      assert fs[file][0..|a|] == fs[file] && a[0..|a|] == a;
    } else {
      assert a[st..|a|] == a[st..];
      OverlayExact(a, base[file], st);
    }
  }
}
