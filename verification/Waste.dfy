/** How much interrupted sessions of one archive to one path send twice: at most one packet each. */
module Waste {
  import opened Bytes
  import opened Cipher
  import opened Disk
  import opened Protocol
  import opened Invariant
  import opened Preservation
  import opened History
  import opened Recovery
  import opened SessionProperties

  /** A checkpoint, if there is one, passes the receiver's test for this path. */
  predicate Steady(env: Env, job: Job, fs: Fs) {
    var name, file := CkptName(env.dir, env.md5(job.archive)), job.File(env);
    name in fs ==>
      && |fs[name]| == RECORD_SIZE && ParseRecord(fs[name]).path == job.Path()
      && 0 < Mark(env, job, fs) && file in fs && Mark(env, job, fs) <= |fs[file]|
  }

  /** Packets taken so far in a session that began with mark m. */
  predicate Account(env: Env, job: Job, pc: Pc, fs: Fs, packets: nat, m: nat) {
    var mark := Mark(env, job, fs);
    && (Early(pc) ==> Steady(env, job, fs))
    && match pc
       case R(AskResume(c)) => c == m == mark && packets == 0
       case R(AwaitChoice(c)) => c == m == mark && packets == 0
       case R(SayOffset(c)) => c == m == mark && packets == 0
       case R(SayRestart) => 0 == m == mark && packets == 0
       case R(OpenFile(o)) => o == m == mark && packets == 0
       case R(AwaitSize(o)) => o == m == mark && packets == 0
       case R(RecvLoop(_, pos, _)) => mark == pos && packets + PacketsFor(m) == PacketsFor(pos)
       case R(WriteData(_, pos, _, _)) => mark == pos && packets + PacketsFor(m) == PacketsFor(pos) + 1
       case R(WriteTmp(_, pos, _)) =>
         PacketsFor(mark) + 1 == PacketsFor(pos) && packets + PacketsFor(m) == PacketsFor(pos)
       case R(RenameTmp(_, pos, _)) =>
         PacketsFor(mark) + 1 == PacketsFor(pos) && packets + PacketsFor(m) == PacketsFor(pos)
       case _ => if Early(pc) then m == mark && packets == 0 else packets + PacketsFor(m) == PacketsFor(|job.archive|)
  }

  // ---------------------------------------------------------------- the account is kept

  lemma AccountHearing(env: Env, job: Job, p: Proc, fs: Fs, packets: nat, m: nat, msg: Msg)
    requires job.Valid(env) && Waits(p.pc) && Numbers(job.archive, p.pc) && OnMsg(env, p, msg).Hears?
    requires Account(env, job, p.pc, fs, packets, m) && !(p.pc.R? && p.pc.r.AwaitChoice? && msg == Code(ABORT))
    requires p.pc.R? && p.pc.r.AwaitChoice? ==> msg == Code(OK)
    ensures Account(env, job, OnMsg(env, p, msg).proc.pc, fs, packets + if msg.Packet? then 1 else 0, m)
  {
    if !p.pc.R? {
      EarlyHearing(env, job, p, msg);
    }
  }

  lemma EarlyHearing(env: Env, job: Job, p: Proc, msg: Msg)
    requires env.Valid() && !p.pc.R? && OnMsg(env, p, msg).Hears?
    ensures !OnMsg(env, p, msg).proc.pc.R? && !msg.Packet?
  {
  }

  lemma OneMoreBlock(a: Bytes, pos: nat, left: nat)
    requires pos + left == |a| && Aligned(a, pos) && 0 < left
    ensures PacketsFor(pos + |Chunk(a, pos, left)|) == PacketsFor(pos) + 1
  {
  }

  lemma AccountTurn(env: Env, job: Job, p: Proc, fs: Fs, packets: nat, m: nat, ch: Choice)
    requires AccountReady(env, job, p, fs, packets, m) && !(p.pc.r.Lookup? && ch == ReadError)
    ensures AccountAfter(env, job, p, fs, packets, m, ch)
  {
    match p.pc.r
    case Lookup => AccountLookup(env, job, p, fs, packets, m, ch);
    case WriteData(_, _, _, _) => AccountWrite(env, job, p, fs, packets, m, ch);
    case WriteTmp(_, _, _) => AccountTmp(env, job, p, fs, packets, m, ch);
    case RenameTmp(_, _, _) => AccountRename(env, job, p, fs, packets, m, ch);
    case _ => AccountOther(env, job, p, fs, packets, m, ch);
  }

  ghost predicate AccountReady(env: Env, job: Job, p: Proc, fs: Fs, packets: nat, m: nat) {
    && job.Valid(env) && p.pc.R? && !Waits(p.pc) && p.resource == job.Resource() && Numbers(job.archive, p.pc)
    && (!p.pc.r.AwaitHash? ==> p.hash == env.md5(job.archive))
    && Account(env, job, p.pc, fs, packets, m) && DiskGood(env, job, p.pc.r, fs)
  }

  ghost predicate AccountAfter(env: Env, job: Job, p: Proc, fs: Fs, packets: nat, m: nat, ch: Choice)
    requires p.pc.R?
  {
    var e := ReceiverActs(env, p, p.pc.r, fs, ch);
    && (e.Says? ==> Account(env, job, e.pc, fs, packets, m))
    && (e.Works? ==> Account(env, job, e.pc, e.fs, packets, m))
  }

  lemma AccountLookup(env: Env, job: Job, p: Proc, fs: Fs, packets: nat, m: nat, ch: Choice)
    requires AccountReady(env, job, p, fs, packets, m) && p.pc.r.Lookup? && ch != ReadError
    ensures AccountAfter(env, job, p, fs, packets, m, ch)
  {
    var name := CkptName(env.dir, p.hash);
    if name in fs {
      assert fs[name][..RECORD_SIZE] == fs[name];
    }
  }

  lemma AccountWrite(env: Env, job: Job, p: Proc, fs: Fs, packets: nat, m: nat, ch: Choice)
    requires AccountReady(env, job, p, fs, packets, m) && p.pc.r.WriteData?
    ensures AccountAfter(env, job, p, fs, packets, m, ch)
  {
    var r := p.pc.r;
    WriteActs(env, p, fs, ch);
    AccountWritten(env, job, r.start, r.pos, r.left, r.data, fs, packets, m);
  }

  lemma AccountWritten(env: Env, job: Job, st: nat, pos: nat, left: nat, data: Bytes, fs: Fs, packets: nat, m: nat)
    requires job.Valid(env) && Numbers(job.archive, R(WriteData(st, pos, left, data)))
    requires Account(env, job, R(WriteData(st, pos, left, data)), fs, packets, m)
    requires job.File(env) in fs && pos <= |fs[job.File(env)]|
    ensures Account(env, job, R(WriteTmp(st, pos + |data|, Sub64(left, |data|))),
                    fs[job.File(env) := Overwrite(fs[job.File(env)], pos, data)], packets, m)
  {
    OneMoreBlock(job.archive, pos, left);
    GrownSteady(env, job, fs, Overwrite(fs[job.File(env)], pos, data));
  }

  /** A file that grows keeps its checkpoint acceptable. */
  lemma GrownSteady(env: Env, job: Job, fs: Fs, f: Bytes)
    requires job.Valid(env) && Steady(env, job, fs) && job.File(env) in fs && |fs[job.File(env)]| <= |f|
    ensures Steady(env, job, fs[job.File(env) := f]) && Mark(env, job, fs[job.File(env) := f]) == Mark(env, job, fs)
  {
    assert CkptName(env.dir, env.md5(job.archive)) != job.File(env);
  }

  lemma SameSteady(env: Env, job: Job, fs: Fs, fs': Fs)
    requires SameAt(fs, fs', job.File(env)) && SameAt(fs, fs', CkptName(env.dir, env.md5(job.archive)))
    ensures Mark(env, job, fs') == Mark(env, job, fs) && (Steady(env, job, fs) ==> Steady(env, job, fs'))
  {
  }

  lemma AccountTmp(env: Env, job: Job, p: Proc, fs: Fs, packets: nat, m: nat, ch: Choice)
    requires AccountReady(env, job, p, fs, packets, m) && p.pc.r.WriteTmp?
    ensures AccountAfter(env, job, p, fs, packets, m, ch)
  {
    NamesDistinct(env.dir, p.hash, p.hash);
  }

  lemma AccountRename(env: Env, job: Job, p: Proc, fs: Fs, packets: nat, m: nat, ch: Choice)
    requires AccountReady(env, job, p, fs, packets, m) && p.pc.r.RenameTmp?
    ensures AccountAfter(env, job, p, fs, packets, m, ch)
  {
    NamesDistinct(env.dir, p.hash, p.hash);
    var tmp := TmpName(env.dir, p.hash);
    assert fs[tmp][..RECORD_SIZE] == fs[tmp];
  }

  lemma AccountOther(env: Env, job: Job, p: Proc, fs: Fs, packets: nat, m: nat, ch: Choice)
    requires AccountReady(env, job, p, fs, packets, m)
    requires !(p.pc.r.Lookup? || p.pc.r.WriteData? || p.pc.r.WriteTmp? || p.pc.r.RenameTmp?)
    ensures AccountAfter(env, job, p, fs, packets, m, ch)
  {
    if p.pc.r.OpenFile? {
      AccountOpen(env, job, p, fs, packets, m, ch);
    } else if Early(p.pc) {
      AccountAsk(env, job, p, fs, packets, m, ch);
    } else {
      AccountLate(env, job, p, fs, packets, m, ch);
    }
  }

  /** After the hash check no packet is taken any more. */
  lemma AccountLate(env: Env, job: Job, p: Proc, fs: Fs, packets: nat, m: nat, ch: Choice)
    requires AccountReady(env, job, p, fs, packets, m) && !Early(p.pc)
    ensures AccountAfter(env, job, p, fs, packets, m, ch)
  {
    LateStays(env, p, fs, ch);
  }

  lemma AccountOpen(env: Env, job: Job, p: Proc, fs: Fs, packets: nat, m: nat, ch: Choice)
    requires AccountReady(env, job, p, fs, packets, m) && p.pc.r.OpenFile?
    ensures AccountAfter(env, job, p, fs, packets, m, ch)
  {
  }

  lemma AccountAsk(env: Env, job: Job, p: Proc, fs: Fs, packets: nat, m: nat, ch: Choice)
    requires AccountReady(env, job, p, fs, packets, m) && Early(p.pc)
    requires !(p.pc.r.OpenFile? || p.pc.r.Lookup? || p.pc.r.WriteData? || p.pc.r.WriteTmp? || p.pc.r.RenameTmp?)
    ensures AccountAfter(env, job, p, fs, packets, m, ch)
  {
  }

  lemma AccountStopped(env: Env, job: Job, p: Proc, fs: Fs, a: Action, fs': Fs, packets: nat, m: nat)
    requires job.Valid(env) && a.Stop? && DiskStep(env, job, p, fs, a, fs') && Account(env, job, p.pc, fs, packets, m)
    ensures Account(env, job, p.pc, fs', packets, m)
  {
    StepFrameStop(env, job, p, fs, a, fs');
  }

  lemma AccountHear(env: Env, job: Job, side: Side, l: Local, y: Pc, ch: Choice, m: nat)
    requires job.Valid(env) && LocalGood(env, job, side, l, y) && Waits(l.proc.pc) && Next(env, job, l, ch).Some?
    requires Account(env, job, l.proc.pc, l.fs, l.packets, m)
    requires !(l.proc.pc.R? && l.proc.pc.r.AwaitChoice? && l.inq != [] && l.inq[0] == Code(ABORT))
    ensures var l' := Next(env, job, l, ch).value; Account(env, job, l'.proc.pc, l'.fs, l'.packets, m)
  {
    if l.inq != [] {
      HeardIsAccepted(env, job, l, y);
      AccountHearing(env, job, l.proc, l.fs, l.packets, m, l.inq[0]);
    }
  }

  lemma AccountAct(env: Env, job: Job, side: Side, l: Local, y: Pc, ch: Choice, m: nat)
    requires job.Valid(env) && Receives(job, side) && LocalGood(env, job, side, l, y)
    requires Account(env, job, l.proc.pc, l.fs, l.packets, m) && Next(env, job, l, ch).Some?
    requires !(l.proc.pc == R(Lookup) && ch == ReadError)
    requires !(l.proc.pc.R? && l.proc.pc.r.AwaitChoice? && l.inq != [] && l.inq[0] == Code(ABORT))
    ensures var l' := Next(env, job, l, ch).value; Account(env, job, l'.proc.pc, l'.fs, l'.packets, m)
  {
    if Waits(l.proc.pc) {
      AccountHear(env, job, side, l, y, ch, m);
    } else if !l.proc.pc.R? {
      AccountNotYet(env, job, side, l, ch, m);
    } else {
      HearsOnlyWaiting(env, job, l.proc, l.fs, ch);
      AccountTurn(env, job, l.proc, l.fs, l.packets, m, ch);
    }
  }

  lemma AccountNotYet(env: Env, job: Job, side: Side, l: Local, ch: Choice, m: nat)
    requires job.Valid(env) && Receives(job, side) && PcGood(env, job, side, l.proc)
    requires !l.proc.pc.R? && !Waits(l.proc.pc) && Next(env, job, l, ch).Some?
    requires Account(env, job, l.proc.pc, l.fs, l.packets, m)
    ensures var l' := Next(env, job, l, ch).value; Account(env, job, l'.proc.pc, l'.fs, l'.packets, m)
  {
    HearsOnlyWaiting(env, job, l.proc, l.fs, ch);
    StillEarly(env, job, side, l.proc, l.fs, ch);
    SameSteady(env, job, l.fs, Next(env, job, l, ch).value.fs);
  }

  lemma AccountKept(env: Env, job: Job, side: Side, w: World, a: Action, w': World, m: nat)
    requires job.Valid(env) && Receives(job, side) && Inv(env, job, w) && Do(env, job, w, a) == Some(w')
    requires Account(env, job, w.Of(side).pc, w.fs, w.packets, m) && Accepting(w, a)
    ensures Account(env, job, w'.Of(side).pc, w'.fs, w'.packets, m)
  {
    if a.side != side {
      OtherFrame(env, job, w, a, w');
    } else if a.Stop? {
      DoDisk(env, job, w, a, w');
      AccountStopped(env, job, w.Of(side), w.fs, a, w'.fs, w.packets, m);
    } else {
      InvGivesLocal(env, job, w, side);
      AccountAct(env, job, side, w.View(side), w.Of(side.Other()).pc, a.choice, m);
    }
  }

  lemma {:induction false} AccountRun(env: Env, job: Job, side: Side, w: World, actions: seq<Action>, m: nat)
    requires job.Valid(env) && Receives(job, side) && Inv(env, job, w) && Run(env, job, w, actions).Some?
    requires Account(env, job, w.Of(side).pc, w.fs, w.packets, m) && AllAccepting(env, job, w, actions)
    ensures var w' := Run(env, job, w, actions).value;
            Inv(env, job, w') && Account(env, job, w'.Of(side).pc, w'.fs, w'.packets, m)
    decreases |actions|
  {
    if actions != [] {
      var w1 := Do(env, job, w, actions[0]).value;
      AccountKept(env, job, side, w, actions[0], w1, m);
      DoKeeps(env, job, w, actions[0]);
      AccountRun(env, job, side, w1, actions[1..], m);
    }
  }

  // ---------------------------------------------------------------- sums over sessions

  /** Transfers of the archive to the path, in either direction. */
  predicate Own(job: Job, s: Session) {
    s.Session? && s.job.mode != Ping && s.job.archive == job.archive && s.job.Path() == job.Path()
  }

  /**
   Pings, transfers of other archives to other files that leave the partial file of the job alone when they remove and
   extract their resource, and sessions in which this host sends and its zip file is another file.
   */
  predicate Elsewhere(env: Env, job: Job, s: Session) {
    match s
    case Session(j, _) =>
      || j.mode == Ping
      || (j.archive != job.archive && j.File(env) != job.File(env) && !Within(j.Home(env), job.File(env)))
    case Sent(zip, _) => env.file(zip) != job.File(env)
  }

  /** The session resumes where it can, and ends before its hash check. */
  ghost predicate CutShort(env: Env, fs: Fs, s: Session)
    requires env.Valid() && s.Session? && Outcome(env, fs, s).Some?
  {
    var w0 := Start(s.job, fs);
    AllAccepting(env, s.job, w0, s.actions) && Early(Run(env, s.job, w0, s.actions).value.Of(Receiver(s.job)).pc)
  }

  /**
   Transfers of one archive to one path, each resumed where the last left off and interrupted before its hash check;
   between them any sessions elsewhere.
   */
  ghost predicate Interrupted(env: Env, job: Job, fs: Fs, past: seq<Session>)
    requires env.Valid()
    decreases |past|
  {
    past == [] ||
    match Outcome(env, fs, past[0])
    case None => false
    case Some(fs') =>
      && (if Own(job, past[0]) then CutShort(env, fs, past[0]) else Elsewhere(env, job, past[0]))
      && Interrupted(env, job, fs', past[1..])
  }

  /** Packets taken by the session, if it is a transfer of the archive. */
  ghost function Taken(env: Env, job: Job, fs: Fs, s: Session): nat
    requires env.Valid()
  {
    if !Own(job, s) then 0 else
      match Run(env, s.job, Start(s.job, fs), s.actions) case None => 0 case Some(w) => w.packets
  }

  /** Packets taken by all transfers of the archive together. */
  ghost function Total(env: Env, job: Job, fs: Fs, past: seq<Session>): nat
    requires env.Valid()
    decreases |past|
  {
    if past == [] then 0 else
      match Outcome(env, fs, past[0])
      case None => 0
      case Some(fs') => Taken(env, job, fs, past[0]) + Total(env, job, fs', past[1..])
  }

  /** How many transfers of the archive there were. */
  function Transfers(job: Job, past: seq<Session>): nat {
    if past == [] then 0 else (if Own(job, past[0]) then 1 else 0) + Transfers(job, past[1..])
  }

  /** Every archive's checkpoint is sound. */
  predicate AllSound(env: Env, jobs: seq<Job>, fs: Fs) {
    forall j | j in jobs :: CkptOk(env, fs, j.archive)
  }

  lemma SessionSound(env: Env, jobs: seq<Job>, job: Job, fs: Fs, actions: seq<Action>, w: World)
    requires Legal(env, jobs) && job in jobs && AllSound(env, jobs, fs)
    requires Run(env, job, Start(job, fs), actions) == Some(w)
    ensures AllSound(env, jobs, w.fs) && OnlyOwn(env, job, fs, w.fs) && (job.mode == Ping ==> w.fs == fs)
  {
    StartGood(env, job, fs);
    RunFrame(env, job, Start(job, fs), actions);
    RunKeeps(env, job, Start(job, fs), actions);
    forall j | j in jobs ensures CkptOk(env, w.fs, j.archive) {
      if j.archive != job.archive {
        Different(env, jobs, j, job);
        CkptUntouched(env, j, job, fs, w.fs);
      }
    }
  }

  /** A session elsewhere changes nothing for the archive. */
  lemma ElsewhereFrame(env: Env, jobs: seq<Job>, job: Job, fs: Fs, s: Session, fs': Fs)
    requires Legal(env, jobs) && job in jobs && (s.Session? ==> s.job in jobs) && AllSound(env, jobs, fs)
    requires Outcome(env, fs, s) == Some(fs') && Elsewhere(env, job, s)
    ensures Mark(env, job, fs') == Mark(env, job, fs) && (Steady(env, job, fs) ==> Steady(env, job, fs'))
    ensures AllSound(env, jobs, fs')
  {
    match s
    case Sent(zip, left) =>
      assert forall h: Hash :: SameAt(fs, fs', CkptName(env.dir, h));
      SameSteady(env, job, fs, fs');
    case Session(j, actions) =>
      SessionSound(env, jobs, j, fs, actions, Run(env, j, Start(j, fs), actions).value);
      if j.mode != Ping {
        Different(env, jobs, job, j);
        CkptUntouched(env, job, j, fs, fs');
        assert !Touches(env, j, job.File(env));
        SameSteady(env, job, fs, fs');
      }
  }

  lemma OneSession(env: Env, job: Job, fs: Fs, actions: seq<Action>, w: World)
    requires job.Valid(env) && job.mode != Ping && CkptOk(env, fs, job.archive) && Steady(env, job, fs)
    requires AllAccepting(env, job, Start(job, fs), actions) && Run(env, job, Start(job, fs), actions) == Some(w)
    ensures CkptOk(env, w.fs, job.archive)
    ensures if Early(w.Of(Receiver(job)).pc)
            then Steady(env, job, w.fs)
                 && w.packets + PacketsFor(Mark(env, job, fs)) <= PacketsFor(Mark(env, job, w.fs)) + 1
            else w.packets + PacketsFor(Mark(env, job, fs)) == PacketsFor(|job.archive|)
  {
    StartGood(env, job, fs);
    AccountStart(env, job, fs);
    AccountRun(env, job, Receiver(job), Start(job, fs), actions, Mark(env, job, fs));
    AccountEnd(env, job, w.Of(Receiver(job)).pc, w.fs, w.packets, Mark(env, job, fs));
  }

  lemma AccountStart(env: Env, job: Job, fs: Fs)
    requires job.mode != Ping && Steady(env, job, fs)
    ensures Account(env, job, Start(job, fs).Of(Receiver(job)).pc, fs, 0, Mark(env, job, fs))
  {
  }

  lemma AccountEnd(env: Env, job: Job, pc: Pc, fs: Fs, packets: nat, m: nat)
    requires Account(env, job, pc, fs, packets, m)
    ensures if Early(pc) then Steady(env, job, fs) && packets + PacketsFor(m) <= PacketsFor(Mark(env, job, fs)) + 1
            else packets + PacketsFor(m) == PacketsFor(|job.archive|)
  {
  }

  /** What the archive's own transfers have taken, against how far its mark has moved. */
  ghost predicate Paid(env: Env, job: Job, fs: Fs, fs': Fs, total: nat, transfers: nat) {
    Steady(env, job, fs') && total + PacketsFor(Mark(env, job, fs)) <= PacketsFor(Mark(env, job, fs')) + transfers
  }

  lemma OneOfThem(env: Env, jobs: seq<Job>, job: Job, fs: Fs, s: Session, fs': Fs)
    requires Legal(env, jobs) && job in jobs && (s.Session? ==> s.job in jobs)
    requires AllSound(env, jobs, fs) && Steady(env, job, fs) && Outcome(env, fs, s) == Some(fs')
    requires if Own(job, s) then CutShort(env, fs, s) else Elsewhere(env, job, s)
    ensures AllSound(env, jobs, fs')
    ensures Paid(env, job, fs, fs', Taken(env, job, fs, s), if Own(job, s) then 1 else 0)
  {
    if Own(job, s) {
      var w := Run(env, s.job, Start(s.job, fs), s.actions).value;
      SessionSound(env, jobs, s.job, fs, s.actions, w);
      OneSession(env, s.job, fs, s.actions, w);
      OwnMark(env, job, s.job, fs);
      OwnMark(env, job, s.job, fs');
    } else {
      ElsewhereFrame(env, jobs, job, fs, s, fs');
    }
  }

  lemma OwnMark(env: Env, job: Job, j: Job, fs: Fs)
    requires j.archive == job.archive && j.Path() == job.Path()
    ensures Mark(env, j, fs) == Mark(env, job, fs) && (Steady(env, j, fs) <==> Steady(env, job, fs))
  {
  }

  lemma {:induction false} InterruptedTotal(env: Env, jobs: seq<Job>, zips: set<CString>, job: Job, fs: Fs,
      past: seq<Session>)
    requires Legal(env, jobs) && job in jobs && AllDrawn(past, jobs, zips) && AllSound(env, jobs, fs)
    requires Steady(env, job, fs) && Interrupted(env, job, fs, past)
    ensures RunAll(env, fs, past).Some?
    ensures var fs' := RunAll(env, fs, past).value;
            AllSound(env, jobs, fs') && Paid(env, job, fs, fs', Total(env, job, fs, past), Transfers(job, past))
    decreases |past|
  {
    if past != [] {
      var s := past[0];
      assert IsDrawn(s, jobs, zips);
      var fs1 := Outcome(env, fs, s).value;
      OneOfThem(env, jobs, job, fs, s, fs1);
      InterruptedTotal(env, jobs, zips, job, fs1, past[1..]);
    }
  }

  /**
   Bounded waste. Start from any disk on which the archive has no checkpoint and the others' are sound. However often
   the transfer of the archive to the path is interrupted and resumed, whatever happens elsewhere in between, all its
   sessions together take at most the packets of one uninterrupted transfer, plus one for each interruption.
   */
  lemma BoundedWaste(env: Env, jobs: seq<Job>, zips: set<CString>, job: Job, fs: Fs, past: seq<Session>, fs': Fs,
      actions: seq<Action>, w: World)
    requires Legal(env, jobs) && job in jobs && job.mode != Ping && AllDrawn(past, jobs, zips)
    requires CkptName(env.dir, env.md5(job.archive)) !in fs && AllSound(env, jobs, fs)
    requires Interrupted(env, job, fs, past) && RunAll(env, fs, past) == Some(fs')
    requires Run(env, job, Start(job, fs'), actions) == Some(w) && AllAccepting(env, job, Start(job, fs'), actions)
    ensures Total(env, job, fs, past) + w.packets
            <= PacketsFor(|job.archive|) + Transfers(job, past) + if Early(w.Of(Receiver(job)).pc) then 1 else 0
  {
    InterruptedTotal(env, jobs, zips, job, fs, past);
    OneSession(env, job, fs', actions, w);
    assert Mark(env, job, w.fs) <= |job.archive|;
  }
}
