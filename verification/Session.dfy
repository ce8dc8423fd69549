/**
 What holds in every reachable state of a session, over any past: half-duplex channels, one meaning for every
 code, no deadlock, termination, agreement of the two transfer loops, and an honest verdict.
 */
module SessionProperties {
  import opened Bytes
  import opened Cipher
  import opened Disk
  import opened Protocol
  import opened Invariant
  import opened Preservation
  import opened History

  /** What the invariant says about one side and the two channels as seen from it. */
  lemma ReachedSide(env: Env, past: seq<Session>, job: Job, actions: seq<Action>, w: World, side: Side)
    requires Legal(env, AllJobs(past, job)) && Reach(env, past, job, actions) == Some(w)
    ensures OneWay(env, job, w.Of(side).pc, w.In(side), w.Of(side.Other()).pc, w.In(side.Other()))
    ensures PcGood(env, job, side, w.Of(side))
  {
    ReachedGood(env, past, job, actions, w);
  }

  // ---------------------------------------------------------------- half duplex and codes

  /** At most one of the two channels holds undelivered messages. */
  lemma HalfDuplex(env: Env, past: seq<Session>, job: Job, actions: seq<Action>, w: World)
    requires Legal(env, AllJobs(past, job)) && Reach(env, past, job, actions) == Some(w)
    ensures w.c2s == [] || w.s2c == []
  {
    ReachedGood(env, past, job, actions, w);
  }

  /** What a received code can mean at each point that receives one. */
  function Meanings(pc: Pc): set<byte> {
    match pc
    case C(PingWait) => {PONG}
    case C(PutWait) => {OK, DUPLICATE_RESOURCE_NAME, NO_ACCESS, NOT_FOUND, INSUFFICIENT_SPACE}
    case C(GetWait) => {OK, NOT_FOUND, NO_ACCESS, BAD_RESOURCE}
    case V(AwaitCommand) => {PUT, GET, PING}
    case V(PutReply) => {OVERWRITE, ABORT}
    case V(GetReply) => {OK, ABORT}
    case S(AwaitPlan) => {RESUME, RESTART}
    case S(AwaitVerdict) => {OK, NO_INTEGRITY}
    case R(AwaitChoice(_)) => {OK, ABORT}
    case _ => {}
  }

  /** The message is of the kind the waiting process reads, and a code is one of those it expects. */
  predicate KindFits(pc: Pc, m: Msg) {
    Waits(pc) && KindOf(m) == Reads(pc) && (m.Code? ==> m.code in Meanings(pc))
  }

  lemma AcceptedFits(env: Env, job: Job, pc: Pc, m: Msg)
    requires env.Valid() && Accept(env, job, pc, m).Some?
    ensures KindFits(pc, m)
  {
  }

  /**
   Although COMMAND and RESPONSE share numbers and replies cross kinds, no "PROTOCOL NOT FOLLOWED" branch is ever
   taken, and what arrives at a waiting process is always of the kind it reads and one of the codes it expects.
   */
  lemma CodesUnambiguous(env: Env, past: seq<Session>, job: Job, actions: seq<Action>, w: World, side: Side)
    requires Legal(env, AllJobs(past, job)) && Reach(env, past, job, actions) == Some(w)
    ensures !w.Of(side).warned
    ensures Waits(w.Of(side).pc) && w.In(side) != [] ==> KindFits(w.Of(side).pc, w.In(side)[0])
  {
    ReachedSide(env, past, job, actions, w, side);
    if Waits(w.Of(side).pc) && w.In(side) != [] {
      HeadFits(env, job, w.Of(side).pc, w.In(side), w.Of(side.Other()).pc, w.In(side.Other()));
    }
  }

  /** What is first in a channel is what its reader reads. */
  lemma HeadFits(env: Env, job: Job, x: Pc, q: seq<Msg>, y: Pc, out: seq<Msg>)
    requires env.Valid() && OneWay(env, job, x, q, y, out) && Waits(x) && q != []
    ensures KindFits(x, q[0])
  {
    assert Conn(env, job, y, q, x);
    AcceptedFits(env, job, x, q[0]);
  }

  /** The shared numbers that make the previous lemma worth having. */
  lemma NumbersCollide()
    ensures OK == GET && ABORT == NO_ACCESS && OVERWRITE == BAD_RESOURCE
    ensures RESUME == DUPLICATE_RESOURCE_NAME && RESTART == NO_INTEGRITY
  {
  }

  // ---------------------------------------------------------------- progress

  predicate Done(pc: Pc) { pc.End? || (pc.S? && pc.s.SendEnd?) || (pc.R? && pc.r.RecvEnd?) }

  /** The process has returned, or will without touching a channel again. */
  predicate Gone(w: World, side: Side) { !w.Up(side) || Done(w.Of(side).pc) }

  ghost predicate CanAct(env: Env, job: Job, w: World, side: Side)
    requires env.Valid()
  {
    w.Up(side) && exists ch :: Next(env, job, w.View(side), ch).Some?
  }

  /** Its next receive will report that the peer has closed. */
  predicate EndOfStream(w: World, side: Side) {
    !Gone(w, side) && Waits(w.Of(side).pc) && w.In(side) == [] && Gone(w, side.Other())
  }

  function Usual(pc: Pc): Choice { if pc.R? && pc.r.WriteTmp? then Junk([]) else Go }

  lemma TurnEnabled(env: Env, job: Job, side: Side, l: Local, y: Pc)
    requires job.Valid(env) && LocalGood(env, job, side, l, y) && !Waits(l.proc.pc) && !Done(l.proc.pc)
    ensures Next(env, job, l, Usual(l.proc.pc)).Some?
  {
    TurnGood(env, job, side, l.proc, l.fs, Usual(l.proc.pc));
    if l.proc.pc.R? {
      ReceiverEnabled(env, job, side, l);
    }
  }

  lemma ReceiverEnabled(env: Env, job: Job, side: Side, l: Local)
    requires job.Valid(env) && PcGood(env, job, side, l.proc) && l.proc.pc.R?
    requires DiskGood(env, job, l.proc.pc.r, l.fs) && !Waits(l.proc.pc) && !Done(l.proc.pc)
    ensures !ReceiverActs(env, l.proc, l.proc.pc.r, l.fs, Usual(l.proc.pc)).Blocked?
  {
  }

  lemma HearingEnabled(env: Env, job: Job, l: Local, y: Pc)
    requires env.Valid() && OneWay(env, job, l.proc.pc, l.inq, y, l.outq) && Waits(l.proc.pc) && l.inq != []
    ensures Next(env, job, l, Go).Some?
  {
    assert Conn(env, job, y, l.inq, l.proc.pc);
    MessageUnderstood(env, job, l.proc, l.inq[0]);
  }

  lemma InvGivesLocal(env: Env, job: Job, w: World, side: Side)
    requires job.Valid(env) && Inv(env, job, w) && w.Up(side)
    ensures LocalGood(env, job, side, w.View(side), w.Of(side.Other()).pc)
  {
  }

  /** A process that neither finished nor waits for a message can act; so can one with a message to receive. */
  lemma ActsUnlessStarved(env: Env, job: Job, w: World, side: Side)
    requires job.Valid(env) && Inv(env, job, w) && !Gone(w, side)
    ensures CanAct(env, job, w, side) || (Waits(w.Of(side).pc) && w.In(side) == [])
  {
    InvGivesLocal(env, job, w, side);
    var l, y := w.View(side), w.Of(side.Other()).pc;
    if !Waits(l.proc.pc) {
      TurnEnabled(env, job, side, l, y);
    } else if l.inq != [] {
      HearingEnabled(env, job, l, y);
    }
  }

  /** Two processes never starve each other. */
  lemma NeverBothStarved(x: Pc, y: Pc)
    requires Waits(x) && (Waits(y) || Done(y))
    ensures !Sync(Norm(x), Norm(y)) && !Sync(Norm(y), Norm(x))
  {
  }

  /**
   No deadlock, for PING, PUT and GET and any archive: either both processes have finished or died, or one of them
   can act, or one is about to learn that its peer has closed.
   */
  lemma DeadlockFree(env: Env, past: seq<Session>, job: Job, actions: seq<Action>, w: World)
    requires Legal(env, AllJobs(past, job)) && Reach(env, past, job, actions) == Some(w)
    ensures || (Gone(w, Client) && Gone(w, Server))
            || CanAct(env, job, w, Client) || CanAct(env, job, w, Server)
            || EndOfStream(w, Client) || EndOfStream(w, Server)
  {
    ReachedGood(env, past, job, actions, w);
    if !Gone(w, Client) { ActsUnlessStarved(env, job, w, Client); }
    if !Gone(w, Server) { ActsUnlessStarved(env, job, w, Server); }
    if Waits(w.client.pc) && Waits(w.server.pc) {
      NeverBothStarved(w.client.pc, w.server.pc);
    }
  }

  /** The step says something. */
  ghost predicate Speaks(env: Env, job: Job, w: World, side: Side)
    requires env.Valid()
  {
    !Waits(w.Of(side).pc) && exists ch :: OnTurn(env, job, w.Of(side), w.fs, ch).Says?
  }

  /**
   The same with bounded channels: while both processes are up and unfinished business remains, one of them can act
   without having to wait for room, because it receives, works locally, or writes to an empty channel.
   */
  lemma LiveWithAnyCapacity(env: Env, past: seq<Session>, job: Job, actions: seq<Action>, w: World)
    requires Legal(env, AllJobs(past, job)) && Reach(env, past, job, actions) == Some(w)
    requires w.clientUp && w.serverUp && !(Done(w.client.pc) && Done(w.server.pc))
    ensures exists side: Side :: CanAct(env, job, w, side) && (Speaks(env, job, w, side) ==> w.In(side.Other()) == [])
  {
    ReachedGood(env, past, job, actions, w);
    Live(env, job, w);
  }

  lemma Live(env: Env, job: Job, w: World)
    requires job.Valid(env) && Inv(env, job, w)
    requires w.clientUp && w.serverUp && !(Done(w.client.pc) && Done(w.server.pc))
    ensures exists side: Side :: CanAct(env, job, w, side) && (Speaks(env, job, w, side) ==> w.In(side.Other()) == [])
  {
    if w.c2s != [] {
      ConsumerActs(env, job, w, Server);
    } else if w.s2c != [] {
      ConsumerActs(env, job, w, Client);
    } else {
      if !Gone(w, Client) { ActsUnlessStarved(env, job, w, Client); }
      if !Gone(w, Server) { ActsUnlessStarved(env, job, w, Server); }
      if Waits(w.client.pc) { IfDoneNotStarved(w.client.pc, w.server.pc); }
      if Waits(w.server.pc) { IfDoneNotStarved(w.server.pc, w.client.pc); }
      var side := if CanAct(env, job, w, Client) then Client else Server;
      assert CanAct(env, job, w, side) && w.In(side.Other()) == [];
    }
  }

  lemma IfDoneNotStarved(x: Pc, y: Pc)
    requires Waits(x)
    ensures Waits(y) || Done(y) ==> !Sync(Norm(x), Norm(y)) && !Sync(Norm(y), Norm(x))
  {
    if Waits(y) || Done(y) { NeverBothStarved(x, y); }
  }

  lemma ConsumerActs(env: Env, job: Job, w: World, side: Side)
    requires job.Valid(env) && Inv(env, job, w) && w.Up(side) && w.In(side) != []
    ensures CanAct(env, job, w, side) && !Speaks(env, job, w, side)
  {
    var x, y, m := w.Of(side).pc, w.Of(side.Other()).pc, w.In(side)[0];
    assert Conn(env, job, y, w.In(side), x) && Accept(env, job, Norm(x), m).Some?;
    DoneIsDeaf(env, job, x, m);
    ActsUnlessStarved(env, job, w, side);
    if Speaks(env, job, w, side) {
      var ch :| OnTurn(env, job, w.Of(side), w.fs, ch).Says?;
      TurnFits(env, job, side, w.Of(side), End, w.fs, ch);
      SpeakerIsDeaf(env, job, Norm(x), m);
    }
  }

  lemma DoneIsDeaf(env: Env, job: Job, x: Pc, m: Msg)
    requires env.Valid() && Accept(env, job, Norm(x), m).Some?
    ensures !Done(x)
  {
  }

  // ---------------------------------------------------------------- termination

  /** An upper bound on the actions a process has left, for an archive of n octets. */
  function Rank(n: nat, pc: Pc): nat {
    match pc
    case C(c) => ClientRank(n, c)
    case V(v) => ServerRank(n, v)
    case S(s) => SenderRank(n, s)
    case R(r) => ReceiverRank(n, r)
    case End => 0
  }

  function ClientRank(n: nat, c: ClientPc): nat {
    match c
    case PingAsk => 2
    case PingWait => 1
    case PutAsk => 4 * n + 21
    case PutDescribe => 4 * n + 20
    case PutWait => 4 * n + 19
    case PutChoose => 4 * n + 18
    case GetAsk => 4 * n + 22
    case GetDescribe => 4 * n + 21
    case GetWait => 4 * n + 20
    case GetSize => 4 * n + 19
    case GetChoose => 4 * n + 18
  }

  function ServerRank(n: nat, v: ServerPc): nat {
    match v
    case AwaitCommand => 4 * n + 23
    case SayPong => 1
    case PutInfo => 4 * n + 21
    case PutCheck => 4 * n + 20
    case PutReply => 4 * n + 19
    case PutRemove => 4 * n + 18
    case GetInfo => 4 * n + 22
    case GetCheck => 4 * n + 21
    case GetAdvertise => 4 * n + 20
    case GetReply => 4 * n + 19
  }

  function SenderRank(n: nat, s: SenderPc): nat {
    match s
    case Zip => n + 8
    case SayHash => n + 7
    case AwaitPlan => n + 6
    case Choose => n + 5
    case AwaitOffset => n + 4
    case SaySize(_) => n + 3
    case SendLoop(_, left) => left + 2
    case AwaitVerdict => 1
    case SendEnd(_) => 0
  }

  function ReceiverRank(n: nat, r: ReceiverPc): nat {
    match r
    case AwaitHash => 4 * n + 17
    case Lookup => 4 * n + 16
    case AskResume(_) => 4 * n + 15
    case AwaitChoice(_) => 4 * n + 14
    case SayOffset(_) => 4 * n + 13
    case SayRestart => 4 * n + 13
    case OpenFile(_) => 4 * n + 12
    case AwaitSize(_) => 4 * n + 11
    case RecvLoop(_, _, left) => 4 * left + 10
    case WriteData(_, _, left, _) => 4 * left + 9
    case WriteTmp(_, _, left) => 4 * left + 12
    case RenameTmp(_, _, left) => 4 * left + 11
    case Verify(_) => 6
    case SayOk => 5
    case SayBad => 5
    case Extract => 4
    case RemoveFile(_) => 3
    case RemoveCkpt(_) => 2
    case RecvEnd(_) => 0
  }

  lemma HearingDescends(env: Env, job: Job, side: Side, p: Proc, m: Msg)
    requires job.Valid(env) && Waits(p.pc) && PcGood(env, job, side, p) && Accept(env, job, Norm(p.pc), m).Some?
    ensures OnMsg(env, p, m).Hears? && Rank(|job.archive|, OnMsg(env, p, m).proc.pc) < Rank(|job.archive|, p.pc)
  {
    HearingGood(env, job, side, p, m);
    match p.pc
    case C(c) => ClientHearingDescends(env, job, p, m);
    case V(v) => ServerHearingDescends(env, job, p, m);
    case S(s) => SenderHearingDescends(env, job, p, m);
    case R(r) => ReceiverHearingDescends(env, job, p, m);
  }

  lemma ClientHearingDescends(env: Env, job: Job, p: Proc, m: Msg)
    requires env.Valid() && p.pc.C? && Waits(p.pc) && OnMsg(env, p, m).Hears?
    ensures Rank(|job.archive|, OnMsg(env, p, m).proc.pc) < Rank(|job.archive|, p.pc)
  {
  }

  lemma ServerHearingDescends(env: Env, job: Job, p: Proc, m: Msg)
    requires env.Valid() && p.pc.V? && Waits(p.pc) && OnMsg(env, p, m).Hears?
    ensures Rank(|job.archive|, OnMsg(env, p, m).proc.pc) < Rank(|job.archive|, p.pc)
  {
  }

  lemma SenderHearingDescends(env: Env, job: Job, p: Proc, m: Msg)
    requires env.Valid() && p.pc.S? && Waits(p.pc) && OnMsg(env, p, m).Hears?
    ensures Rank(|job.archive|, OnMsg(env, p, m).proc.pc) < Rank(|job.archive|, p.pc)
  {
  }

  lemma ReceiverHearingDescends(env: Env, job: Job, p: Proc, m: Msg)
    requires job.Valid(env) && p.pc.R? && Waits(p.pc) && Numbers(job.archive, p.pc)
    requires OnMsg(env, p, m).Hears? && Numbers(job.archive, OnMsg(env, p, m).proc.pc)
    ensures Rank(|job.archive|, OnMsg(env, p, m).proc.pc) < Rank(|job.archive|, p.pc)
  {
  }

  lemma TurnDescends(env: Env, job: Job, side: Side, p: Proc, fs: Fs, ch: Choice)
    requires job.Valid(env) && !Waits(p.pc) && PcGood(env, job, side, p)
    ensures var e := OnTurn(env, job, p, fs, ch);
            && (e.Says? ==> Rank(|job.archive|, e.pc) < Rank(|job.archive|, p.pc))
            && (e.Works? ==> Rank(|job.archive|, e.pc) < Rank(|job.archive|, p.pc))
  {
    match p.pc
    case C(c) =>
    case V(v) =>
    case S(s) => SenderDescends(env, job, side, p, fs, ch);
    case R(r) => ReceiverDescends(env, job, side, p, fs, ch);
    case End =>
  }

  lemma SenderDescends(env: Env, job: Job, side: Side, p: Proc, fs: Fs, ch: Choice)
    requires job.Valid(env) && !Waits(p.pc) && PcGood(env, job, side, p) && p.pc.S?
    ensures var e := OnTurn(env, job, p, fs, ch);
            && (e.Says? ==> Rank(|job.archive|, e.pc) < Rank(|job.archive|, p.pc))
            && (e.Works? ==> Rank(|job.archive|, e.pc) < Rank(|job.archive|, p.pc))
  {
    if p.pc.s.SendLoop? && p.pc.s.left > 0 {
      assert |Chunk(job.archive, p.pc.s.pos, p.pc.s.left)| > 0;
    }
  }

  lemma ReceiverDescends(env: Env, job: Job, side: Side, p: Proc, fs: Fs, ch: Choice)
    requires job.Valid(env) && !Waits(p.pc) && PcGood(env, job, side, p) && p.pc.R?
    ensures var e := OnTurn(env, job, p, fs, ch);
            && (e.Says? ==> Rank(|job.archive|, e.pc) < Rank(|job.archive|, p.pc))
            && (e.Works? ==> Rank(|job.archive|, e.pc) < Rank(|job.archive|, p.pc))
  {
    var r := p.pc.r;
    if r.WriteData? {
      NextAligned(job.archive, r.pos, r.left);
    } else if r.RecvLoop? || r.WriteTmp? || r.RenameTmp? || r.Lookup? || r.OpenFile? {
      LoopDescends(env, job, p, fs, ch);
    } else {
      OtherDescends(env, job, p, fs, ch);
    }
  }

  lemma LoopDescends(env: Env, job: Job, p: Proc, fs: Fs, ch: Choice)
    requires env.Valid() && p.pc.R? && !Waits(p.pc)
    requires p.pc.r.RecvLoop? || p.pc.r.WriteTmp? || p.pc.r.RenameTmp? || p.pc.r.Lookup? || p.pc.r.OpenFile?
    ensures var e := ReceiverActs(env, p, p.pc.r, fs, ch);
            && (e.Says? ==> Rank(|job.archive|, e.pc) < Rank(|job.archive|, p.pc))
            && (e.Works? ==> Rank(|job.archive|, e.pc) < Rank(|job.archive|, p.pc))
  {
  }

  lemma OtherDescends(env: Env, job: Job, p: Proc, fs: Fs, ch: Choice)
    requires env.Valid() && p.pc.R? && !Waits(p.pc)
    requires !(p.pc.r.RecvLoop? || p.pc.r.WriteData? || p.pc.r.WriteTmp? || p.pc.r.RenameTmp?)
    requires !(p.pc.r.Lookup? || p.pc.r.OpenFile?)
    ensures var e := ReceiverActs(env, p, p.pc.r, fs, ch);
            && (e.Says? ==> Rank(|job.archive|, e.pc) < Rank(|job.archive|, p.pc))
            && (e.Works? ==> Rank(|job.archive|, e.pc) < Rank(|job.archive|, p.pc))
  {
    var r := p.pc.r;
    if r.Verify? || r.SayOk? || r.SayBad? || r.Extract? || r.RemoveFile? || r.RemoveCkpt? || r.RecvEnd? {
      TailDescends(env, job, p, fs, ch);
    }
  }

  lemma TailDescends(env: Env, job: Job, p: Proc, fs: Fs, ch: Choice)
    requires env.Valid() && p.pc.R?
    requires var r := p.pc.r;
             r.Verify? || r.SayOk? || r.SayBad? || r.Extract? || r.RemoveFile? || r.RemoveCkpt? || r.RecvEnd?
    ensures var e := ReceiverActs(env, p, p.pc.r, fs, ch);
            && (e.Says? ==> Rank(|job.archive|, e.pc) < Rank(|job.archive|, p.pc))
            && (e.Works? ==> Rank(|job.archive|, e.pc) < Rank(|job.archive|, p.pc))
  {
    if p.pc.r.Verify? || p.pc.r.SayOk? || p.pc.r.SayBad? {
      VerdictDescends(env, job, p, fs, ch);
    }
  }

  lemma VerdictDescends(env: Env, job: Job, p: Proc, fs: Fs, ch: Choice)
    requires env.Valid() && p.pc.R? && (p.pc.r.Verify? || p.pc.r.SayOk? || p.pc.r.SayBad?)
    ensures var e := ReceiverActs(env, p, p.pc.r, fs, ch);
            && (e.Says? ==> Rank(|job.archive|, e.pc) < Rank(|job.archive|, p.pc))
            && (e.Works? ==> Rank(|job.archive|, e.pc) < Rank(|job.archive|, p.pc))
  {
  }

  function TotalRank(job: Job, w: World): nat {
    Rank(|job.archive|, w.client.pc) + Rank(|job.archive|, w.server.pc)
  }

  lemma ActDescends(env: Env, job: Job, w: World, side: Side, ch: Choice)
    requires job.Valid(env) && Inv(env, job, w) && Do(env, job, w, Act(side, ch)).Some?
    ensures TotalRank(job, Do(env, job, w, Act(side, ch)).value) < TotalRank(job, w)
  {
    var p := w.Of(side);
    if Waits(p.pc) {
      assert Conn(env, job, w.Of(side.Other()).pc, w.In(side), p.pc);
      HearingDescends(env, job, side, p, w.In(side)[0]);
    } else {
      TurnDescends(env, job, side, p, w.fs, ch);
      TurnGood(env, job, side, p, w.fs, ch);
    }
  }

  function Acts(actions: seq<Action>): nat {
    if actions == [] then 0 else (if actions[0].Act? then 1 else 0) + Acts(actions[1..])
  }

  /** Every session ends: its processes take at most a number of steps fixed by the length of the archive. */
  lemma {:induction false} SessionsTerminate(env: Env, job: Job, w: World, actions: seq<Action>)
    requires job.Valid(env) && Inv(env, job, w) && Run(env, job, w, actions).Some?
    ensures Acts(actions) + TotalRank(job, Run(env, job, w, actions).value) <= TotalRank(job, w)
    decreases |actions|
  {
    if actions != [] {
      var w1 := Do(env, job, w, actions[0]).value;
      ActionDescends(env, job, w, actions[0], w1);
      SessionsTerminate(env, job, w1, actions[1..]);
    }
  }

  lemma ActionDescends(env: Env, job: Job, w: World, a: Action, w': World)
    requires job.Valid(env) && Inv(env, job, w) && Do(env, job, w, a) == Some(w')
    ensures Inv(env, job, w') && (if a.Act? then 1 else 0) + TotalRank(job, w') <= TotalRank(job, w)
  {
    DoKeeps(env, job, w, a);
    if a.Act? {
      ActDescends(env, job, w, a.side, a.choice);
    }
  }

  lemma ReachedSessionsTerminate(env: Env, past: seq<Session>, job: Job, actions: seq<Action>, w: World)
    requires Legal(env, AllJobs(past, job)) && Reach(env, past, job, actions) == Some(w)
    ensures Acts(actions) <= 8 * |job.archive| + 45
  {
    var fs := RunAll(env, map[], past).value;
    ReachedGood(env, past, job, [], Start(job, fs));
    SessionsTerminate(env, job, Start(job, fs), actions);
  }

  /** A session ran to its end: both processes are up, and neither can act. */
  ghost predicate Quiescent(env: Env, job: Job, w: World)
    requires env.Valid()
  {
    w.clientUp && w.serverUp && !CanAct(env, job, w, Client) && !CanAct(env, job, w, Server)
  }

  /** From any state in which both processes are up, the session can run to its end. */
  lemma {:induction false} CanFinish(env: Env, job: Job, w: World) returns (more: seq<Action>)
    requires job.Valid(env) && Inv(env, job, w) && w.clientUp && w.serverUp
    ensures Run(env, job, w, more).Some? && Quiescent(env, job, Run(env, job, w, more).value)
    decreases TotalRank(job, w)
  {
    if CanAct(env, job, w, Client) || CanAct(env, job, w, Server) {
      var side := if CanAct(env, job, w, Client) then Client else Server;
      var ch :| Next(env, job, w.View(side), ch).Some?;
      var a := Act(side, ch);
      ActDescends(env, job, w, side, ch);
      DoKeeps(env, job, w, a);
      var rest := CanFinish(env, job, Do(env, job, w, a).value);
      more := [a] + rest;
      assert more[1..] == rest;
    } else {
      more := [];
    }
  }

  // ---------------------------------------------------------------- agreement of the two loops

  /** Data octets in flight. */
  function Load(q: seq<Msg>): nat {
    if q == [] then 0 else (if q[0].Packet? then q[0].count else 0) + Load(q[1..])
  }

  lemma {:induction false} LoopConsumes(env: Env, job: Job, r: ReceiverPc, q: seq<Msg>)
    requires job.Valid(env) && r.RecvLoop? && r.pos + r.left == |job.archive| && After(env, job, R(r), q).Some?
    ensures var z := After(env, job, R(r), q).value;
            z.R? && (|| (z.r.RecvLoop? && z.r.pos == r.pos + Load(q) && z.r.pos + z.r.left == |job.archive|)
                     || (z.r.Verify? && r.pos + Load(q) == |job.archive|))
    decreases |q|
  {
    if q != [] {
      var y := Accept(env, job, Norm(R(r)), q[0]).value;
      LoopConsumes(env, job, y.r, q[1..]);
    }
  }

  /** Octets of the archive that the receiver has consumed, once it is in its loop. */
  function Consumed(r: ReceiverPc): Option<nat> {
    match r
    case RecvLoop(_, pos, _) => Some(pos)
    case WriteData(_, pos, _, data) => Some(pos + |data|)
    case WriteTmp(_, pos, _) => Some(pos)
    case RenameTmp(_, pos, _) => Some(pos)
    case _ => None
  }

  /** Points that no message leads to: a process gets there by its own action. */
  predicate OwnDoing(pc: Pc) {
    || (pc.S? && (pc.s.SendLoop? || pc.s.AwaitVerdict?))
    || (pc.R? && (pc.r.SayOk? || pc.r.SayBad?))
    || (pc.R? && (pc.r.Extract? || pc.r.RemoveFile? || pc.r.RemoveCkpt? || pc.r.RecvEnd?))
  }

  lemma AcceptNotOwn(env: Env, job: Job, pc: Pc, m: Msg)
    requires env.Valid() && Accept(env, job, pc, m).Some?
    ensures !OwnDoing(Norm(Accept(env, job, pc, m).value))
  {
  }

  lemma {:induction false} AfterNotOwn(env: Env, job: Job, y: Pc, q: seq<Msg>)
    requires env.Valid() && q != [] && After(env, job, y, q).Some?
    ensures !OwnDoing(After(env, job, y, q).value)
    decreases |q|
  {
    if |q| == 1 {
      AcceptNotOwn(env, job, Norm(y), q[0]);
      assert q[1..] == [];
    } else {
      AfterNotOwn(env, job, Accept(env, job, Norm(y), q[0]).value, q[1..]);
    }
  }

  function LoopView(r: ReceiverPc): ReceiverPc {
    match r
    case WriteData(st, pos, left, data) => RecvLoop(st, pos + |data|, Sub64(left, |data|))
    case WriteTmp(st, pos, left) => RecvLoop(st, pos, left)
    case RenameTmp(st, pos, left) => RecvLoop(st, pos, left)
    case _ => r
  }

  lemma LoopViewGood(env: Env, job: Job, r: ReceiverPc)
    requires job.Valid(env) && Consumed(r).Some? && Numbers(job.archive, R(r))
    ensures LoopView(r).RecvLoop? && LoopView(r).pos == Consumed(r).value
    ensures LoopView(r).pos + LoopView(r).left == |job.archive| && Norm(R(LoopView(r))) == Norm(R(r))
  {
    if r.WriteData? {
      NextAligned(job.archive, r.pos, r.left);
    }
  }

  /** Whoever is in step with a receiving loop is a sending loop at the same position, or has just left it. */
  lemma LoopPeer(r: ReceiverPc, s: Pc)
    requires r.RecvLoop? && (Sync(Norm(s), Norm(R(r))) || Sync(Norm(R(r)), Norm(s)))
    ensures OwnDoing(Norm(s)) && s.S?
    ensures if r.left == 0 then Norm(s) == S(AwaitVerdict) else s == S(SendLoop(r.pos, r.left))
  {
  }

  /** While the receiver is in its loop nothing is under way to the sender. */
  lemma NothingToSender(env: Env, job: Job, r: ReceiverPc, q: seq<Msg>, s: Pc)
    requires env.Valid() && r.RecvLoop? && Conn(env, job, R(r), q, s)
    ensures q == []
  {
    var z := After(env, job, s, q).value;
    if q != [] {
      AfterNotOwn(env, job, s, q);
      assert Sync(Norm(R(r)), z);
      NormTwice(env, job, s, q);
      LoopPeer(r, z);
    }
  }

  lemma {:induction false} NormTwice(env: Env, job: Job, y: Pc, q: seq<Msg>)
    requires env.Valid() && After(env, job, y, q).Some?
    ensures var z := After(env, job, y, q).value; Norm(z) == z
    decreases |q|
  {
    if q != [] {
      NormTwice(env, job, Accept(env, job, Norm(y), q[0]).value, q[1..]);
    }
  }

  ghost predicate InStep(job: Job, r: ReceiverPc, q: seq<Msg>, s: Pc) {
    && s.S? && (s.s.SendLoop? || s.s.AwaitVerdict?)
    && (Norm(s) == S(AwaitVerdict) ==> r.RecvLoop? && r.pos + Load(q) == |job.archive|)
    && (Norm(s) != S(AwaitVerdict) ==>
          r.RecvLoop? && s.s.SendLoop? && s.s.pos == r.pos + Load(q) && s.s.pos + s.s.left == |job.archive|)
  }

  lemma LoopsAgree(env: Env, job: Job, r: ReceiverPc, q: seq<Msg>, s: Pc, back: seq<Msg>)
    requires job.Valid(env) && r.RecvLoop? && r.pos + r.left == |job.archive| && OneWay(env, job, R(r), q, s, back)
    ensures back == [] && InStep(job, r, q, s)
  {
    if Conn(env, job, R(r), back, s) && q == [] {
      NothingToSender(env, job, r, back, s);
      LoopPeer(r, s);
    } else {
      ForwardAgree(env, job, r, q, s);
    }
  }

  lemma ForwardAgree(env: Env, job: Job, r: ReceiverPc, q: seq<Msg>, s: Pc)
    requires job.Valid(env) && r.RecvLoop? && r.pos + r.left == |job.archive| && Conn(env, job, s, q, R(r))
    ensures InStep(job, r, q, s)
  {
    LoopConsumes(env, job, r, q);
    NormTwice(env, job, R(r), q);
    var z := After(env, job, R(r), q).value;
    if z.r.RecvLoop? {
      LoopPeer(z.r, s);
    } else {
      assert Facing(z) == Some(S(AwaitVerdict));
      SyncSymmetric(Norm(s), z);
    }
  }

  /**
   Conservation. While the receiver is in its loop, octets consumed plus octets in flight plus octets the sender
   still has to send are the whole archive; when the sender has sent its last packet, what is in flight completes it.
   When the receiver has the whole archive nothing is in flight either way and the sender's loop has ended too.
   */
  lemma Conservation(env: Env, past: seq<Session>, job: Job, actions: seq<Action>, w: World, side: Side)
    requires Legal(env, AllJobs(past, job)) && Reach(env, past, job, actions) == Some(w)
    requires w.Of(side).pc.R? && Consumed(w.Of(side).pc.r).Some?
    ensures var c, q, s := Consumed(w.Of(side).pc.r).value, w.In(side), w.Of(side.Other()).pc;
            && s.S? && (s.s.SendLoop? || s.s.AwaitVerdict?)
            && c + Load(q) + (if s.s.SendLoop? then s.s.left else 0) == |job.archive|
            && (s.s.SendLoop? && s.s.left > 0 ==> s.s.pos == c + Load(q))
            && w.In(side.Other()) == []
            && (c == |job.archive| ==> q == [] && Norm(s) == S(AwaitVerdict))
  {
    ReachedSide(env, past, job, actions, w, side);
    var r, s := w.Of(side).pc.r, w.Of(side.Other()).pc;
    LoopViewGood(env, job, r);
    SameView(env, job, R(r), R(LoopView(r)), w.In(side), s, w.In(side.Other()));
    LoopsAgree(env, job, LoopView(r), w.In(side), s, w.In(side.Other()));
    if Consumed(r).value == |job.archive| {
      FullLoop(env, job, LoopView(r), w.In(side), s, w.In(side.Other()));
    }
  }

  /** A receiver that has everything takes no message before the hash check. */
  lemma FullIsDeaf(env: Env, job: Job, r: ReceiverPc, q: seq<Msg>)
    requires env.Valid() && r.RecvLoop? && r.left == 0 && After(env, job, R(r), q).Some?
    ensures q == []
  {
  }

  lemma FullLoop(env: Env, job: Job, r: ReceiverPc, q: seq<Msg>, s: Pc, back: seq<Msg>)
    requires job.Valid(env) && r.RecvLoop? && r.left == 0 && OneWay(env, job, R(r), q, s, back) && back == []
    ensures q == [] && Norm(s) == S(AwaitVerdict)
  {
    if q != [] {
      FullIsDeaf(env, job, r, q);
      assert false;
    }
    LoopPeer(r, s);
  }

  lemma SameView(env: Env, job: Job, x: Pc, x': Pc, q: seq<Msg>, s: Pc, back: seq<Msg>)
    requires env.Valid() && OneWay(env, job, x, q, s, back) && Norm(x) == Norm(x')
    ensures OneWay(env, job, x', q, s, back)
  {
    AfterNorm(env, job, x, x', q);
  }

  lemma SizePeer(env: Env, job: Job, o: nat, back: seq<Msg>, r: Pc, q: seq<Msg>)
    requires env.Valid() && OneWay(env, job, S(SaySize(o)), back, r, q)
    ensures back == [] && After(env, job, r, q) == Some(R(AwaitSize(o)))
  {
    if back == [] && q == [] && Sync(Norm(r), S(SaySize(o))) {
      SyncSymmetric(Norm(r), S(SaySize(o)));
    }
  }

  /**
   Offset agreement. However the handshake went (resumed, declined, restarted), when the sender is about to
   advertise the size, the receiver will wait for it with the very same offset once it has heard what is in flight.
   */
  lemma OffsetsAgree(env: Env, past: seq<Session>, job: Job, actions: seq<Action>, w: World, side: Side)
    requires Legal(env, AllJobs(past, job)) && Reach(env, past, job, actions) == Some(w)
    requires w.Of(side).pc.S? && w.Of(side).pc.s.SaySize?
    ensures var o := w.Of(side).pc.s.offset;
            && o <= |job.archive| && w.In(side) == []
            && After(env, job, w.Of(side.Other()).pc, w.In(side.Other())) == Some(R(AwaitSize(o)))
  {
    ReachedSide(env, past, job, actions, w, side);
    SizePeer(env, job, w.Of(side).pc.s.offset, w.In(side), w.Of(side.Other()).pc, w.In(side.Other()));
  }

  // ---------------------------------------------------------------- unsigned arithmetic

  /** What the sender takes from its size is never more than the size, and every packet makes progress. */
  lemma SenderNoUnderflow(env: Env, past: seq<Session>, job: Job, actions: seq<Action>, w: World, side: Side)
    requires Legal(env, AllJobs(past, job)) && Reach(env, past, job, actions) == Some(w)
    requires w.Of(side).pc.S?
    ensures match w.Of(side).pc.s
            case SaySize(o) => o <= |job.archive|
            case SendLoop(pos, left) => left > 0 ==> 0 < |Chunk(job.archive, pos, left)| <= left
            case _ => true
  {
    ReachedSide(env, past, job, actions, w, side);
  }

  /** Nor is what the receiver takes from the size it is told, or from what is left of it. */
  lemma ReceiverNoUnderflow(env: Env, past: seq<Session>, job: Job, actions: seq<Action>, w: World, side: Side)
    requires Legal(env, AllJobs(past, job)) && Reach(env, past, job, actions) == Some(w)
    requires w.Of(side).pc.R?
    ensures match w.Of(side).pc.r
            case AwaitSize(o) => w.In(side) != [] ==> w.In(side)[0].Resource? && o <= w.In(side)[0].size
            case WriteData(_, _, left, data) => 0 < |data| <= left
            case _ => true
  {
    ReachedSide(env, past, job, actions, w, side);
    ReceiverSubtracts(env, job, w.Of(side).pc.r, w.In(side), w.Of(side.Other()).pc, w.In(side.Other()));
  }

  lemma ReceiverSubtracts(env: Env, job: Job, r: ReceiverPc, q: seq<Msg>, s: Pc, back: seq<Msg>)
    requires job.Valid(env) && Numbers(job.archive, R(r)) && OneWay(env, job, R(r), q, s, back)
    ensures match r
            case AwaitSize(o) => q != [] ==> q[0].Resource? && o <= q[0].size
            case WriteData(_, _, left, data) => 0 < |data| <= left
            case _ => true
  {
    if r.WriteData? {
      NextAligned(job.archive, r.pos, r.left);
    } else if r.AwaitSize? && q != [] {
      SizeHeard(env, job, r.offset, q, s, back);
    }
  }

  lemma SizeHeard(env: Env, job: Job, o: nat, q: seq<Msg>, s: Pc, back: seq<Msg>)
    requires env.Valid() && OneWay(env, job, R(AwaitSize(o)), q, s, back) && q != []
    ensures q[0] == Resource(|job.archive|, [], [])
  {
    assert Accept(env, job, R(AwaitSize(o)), q[0]).Some?;
  }

  // ---------------------------------------------------------------- the verdict

  /** The content whose digest matched, if the receiver has compared digests successfully. */
  function Checked(log: seq<Event>): Option<Bytes> {
    if log != [] && log[0].Verified? then Some(log[0].content) else None
  }

  lemma EndPeer(env: Env, job: Job, s: Pc, back: seq<Msg>, r: Pc, q: seq<Msg>)
    requires env.Valid() && s == S(SendEnd(true)) && OneWay(env, job, s, back, r, q)
    ensures r == R(Extract) || r == R(RemoveFile(true)) || r == R(RemoveCkpt(true)) || r == R(RecvEnd(true))
  {
    if back == [] {
      if q != [] {
        AfterNotOwn(env, job, r, q);
        EndFaces(After(env, job, r, q).value);
      }
      EndFaces(Norm(r));
    }
  }

  lemma EndFaces(z: Pc)
    requires Sync(S(SendEnd(true)), z) || Sync(z, S(SendEnd(true)))
    ensures z == R(Extract) || z == R(RemoveFile(true)) || z == R(RemoveCkpt(true)) || z == R(RecvEnd(true))
  {
  }

  /**
   A session is an atomic copy. Whatever happened before and during it, the receiver checks and extracts either
   nothing or exactly the archive the sender advertised, at most once; and the sender reports a match only if the
   receiver's file equalled its archive.
   */
  lemma AtomicCopy(env: Env, past: seq<Session>, job: Job, actions: seq<Action>, w: World, side: Side)
    requires Legal(env, AllJobs(past, job)) && Reach(env, past, job, actions) == Some(w)
    requires NoSecondPreimage(env, job.archive)
    ensures w.log == [] || w.log == [Verified(job.archive)] || w.log == [Verified(job.archive), Extracted(job.archive)]
    ensures w.Of(side).pc == S(SendEnd(true)) ==> Checked(w.log) == Some(job.archive)
  {
    ReachedGood(env, past, job, actions, w);
    if w.Of(side).pc == S(SendEnd(true)) {
      MatchIsChecked(env, job, w, side);
    }
    LogsExact(env, job, w);
  }

  lemma MatchIsChecked(env: Env, job: Job, w: World, side: Side)
    requires job.Valid(env) && Inv(env, job, w) && w.Of(side).pc == S(SendEnd(true))
    ensures w.log != []
  {
    EndPeer(env, job, w.Of(side).pc, w.In(side), w.Of(side.Other()).pc, w.In(side.Other()));
  }

  lemma LogsExact(env: Env, job: Job, w: World)
    requires job.Valid(env) && Inv(env, job, w) && NoSecondPreimage(env, job.archive)
    ensures w.log == [] || w.log == [Verified(job.archive)] || w.log == [Verified(job.archive), Extracted(job.archive)]
  {
  }
}
