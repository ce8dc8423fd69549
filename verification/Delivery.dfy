/**
 The byte streams implement the channels of a session. Here the two processes encode what they say, put it behind its
 length on a connection that is split anyhow, and decode what arrives as the kind they read; every step of that system
 is a step of the session model, or none.
 */
module Delivery {
  import opened Bytes
  import opened Cipher
  import opened Disk
  import opened Protocol
  import opened Invariant
  import opened Preservation
  import opened History
  import opened Recovery
  import opened SessionProperties
  import Codec
  import Transport

  // ---------------------------------------------------------------- what is said fits the wire

  /** The strings of a job fit the arrays of filerail_resource_header, and its sizes fit uint64_t. */
  predicate Fits(job: Job) {
    && job.statSize < TWO64
    && |job.name| < Codec.MAX_RESOURCE_LENGTH && |job.source| < MAX_PATH_LENGTH && |job.target| < MAX_PATH_LENGTH
  }

  /** Everything a process of a session can say fits its C structure. */
  lemma SaidFits(env: Env, job: Job, side: Side, p: Proc, fs: Fs, ch: Choice)
    requires job.Valid(env) && Fits(job) && PcGood(env, job, side, p) && !Waits(p.pc)
    ensures var e := OnTurn(env, job, p, fs, ch); e.Says? ==> Codec.Sendable(e.msg)
  {
    match p.pc
    case S(s) => SenderSaysFitting(env, job, s, fs, ch);
    case R(_) => ReceiverSaysFitting(env, job, p, fs, ch);
    case _ =>
  }

  lemma SenderSaysFitting(env: Env, job: Job, s: SenderPc, fs: Fs, ch: Choice)
    requires job.Valid(env) && Fits(job) && Numbers(job.archive, S(s))
    ensures var e := SenderActs(env, job, s, fs, ch); e.Says? ==> Codec.Sendable(e.msg)
  {
  }

  lemma ReceiverSaysFitting(env: Env, job: Job, p: Proc, fs: Fs, ch: Choice)
    requires job.Valid(env) && p.pc.R? && Numbers(job.archive, p.pc)
    ensures var e := ReceiverActs(env, p, p.pc.r, fs, ch); e.Says? ==> Codec.Sendable(e.msg)
  {
  }

  // ---------------------------------------------------------------- one direction of the connection

  /** A stream, how many of the bodies it has completed were read, and (for the statement) all that was said into it. */
  datatype Line = Line(pipe: Transport.Pipe, read: nat, said: seq<Msg>)

  const IDLE_LINE := Line(Transport.Fresh([]), 0, [])

  /** The messages that the session model still has in this channel. */
  function Queue(line: Line): seq<Msg> {
    if line.read <= |line.said| then line.said[line.read..] else []
  }

  predicate AllSendable(ms: seq<Msg>) {
    forall i | 0 <= i < |ms| :: Codec.Sendable(ms[i])
  }

  predicate LineInv(line: Line) {
    && AllSendable(line.said) && line.read <= |line.pipe.delivered|
    && Transport.PipeInv(Transport.EncodeAll(line.said), line.pipe)
  }

  /** The next completed body, decoded as the given kind. */
  function Arrived(line: Line, k: Kind): seq<Msg> {
    if line.read >= |line.pipe.delivered| then [] else
      match Codec.Decode(k, line.pipe.delivered[line.read])
      case None => []
      case Some(m) => [m]
  }

  /** filerail_send_*: the encoding goes behind its length into the stream. */
  function Put1(line: Line, m: Msg): Line
    requires Codec.Sendable(m)
  {
    line.(pipe := line.pipe.(unsent := line.pipe.unsent + Transport.Frame(Codec.Encode(m))), said := line.said + [m])
  }

  lemma {:induction false} FramesAppend(bodies: seq<Bytes>, b: Bytes)
    ensures Transport.Frames(bodies + [b]) == Transport.Frames(bodies) + Transport.Frame(b)
  {
    if bodies == [] {
      assert [b][1..] == [];
    } else {
      FramesAppend(bodies[1..], b);
      assert (bodies + [b])[1..] == bodies[1..] + [b];
    }
  }

  lemma BodyAppended(bodies: seq<Bytes>, p: Transport.Pipe, b: Bytes)
    requires Transport.PipeInv(bodies, p)
    ensures Transport.PipeInv(bodies + [b], p.(unsent := p.unsent + Transport.Frame(b)))
  {
    var k, held := |p.delivered|, Transport.Held(p.reader);
    FramesAppend(bodies[k..], b);
    assert (bodies + [b])[k..] == bodies[k..] + [b];
    assert held + p.wire + (p.unsent + Transport.Frame(b)) == (held + p.wire + p.unsent) + Transport.Frame(b);
  }

  lemma PutKeeps(line: Line, m: Msg)
    requires LineInv(line) && Codec.Sendable(m)
    ensures LineInv(Put1(line, m)) && Queue(Put1(line, m)) == Queue(line) + [m]
  {
    var b := Codec.Encode(m);
    assert Transport.EncodeAll(line.said + [m]) == Transport.EncodeAll(line.said) + [b];
    BodyAppended(Transport.EncodeAll(line.said), line.pipe, b);
    assert |line.pipe.delivered| <= |line.said|;
  }

  lemma MoveKeeps(line: Line, cap: nat, t: Transport.Transfer)
    requires LineInv(line) && Transport.Move(line.pipe, cap, t).Some?
    ensures var line' := line.(pipe := Transport.Move(line.pipe, cap, t).value);
            LineInv(line') && Queue(line') == Queue(line)
  {
    var bodies := Transport.EncodeAll(line.said);
    forall i | 0 <= i < |bodies| ensures |bodies[i]| < TWO32 { Codec.EncodedSize(line.said[i]); }
    match t
    case Push(n) => Transport.PushKeeps(bodies, line.pipe, cap, n);
    case Pull(n) => Transport.PullKeeps(bodies, line.pipe, cap, n);
  }

  /** A completed body is what the model's channel holds first, if it is read as its own kind. */
  lemma ArrivedIs(line: Line)
    requires LineInv(line) && line.read < |line.pipe.delivered|
    ensures Queue(line) != [] && Arrived(line, KindOf(Queue(line)[0])) == [Queue(line)[0]]
    ensures Queue(line.(read := line.read + 1)) == Queue(line)[1..]
  {
    var m := line.said[line.read];
    assert line.pipe.delivered[line.read] == Transport.EncodeAll(line.said)[line.read] == Codec.Encode(m);
    Codec.DecodeEncode(m, []);
    assert Codec.Encode(m) + [] == Codec.Encode(m);
  }

  /** When the model's channel is empty nothing is under way, not even in part. */
  lemma NothingUnderWay(line: Line)
    requires LineInv(line) && Queue(line) == []
    ensures line.pipe.unsent == [] && line.pipe.wire == []
  {
    var bodies := Transport.EncodeAll(line.said);
    assert bodies[|line.pipe.delivered|..] == [];
  }

  /** While it holds something, a body is ready to be read, or octets are under way or still to be sent. */
  lemma LineMoves(line: Line)
    requires LineInv(line) && Queue(line) != [] && line.read == |line.pipe.delivered|
    ensures line.pipe.unsent != [] || line.pipe.wire != []
  {
    var bodies := Transport.EncodeAll(line.said);
    forall i | 0 <= i < |bodies| ensures |bodies[i]| < TWO32 { Codec.EncodedSize(line.said[i]); }
    if line.pipe.unsent == [] && line.pipe.wire == [] {
      Transport.HeldTooShort(line.pipe.reader, bodies[line.read..]);
    }
  }

  // ---------------------------------------------------------------- the two processes over two streams

  datatype Wired = Wired(
    client: Proc, server: Proc, c2s: Line, s2c: Line, clientUp: bool, serverUp: bool,
    fs: Fs, log: seq<Event>, packets: nat)
  {
    function Up(side: Side): bool { if side.Client? then clientUp else serverUp }
    function Of(side: Side): Proc { if side.Client? then client else server }
    function In(side: Side): Line { if side.Client? then s2c else c2s }
    function SetIn(side: Side, line: Line): Wired {
      if side.Client? then this.(s2c := line) else this.(c2s := line)
    }
    /** The process's own state, the disk and the log after a local step. */
    function Set(side: Side, l: Local): Wired {
      var x := this.(fs := l.fs, log := l.log, packets := l.packets);
      if side.Client? then x.(client := l.proc) else x.(server := l.proc)
    }
    /** The session state this implements. */
    function Abs(): World {
      World(client, server, Queue(c2s), Queue(s2c), clientUp, serverUp, fs, log, packets)
    }
  }

  /** A process acts or stops as in the session model, or one send or recv moves octets towards a side. */
  datatype WireAction = Plain(a: Action) | Carry(to: Side, t: Transport.Transfer) {
    /** Not the end of a process. */
    predicate Normal() { Plain? ==> a.Act? }
  }

  /** Only a running process sends; and it receives while it waits for a message that is not complete yet. */
  predicate InCall(x: Wired, to: Side, t: Transport.Transfer) {
    if t.Push? then x.Up(to.Other())
    else x.Up(to) && Waits(x.Of(to).pc) && x.In(to).read == |x.In(to).pipe.delivered|
  }

  /** The process is still in the send call of what it said last. */
  predicate Sending(x: Wired, side: Side) { x.In(side.Other()).pipe.unsent != [] }

  /** A connection holds at most `cap` octets each way; a process acts only when it has sent all of what it said. */
  ghost function WireDo(env: Env, job: Job, cap: nat, x: Wired, wa: WireAction): Option<Wired>
    requires env.Valid()
  {
    match wa
    case Carry(to, t) =>
      if !InCall(x, to, t) then None else
        (match Transport.Move(x.In(to).pipe, cap, t)
         case None => None
         case Some(pipe) => Some(x.SetIn(to, x.In(to).(pipe := pipe))))
    case Plain(Stop(side, left)) =>
      if !x.Up(side) then None else
        var x' := x.(fs := Torn(env, x.Of(side), x.fs, left));
        Some(if side.Client? then x'.(clientUp := false) else x'.(serverUp := false))
    case Plain(Act(side, ch)) =>
      if !x.Up(side) || Sending(x, side) then None
      else if Waits(x.Of(side).pc) then WireHear(env, job, x, side, ch)
      else WireTurn(env, job, x, side, ch)
  }

  /** A receive: one completed body is decoded as the kind the process reads. */
  ghost function WireHear(env: Env, job: Job, x: Wired, side: Side, ch: Choice): Option<Wired>
    requires env.Valid() && Waits(x.Of(side).pc)
  {
    var line := x.In(side);
    var l := Local(x.Of(side), Arrived(line, Reads(x.Of(side).pc)), [], x.fs, x.log, x.packets);
    match Next(env, job, l, ch)
    case None => None
    case Some(l') => Some(x.Set(side, l').SetIn(side, line.(read := line.read + 1)))
  }

  /** Any other step: what it says, if anything, is encoded into the outgoing stream. */
  ghost function WireTurn(env: Env, job: Job, x: Wired, side: Side, ch: Choice): Option<Wired>
    requires env.Valid() && !Waits(x.Of(side).pc)
  {
    match Next(env, job, Local(x.Of(side), [], [], x.fs, x.log, x.packets), ch)
    case None => None
    case Some(l') =>
      var x' := x.Set(side, l');
      if l'.outq == [] then Some(x')
      else if Codec.Sendable(l'.outq[0]) then Some(x'.SetIn(side.Other(), Put1(x'.In(side.Other()), l'.outq[0])))
      else None
  }

  ghost predicate WireInv(env: Env, job: Job, x: Wired)
    requires job.Valid(env)
  {
    LineInv(x.c2s) && LineInv(x.s2c) && Inv(env, job, x.Abs())
  }

  /** The step is one of the session, or leaves the session as it is. */
  ghost predicate Implements(env: Env, job: Job, x: Wired, wa: WireAction, x': Wired)
    requires env.Valid()
  {
    if wa.Carry? then x'.Abs() == x.Abs() else Do(env, job, x.Abs(), wa.a) == Some(x'.Abs())
  }

  // ---------------------------------------------------------------- local steps do not depend on the rest of a queue

  lemma HearAlike(env: Env, job: Job, l: Local, ch: Choice)
    requires env.Valid() && Waits(l.proc.pc) && l.inq != []
    ensures var short := Next(env, job, l.(inq := [l.inq[0]], outq := []), ch);
            match Next(env, job, l, ch)
            case None => short == None
            case Some(l') => short == Some(l'.(inq := [], outq := [])) && l'.inq == l.inq[1..] && l'.outq == l.outq
  {
    HearingEffect(env, l.proc, l.inq[0]);
    assert [l.inq[0]][1..] == [];
  }

  lemma HearingEffect(env: Env, p: Proc, m: Msg)
    requires env.Valid()
    ensures OnMsg(env, p, m).Blocked? || OnMsg(env, p, m).Hears?
  {
  }

  lemma TurnAlike(env: Env, job: Job, l: Local, ch: Choice)
    requires env.Valid() && !Waits(l.proc.pc)
    ensures var short := Next(env, job, l.(inq := [], outq := []), ch);
            match Next(env, job, l, ch)
            case None => short == None
            case Some(l') =>
              var said := OnTurn(env, job, l.proc, l.fs, ch);
              var out := if said.Says? then [said.msg] else [];
              short == Some(l'.(inq := [], outq := out)) && l'.inq == l.inq && l'.outq == l.outq + out
  {
    HearsOnlyWaiting(env, job, l.proc, l.fs, ch);
    assert l.outq + [] == l.outq;
    assert forall m: Msg :: [] + [m] == [m];
  }

  // ---------------------------------------------------------------- the simulation

  lemma HearImplements(env: Env, job: Job, x: Wired, side: Side, ch: Choice, x': Wired)
    requires job.Valid(env) && WireInv(env, job, x) && x.Up(side) && Waits(x.Of(side).pc)
    requires WireHear(env, job, x, side, ch) == Some(x')
    ensures LineInv(x'.c2s) && LineInv(x'.s2c) && Implements(env, job, x, Plain(Act(side, ch)), x')
  {
    assert x.In(side).read < |x.In(side).pipe.delivered|;
    ArrivedIs(x.In(side));
    InvHeadFits(env, job, x.Abs(), side);
    HearMatches(env, job, x, side, ch, x');
  }

  lemma InvHeadFits(env: Env, job: Job, w: World, side: Side)
    requires job.Valid(env) && Inv(env, job, w) && Waits(w.Of(side).pc) && w.In(side) != []
    ensures KindOf(w.In(side)[0]) == Reads(w.Of(side).pc)
  {
    HeadFits(env, job, w.Of(side).pc, w.In(side), w.Of(side.Other()).pc, w.In(side.Other()));
  }

  /** Reading the first message from the stream and from the queue come to the same. */
  lemma HearMatches(env: Env, job: Job, x: Wired, side: Side, ch: Choice, x': Wired)
    requires env.Valid() && x.Up(side) && Waits(x.Of(side).pc) && WireHear(env, job, x, side, ch) == Some(x')
    requires Queue(x.In(side)) != [] && Arrived(x.In(side), Reads(x.Of(side).pc)) == [Queue(x.In(side))[0]]
    requires var line := x.In(side); Queue(line.(read := line.read + 1)) == Queue(line)[1..]
    ensures Do(env, job, x.Abs(), Act(side, ch)) == Some(x'.Abs())
    ensures x'.In(side) == x.In(side).(read := x.In(side).read + 1) && x'.In(side.Other()) == x.In(side.Other())
  {
    HearAlike(env, job, x.Abs().View(side), ch);
  }

  lemma TurnImplements(env: Env, job: Job, x: Wired, side: Side, ch: Choice, x': Wired)
    requires job.Valid(env) && WireInv(env, job, x) && x.Up(side) && !Waits(x.Of(side).pc)
    requires WireTurn(env, job, x, side, ch) == Some(x')
    ensures LineInv(x'.c2s) && LineInv(x'.s2c) && Implements(env, job, x, Plain(Act(side, ch)), x')
  {
    var w, e := x.Abs(), OnTurn(env, job, x.Of(side), x.fs, ch);
    TurnAlike(env, job, w.View(side), ch);
    if e.Says? {
      PutKeeps(x.In(side.Other()), e.msg);
    }
  }

  /** Every step over the streams is a step of the session, or leaves the session as it is; the invariants are kept. */
  lemma StepImplements(env: Env, job: Job, cap: nat, x: Wired, wa: WireAction, x': Wired)
    requires job.Valid(env) && WireInv(env, job, x) && WireDo(env, job, cap, x, wa) == Some(x')
    ensures WireInv(env, job, x') && Implements(env, job, x, wa, x')
  {
    match wa
    case Carry(to, t) => CarryImplements(env, job, cap, x, to, t, x');
    case Plain(a) =>
      ActionImplements(env, job, cap, x, a, x');
      DoKeeps(env, job, x.Abs(), a);
  }

  lemma CarryImplements(env: Env, job: Job, cap: nat, x: Wired, to: Side, t: Transport.Transfer, x': Wired)
    requires env.Valid() && LineInv(x.c2s) && LineInv(x.s2c) && WireDo(env, job, cap, x, Carry(to, t)) == Some(x')
    ensures LineInv(x'.c2s) && LineInv(x'.s2c) && x'.Abs() == x.Abs()
  {
    MoveKeeps(x.In(to), cap, t);
  }

  lemma ActionImplements(env: Env, job: Job, cap: nat, x: Wired, a: Action, x': Wired)
    requires job.Valid(env) && WireInv(env, job, x) && WireDo(env, job, cap, x, Plain(a)) == Some(x')
    ensures LineInv(x'.c2s) && LineInv(x'.s2c) && Implements(env, job, x, Plain(a), x')
  {
    if a.Stop? {
      StopImplements(env, job, cap, x, a.side, a.left, x');
    } else if Waits(x.Of(a.side).pc) {
      HearImplements(env, job, x, a.side, a.choice, x');
    } else {
      TurnImplements(env, job, x, a.side, a.choice, x');
    }
  }

  lemma StopImplements(env: Env, job: Job, cap: nat, x: Wired, side: Side, left: Remains, x': Wired)
    requires env.Valid() && WireDo(env, job, cap, x, Plain(Stop(side, left))) == Some(x')
    ensures x'.c2s == x.c2s && x'.s2c == x.s2c && Do(env, job, x.Abs(), Stop(side, left)) == Some(x'.Abs())
  {
  }

  // ---------------------------------------------------------------- main results

  ghost function WireRun(env: Env, job: Job, cap: nat, x: Wired, actions: seq<WireAction>): Option<Wired>
    requires env.Valid()
    decreases |actions|
  {
    if actions == [] then Some(x) else
      match WireDo(env, job, cap, x, actions[0])
      case None => None
      case Some(x') => WireRun(env, job, cap, x', actions[1..])
  }

  /** What the processes do in a run, without the movements of octets. */
  function Visible(actions: seq<WireAction>): seq<Action> {
    if actions == [] then [] else (if actions[0].Plain? then [actions[0].a] else []) + Visible(actions[1..])
  }

  function WireStart(job: Job, fs: Fs): Wired {
    var w := Start(job, fs);
    Wired(w.client, w.server, IDLE_LINE, IDLE_LINE, true, true, fs, [], 0)
  }

  lemma StartWired(job: Job, fs: Fs)
    ensures LineInv(IDLE_LINE) && WireStart(job, fs).Abs() == Start(job, fs)
  {
    assert Transport.EncodeAll([]) == [];
  }

  lemma {:induction false} RunImplements(env: Env, job: Job, cap: nat, x: Wired, actions: seq<WireAction>, x': Wired)
    requires job.Valid(env) && WireInv(env, job, x) && WireRun(env, job, cap, x, actions) == Some(x')
    ensures WireInv(env, job, x') && Run(env, job, x.Abs(), Visible(actions)) == Some(x'.Abs())
    decreases |actions|
  {
    if actions != [] {
      var x1, rest := WireDo(env, job, cap, x, actions[0]).value, Visible(actions[1..]);
      StepImplements(env, job, cap, x, actions[0], x1);
      RunImplements(env, job, cap, x1, actions[1..], x');
      RunVisible(env, job, x.Abs(), x1.Abs(), actions[0], rest);
    }
  }

  lemma RunVisible(env: Env, job: Job, w: World, w1: World, wa: WireAction, rest: seq<Action>)
    requires env.Valid() && if wa.Plain? then Do(env, job, w, wa.a) == Some(w1) else w1 == w
    ensures Run(env, job, w, (if wa.Plain? then [wa.a] else []) + rest) == Run(env, job, w1, rest)
  {
    if wa.Plain? {
      assert ([wa.a] + rest)[1..] == rest;
    } else {
      assert [] + rest == rest;
    }
  }

  /**
   The streams implement the session. Run both processes over byte streams of any capacity, split anyhow, from any disk
   that past sessions left: the run is, but for the movements of octets, a run of the session model to the same state.
   So every property of reachable states holds of it.
   */
  lemma StreamsImplementSession(env: Env, past: seq<Session>, job: Job, fs: Fs, cap: nat, actions: seq<WireAction>,
      x: Wired)
    requires Legal(env, AllJobs(past, job)) && RunAll(env, map[], past) == Some(fs)
    requires WireRun(env, job, cap, WireStart(job, fs), actions) == Some(x)
    ensures WireInv(env, job, x) && Reach(env, past, job, Visible(actions)) == Some(x.Abs())
  {
    ReachedGood(env, past, job, [], Start(job, fs));
    StartWired(job, fs);
    RunImplements(env, job, cap, WireStart(job, fs), actions, x);
  }

  /**
   And they lose nothing: what a process may do in the session model it can do over the streams, or it is still sending
   what it said last, or octets can be moved towards it; unless its peer has died in the middle of a send.
   */
  lemma StreamsDeliver(env: Env, job: Job, cap: nat, x: Wired, side: Side, ch: Choice)
    requires job.Valid(env) && Fits(job) && WireInv(env, job, x) && 0 < cap
    requires Do(env, job, x.Abs(), Act(side, ch)).Some?
    ensures || WireDo(env, job, cap, x, Plain(Act(side, ch))).Some? || Sending(x, side)
            || WireDo(env, job, cap, x, Carry(side, Transport.Push(1))).Some?
            || WireDo(env, job, cap, x, Carry(side, Transport.Pull(1))).Some?
            || (!x.Up(side.Other()) && Sending(x, side.Other()))
  {
    if !Waits(x.Of(side).pc) {
      TurnDelivers(env, job, x, side, ch);
    } else if x.In(side).read < |x.In(side).pipe.delivered| {
      HearDelivers(env, job, x, side, ch);
    } else {
      CarryDelivers(env, job, cap, x, side);
    }
  }

  /** A message that the session's channel holds, but that is not complete yet, comes closer. */
  lemma CarryDelivers(env: Env, job: Job, cap: nat, x: Wired, side: Side)
    requires env.Valid() && LineInv(x.In(side)) && 0 < cap && x.Up(side) && Waits(x.Of(side).pc)
    requires Queue(x.In(side)) != [] && x.In(side).read == |x.In(side).pipe.delivered|
    ensures || WireDo(env, job, cap, x, Carry(side, Transport.Push(1))).Some?
            || WireDo(env, job, cap, x, Carry(side, Transport.Pull(1))).Some?
            || (!x.Up(side.Other()) && Sending(x, side.Other()))
  {
    LineMoves(x.In(side));
  }

  /** A process acts, or octets move. */
  ghost predicate Moves(env: Env, job: Job, cap: nat, x: Wired)
    requires env.Valid()
  {
    exists wa: WireAction :: wa.Normal() && WireDo(env, job, cap, x, wa).Some?
  }

  lemma ActsOn(env: Env, job: Job, cap: nat, x: Wired, side: Side)
    requires job.Valid(env) && Fits(job) && WireInv(env, job, x) && CanAct(env, job, x.Abs(), side)
    requires !Sending(x, side)
    requires Waits(x.Of(side).pc) ==> x.In(side).read < |x.In(side).pipe.delivered|
    ensures Moves(env, job, cap, x)
  {
    var ch :| Next(env, job, x.Abs().View(side), ch).Some?;
    if Waits(x.Of(side).pc) {
      HearDelivers(env, job, x, side, ch);
    } else {
      TurnDelivers(env, job, x, side, ch);
    }
    assert WireDo(env, job, cap, x, Plain(Act(side, ch))).Some?;
  }

  lemma Pulls(env: Env, job: Job, cap: nat, x: Wired, to: Side)
    requires env.Valid() && LineInv(x.In(to)) && InCall(x, to, Transport.Pull(1)) && x.In(to).pipe.wire != []
    ensures Moves(env, job, cap, x)
  {
    assert WireDo(env, job, cap, x, Carry(to, Transport.Pull(1))).Some?;
  }

  /** What a process says gets into the stream, because whoever is to hear it makes room. */
  lemma SendsOn(env: Env, job: Job, cap: nat, x: Wired, side: Side)
    requires job.Valid(env) && Fits(job) && WireInv(env, job, x) && 0 < cap && x.clientUp && x.serverUp
    requires Sending(x, side)
    ensures Moves(env, job, cap, x)
  {
    var to := side.Other();
    if |x.In(to).pipe.wire| < cap {
      assert WireDo(env, job, cap, x, Carry(to, Transport.Push(1))).Some?;
    } else {
      MakesRoom(env, job, cap, x, to);
    }
  }

  lemma MakesRoom(env: Env, job: Job, cap: nat, x: Wired, to: Side)
    requires job.Valid(env) && Fits(job) && WireInv(env, job, x) && x.clientUp && x.serverUp
    requires x.In(to).pipe.wire != []
    ensures Moves(env, job, cap, x)
  {
    if Queue(x.In(to)) == [] {
      NothingUnderWay(x.In(to));
      assert false;
    }
    ConsumerActs(env, job, x.Abs(), to);
    NothingUnderWay(x.In(to.Other()));
    if Waits(x.Of(to).pc) && x.In(to).read == |x.In(to).pipe.delivered| {
      Pulls(env, job, cap, x, to);
    } else {
      ActsOn(env, job, cap, x, to);
    }
  }

  /**
   No deadlock over the streams either, whatever positive number of octets the connection holds, although a process that
   sends does nothing else until all of its message is accepted: while both processes are up and one of them has not
   finished, one of them can act, or octets can move.
   */
  lemma StreamsLive(env: Env, job: Job, cap: nat, x: Wired)
    requires job.Valid(env) && Fits(job) && WireInv(env, job, x) && 0 < cap
    requires x.clientUp && x.serverUp && !(Done(x.client.pc) && Done(x.server.pc))
    ensures Moves(env, job, cap, x)
  {
    if Sending(x, Client) {
      SendsOn(env, job, cap, x, Client);
    } else if Sending(x, Server) {
      SendsOn(env, job, cap, x, Server);
    } else {
      Live(env, job, x.Abs());
      var side: Side :| CanAct(env, job, x.Abs(), side);
      if Waits(x.Of(side).pc) && x.In(side).read == |x.In(side).pipe.delivered| {
        LineMoves(x.In(side));
        Pulls(env, job, cap, x, side);
      } else {
        ActsOn(env, job, cap, x, side);
      }
    }
  }

  /** Octets that have still to be moved, twice those that have to be moved twice. */
  function Octets(x: Wired): nat {
    2 * |x.c2s.pipe.unsent| + |x.c2s.pipe.wire| + 2 * |x.s2c.pipe.unsent| + |x.s2c.pipe.wire|
  }

  lemma WireDescends(env: Env, job: Job, cap: nat, x: Wired, wa: WireAction, x': Wired)
    requires job.Valid(env) && WireInv(env, job, x) && wa.Normal() && WireDo(env, job, cap, x, wa) == Some(x')
    ensures WireInv(env, job, x')
    ensures || TotalRank(job, x'.Abs()) < TotalRank(job, x.Abs())
            || (TotalRank(job, x'.Abs()) == TotalRank(job, x.Abs()) && Octets(x') < Octets(x))
  {
    StepImplements(env, job, cap, x, wa, x');
    match wa
    case Plain(a) => ActDescends(env, job, x.Abs(), a.side, a.choice);
    case Carry(to, t) => CarryDescends(env, job, cap, x, to, t, x');
  }

  lemma CarryDescends(env: Env, job: Job, cap: nat, x: Wired, to: Side, t: Transport.Transfer, x': Wired)
    requires env.Valid() && WireDo(env, job, cap, x, Carry(to, t)) == Some(x')
    ensures Octets(x') < Octets(x)
  {
    MoveDescends(x.In(to).pipe, cap, t);
  }

  lemma MoveDescends(p: Transport.Pipe, cap: nat, t: Transport.Transfer)
    requires Transport.Move(p, cap, t).Some?
    ensures var p' := Transport.Move(p, cap, t).value; 2 * |p'.unsent| + |p'.wire| < 2 * |p.unsent| + |p.wire|
  {
  }

  lemma NormalKeepsUp(env: Env, job: Job, cap: nat, x: Wired, wa: WireAction, x': Wired)
    requires env.Valid() && wa.Normal() && WireDo(env, job, cap, x, wa) == Some(x')
    ensures x'.clientUp == x.clientUp && x'.serverUp == x.serverUp
  {
  }

  lemma StreamsStep(env: Env, job: Job, cap: nat, x: Wired) returns (wa: WireAction, x': Wired)
    requires job.Valid(env) && Fits(job) && WireInv(env, job, x) && 0 < cap
    requires x.clientUp && x.serverUp && !(Done(x.client.pc) && Done(x.server.pc))
    ensures WireDo(env, job, cap, x, wa) == Some(x') && WireInv(env, job, x') && x'.clientUp && x'.serverUp
    ensures || TotalRank(job, x'.Abs()) < TotalRank(job, x.Abs())
            || (TotalRank(job, x'.Abs()) == TotalRank(job, x.Abs()) && Octets(x') < Octets(x))
  {
    StreamsLive(env, job, cap, x);
    wa :| wa.Normal() && WireDo(env, job, cap, x, wa).Some?;
    x' := WireDo(env, job, cap, x, wa).value;
    WireDescends(env, job, cap, x, wa, x');
    NormalKeepsUp(env, job, cap, x, wa, x');
  }

  /** So a session over the streams that nobody interrupts can always run on until both processes have finished. */
  lemma {:induction false} StreamsFinish(env: Env, job: Job, cap: nat, x: Wired) returns (more: seq<WireAction>)
    requires job.Valid(env) && Fits(job) && WireInv(env, job, x) && 0 < cap && x.clientUp && x.serverUp
    ensures WireRun(env, job, cap, x, more).Some?
    ensures var x' := WireRun(env, job, cap, x, more).value; Done(x'.client.pc) && Done(x'.server.pc)
    decreases TotalRank(job, x.Abs()), Octets(x)
  {
    if Done(x.client.pc) && Done(x.server.pc) {
      more := [];
    } else {
      var wa, x1 := StreamsStep(env, job, cap, x);
      var rest := StreamsFinish(env, job, cap, x1);
      more := [wa] + rest;
      WireRunFirst(env, job, cap, x, wa, x1, rest);
    }
  }

  lemma WireRunFirst(env: Env, job: Job, cap: nat, x: Wired, wa: WireAction, x1: Wired, rest: seq<WireAction>)
    requires env.Valid() && WireDo(env, job, cap, x, wa) == Some(x1)
    ensures WireRun(env, job, cap, x, [wa] + rest) == WireRun(env, job, cap, x1, rest)
  {
    assert ([wa] + rest)[1..] == rest;
  }

  lemma TurnDelivers(env: Env, job: Job, x: Wired, side: Side, ch: Choice)
    requires job.Valid(env) && Fits(job) && x.Up(side) && PcGood(env, job, side, x.Of(side)) && !Waits(x.Of(side).pc)
    requires Next(env, job, x.Abs().View(side), ch).Some?
    ensures WireTurn(env, job, x, side, ch).Some?
  {
    TurnAlike(env, job, x.Abs().View(side), ch);
    SaidFits(env, job, side, x.Of(side), x.fs, ch);
  }

  lemma HearDelivers(env: Env, job: Job, x: Wired, side: Side, ch: Choice)
    requires job.Valid(env) && WireInv(env, job, x) && x.Up(side) && Waits(x.Of(side).pc)
    requires x.In(side).read < |x.In(side).pipe.delivered| && Next(env, job, x.Abs().View(side), ch).Some?
    ensures WireHear(env, job, x, side, ch).Some?
  {
    ArrivedIs(x.In(side));
    InvHeadFits(env, job, x.Abs(), side);
    HearAlike(env, job, x.Abs().View(side), ch);
  }
}
