/**
 The inductive invariant of a session. Control: at most one channel is in use, and the process at its receiving
 end, once it has consumed what is in flight, is where the sender expects it (`Duplex`). Data: offsets and sizes
 agree with the archive (`PcGood`), and the disk is what the receiver's position says (`DiskGood`).
 */
module Invariant {
  import opened Bytes
  import opened Cipher
  import opened Disk
  import opened Protocol

  // ---------------------------------------------------------------- control

  /** Skips the silent steps between two receives: where a process is as far as its peer can tell. */
  function Norm(pc: Pc): Pc {
    match pc
    case V(PutRemove) => R(AwaitHash)
    case S(SendLoop(pos, left)) => if left == 0 then S(AwaitVerdict) else pc
    case R(r) => R(NormReceiver(r))
    case _ => pc
  }

  function NormReceiver(r: ReceiverPc): ReceiverPc {
    match r
    case OpenFile(o) => AwaitSize(o)
    case WriteData(st, pos, left, data) => NormLoop(st, pos + |data|, Sub64(left, |data|))
    case WriteTmp(st, pos, left) => NormLoop(st, pos, left)
    case RenameTmp(st, pos, left) => NormLoop(st, pos, left)
    case RecvLoop(st, pos, left) => NormLoop(st, pos, left)
    case _ => r
  }

  function NormLoop(st: nat, pos: nat, left: nat): ReceiverPc {
    if left == 0 then Verify(st) else RecvLoop(st, pos, left)
  }

  // For a process whose turn it is: the point at which its peer waits for it.

  function Facing(active: Pc): Option<Pc> {
    match active
    case C(c) => ClientFaces(c)
    case V(v) => ServerFaces(v)
    case S(s) => SenderFaces(s)
    case R(r) => ReceiverFaces(r)
    case End => Some(End)
  }

  function ClientFaces(c: ClientPc): Option<Pc> {
    match c
    case PingAsk => Some(V(AwaitCommand))
    case PutAsk => Some(V(AwaitCommand))
    case GetAsk => Some(V(AwaitCommand))
    case PutDescribe => Some(V(PutInfo))
    case PutChoose => Some(V(PutReply))
    case GetDescribe => Some(V(GetInfo))
    case GetChoose => Some(V(GetReply))
    case _ => None
  }

  function ServerFaces(v: ServerPc): Option<Pc> {
    match v
    case SayPong => Some(C(PingWait))
    case PutCheck => Some(C(PutWait))
    case GetCheck => Some(C(GetWait))
    case GetAdvertise => Some(C(GetSize))
    case _ => None
  }

  function SenderFaces(s: SenderPc): Option<Pc> {
    match s
    case Zip => Some(R(AwaitHash))
    case SayHash => Some(R(AwaitHash))
    case Choose => Some(R(AwaitChoice(0)))
    case SaySize(o) => Some(R(AwaitSize(o)))
    case SendLoop(pos, left) => if left == 0 then None else Some(R(RecvLoop(0, pos, left)))
    case _ => None
  }

  function ReceiverFaces(r: ReceiverPc): Option<Pc> {
    match r
    case Lookup => Some(S(AwaitPlan))
    case AskResume(_) => Some(S(AwaitPlan))
    case SayRestart => Some(S(AwaitPlan))
    case SayOffset(_) => Some(S(AwaitOffset))
    case Verify(_) => Some(S(AwaitVerdict))
    case SayOk => Some(S(AwaitVerdict))
    case SayBad => Some(S(AwaitVerdict))
    case Extract => Some(S(SendEnd(true)))
    case RemoveFile(g) => Some(S(SendEnd(g)))
    case RemoveCkpt(g) => Some(S(SendEnd(g)))
    case RecvEnd(g) => Some(S(SendEnd(g)))
    case _ => None
  }

  /** Forgets what the peer of a waiting process cannot know. */
  function Canon(waiting: Pc): Pc {
    match waiting
    case R(AwaitChoice(_)) => R(AwaitChoice(0))
    case R(RecvLoop(_, pos, left)) => R(RecvLoop(0, pos, left))
    case _ => waiting
  }

  /** It is the turn of one of the two, and the other waits for exactly that. */
  predicate Sync(x: Pc, y: Pc) {
    if Facing(x).Some? then Facing(x).value == Canon(y) else Facing(y) == Some(Canon(x))
  }

  // Where the one intended meaning of an arriving message leads; None if the message has none there.

  ghost function Accept(env: Env, job: Job, pc: Pc, m: Msg): Option<Pc>
    requires env.Valid()
  {
    match pc
    case C(c) => ClientAccepts(job, c, m)
    case V(v) => ServerAccepts(job, v, m)
    case S(s) => SenderAccepts(job, s, m)
    case R(r) => ReceiverAccepts(env, job, r, m)
    case End => None
  }

  function ClientAccepts(job: Job, c: ClientPc, m: Msg): Option<Pc> {
    match c
    case PingWait => if m == Code(PONG) then Some(End) else None
    case PutWait =>
      if m == Code(OK) then Some(S(Zip))
      else if m == Code(DUPLICATE_RESOURCE_NAME) then Some(C(PutChoose))
      else if m == Code(NO_ACCESS) || m == Code(NOT_FOUND) || m == Code(INSUFFICIENT_SPACE) then Some(End) else None
    case GetWait =>
      if m == Code(OK) then Some(C(GetSize))
      else if m == Code(NOT_FOUND) || m == Code(NO_ACCESS) || m == Code(BAD_RESOURCE) then Some(End) else None
    case GetSize => if m == Resource(job.statSize, [], []) then Some(C(GetChoose)) else None
    case _ => None
  }

  function ServerAccepts(job: Job, v: ServerPc, m: Msg): Option<Pc> {
    match v
    case AwaitCommand =>
      if m == Code(PUT) && job.mode == Put then Some(V(PutInfo))
      else if m == Code(GET) && job.mode == Get then Some(V(GetInfo))
      else if m == Code(PING) && job.mode == Ping then Some(V(SayPong)) else None
    case PutInfo => if m == Resource(job.statSize, job.name, job.target) then Some(V(PutCheck)) else None
    case PutReply => if m == Code(OVERWRITE) then Some(V(PutRemove)) else if m == Code(ABORT) then Some(End) else None
    case GetInfo => if m == Resource(0, job.name, job.source) then Some(V(GetCheck)) else None
    case GetReply => if m == Code(OK) then Some(S(Zip)) else if m == Code(ABORT) then Some(End) else None
    case _ => None
  }

  function SenderAccepts(job: Job, s: SenderPc, m: Msg): Option<Pc> {
    match s
    case AwaitPlan =>
      if m == Code(RESUME) then Some(S(Choose)) else if m == Code(RESTART) then Some(S(SaySize(0))) else None
    case AwaitOffset => if m.Offset? && m.offset <= |job.archive| then Some(S(SaySize(m.offset))) else None
    case AwaitVerdict =>
      if m == Code(OK) then Some(S(SendEnd(true)))
      else if m == Code(NO_INTEGRITY) then Some(S(SendEnd(false))) else None
    case _ => None
  }

  ghost function ReceiverAccepts(env: Env, job: Job, r: ReceiverPc, m: Msg): Option<Pc>
    requires env.Valid()
  {
    match r
    case AwaitHash => if m == Digest(env.md5(job.archive)) then Some(R(Lookup)) else None
    case AwaitChoice(c) =>
      if m == Code(OK) then Some(R(SayOffset(c)))
      else if m == Code(ABORT) && job.mode == Put then Some(R(OpenFile(0))) else None
    case AwaitSize(o) =>
      if m == Resource(|job.archive|, [], []) then Some(R(RecvLoop(o, o, Sub64(|job.archive|, o)))) else None
    case RecvLoop(st, pos, left) =>
      var c := Chunk(job.archive, pos, left);
      if left > 0 && m == Packet(Seal(env.keys, c), |c|)
      then Some(R(RecvLoop(st, pos + |c|, Sub64(left, |c|)))) else None
    case _ => None
  }

  /** Where a process at y is once it has consumed all of q. */
  ghost function After(env: Env, job: Job, y: Pc, q: seq<Msg>): Option<Pc>
    requires env.Valid()
    decreases |q|
  {
    if q == [] then Some(Norm(y)) else
      match Accept(env, job, Norm(y), q[0])
      case None => None
      case Some(y') => After(env, job, y', q[1..])
  }

  /** The process at y, once it has consumed what x sent it, faces x. */
  ghost predicate Conn(env: Env, job: Job, x: Pc, q: seq<Msg>, y: Pc)
    requires env.Valid()
  {
    var z := After(env, job, y, q);
    z.Some? && Sync(Norm(x), z.value)
  }

  /** At most one of two channels is in use, and what it holds is what the process at its end waits for. */
  ghost predicate OneWay(env: Env, job: Job, x: Pc, intoX: seq<Msg>, y: Pc, intoY: seq<Msg>)
    requires env.Valid()
  {
    || (intoX == [] && Conn(env, job, x, intoY, y))
    || (intoY == [] && Conn(env, job, y, intoX, x))
  }

  ghost predicate Duplex(env: Env, job: Job, w: World)
    requires env.Valid()
  {
    OneWay(env, job, w.client.pc, w.s2c, w.server.pc, w.c2s)
  }

  // ---------------------------------------------------------------- data

  /** Which of the two sides receives the archive, if any. */
  predicate Receives(job: Job, side: Side) {
    (job.mode == Put && side == Server) || (job.mode == Get && side == Client)
  }

  predicate Placed(job: Job, side: Side, pc: Pc) {
    match pc
    case C(c) =>
      side == Client && (if c.PingAsk? || c.PingWait? then job.mode == Ping
                         else if c.PutAsk? || c.PutDescribe? || c.PutWait? || c.PutChoose? then job.mode == Put
                         else job.mode == Get)
    case V(v) =>
      side == Server && (if v.AwaitCommand? then true
                         else if v.SayPong? then job.mode == Ping
                         else if v.PutInfo? || v.PutCheck? || v.PutReply? || v.PutRemove? then job.mode == Put
                         else job.mode == Get)
    case S(_) => Receives(job, side.Other())
    case R(_) => Receives(job, side)
    case End => true
  }

  /** Offsets a checkpoint may hold. */
  predicate Aligned(archive: Bytes, pos: nat) {
    pos <= |archive| && (pos % BUFFER_SIZE == 0 || pos == |archive|)
  }

  predicate Numbers(a: Bytes, pc: Pc) {
    match pc
    case S(SaySize(o)) => o <= |a|
    case S(SendLoop(pos, left)) => pos + left == |a|
    case R(AskResume(c)) => 0 < c && Aligned(a, c)
    case R(AwaitChoice(c)) => 0 < c && Aligned(a, c)
    case R(SayOffset(c)) => 0 < c && Aligned(a, c)
    case R(OpenFile(o)) => Aligned(a, o)
    case R(AwaitSize(o)) => Aligned(a, o)
    case R(RecvLoop(st, pos, left)) => st <= pos && pos + left == |a| && Aligned(a, pos)
    case R(WriteData(st, pos, left, data)) =>
      st <= pos && pos + left == |a| && Aligned(a, pos) && 0 < left && data == Chunk(a, pos, left)
    case R(WriteTmp(st, pos, left)) => st <= pos && 0 < pos && pos + left == |a| && Aligned(a, pos)
    case R(RenameTmp(st, pos, left)) => st <= pos && 0 < pos && pos + left == |a| && Aligned(a, pos)
    case _ => true
  }

  predicate PcGood(env: Env, job: Job, side: Side, p: Proc) {
    && Placed(job, side, p.pc)
    && !p.warned
    && (Receives(job, side) && p.pc != V(AwaitCommand) && p.pc != V(PutInfo) ==> p.resource == job.Resource())
    && (p.pc.R? && !p.pc.r.AwaitHash? ==> p.hash == env.md5(job.archive))
    && Numbers(job.archive, p.pc)
  }

  /** The checkpoint of an archive is absent, or a complete record of an offset its transfer can have reached. */
  predicate CkptOk(env: Env, fs: Fs, archive: Bytes) {
    var name := CkptName(env.dir, env.md5(archive));
    name in fs ==>
      && |fs[name]| == RECORD_SIZE
      && 0 < ParseRecord(fs[name]).offset
      && Aligned(archive, ParseRecord(fs[name]).offset)
  }

  /** What is on disk, given where the (running) receiver is. */
  predicate DiskGood(env: Env, job: Job, r: ReceiverPc, fs: Fs) {
    var a, path, file := job.archive, job.Path(), job.File(env);
    var ckpt, tmp := CkptName(env.dir, env.md5(a)), TmpName(env.dir, env.md5(a));
    match r
    case AskResume(c) => file in fs && c <= |fs[file]| && Holds(fs, ckpt, Checkpoint(c, path))
    case AwaitChoice(c) => file in fs && c <= |fs[file]| && Holds(fs, ckpt, Checkpoint(c, path))
    case SayOffset(c) => file in fs && c <= |fs[file]| && Holds(fs, ckpt, Checkpoint(c, path))
    case OpenFile(o) => o > 0 ==> file in fs && o <= |fs[file]| && Holds(fs, ckpt, Checkpoint(o, path))
    case AwaitSize(o) =>
      file in fs && o <= |fs[file]| && (o == 0 ==> fs[file] == []) && (o > 0 ==> Holds(fs, ckpt, Checkpoint(o, path)))
    case RecvLoop(st, pos, _) =>
      Written(a, file, st, pos, fs) && (pos > 0 ==> Holds(fs, ckpt, Checkpoint(pos, path)))
    case WriteData(st, pos, _, _) =>
      Written(a, file, st, pos, fs) && (pos > 0 ==> Holds(fs, ckpt, Checkpoint(pos, path)))
    case WriteTmp(st, pos, _) => Written(a, file, st, pos, fs) && (st > 0 ==> Names(fs, ckpt, path))
    case RenameTmp(st, pos, _) =>
      && Written(a, file, st, pos, fs) && (st > 0 ==> Names(fs, ckpt, path))
      && Holds(fs, tmp, Checkpoint(pos, path)) && |fs[tmp]| == RECORD_SIZE
    case Verify(st) => Written(a, file, st, |a|, fs) && Names(fs, ckpt, path)
    case SayOk => file in fs && Names(fs, ckpt, path)
    case SayBad => file in fs && Names(fs, ckpt, path)
    case Extract => file in fs && Names(fs, ckpt, path)
    case RemoveFile(_) => file in fs && Names(fs, ckpt, path)
    case RemoveCkpt(_) => file !in fs && Names(fs, ckpt, path)
    case RecvEnd(_) => file !in fs && ckpt !in fs
    case _ => true
  }

  /** Octets st..pos of the partial file are the archive's; a file written from the start is exactly its prefix. */
  predicate Written(a: Bytes, file: CString, st: nat, pos: nat, fs: Fs) {
    && file in fs
    && st <= pos <= |fs[file]| && pos <= |a|
    && fs[file][st..pos] == a[st..pos]
    && (st == 0 ==> |fs[file]| == pos)
  }

  /** The log is determined by the receiver's position; `up` links it to the file while the receiver runs. */
  predicate LogGood(env: Env, job: Job, pc: Pc, up: bool, fs: Fs, log: seq<Event>) {
    if pc == R(SayOk) || pc == R(Extract) then
      && |log| == 1 && log[0].Verified? && env.md5(log[0].content) == env.md5(job.archive)
      && (up ==> job.File(env) in fs && fs[job.File(env)] == log[0].content)
    else if pc == R(RemoveFile(true)) || pc == R(RemoveCkpt(true)) || pc == R(RecvEnd(true)) then
      && |log| == 2 && log[0].Verified? && env.md5(log[0].content) == env.md5(job.archive)
      && log[1] == Extracted(log[0].content)
    else log == []
  }

  /** What the receiving side guarantees about the disk (while it runs) and the log. */
  predicate Receipt(env: Env, job: Job, pc: Pc, up: bool, fs: Fs, log: seq<Event>) {
    && (up && pc.R? ==> DiskGood(env, job, pc.r, fs))
    && LogGood(env, job, pc, up, fs, log)
  }

  ghost predicate Inv(env: Env, job: Job, w: World)
    requires job.Valid(env)
  {
    && Duplex(env, job, w)
    && PcGood(env, job, Client, w.client)
    && PcGood(env, job, Server, w.server)
    && CkptOk(env, w.fs, job.archive)
    && (Receives(job, Client) ==> Receipt(env, job, w.client.pc, w.clientUp, w.fs, w.log))
    && (Receives(job, Server) ==> Receipt(env, job, w.server.pc, w.serverUp, w.fs, w.log))
    && (job.mode == Ping ==> w.log == [])
  }

  // ---------------------------------------------------------------- control is kept

  lemma {:induction false} AfterSnoc(env: Env, job: Job, y: Pc, q: seq<Msg>, m: Msg)
    requires env.Valid() && After(env, job, y, q).Some?
    ensures var r := Accept(env, job, After(env, job, y, q).value, m);
            After(env, job, y, q + [m]) == if r.None? then None else Some(Norm(r.value))
    decreases |q|
  {
    if q == [] {
      assert [m][1..] == [] && q + [m] == [m];
    } else {
      AfterSnoc(env, job, Accept(env, job, Norm(y), q[0]).value, q[1..], m);
      assert (q + [m])[1..] == q[1..] + [m];
    }
  }

  lemma SyncSymmetric(x: Pc, y: Pc)
    requires Sync(x, y)
    ensures Sync(y, x)
  {
    if Facing(x).Some? && x != End {
      match x
      case C(c) => assert Facing(y).None?;
      case V(v) => assert Facing(y).None?;
      case S(s) => assert Facing(y).None?;
      case R(r) => assert Facing(y).None?;
    }
  }

  /** A process whose turn it is receives nothing. */
  lemma SpeakerIsDeaf(env: Env, job: Job, x: Pc, m: Msg)
    requires env.Valid() && Facing(x).Some?
    ensures Accept(env, job, x, m).None?
  {
  }

  /** A local effect fits the peer's expectations: what it waits for arrives, and what is said can be heard. */
  ghost predicate Fits(env: Env, job: Job, x: Pc, z: Pc, e: Effect)
    requires env.Valid()
  {
    match e
    case Says(m, pc) =>
      && Facing(Norm(x)).Some?
      && (Sync(Norm(x), z) ==> var r := Accept(env, job, z, m); r.Some? && Sync(Norm(pc), Norm(r.value)))
    case Works(pc, _, _) => Norm(pc) == Norm(x) || (Facing(Norm(x)).Some? && Facing(Norm(pc)) == Facing(Norm(x)))
    case _ => true
  }

  lemma ClientFits(env: Env, job: Job, c: ClientPc, z: Pc, ch: Choice)
    requires env.Valid() && Placed(job, Client, C(c)) && !ClientWaits(c)
    ensures Fits(env, job, C(c), z, ClientActs(job, c, ch))
  {
  }

  lemma ServerFits(env: Env, job: Job, p: Proc, v: ServerPc, z: Pc, fs: Fs, ch: Choice)
    requires env.Valid() && Placed(job, Server, V(v)) && !ServerWaits(v)
    ensures Fits(env, job, V(v), z, ServerActs(env, job, p, v, fs, ch))
  {
  }

  lemma SenderFits(env: Env, job: Job, s: SenderPc, z: Pc, fs: Fs, ch: Choice)
    requires env.Valid() && !SenderWaits(s)
    ensures Fits(env, job, S(s), z, SenderActs(env, job, s, fs, ch))
  {
    if s.SendLoop? {
      SendLoopFits(env, job, s.pos, s.left, z, fs, ch);
    }
  }

  lemma SendLoopFits(env: Env, job: Job, pos: nat, left: nat, z: Pc, fs: Fs, ch: Choice)
    requires env.Valid()
    ensures Fits(env, job, S(SendLoop(pos, left)), z, SenderActs(env, job, SendLoop(pos, left), fs, ch))
  {
  }

  lemma ReceiverFits(env: Env, job: Job, p: Proc, r: ReceiverPc, z: Pc, fs: Fs, ch: Choice)
    requires env.Valid() && Numbers(job.archive, R(r)) && !ReceiverWaits(r)
    ensures Fits(env, job, R(r), z, ReceiverActs(env, p, r, fs, ch))
  {
    if r.AskResume? || r.SayOffset? || r.SayRestart? || r.SayOk? || r.SayBad? {
      ReceiverSaysFit(env, job, p, r, z, fs, ch);
    } else {
      ReceiverWorksFit(env, p, r, fs, ch);
    }
  }

  lemma ReceiverSaysFit(env: Env, job: Job, p: Proc, r: ReceiverPc, z: Pc, fs: Fs, ch: Choice)
    requires env.Valid() && Numbers(job.archive, R(r))
    requires r.AskResume? || r.SayOffset? || r.SayRestart? || r.SayOk? || r.SayBad?
    ensures Fits(env, job, R(r), z, ReceiverActs(env, p, r, fs, ch))
  {
    if r.SayOk? || r.SayBad? {
      ReceiverVerdictFits(env, job, p, r, z, fs, ch);
    }
  }

  lemma ReceiverVerdictFits(env: Env, job: Job, p: Proc, r: ReceiverPc, z: Pc, fs: Fs, ch: Choice)
    requires env.Valid() && (r.SayOk? || r.SayBad?)
    ensures Fits(env, job, R(r), z, ReceiverActs(env, p, r, fs, ch))
  {
  }

  lemma ReceiverWorksFit(env: Env, p: Proc, r: ReceiverPc, fs: Fs, ch: Choice)
    requires !(r.AskResume? || r.SayOffset? || r.SayRestart? || r.SayOk? || r.SayBad?) && !ReceiverWaits(r)
    ensures match ReceiverActs(env, p, r, fs, ch)
            case Blocked => true
            case Works(pc, _, _) =>
              Norm(pc) == Norm(R(r)) || (Facing(Norm(R(r))).Some? && Facing(Norm(pc)) == Facing(Norm(R(r))))
            case _ => false
  {
    if r.Verify? || r.Extract? || r.RemoveFile? || r.RemoveCkpt? {
      ReceiverEndsFit(env, p, r, fs, ch);
    }
  }

  lemma ReceiverEndsFit(env: Env, p: Proc, r: ReceiverPc, fs: Fs, ch: Choice)
    requires r.Verify? || r.Extract? || r.RemoveFile? || r.RemoveCkpt?
    ensures match ReceiverActs(env, p, r, fs, ch)
            case Blocked => true
            case Works(pc, _, _) => Facing(R(r)).Some? && Facing(Norm(pc)) == Facing(R(r))
            case _ => false
  {
  }

  lemma TurnFits(env: Env, job: Job, side: Side, p: Proc, z: Pc, fs: Fs, ch: Choice)
    requires env.Valid() && PcGood(env, job, side, p) && !Waits(p.pc)
    ensures Fits(env, job, p.pc, z, OnTurn(env, job, p, fs, ch))
  {
    match p.pc
    case C(c) => ClientFits(env, job, c, z, ch);
    case V(v) => ServerFits(env, job, p, v, z, fs, ch);
    case S(s) => SenderFits(env, job, s, z, fs, ch);
    case R(r) => ReceiverFits(env, job, p, r, z, fs, ch);
    case End =>
  }

  /** A message with an intended meaning is taken in that meaning, without complaint. */
  ghost predicate Understood(env: Env, job: Job, p: Proc, m: Msg)
    requires env.Valid()
  {
    var r, e := Accept(env, job, Norm(p.pc), m), OnMsg(env, p, m);
    r.Some? ==> e.Hears? && Norm(e.proc.pc) == Norm(r.value) && e.proc.warned == p.warned
  }

  lemma MessageUnderstood(env: Env, job: Job, p: Proc, m: Msg)
    requires env.Valid() && Waits(p.pc)
    ensures Understood(env, job, p, m)
  {
    match p.pc
    case C(c) => ClientUnderstands(env, job, p, m);
    case V(v) => ServerUnderstands(env, job, p, m);
    case S(s) => SenderUnderstands(env, job, p, m);
    case R(r) => ReceiverUnderstands(env, job, p, m);
  }

  lemma ClientUnderstands(env: Env, job: Job, p: Proc, m: Msg)
    requires env.Valid() && p.pc.C? && Waits(p.pc)
    ensures Understood(env, job, p, m)
  {
  }

  lemma ServerUnderstands(env: Env, job: Job, p: Proc, m: Msg)
    requires env.Valid() && p.pc.V? && Waits(p.pc)
    ensures Understood(env, job, p, m)
  {
  }

  lemma SenderUnderstands(env: Env, job: Job, p: Proc, m: Msg)
    requires env.Valid() && p.pc.S? && Waits(p.pc)
    ensures Understood(env, job, p, m)
  {
  }

  lemma ReceiverUnderstands(env: Env, job: Job, p: Proc, m: Msg)
    requires env.Valid() && p.pc.R? && Waits(p.pc)
    ensures Understood(env, job, p, m)
  {
  }

  lemma AfterNorm(env: Env, job: Job, y: Pc, y': Pc, q: seq<Msg>)
    requires env.Valid() && Norm(y) == Norm(y')
    ensures After(env, job, y, q) == After(env, job, y', q)
  {
  }

  /** One local step keeps the discipline. */
  lemma StepOneWay(env: Env, job: Job, side: Side, l: Local, y: Pc, ch: Choice)
    requires env.Valid() && PcGood(env, job, side, l.proc) && Next(env, job, l, ch).Some?
    requires OneWay(env, job, l.proc.pc, l.inq, y, l.outq)
    ensures var l' := Next(env, job, l, ch).value; OneWay(env, job, l'.proc.pc, l'.inq, y, l'.outq)
  {
    if Waits(l.proc.pc) {
      MessageUnderstood(env, job, l.proc, l.inq[0]);
      var r := Accept(env, job, Norm(l.proc.pc), l.inq[0]);
      AfterNorm(env, job, Next(env, job, l, ch).value.proc.pc, r.value, l.inq[1..]);
    } else {
      TurnOneWay(env, job, side, l, y, ch);
    }
  }

  lemma TurnOneWay(env: Env, job: Job, side: Side, l: Local, y: Pc, ch: Choice)
    requires env.Valid() && PcGood(env, job, side, l.proc) && Next(env, job, l, ch).Some? && !Waits(l.proc.pc)
    requires OneWay(env, job, l.proc.pc, l.inq, y, l.outq)
    ensures var l' := Next(env, job, l, ch).value; OneWay(env, job, l'.proc.pc, l'.inq, y, l'.outq)
  {
    var x, z, e := l.proc.pc, After(env, job, y, l.outq), OnTurn(env, job, l.proc, l.fs, ch);
    TurnFits(env, job, side, l.proc, if z.Some? then z.value else End, l.fs, ch);
    if Facing(Norm(x)).None? {
      AfterNorm(env, job, e.pc, x, l.inq);
    } else {
      if l.inq != [] {
        SpeakerIsDeaf(env, job, Norm(x), l.inq[0]);
        assert false;
      }
      if Sync(Norm(y), Norm(x)) {
        SyncSymmetric(Norm(y), Norm(x));
      }
      if e.Says? {
        AfterSnoc(env, job, y, l.outq, e.msg);
      }
    }
  }
}
