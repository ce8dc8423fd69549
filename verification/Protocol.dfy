/**
 One filerail session as a system of two processes (client and server) over two FIFO channels and the
 receiver's disk. Every control point of filerail_client.c, filerail_server.c and the handlers of
 filerail/operations.h and filerail/socket.h between two visible actions is one constructor of `Pc`;
 `Next` is the one definition of what a process does at each of them.
 */
module Protocol {
  import opened Bytes
  import opened Cipher
  import opened Disk

  // ---------------------------------------------------------------- codes (filerail/protocol.h:10-33)

  const GET: byte := 0
  const PUT: byte := 1
  const PING: byte := 2
  const ABORT: byte := 4
  const OVERWRITE: byte := 5
  const RESUME: byte := 7
  const RESTART: byte := 8

  const OK: byte := 0
  const PONG: byte := 1
  const NOT_FOUND: byte := 3
  const NO_ACCESS: byte := 4
  const BAD_RESOURCE: byte := 5
  const INSUFFICIENT_SPACE: byte := 6
  const DUPLICATE_RESOURCE_NAME: byte := 7
  const NO_INTEGRITY: byte := 8

  /** A message as delivered by the framing layer. Command and response headers have one wire form: `Code`. */
  datatype Msg =
    | Code(code: byte)
    | Resource(size: nat, name: CString, dir: CString)
    | Offset(offset: nat)
    | Digest(hash: Hash)
    | Packet(payload: Bytes, count: nat)

  /** What each filerail_recv_* function reads. Commands and responses are one kind: a single small integer. */
  datatype Kind = ACode | AResource | AnOffset | ADigest | APacket

  function KindOf(m: Msg): Kind {
    match m
    case Code(_) => ACode
    case Resource(_, _, _) => AResource
    case Offset(_) => AnOffset
    case Digest(_) => ADigest
    case Packet(_, _) => APacket
  }

  // ---------------------------------------------------------------- what is fixed during a session

  /**
   `dir` is the name of the checkpoint directory; `file` gives the one name of the file that a path names; `unzip` gives
   the files that extracting an archive as the resource of some name creates.
   */
  datatype Env = Env(
    md5: Bytes -> Hash, keys: Keys, dir: CString, file: CString -> CString, unzip: (CString, Bytes) -> Fs)
  {
    ghost predicate Valid() { keys.Valid() }

    /** The name is not one of a checkpoint. */
    ghost predicate Clear(name: CString) {
      forall h: Hash :: name != CkptName(dir, h) && name != TmpName(dir, h)
    }

    /** No checkpoint lies in the resource. */
    ghost predicate Outside(resource: CString) {
      forall h: Hash :: !Within(resource, CkptName(dir, h)) && !Within(resource, TmpName(dir, h))
    }

    /** The files of the extracted archive; all of them are in the resource. */
    function Unzipped(resource: CString, archive: Bytes): Fs {
      var all := unzip(resource, archive);
      map n | n in all && Within(resource, n) :: all[n]
    }
  }

  datatype Mode = Ping | Put | Get

  /** What one invocation of the client asks for; `archive` is the content of the zip the sender builds. */
  datatype Job = Job(mode: Mode, archive: Bytes, statSize: nat, name: CString, source: CString, target: CString) {
    ghost predicate Valid(env: Env) {
      && env.Valid()
      && 0 < |archive| < TWO64
      && |Path()| < MAX_PATH_LENGTH
      && env.Clear(File(env)) && env.Outside(Home(env)) && !Within(Home(env), File(env))
    }

    /** What the receiver is to get. */
    function Resource(): CString { target + [SLASH] + name }

    /** Where the receiver keeps the partial archive. */
    function Path(): CString { Resource() + ZIP_SUFFIX }

    // The names of the two on its disk, and what extraction puts there.

    function File(env: Env): CString { env.file(Path()) }

    function Home(env: Env): CString { env.file(Resource()) }

    function Content(env: Env): Fs { env.Unzipped(Home(env), archive) }
  }

  const ZIP_SUFFIX: CString := [46, 122, 105, 112] // ".zip"

  // ---------------------------------------------------------------- processes

  /** filerail_client.c */
  datatype ClientPc =
    | PingAsk | PingWait
    | PutAsk | PutDescribe | PutWait | PutChoose
    | GetAsk | GetDescribe | GetWait | GetSize | GetChoose

  /** filerail_server.c, one forked child */
  datatype ServerPc =
    | AwaitCommand | SayPong
    | PutInfo | PutCheck | PutReply | PutRemove
    | GetInfo | GetCheck | GetAdvertise | GetReply

  /** filerail_sendfile_handler and filerail_sendfile */
  datatype SenderPc =
    | Zip | SayHash | AwaitPlan | Choose | AwaitOffset | SaySize(offset: nat)
    | SendLoop(pos: nat, left: nat) | AwaitVerdict | SendEnd(matched: bool)

  /** filerail_recvfile_handler and filerail_recvfile; `start` is the offset the transfer began at. */
  datatype ReceiverPc =
    | AwaitHash | Lookup | AskResume(offset: nat) | AwaitChoice(offset: nat) | SayOffset(offset: nat) | SayRestart
    | OpenFile(offset: nat) | AwaitSize(offset: nat)
    | RecvLoop(start: nat, pos: nat, left: nat) | WriteData(start: nat, pos: nat, left: nat, data: Bytes)
    | WriteTmp(start: nat, pos: nat, left: nat) | RenameTmp(start: nat, pos: nat, left: nat)
    | Verify(start: nat) | SayOk | SayBad | Extract
    | RemoveFile(good: bool) | RemoveCkpt(good: bool) | RecvEnd(good: bool)

  datatype Pc = C(c: ClientPc) | V(v: ServerPc) | S(s: SenderPc) | R(r: ReceiverPc) | End

  /**
   `resource` and `hash` are the receiver's resource_path, before ".zip" is appended, and rh.hash; `warned` records a
   "PROTOCOL NOT FOLLOWED".
   */
  datatype Proc = Proc(pc: Pc, resource: CString, hash: Hash, warned: bool) {
    function At(p: Pc): Proc { this.(pc := p) }
    function Warn(p: Pc): Proc { this.(pc := p, warned := true) }
    function Path(): CString { resource + ZIP_SUFFIX }
    function File(env: Env): CString { env.file(Path()) }
    function Home(env: Env): CString { env.file(resource) }
  }

  /** What the receiver does with whole archives: the hash check that succeeded, and the extraction. */
  datatype Event = Verified(content: Bytes) | Extracted(content: Bytes)

  /** What one process sees: its own state, its two channels and the disk. */
  datatype Local = Local(proc: Proc, inq: seq<Msg>, outq: seq<Msg>, fs: Fs, log: seq<Event>, packets: nat)

  /** Decisions the model leaves open: the user's answer, a failed read, a check's verdict, stray memory. */
  datatype Choice = Go | Decline | ReadError | Answer(code: byte) | Junk(junk: Bytes)

  /** The effect of one local step; `Blocked` when the process cannot move that way now. */
  datatype Effect =
    | Blocked
    | Hears(proc: Proc)                          // takes the first message of its channel
    | Says(msg: Msg, pc: Pc)                     // appends a message to the other channel
    | Works(pc: Pc, fs: Fs, events: seq<Event>)  // touches the disk, or nothing

  // ---------------------------------------------------------------- the client

  predicate ClientWaits(c: ClientPc) { c.PingWait? || c.PutWait? || c.GetWait? || c.GetSize? }

  function ClientHears(p: Proc, c: ClientPc, m: Msg): Effect {
    if c.GetSize? then
      if m.Resource? then Hears(p.At(C(GetChoose))) else Blocked
    else if m.Code? then Hears(ClientTests(p, c, m.code))
    else Blocked
  }

  function ClientTests(p: Proc, c: ClientPc, code: byte): Proc {
    match c
    case PingWait => if code == PONG then p.At(End) else p.Warn(End)
    case PutWait =>
      if code == NO_ACCESS then p.At(End)
      else if code == DUPLICATE_RESOURCE_NAME then p.At(C(PutChoose))
      else if code == NOT_FOUND then p.At(End)
      else if code == INSUFFICIENT_SPACE then p.At(End)
      else if code == OK then p.At(S(Zip))
      else p.Warn(End)
    case GetWait =>
      if code == OK then p.At(C(GetSize))
      else if code == NOT_FOUND then p.At(End)
      else if code == NO_ACCESS then p.At(End)
      else if code == BAD_RESOURCE then p.At(End)
      else p.Warn(End)
    case _ => p
  }

  function ClientActs(job: Job, c: ClientPc, ch: Choice): Effect {
    match c
    case PingAsk => Says(Code(PING), C(PingWait))
    case PutAsk => Says(Code(PUT), C(PutDescribe))
    case PutDescribe => Says(Resource(job.statSize, job.name, job.target), C(PutWait))
    case PutChoose => if ch == Decline then Says(Code(ABORT), End) else Says(Code(OVERWRITE), S(Zip))
    case GetAsk => Says(Code(GET), C(GetDescribe))
    case GetDescribe => Says(Resource(0, job.name, job.source), C(GetWait))
    case GetChoose => if ch == Decline then Says(Code(ABORT), End) else Says(Code(OK), R(AwaitHash))
    case _ => Blocked
  }

  // ---------------------------------------------------------------- the server

  predicate ServerWaits(v: ServerPc) { v.AwaitCommand? || v.PutInfo? || v.PutReply? || v.GetInfo? || v.GetReply? }

  function ServerHears(p: Proc, v: ServerPc, m: Msg): Effect {
    if v.PutInfo? then
      if m.Resource? then Hears(p.(pc := V(PutCheck), resource := m.dir + [SLASH] + m.name)) else Blocked
    else if v.GetInfo? then
      if m.Resource? then Hears(p.At(V(GetCheck))) else Blocked
    else if m.Code? then Hears(ServerTests(p, v, m.code))
    else Blocked
  }

  function ServerTests(p: Proc, v: ServerPc, code: byte): Proc {
    match v
    case AwaitCommand =>
      if code == PUT then p.At(V(PutInfo))
      else if code == PING then p.At(V(SayPong))
      else if code == GET then p.At(V(GetInfo))
      else p.Warn(End)
    case PutReply =>
      if code == OVERWRITE then p.At(V(PutRemove))
      else if code == ABORT then p.At(End)
      else p.Warn(End)
    case GetReply =>
      if code == ABORT then p.At(End)
      else if code == OK then p.At(S(Zip))
      else p.Warn(End)
    case _ => p
  }

  function ServerActs(env: Env, job: Job, p: Proc, v: ServerPc, fs: Fs, ch: Choice): Effect {
    match v
    case SayPong => Says(Code(PONG), End)
    case PutCheck =>
      if ch == Go then Says(Code(OK), R(AwaitHash))
      else if ch == Answer(DUPLICATE_RESOURCE_NAME) then Says(Code(DUPLICATE_RESOURCE_NAME), V(PutReply))
      else if ch == Answer(INSUFFICIENT_SPACE) || ch == Answer(NO_ACCESS) || ch == Answer(NOT_FOUND)
      then Says(Code(ch.code), End)
      else Blocked
    case PutRemove => Works(R(AwaitHash), Removed(fs, p.Home(env)), [])
    case GetCheck =>
      if ch == Go then Says(Code(OK), V(GetAdvertise))
      else if ch == Answer(NOT_FOUND) || ch == Answer(NO_ACCESS) || ch == Answer(BAD_RESOURCE)
      then Says(Code(ch.code), End)
      else Blocked
    case GetAdvertise => Says(Resource(job.statSize, [], []), V(GetReply))
    case _ => Blocked
  }

  // ---------------------------------------------------------------- the sender of the archive

  predicate SenderWaits(s: SenderPc) { s.AwaitPlan? || s.AwaitOffset? || s.AwaitVerdict? }

  function SenderHears(p: Proc, s: SenderPc, m: Msg): Effect {
    if s.AwaitOffset? then
      if m.Offset? then Hears(p.At(S(SaySize(m.offset)))) else Blocked
    else if m.Code? then Hears(SenderTests(p, s, m.code))
    else Blocked
  }

  /** An unexpected plan is reported and the transfer starts over; so is an unexpected verdict, as a failure. */
  function SenderTests(p: Proc, s: SenderPc, code: byte): Proc {
    match s
    case AwaitPlan =>
      if code == RESUME then p.At(S(Choose))
      else if code == RESTART then p.At(S(SaySize(0)))
      else p.Warn(S(SaySize(0)))
    case AwaitVerdict =>
      if code == OK then p.At(S(SendEnd(true)))
      else if code == NO_INTEGRITY then p.At(S(SendEnd(false)))
      else p.Warn(S(SendEnd(false)))
    case _ => p
  }

  /** Content of the next fread of the sender: short only at end of file. */
  function Chunk(archive: Bytes, pos: nat, left: nat): (c: Bytes)
    ensures |c| <= BUFFER_SIZE && |c| <= left
    ensures pos + left <= |archive| ==> c == archive[pos..pos + Min(BUFFER_SIZE, left)]
  {
    var from := Min(pos, |archive|);
    archive[from..Min(from + Min(BUFFER_SIZE, left), |archive|)]
  }

  ghost function SenderActs(env: Env, job: Job, s: SenderPc, fs: Fs, ch: Choice): Effect
    requires env.Valid()
  {
    match s
    case Zip => Works(S(SayHash), fs, [])
    case SayHash => Says(Digest(env.md5(job.archive)), S(AwaitPlan))
    case Choose => // only a client asks its user; a server always resumes
      if ch == Decline && job.mode == Put then Says(Code(ABORT), S(SaySize(0))) else Says(Code(OK), S(AwaitOffset))
    case SaySize(o) => Says(Resource(|job.archive|, [], []), S(SendLoop(o, Sub64(|job.archive|, o))))
    case SendLoop(pos, left) =>
      if left == 0 then Works(S(AwaitVerdict), fs, []) else
        var c := Chunk(job.archive, pos, left);
        Says(Packet(Seal(env.keys, c), |c|), S(SendLoop(pos + |c|, Sub64(left, |c|))))
    case _ => Blocked
  }

  // ---------------------------------------------------------------- the receiver of the archive

  predicate ReceiverWaits(r: ReceiverPc) {
    r.AwaitHash? || r.AwaitChoice? || r.AwaitSize? || (r.RecvLoop? && r.left > 0)
  }

  ghost function ReceiverHears(env: Env, p: Proc, r: ReceiverPc, m: Msg): Effect
    requires env.Valid()
  {
    match r
    case AwaitHash => if m.Digest? then Hears(p.(pc := R(Lookup), hash := m.hash)) else Blocked
    case AwaitChoice(c) =>
      if !m.Code? then Blocked
      else if m.code == OK then Hears(p.At(R(SayOffset(c))))
      else if m.code == ABORT then Hears(p.At(R(OpenFile(0))))
      else Hears(p.Warn(End))
    case AwaitSize(o) => if m.Resource? then Hears(p.At(R(RecvLoop(o, o, Sub64(m.size, o))))) else Blocked
    case RecvLoop(st, pos, left) =>
      if m.Packet? && |m.payload| == BUFFER_SIZE && m.count <= BUFFER_SIZE
      then Hears(p.At(R(WriteData(st, pos, left, Open(env.keys, m.payload, m.count))))) else Blocked
    case _ => Blocked
  }

  /** The test of filerail/operations.h:248-278: the offset to resume from, if there is one. */
  function Resumable(env: Env, path: CString, hash: Hash, fs: Fs): Option<nat> {
    var name, file := CkptName(env.dir, hash), env.file(path);
    if name !in fs || |fs[name]| < RECORD_SIZE then None else
      var c := ParseRecord(fs[name][..RECORD_SIZE]);
      if c.path != path || file !in fs || c.offset > |fs[file]| then None else Some(c.offset)
  }

  function ReceiverActs(env: Env, p: Proc, r: ReceiverPc, fs: Fs, ch: Choice): Effect {
    var file, ckpt, tmp := p.File(env), CkptName(env.dir, p.hash), TmpName(env.dir, p.hash);
    match r
    case Lookup =>
      var o := Resumable(env, p.Path(), p.hash, fs);
      if o.None? || ch == ReadError then Works(R(SayRestart), fs, []) else Works(R(AskResume(o.value)), fs, [])
    case AskResume(c) => Says(Code(RESUME), R(AwaitChoice(c)))
    case SayOffset(c) => Says(Offset(c), R(OpenFile(c)))
    case SayRestart => Says(Code(RESTART), R(OpenFile(0)))
    case OpenFile(o) =>
      if o == 0 then Works(R(AwaitSize(0)), fs[file := []], [])
      else if file in fs && o <= |fs[file]| then Works(R(AwaitSize(o)), fs, []) else Blocked
    case RecvLoop(st, pos, left) => if left == 0 then Works(R(Verify(st)), fs, []) else Blocked
    case WriteData(st, pos, left, data) =>
      if file in fs && pos <= |fs[file]|
      then Works(R(WriteTmp(st, pos + |data|, Sub64(left, |data|))), fs[file := Overwrite(fs[file], pos, data)], [])
      else Blocked
    case WriteTmp(st, pos, left) =>
      var c := Checkpoint(pos, p.Path());
      if c.Fits() && ch.Junk? then Works(R(RenameTmp(st, pos, left)), fs[tmp := Record(c, ch.junk)], []) else Blocked
    case RenameTmp(st, pos, left) =>
      if tmp in fs then Works(R(RecvLoop(st, pos, left)), fs[ckpt := fs[tmp]] - {tmp}, []) else Blocked
    case Verify(_) =>
      if file !in fs then Blocked
      else if env.md5(fs[file]) == p.hash then Works(R(SayOk), fs, [Verified(fs[file])])
      else Works(R(SayBad), fs, [])
    case SayOk => Says(Code(OK), R(Extract))
    case SayBad => Says(Code(NO_INTEGRITY), R(RemoveFile(false)))
    case Extract =>
      if file in fs
      then Works(R(RemoveFile(true)), fs + env.Unzipped(p.Home(env), fs[file]), [Extracted(fs[file])]) else Blocked
    case RemoveFile(g) => if file in fs then Works(R(RemoveCkpt(g)), fs - {file}, []) else Blocked
    case RemoveCkpt(g) => if ckpt in fs then Works(R(RecvEnd(g)), fs - {ckpt}, []) else Blocked
    case _ => Blocked
  }

  // ---------------------------------------------------------------- any process

  predicate Waits(pc: Pc) {
    match pc
    case C(c) => ClientWaits(c)
    case V(v) => ServerWaits(v)
    case S(s) => SenderWaits(s)
    case R(r) => ReceiverWaits(r)
    case End => false
  }

  /** The filerail_recv_* function a waiting process has called. */
  function Reads(pc: Pc): Kind
    requires Waits(pc)
  {
    match pc
    case C(c) => if c.GetSize? then AResource else ACode
    case V(v) => if v.PutInfo? || v.GetInfo? then AResource else ACode
    case S(s) => if s.AwaitOffset? then AnOffset else ACode
    case R(r) =>
      if r.AwaitHash? then ADigest else if r.AwaitChoice? then ACode else if r.AwaitSize? then AResource else APacket
  }

  ghost function OnMsg(env: Env, p: Proc, m: Msg): Effect
    requires env.Valid()
  {
    match p.pc
    case C(c) => ClientHears(p, c, m)
    case V(v) => ServerHears(p, v, m)
    case S(s) => SenderHears(p, s, m)
    case R(r) => ReceiverHears(env, p, r, m)
    case End => Blocked
  }

  ghost function OnTurn(env: Env, job: Job, p: Proc, fs: Fs, ch: Choice): Effect
    requires env.Valid()
  {
    match p.pc
    case C(c) => ClientActs(job, c, ch)
    case V(v) => ServerActs(env, job, p, v, fs, ch)
    case S(s) => SenderActs(env, job, s, fs, ch)
    case R(r) => ReceiverActs(env, p, r, fs, ch)
    case End => Blocked
  }

  /** One local step, or None if the process cannot take it. */
  ghost function Next(env: Env, job: Job, l: Local, ch: Choice): Option<Local>
    requires env.Valid()
  {
    var e := if !Waits(l.proc.pc) then OnTurn(env, job, l.proc, l.fs, ch)
             else if l.inq == [] then Blocked else OnMsg(env, l.proc, l.inq[0]);
    match e
    case Blocked => None
    case Hears(p) =>
      if l.inq == [] then None else
        Some(l.(proc := p, inq := l.inq[1..], packets := l.packets + if l.inq[0].Packet? then 1 else 0))
    case Says(m, pc) => Some(l.(proc := l.proc.At(pc), outq := l.outq + [m]))
    case Works(pc, fs, events) => Some(l.(proc := l.proc.At(pc), fs := fs, log := l.log + events))
  }

  // ---------------------------------------------------------------- the two processes together

  datatype Side = Client | Server {
    function Other(): Side { if Client? then Server else Client }
  }

  datatype World = World(
    client: Proc, server: Proc, c2s: seq<Msg>, s2c: seq<Msg>, clientUp: bool, serverUp: bool,
    fs: Fs, log: seq<Event>, packets: nat)
  {
    function Up(side: Side): bool { if side.Client? then clientUp else serverUp }
    function Of(side: Side): Proc { if side.Client? then client else server }
    function In(side: Side): seq<Msg> { if side.Client? then s2c else c2s }
    function View(side: Side): Local { Local(Of(side), In(side), In(side.Other()), fs, log, packets) }
    function Update(side: Side, l: Local): World {
      if side.Client?
      then this.(client := l.proc, s2c := l.inq, c2s := l.outq, fs := l.fs, log := l.log, packets := l.packets)
      else this.(server := l.proc, c2s := l.inq, s2c := l.outq, fs := l.fs, log := l.log, packets := l.packets)
    }
  }

  /** One process acts; or one process stops for good: it returned, failed on any call, timed out, or was killed. */
  datatype Action = Act(side: Side, choice: Choice) | Stop(side: Side, left: Remains)

  /**
   How far a process that stops has got with the call it is in: `torn` octets of what it was writing (with `junk` in
   the record), or the files `done` of those it was removing or extracting, each of the latter to some length.
   */
  datatype Remains = Remains(torn: nat, junk: Bytes, done: Fs)

  function Torn(env: Env, p: Proc, fs: Fs, left: Remains): Fs {
    var file := p.File(env);
    match p.pc
    case V(PutRemove) => map n | n in fs && !(Within(p.Home(env), n) && n in left.done) :: fs[n]
    case R(WriteData(_, pos, _, data)) =>
      if file in fs && pos <= |fs[file]| && left.torn <= |data|
      then fs[file := Overwrite(fs[file], pos, data[..left.torn])] else fs
    case R(WriteTmp(_, pos, _)) =>
      var c := Checkpoint(pos, p.Path());
      if c.Fits() && left.torn <= RECORD_SIZE
      then fs[TmpName(env.dir, p.hash) := Record(c, left.junk)[..left.torn]] else fs
    case R(Extract) =>
      if file in fs && PartOf(left.done, env.Unzipped(p.Home(env), fs[file])) then fs + left.done else fs
    case _ => fs
  }

  /** Some of the files, each to some length. */
  predicate PartOf(done: Fs, all: Fs) {
    forall n | n in done :: n in all && done[n] <= all[n]
  }

  ghost function Do(env: Env, job: Job, w: World, a: Action): Option<World>
    requires env.Valid()
  {
    if !w.Up(a.side) then None else
      match a
      case Act(side, ch) =>
        (match Next(env, job, w.View(side), ch) case None => None case Some(l) => Some(w.Update(side, l)))
      case Stop(side, left) =>
        var w' := w.(fs := Torn(env, w.Of(side), w.fs, left));
        Some(if side.Client? then w'.(clientUp := false) else w'.(serverUp := false))
  }

  function Start(job: Job, fs: Fs): World {
    var pc := match job.mode case Ping => C(PingAsk) case Put => C(PutAsk) case Get => C(GetAsk);
    var idle := seq(HASH_LENGTH, _ => 0);
    World(Proc(pc, job.Resource(), idle, false), Proc(V(AwaitCommand), [], idle, false), [], [], true, true, fs, [], 0)
  }

  /** All actions in turn; None if one of them is not possible. */
  ghost function Run(env: Env, job: Job, w: World, actions: seq<Action>): Option<World>
    requires env.Valid()
    decreases |actions|
  {
    if actions == [] then Some(w) else
      match Do(env, job, w, actions[0])
      case None => None
      case Some(w') => Run(env, job, w', actions[1..])
  }
}
