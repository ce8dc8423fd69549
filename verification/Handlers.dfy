/**
 filerail_sendfile, filerail_recvfile, the two handlers of filerail/operations.h and the sessions of
 filerail_client.c and filerail_server.c, statement by statement. Whatever arrives and whatever fails, each takes
 the steps of the session model that the answers of user and system decide, for as long as the calls succeed.
 */
module Handlers {
  import opened Bytes
  import opened Cipher
  import opened Crypto
  import opened Disk
  import opened Protocol
  import opened Hosts

  // ---------------------------------------------------------------- packets in a channel

  function AsPackets(ps: seq<Parcel>): (q: seq<Msg>)
    ensures |q| == |ps| && forall i | 0 <= i < |ps| :: q[i] == Packet(ps[i].payload, ps[i].size)
  {
    seq(|ps|, i requires 0 <= i < |ps| => Packet(ps[i].payload, ps[i].size))
  }

  lemma AsPacketsCons(p: Parcel, ps: seq<Parcel>)
    ensures AsPackets([p] + ps) == [Packet(p.payload, p.size)] + AsPackets(ps)
  {
  }

  /** The next chunk of the sender is the first of the remaining packets. */
  lemma NextPacket(keys: Keys, zip: Bytes, pos: nat)
    requires keys.Valid() && pos < |zip|
    ensures var c := Chunk(zip, pos, |zip| - pos);
            && 0 < |c| <= |zip| - pos && c == zip[pos..pos + |c|]
            && PacketsFor(|zip| - pos) == 1 + PacketsFor(|zip| - (pos + |c|))
            && AsPackets(Parcels(keys, zip, pos))
               == [Packet(Seal(keys, c), |c|)] + AsPackets(Parcels(keys, zip, pos + |c|))
  {
    var c := Chunk(zip, pos, |zip| - pos);
    AsPacketsCons(Parcel(Seal(keys, c), |c|), Parcels(keys, zip, pos + |c|));
  }

  /** The packets at the head of a channel that carry `left` octets; None if they do not come or overshoot. */
  ghost function Carried(q: seq<Msg>, left: nat): (r: Option<seq<Parcel>>)
    ensures r.Some? ==> |r.value| <= |q| && WellSized(r.value)
    decreases |q|
  {
    if left == 0 then Some([]) else
    if q == [] || !IsA(APacket, q[0]) || q[0].count > left then None else
      match Carried(q[1..], left - q[0].count)
      case None => None
      case Some(ps) => Some([Parcel(q[0].payload, q[0].count)] + ps)
  }

  /** A size message, and the packets for what follows the offset. */
  ghost function Supply(q: seq<Msg>, offset: nat): Option<seq<Parcel>> {
    if q == [] || !IsA(AResource, q[0]) || q[0].size < offset then None else Carried(q[1..], q[0].size - offset)
  }

  /** A channel that holds the packets of a sender, whatever follows them. */
  lemma {:induction false} CarriedParcels(keys: Keys, zip: Bytes, pos: nat, rest: seq<Msg>)
    requires keys.Valid() && pos <= |zip|
    ensures Carried(AsPackets(Parcels(keys, zip, pos)) + rest, |zip| - pos) == Some(Parcels(keys, zip, pos))
    decreases |zip| - pos
  {
    if pos < |zip| {
      var n := Min(BUFFER_SIZE, |zip| - pos);
      var p := Parcel(Seal(keys, zip[pos..pos + n]), n);
      var more := AsPackets(Parcels(keys, zip, pos + n));
      CarriedParcels(keys, zip, pos + n, rest);
      AsPacketsCons(p, Parcels(keys, zip, pos + n));
      Associative([Packet(p.payload, p.size)], more, rest);
      CarriedCons(p, AsPackets(Parcels(keys, zip, pos)) + rest, more + rest, |zip| - pos);
    }
  }

  lemma CarriedCons(p: Parcel, q: seq<Msg>, tail: seq<Msg>, left: nat)
    requires |p.payload| == BUFFER_SIZE && 0 < p.size <= BUFFER_SIZE && p.size <= left
    requires q == [Packet(p.payload, p.size)] + tail && Carried(tail, left - p.size).Some?
    ensures Carried(q, left) == Some([p] + Carried(tail, left - p.size).value)
  {
    assert q[1..] == tail;
  }

  /** What filerail_sendfile sends is what filerail_recvfile needs: the very octets behind the offset. */
  lemma SentIsSupply(keys: Keys, zip: Bytes, offset: nat, rest: seq<Msg>)
    requires keys.Valid() && offset <= |zip| < TWO64
    ensures var ps := Parcels(keys, zip, offset);
            && Supply([Resource(|zip|, [], [])] + (AsPackets(ps) + rest), offset) == Some(ps)
            && WellSized(ps) && Reassemble(keys, ps) == zip[offset..]
  {
    CarriedParcels(keys, zip, offset, rest);
    PipelineDelivers(keys, zip, offset);
    SupplyIs(|zip|, offset, AsPackets(Parcels(keys, zip, offset)) + rest);
  }

  lemma SupplyIs(size: nat, offset: nat, packets: seq<Msg>)
    requires offset <= size < TWO64
    ensures Supply([Resource(size, [], [])] + packets, offset) == Carried(packets, size - offset)
  {
    assert ([Resource(size, [], [])] + packets)[1..] == packets;
  }

  // ---------------------------------------------------------------- filerail_sendfile

  /**
   The size, then one packet for each 1024 octets behind the offset: all of them if the connection takes so many
   messages, which it never does for an offset behind the end.
   */
  method SendFile(h: Process, zip: Bytes, offset: nat) returns (ok: bool)
    requires h.Valid() && h.proc.pc == S(SaySize(offset)) && zip == h.job.archive
    requires |zip| < TWO64 && offset < TWO64
    modifies h
    ensures ok <==> offset <= |zip| && 1 + PacketsFor(|zip| - offset) <= old(h.room)
    ensures ok ==> h.Valid() && h.proc == old(h.proc).At(S(AwaitVerdict)) && h.Kept()
    ensures ok ==> var ps := Parcels(h.env.keys, zip, offset);
                   && h.Talked(0, [Resource(|zip|, [], [])] + AsPackets(ps))
                   && WellSized(ps) && Reassemble(h.env.keys, ps) == zip[offset..]
    ensures !ok ==> h.Halted()
  {
    ok := h.Say(Resource(|zip|, [], []), S(SendLoop(offset, Sub64(|zip|, offset))));
    if ok {
      ok := SendPackets(h, zip, offset);
    }
    if ok {
      AllSent(h.env.keys, zip, offset, old(h.outbox), Resource(|zip|, [], []), h.outbox);
    }
  }

  /** The loop. */
  method SendPackets(h: Process, zip: Bytes, offset: nat) returns (ok: bool)
    requires h.Valid() && h.proc.pc == S(SendLoop(offset, Sub64(|zip|, offset))) && zip == h.job.archive
    requires |zip| < TWO64 && offset < TWO64
    modifies h`outbox, h`room, h`proc, h`steps, h`failed
    ensures ok <==> offset <= |zip| && PacketsFor(|zip| - offset) <= old(h.room)
    ensures ok ==> h.Valid() && h.proc == old(h.proc).At(S(AwaitVerdict))
    ensures ok ==> Sends(h.env.keys, zip, offset, |zip|, old(h.outbox), h.outbox)
                   && old(h.room) == h.room + PacketsFor(|zip| - offset)
    ensures !ok ==> h.Halted()
  {
    var pos: nat, size: nat := offset, Sub64(|zip|, offset);
    while size != 0
      invariant h.Valid() && h.proc == old(h.proc).At(S(SendLoop(pos, size)))
      invariant Sending(h.env.keys, zip, offset, pos, size, old(h.outbox), h.outbox, old(h.room), h.room)
      decreases h.room
    {
      var chunk := Chunk(zip, pos, size);
      ghost var sent, room := h.outbox, h.room;
      ok := SendChunk(h, chunk, pos, size);
      if !ok {
        Starved(h.env.keys, zip, offset, pos, size, old(h.outbox), sent, old(h.room));
        return;
      }
      NextSending(h.env.keys, zip, offset, pos, size, old(h.outbox), sent, old(h.room), room, chunk, h.outbox, h.room);
      pos := pos + |chunk|;
      size := Sub64(size, |chunk|);
    }
    EndSending(h, pos);
    ok := true;
  }

  ghost method EndSending(h: Process, pos: nat)
    requires h.Valid() && h.proc.pc == S(SendLoop(pos, 0))
    modifies h`proc, h`steps
    ensures h.Valid() && h.proc == old(h.proc).At(S(AwaitVerdict))
  {
    h.Pass(S(AwaitVerdict));
  }

  /** The packets up to pos have been said. */
  ghost predicate Sends(keys: Keys, zip: Bytes, offset: nat, pos: nat, was: seq<Msg>, now: seq<Msg>)
    requires keys.Valid() && offset <= |zip| && pos <= |zip|
  {
    forall rest | rest == AsPackets(Parcels(keys, zip, pos)) ::
      was + AsPackets(Parcels(keys, zip, offset)) == now + rest
  }

  /** The loop, for an offset in the archive or behind it. */
  ghost predicate Sending(keys: Keys, zip: Bytes, offset: nat, pos: nat, size: nat,
                          was: seq<Msg>, now: seq<Msg>, all: nat, room: nat)
    requires keys.Valid()
  {
    if offset <= |zip|
    then pos + size == |zip| && Sends(keys, zip, offset, pos, was, now)
         && room + PacketsFor(|zip| - offset) == all + PacketsFor(size)
    else pos == offset && size == |zip| + TWO64 - offset
  }

  lemma NextSending(keys: Keys, zip: Bytes, offset: nat, pos: nat, size: nat,
                    was: seq<Msg>, now: seq<Msg>, all: nat, room: nat, c: Bytes, now': seq<Msg>, room': nat)
    requires keys.Valid() && |zip| < TWO64 && offset < TWO64 && 0 < size < TWO64
    requires Sending(keys, zip, offset, pos, size, was, now, all, room)
    requires c == Chunk(zip, pos, size) && now' == now + [Packet(Seal(keys, c), |c|)] && room' == room - 1
    ensures Sending(keys, zip, offset, pos + |c|, Sub64(size, |c|), was, now', all, room')
  {
    OneLess(zip, pos, size);
    if offset <= |zip| {
      NextSent(keys, zip, offset, pos, was, now, c, now');
    }
  }

  /** Without room the connection does not take what is left. */
  lemma Starved(keys: Keys, zip: Bytes, offset: nat, pos: nat, size: nat, was: seq<Msg>, now: seq<Msg>, all: nat)
    requires keys.Valid() && 0 < size && Sending(keys, zip, offset, pos, size, was, now, all, 0)
    ensures !(offset <= |zip| && PacketsFor(|zip| - offset) <= all)
  {
  }

  lemma NextSent(keys: Keys, zip: Bytes, offset: nat, pos: nat, was: seq<Msg>, now: seq<Msg>, c: Bytes,
                 now': seq<Msg>)
    requires keys.Valid() && offset <= |zip| && pos < |zip| && Sends(keys, zip, offset, pos, was, now)
    requires c == Chunk(zip, pos, |zip| - pos) && now' == now + [Packet(Seal(keys, c), |c|)]
    ensures pos + |c| <= |zip| && Sends(keys, zip, offset, pos + |c|, was, now')
  {
    NextPacket(keys, zip, pos);
    Associative(now, [Packet(Seal(keys, c), |c|)], AsPackets(Parcels(keys, zip, pos + |c|)));
  }

  /** Every chunk saves one packet; a chunk at or behind the end is empty. */
  lemma OneLess(zip: Bytes, pos: nat, size: nat)
    requires 0 < size < TWO64
    ensures var c := Chunk(zip, pos, size);
            && (pos + size == |zip| ==>
                  Sub64(size, |c|) == size - |c| && PacketsFor(size) == 1 + PacketsFor(size - |c|))
            && (|zip| < pos ==> c == [] && Sub64(size, |c|) == size)
  {
  }

  lemma Associative(a: seq<Msg>, b: seq<Msg>, c: seq<Msg>)
    ensures (a + b) + c == a + (b + c)
  {
  }

  lemma AllSent(keys: Keys, zip: Bytes, offset: nat, was: seq<Msg>, first: Msg, now: seq<Msg>)
    requires keys.Valid() && offset <= |zip| && Sends(keys, zip, offset, |zip|, was + [first], now)
    ensures var ps := Parcels(keys, zip, offset);
            && now == was + ([first] + AsPackets(ps)) && |ps| == PacketsFor(|zip| - offset)
            && WellSized(ps) && Reassemble(keys, ps) == zip[offset..]
  {
    ParcelsWellSized(keys, zip, offset);
    PipelineDelivers(keys, zip, offset);
    assert AsPackets(Parcels(keys, zip, |zip|)) == [] && now + [] == now;
    Associative(was, [first], AsPackets(Parcels(keys, zip, offset)));
  }

  method SendChunk(h: Process, chunk: Bytes, ghost pos: nat, ghost size: nat) returns (ok: bool)
    requires h.Valid() && h.proc.pc == S(SendLoop(pos, size)) && 0 < size && chunk == Chunk(h.job.archive, pos, size)
    modifies h`outbox, h`room, h`proc, h`steps, h`failed
    ensures ok <==> old(h.room) > 0
    ensures ok ==> h.Valid() && h.proc == old(h.proc).At(S(SendLoop(pos + |chunk|, Sub64(size, |chunk|))))
    ensures ok ==> h.outbox == old(h.outbox) + [Packet(Seal(h.env.keys, chunk), |chunk|)] && h.room == old(h.room) - 1
    ensures !ok ==> h.Halted()
  {
    var payload := SealChunk(h.env.keys, chunk);
    ok := h.Say(Packet(payload, |chunk|), S(SendLoop(pos + |chunk|, Sub64(size, |chunk|))));
  }

  // ---------------------------------------------------------------- filerail_recvfile

  /** The partial file can be opened to go on at the offset. */
  predicate Openable(fs: Fs, file: CString, offset: nat) {
    offset == 0 || (file in fs && offset <= |fs[file]|)
  }

  /** What lies there when it is open: fopen with "wb" truncates. */
  function Opened(fs: Fs, file: CString, offset: nat): (base: Bytes)
    requires Openable(fs, file, offset)
    ensures offset <= |base|
  {
    if offset == 0 then [] else fs[file]
  }

  /** One packet stored: its octets in the file at the position, and a checkpoint behind them. */
  function Stored(env: Env, path: CString, hash: Hash, fs: Fs, pos: nat, out: Bytes, junk: Bytes): Fs
    requires env.file(path) in fs && pos <= |fs[env.file(path)]| && Checkpoint(pos + |out|, path).Fits()
  {
    var file := env.file(path);
    fs[file := Overwrite(fs[file], pos, out)][CkptName(env.dir, hash) := Record(Checkpoint(pos + |out|, path), junk)]
    - {TmpName(env.dir, hash)}
  }

  /** The disk `now`: the file as `content` up to `pos`, its checkpoint if any packet came, and no other change. */
  ghost predicate Partial(env: Env, path: CString, hash: Hash, was: Fs, now: Fs, content: Bytes, offset: nat, pos: nat,
                          any: bool)
  {
    var file, ckpt, tmp := env.file(path), CkptName(env.dir, hash), TmpName(env.dir, hash);
    && file in now && now[file] == content && offset <= pos <= |content|
    && (if any then Holds(now, ckpt, Checkpoint(pos, path)) && tmp !in now
        else SameAt(was, now, ckpt) && SameAt(was, now, tmp) && pos == offset)
    && forall n: CString | n != file && n != ckpt && n != tmp :: SameAt(was, now, n)
  }

  /**
   The effect of receiving packets: what they carry lies in the file at the offset, over what lay there; a checkpoint
   records the position behind it; nothing else has changed.
   */
  ghost predicate Stowed(env: Env, path: CString, hash: Hash, was: Fs, now: Fs, offset: nat, ps: seq<Parcel>)
    requires env.Valid() && WellSized(ps)
  {
    var file := env.file(path);
    && file in was && offset <= |was[file]|
    && forall data | data == Reassemble(env.keys, ps) ::
         Partial(env, path, hash, was, now, Overwrite(was[file], offset, data), offset, offset + |data|, ps != [])
  }

  /** The same on the way, with the packets `ps` of which `left` are still to come. */
  ghost predicate Underway(env: Env, path: CString, hash: Hash, was: Fs, now: Fs, offset: nat, pos: nat,
                           ps: seq<Parcel>, left: seq<Parcel>)
    requires env.Valid() && WellSized(ps) && WellSized(left)
  {
    var file, all, rest := env.file(path), Reassemble(env.keys, ps), Reassemble(env.keys, left);
    && file in was && offset <= |was[file]| && file in now && |left| <= |ps|
    && Partial(env, path, hash, was, now, now[file], offset, pos, |left| < |ps|)
    && offset + |all| == pos + |rest|
    && Overwrite(was[file], offset, all) == Overwrite(now[file], pos, rest)
  }

  lemma OverwriteTwice(f: Bytes, pos: nat, a: Bytes, b: Bytes)
    requires pos <= |f|
    ensures Overwrite(Overwrite(f, pos, a), pos + |a|, b) == Overwrite(f, pos, a + b)
  {
  }

  lemma UnderwayNext(env: Env, path: CString, hash: Hash, was: Fs, now: Fs, offset: nat, pos: nat,
                     ps: seq<Parcel>, left: seq<Parcel>, out: Bytes, junk: Bytes)
    requires env.Valid() && WellSized(ps) && WellSized(left) && env.Clear(env.file(path))
    requires Underway(env, path, hash, was, now, offset, pos, ps, left) && left != []
    requires out == Open(env.keys, left[0].payload, left[0].size) && Checkpoint(pos + |out|, path).Fits()
    ensures Underway(env, path, hash, was, Stored(env, path, hash, now, pos, out, junk), offset, pos + |out|, ps,
                     left[1..])
  {
    var file, rest := env.file(path), Reassemble(env.keys, left[1..]);
    assert Reassemble(env.keys, left) == out + rest;
    OverwriteTwice(now[file], pos, out, rest);
    StoredIs(env, path, hash, was, now, offset, pos, |left| < |ps|, out, junk);
  }

  lemma StoredIs(env: Env, path: CString, hash: Hash, was: Fs, now: Fs, offset: nat, pos: nat, any: bool, out: Bytes,
                 junk: Bytes)
    requires env.Clear(env.file(path)) && env.file(path) in now
    requires Partial(env, path, hash, was, now, now[env.file(path)], offset, pos, any)
    requires Checkpoint(pos + |out|, path).Fits()
    ensures Partial(env, path, hash, was, Stored(env, path, hash, now, pos, out, junk),
                    Overwrite(now[env.file(path)], pos, out), offset, pos + |out|, true)
  {
    var c := Checkpoint(pos + |out|, path);
    var file, ckpt, tmp := env.file(path), CkptName(env.dir, hash), TmpName(env.dir, hash);
    NamesDistinct(env.dir, hash, hash);
    RecordRoundTrip(c, junk);
    assert Record(c, junk)[..RECORD_SIZE] == Record(c, junk);
    var next := Stored(env, path, hash, now, pos, out, junk);
    forall n: CString | n != file && n != ckpt && n != tmp ensures SameAt(was, next, n) {
      assert SameAt(was, now, n);
    }
  }

  /** The loop with `size` octets still to come, for which the packets are in the channel, before `rest`. */
  ghost predicate Coming(env: Env, path: CString, hash: Hash, was: Fs, now: Fs, offset: nat, pos: nat,
                         ps: seq<Parcel>, size: nat, inbox: seq<Msg>, rest: seq<Msg>)
    requires env.Valid() && WellSized(ps)
  {
    && pos + size < TWO64 && Carried(inbox, size).Some?
    && forall left {:trigger Underway(env, path, hash, was, now, offset, pos, ps, left)}
         | Carried(inbox, size) == Some(left) ::
         inbox[|left|..] == rest && Underway(env, path, hash, was, now, offset, pos, ps, left)
  }

  lemma ComingFirst(env: Env, path: CString, hash: Hash, was: Fs, offset: nat, size: nat, inbox: seq<Msg>)
    requires env.Valid() && env.file(path) in was && offset <= |was[env.file(path)]| && offset + size < TWO64
    requires Carried(inbox, size).Some?
    ensures var ps := Carried(inbox, size).value;
            Coming(env, path, hash, was, was, offset, offset, ps, size, inbox, inbox[|ps|..])
  {
  }

  /** The next packet is there and can be stored... */
  lemma ComingReady(env: Env, path: CString, hash: Hash, was: Fs, now: Fs, offset: nat, pos: nat,
                    ps: seq<Parcel>, size: nat, inbox: seq<Msg>, rest: seq<Msg>)
    requires env.Valid() && WellSized(ps) && |path| < MAX_PATH_LENGTH
    requires Coming(env, path, hash, was, now, offset, pos, ps, size, inbox, rest) && 0 < size
    ensures inbox != [] && IsA(APacket, inbox[0]) && inbox[0].count <= size
    ensures env.file(path) in now && pos <= |now[env.file(path)]| && Checkpoint(pos + inbox[0].count, path).Fits()
  {
    assert Underway(env, path, hash, was, now, offset, pos, ps, Carried(inbox, size).value);
  }

  /** ... and then the loop goes on. */
  lemma ComingNext(env: Env, path: CString, hash: Hash, was: Fs, now: Fs, offset: nat, pos: nat,
                   ps: seq<Parcel>, size: nat, inbox: seq<Msg>, rest: seq<Msg>, junk: Bytes,
                   now': Fs, pos': nat, size': nat, inbox': seq<Msg>)
    requires env.Valid() && WellSized(ps) && env.Clear(env.file(path)) && |path| < MAX_PATH_LENGTH
    requires Coming(env, path, hash, was, now, offset, pos, ps, size, inbox, rest) && 0 < size
    requires inbox != [] && IsA(APacket, inbox[0]) && inbox[0].count <= size && inbox' == inbox[1..]
    requires env.file(path) in now && pos <= |now[env.file(path)]| && Checkpoint(pos + inbox[0].count, path).Fits()
    requires now' == Stored(env, path, hash, now, pos, Open(env.keys, inbox[0].payload, inbox[0].count), junk)
    requires pos' == pos + inbox[0].count && size' == Sub64(size, inbox[0].count)
    ensures Coming(env, path, hash, was, now', offset, pos', ps, size', inbox', rest)
  {
    var left := Carried(inbox, size).value;
    var out := Open(env.keys, inbox[0].payload, inbox[0].count);
    assert Underway(env, path, hash, was, now, offset, pos, ps, left);
    assert left[1..] == Carried(inbox[1..], size - |out|).value;
    UnderwayNext(env, path, hash, was, now, offset, pos, ps, left, out, junk);
  }

  lemma ComingLast(env: Env, path: CString, hash: Hash, was: Fs, now: Fs, offset: nat, pos: nat,
                   ps: seq<Parcel>, inbox: seq<Msg>, rest: seq<Msg>)
    requires env.Valid() && WellSized(ps) && Coming(env, path, hash, was, now, offset, pos, ps, 0, inbox, rest)
    ensures inbox == rest && Stowed(env, path, hash, was, now, offset, ps)
  {
    var file := env.file(path);
    assert Underway(env, path, hash, was, now, offset, pos, ps, []);
    assert Overwrite(now[file], pos, []) == now[file];
  }

  /** The record of every offset up to the size fits, and the partial file is none of the checkpoints. */
  ghost predicate Ordinary(env: Env, path: CString, size: nat) {
    |path| < MAX_PATH_LENGTH && env.Clear(env.file(path)) && size < TWO64
  }

  /**
   If the size and the packets for the rest are what the channel holds, they are stored, in a file that offset 0
   empties; and if no call fails that can succeed, that is how it ends.
   */
  method RecvFile(h: Process, path: CString, hash: Hash, offset: nat) returns (ok: bool)
    requires h.Valid() && h.proc.pc == R(OpenFile(offset)) && h.proc.Path() == path && h.proc.hash == hash
    modifies h
    ensures ok ==> h.Valid() && h.proc == old(h.proc).At(R(Verify(offset)))
    ensures ok ==> h.log == old(h.log) && h.outbox == old(h.outbox) && h.room == old(h.room)
    ensures !ok ==> h.Halted()
    ensures var ps, file := Supply(old(h.inbox), offset), h.env.file(path);
            ps.Some? && Openable(old(h.fs), file, offset) && Ordinary(h.env, path, old(h.inbox)[0].size) ==>
              && (h.reliable ==> ok)
              && (ok ==> && h.Talked(1 + |ps.value|, [])
                         && var was := old(h.fs)[file := Opened(old(h.fs), file, offset)];
                            Stowed(h.env, path, hash, was, h.fs, offset, ps.value))
  {
    ok := OpenArchive(h, path, offset);
    if !ok {
      return;
    }
    var resource := h.Hear(AResource);
    if resource.None? {
      return false;
    }
    SupplyHeard(old(h.inbox), offset);
    ok := RecvPackets(h, path, hash, offset, Sub64(resource.value.size, offset));
  }

  lemma SupplyHeard(q: seq<Msg>, offset: nat)
    requires q != [] && IsA(AResource, q[0])
    ensures Supply(q, offset).Some? ==>
              && offset <= q[0].size && offset + Sub64(q[0].size, offset) == q[0].size
              && Supply(q, offset) == Carried(q[1..], Sub64(q[0].size, offset))
  {
  }

  /** The loop. */
  method RecvPackets(h: Process, path: CString, hash: Hash, offset: nat, total: nat) returns (ok: bool)
    requires h.Valid() && h.proc.pc == R(RecvLoop(offset, offset, total))
    requires h.proc.Path() == path && h.proc.hash == hash
    modifies h
    ensures ok ==> h.Valid() && h.proc == old(h.proc).At(R(Verify(offset)))
    ensures ok ==> h.log == old(h.log) && h.outbox == old(h.outbox) && h.room == old(h.room)
    ensures !ok ==> h.Halted()
    ensures var ps, file := Carried(old(h.inbox), total), h.env.file(path);
            ps.Some? && file in old(h.fs) && offset <= |old(h.fs)[file]| && Ordinary(h.env, path, offset + total) ==>
              && (h.reliable ==> ok)
              && (ok ==> h.Talked(|ps.value|, []) && Stowed(h.env, path, hash, old(h.fs), h.fs, offset, ps.value))
  {
    ghost var ps, file, rest := Carried(h.inbox, total), h.env.file(path), [];
    ghost var fine := ps.Some? && file in h.fs && offset <= |h.fs[file]| && Ordinary(h.env, path, offset + total);
    if fine {
      rest := h.inbox[|ps.value|..];
      ComingFirst(h.env, path, hash, h.fs, offset, total, h.inbox);
    }
    var size, ckpt := total, Checkpoint(offset, path);
    while size != 0
      invariant h.Valid() && h.proc == old(h.proc).At(R(RecvLoop(offset, ckpt.offset, size)))
      invariant ckpt.path == path && h.log == old(h.log) && h.outbox == old(h.outbox) && h.room == old(h.room)
      invariant fine ==>
                  Coming(h.env, path, hash, old(h.fs), h.fs, offset, ckpt.offset, ps.value, size, h.inbox, rest)
      decreases |h.inbox|
    {
      ghost var was, q, at, left := h.fs, h.inbox, ckpt.offset, size;
      if fine {
        ComingReady(h.env, path, hash, old(h.fs), was, offset, at, ps.value, left, q, rest);
      }
      ckpt, size, ok := RecvPacket(h, path, hash, offset, ckpt, size);
      if !ok {
        return;
      }
      if fine {
        ghost var junk := h.answers.junk(ckpt.offset);
        ComingNext(h.env, path, hash, old(h.fs), was, offset, at, ps.value, left, q, rest, junk,
                   h.fs, ckpt.offset, size, h.inbox);
      }
    }
    if fine {
      ComingLast(h.env, path, hash, old(h.fs), h.fs, offset, ckpt.offset, ps.value, h.inbox, rest);
    }
    EndReceiving(h, offset, ckpt.offset);
    ok := true;
  }

  ghost method EndReceiving(h: Process, offset: nat, pos: nat)
    requires h.Valid() && h.proc.pc == R(RecvLoop(offset, pos, 0))
    modifies h`proc, h`steps
    ensures h.Valid() && h.proc == old(h.proc).At(R(Verify(offset)))
  {
    h.Pass(R(Verify(offset)));
  }

  /** One turn of the loop. */
  method RecvPacket(h: Process, path: CString, hash: Hash, ghost st: nat, ckpt: Checkpoint, size: nat)
      returns (next: Checkpoint, rest: nat, ok: bool)
    requires h.Valid() && h.proc.pc == R(RecvLoop(st, ckpt.offset, size)) && size != 0
    requires h.proc.Path() == path == ckpt.path && h.proc.hash == hash
    modifies h
    ensures ok ==> h.Valid() && h.Talked(1, []) && h.log == old(h.log)
                   && h.proc == old(h.proc).At(R(RecvLoop(st, next.offset, rest)))
    ensures ok ==> var m, file := old(h.inbox)[0], h.env.file(path);
                   && IsA(APacket, m) && next == Checkpoint(ckpt.offset + m.count, path) && next.Fits()
                   && rest == Sub64(size, m.count)
                   && file in old(h.fs) && ckpt.offset <= |old(h.fs)[file]|
                   && h.fs == Stored(h.env, path, hash, old(h.fs), ckpt.offset,
                                     Open(h.env.keys, m.payload, m.count), h.answers.junk(next.offset))
    ensures var file := h.env.file(path);
            (&& h.reliable && old(h.inbox) != [] && IsA(APacket, old(h.inbox)[0])
             && Checkpoint(ckpt.offset + old(h.inbox)[0].count, path).Fits()
             && file in old(h.fs) && ckpt.offset <= |old(h.fs)[file]|) ==> ok
    ensures !ok ==> h.Halted()
  {
    next, rest, ok := ckpt, size, false;
    var data := h.Hear(APacket);
    if data.None? {
      return;
    }
    var out := OpenPayload(h.env.keys, data.value.payload, data.value.count);
    next, ok := StorePacket(h, path, hash, st, ckpt, size, out);
    rest := Sub64(size, |out|);
  }

  /** Creates the file, or walks over the octets that are already there. */
  method OpenArchive(h: Process, path: CString, offset: nat) returns (ok: bool)
    requires h.Valid() && h.proc.pc == R(OpenFile(offset)) && h.proc.Path() == path
    modifies h
    ensures ok ==> h.Valid() && h.Talked(0, []) && h.log == old(h.log)
    ensures ok ==> h.proc == old(h.proc).At(R(AwaitSize(offset)))
    ensures var file := h.env.file(path);
            ok ==> Openable(old(h.fs), file, offset) && h.fs == old(h.fs)[file := Opened(old(h.fs), file, offset)]
    ensures h.reliable && Openable(old(h.fs), h.env.file(path), offset) ==> ok
    ensures !ok ==> h.Halted()
  {
    var file := h.env.file(path);
    if offset == 0 {
      ok := h.Truncate(file);
      return;
    }
    var i := 0;
    while i < offset
      invariant i <= offset && (0 < i ==> file in h.fs && i <= |h.fs[file]|)
      invariant h.Valid() && h.proc == old(h.proc) && h.Talked(0, []) && h.Kept()
    {
      ok := h.Getc(file, i);
      if !ok {
        return;
      }
      i := i + 1;
    }
    h.Pass(R(AwaitSize(offset)));
    ok := true;
  }

  /** One turn of the receiving loop: data, temporary checkpoint, rename. */
  method StorePacket(h: Process, path: CString, hash: Hash, ghost st: nat, ckpt: Checkpoint, size: nat, out: Bytes)
      returns (next: Checkpoint, ok: bool)
    requires h.Valid() && h.proc.pc == R(WriteData(st, ckpt.offset, size, out))
    requires h.proc.Path() == path == ckpt.path && h.proc.hash == hash
    modifies h
    ensures next == Checkpoint(ckpt.offset + |out|, path)
    ensures ok ==> h.Valid() && h.Talked(0, []) && h.log == old(h.log)
                   && h.proc == old(h.proc).At(R(RecvLoop(st, next.offset, Sub64(size, |out|))))
    ensures var file := h.env.file(path);
            && (ok ==> file in old(h.fs) && ckpt.offset <= |old(h.fs)[file]| && next.Fits()
                       && h.fs == Stored(h.env, path, hash, old(h.fs), ckpt.offset, out, h.answers.junk(next.offset)))
            && (h.reliable && file in old(h.fs) && ckpt.offset <= |old(h.fs)[file]| && next.Fits() ==> ok)
    ensures !ok ==> h.Halted()
  {
    next := ckpt.(offset := ckpt.offset + |out|);
    ok := h.Write(h.env.file(path), ckpt.offset, out);
    if ok {
      ok := SaveCheckpoint(h, hash, st, next, Sub64(size, |out|));
    }
  }

  method SaveCheckpoint(h: Process, hash: Hash, ghost st: nat, ckpt: Checkpoint, ghost left: nat) returns (ok: bool)
    requires h.Valid() && h.proc.pc == R(WriteTmp(st, ckpt.offset, left))
    requires h.proc.Path() == ckpt.path && h.proc.hash == hash
    modifies h
    ensures ok ==> h.Valid() && h.Talked(0, []) && h.log == old(h.log)
                   && h.proc == old(h.proc).At(R(RecvLoop(st, ckpt.offset, left)))
    ensures ok ==> ckpt.Fits()
                   && h.fs == old(h.fs)[CkptName(h.env.dir, hash) := Record(ckpt, h.answers.junk(ckpt.offset))]
                              - {TmpName(h.env.dir, hash)}
    ensures h.reliable && ckpt.Fits() ==> ok
    ensures !ok ==> h.Halted()
  {
    var tmp := TmpName(h.env.dir, hash);
    ok := h.WriteRecord(tmp, ckpt);
    if ok {
      ok := h.Rename(tmp, CkptName(h.env.dir, hash));
    }
  }

  /**
   A transfer delivers. If the channel holds what filerail_sendfile sends from the offset, then what filerail_recvfile
   leaves is the rest of the archive over what was there; the file is the archive exactly if it agreed with the archive
   up to the offset and was no longer; and a checkpoint records the whole length.
   */
  lemma TransferDelivers(env: Env, path: CString, hash: Hash, was: Fs, now: Fs, zip: Bytes, offset: nat, rest: seq<Msg>)
    requires env.Valid() && offset <= |zip| < TWO64
    requires var q := [Resource(|zip|, [], [])] + (AsPackets(Parcels(env.keys, zip, offset)) + rest);
             && Supply(q, offset).Some?
             && Stowed(env, path, hash, was, now, offset, Supply(q, offset).value)
    ensures var file := env.file(path);
            && file in was && offset <= |was[file]| && file in now
            && now[file] == Overwrite(was[file], offset, zip[offset..])
            && (now[file] == zip <==> was[file][..offset] == zip[..offset] && |was[file]| <= |zip|)
    ensures offset < |zip| ==> Holds(now, CkptName(env.dir, hash), Checkpoint(|zip|, path))
  {
    SentIsSupply(env.keys, zip, offset, rest);
    var file, data := env.file(path), Reassemble(env.keys, Parcels(env.keys, zip, offset));
    assert Partial(env, path, hash, was, now, Overwrite(was[file], offset, data), offset, offset + |data|,
                   Parcels(env.keys, zip, offset) != []);
    OverlayExact(zip, was[file], offset);
  }

  // ---------------------------------------------------------------- filerail_sendfile_handler

  /** A server always agrees to resume; a client asks its user. */
  predicate Agrees(h: Process) { h.isServer || h.answers.agrees }

  /** What the sender says to the receiver's plan. */
  function Reply(h: Process, plan: Msg): seq<Msg> {
    if plan != Code(RESUME) then [] else if Agrees(h) then [Code(OK)] else [Code(ABORT)]
  }

  /** The receiver's plan comes, and its offset if it is to resume. */
  predicate PlanComes(h: Process, q: seq<Msg>) {
    Comes(q, ACode) && (q[0] == Code(RESUME) && Agrees(h) ==> Comes(q[1..], AnOffset))
  }

  /** All that the sender needs: plan and verdict come, and there is room for what it says. */
  predicate Served(h: Process, zip: Bytes, q: seq<Msg>, room: nat) {
    && PlanComes(h, q)
    && if q[0] == Code(RESUME) && Agrees(h)
       then Comes(q[2..], ACode) && q[1].offset <= |zip| && 3 + PacketsFor(|zip| - q[1].offset) <= room
       else Comes(q[1..], ACode) && 2 + |Reply(h, q[0])| + PacketsFor(|zip|) <= room
  }

  /** The digest, the reply to the receiver's plan, and the archive from the agreed offset; then the verdict. */
  method SendFileHandler(h: Process, zip: Bytes) returns (ok: bool, matched: bool, ghost offset: nat)
    requires h.Valid() && h.proc.pc == S(Zip) && zip == h.job.archive && |zip| < TWO64
    requires h.isServer || h.job.mode == Put
    modifies h
    ensures ok ==> h.Valid() && h.proc.pc == S(SendEnd(matched)) && h.Kept() && |old(h.inbox)| >= 2
    ensures ok ==> offset <= |zip|
                   && h.outbox == old(h.outbox) + [Digest(h.env.md5(zip))] + Reply(h, old(h.inbox)[0])
                                  + ([Resource(|zip|, [], [])] + AsPackets(Parcels(h.env.keys, zip, offset)))
    ensures ok ==> if old(h.inbox)[0] == Code(RESUME) && Agrees(h)
                   then |old(h.inbox)| >= 3 && h.inbox == old(h.inbox)[3..] && old(h.inbox)[1] == Offset(offset)
                        && (matched <==> old(h.inbox)[2] == Code(OK))
                   else h.inbox == old(h.inbox)[2..] && offset == 0 && (matched <==> old(h.inbox)[1] == Code(OK))
    ensures h.reliable && Served(h, zip, old(h.inbox), old(h.room)) ==> ok
    ensures !ok ==> h.Halted()
  {
    matched, offset := false, 0;
    ok := AdvertiseHash(h, zip);
    if !ok {
      return;
    }
    var from;
    ok, from := AgreeOnOffset(h);
    if !ok {
      return;
    }
    offset := from;
    ok, matched := Transfer(h, zip, from);
  }

  method AdvertiseHash(h: Process, zip: Bytes) returns (ok: bool)
    requires h.Valid() && h.proc.pc == S(Zip) && zip == h.job.archive
    modifies h
    ensures ok <==> old(h.room) > 0
    ensures ok ==> h.Valid() && h.proc.pc == S(AwaitPlan) && h.Talked(0, [Digest(h.env.md5(zip))]) && h.Kept()
    ensures !ok ==> h.Halted()
  {
    h.Pass(S(SayHash));
    ok := h.Say(Digest(h.env.md5(zip)), S(AwaitPlan));
  }

  /** The archive from the offset, then the verdict. */
  method Transfer(h: Process, zip: Bytes, offset: nat) returns (ok: bool, matched: bool)
    requires h.Valid() && h.proc.pc == S(SaySize(offset)) && zip == h.job.archive
    requires |zip| < TWO64 && offset < TWO64
    modifies h
    ensures ok ==> h.Valid() && h.proc.pc == S(SendEnd(matched)) && h.Kept() && offset <= |zip|
    ensures ok ==> h.Talked(1, [Resource(|zip|, [], [])] + AsPackets(Parcels(h.env.keys, zip, offset)))
                   && (matched <==> old(h.inbox)[0] == Code(OK))
    ensures (&& h.reliable && Comes(old(h.inbox), ACode)
             && offset <= |zip| && 1 + PacketsFor(|zip| - offset) <= old(h.room)) ==> ok
    ensures !ok ==> h.Halted()
  {
    matched := false;
    ok := SendFile(h, zip, offset);
    if ok {
      ok, matched := HearVerdict(h);
    }
  }

  method HearVerdict(h: Process) returns (ok: bool, matched: bool)
    requires h.Valid() && h.proc.pc == S(AwaitVerdict)
    modifies h
    ensures ok ==> h.Valid() && h.proc.pc == S(SendEnd(matched)) && h.Talked(1, []) && h.Kept()
    ensures ok ==> (matched <==> old(h.inbox)[0] == Code(OK))
    ensures h.reliable && Comes(old(h.inbox), ACode) ==> ok
    ensures !ok ==> h.Halted()
  {
    var response := h.Hear(ACode);
    ok := response.Some?;
    matched := ok && response.value.code == OK;
  }

  /** RESUME, RESTART or anything else: an unexpected plan is reported, and the transfer starts over. */
  method AgreeOnOffset(h: Process) returns (ok: bool, offset: nat)
    requires h.Valid() && h.proc.pc == S(AwaitPlan) && (h.isServer || h.job.mode == Put)
    modifies h
    ensures ok ==> h.Valid() && h.proc.pc == S(SaySize(offset)) && offset < TWO64 && h.Kept() && old(h.inbox) != []
    ensures ok && old(h.inbox)[0] == Code(RESUME) && (h.isServer || h.answers.agrees) ==>
              h.Talked(2, [Code(OK)]) && old(h.inbox)[1] == Offset(offset)
    ensures ok && old(h.inbox)[0] == Code(RESUME) && !h.isServer && !h.answers.agrees ==>
              h.Talked(1, [Code(ABORT)]) && offset == 0
    ensures ok && old(h.inbox)[0] != Code(RESUME) ==> h.Talked(1, []) && offset == 0
    ensures h.isServer ==> h.outbox == old(h.outbox) || h.outbox == old(h.outbox) + [Code(OK)]
    ensures h.reliable && old(h.room) > 0 && PlanComes(h, old(h.inbox)) ==> ok
    ensures !ok ==> h.Halted()
  {
    offset := 0;
    var command := h.Hear(ACode);
    if command.None? {
      return false, 0;
    }
    if command.value.code == RESUME {
      var yes := h.answers.agrees;
      if h.isServer {
        yes := true;
      }
      if yes {
        ok, offset := AgreeToResume(h);
      } else {
        ok := h.Say(Code(ABORT), S(SaySize(0)));
      }
    } else {
      ok := true;
    }
  }

  method AgreeToResume(h: Process) returns (ok: bool, offset: nat)
    requires h.Valid() && h.proc.pc == S(Choose) && (h.isServer || h.answers.agrees)
    modifies h
    ensures ok ==> h.Valid() && h.proc.pc == S(SaySize(offset)) && offset < TWO64 && h.Kept()
                   && h.Talked(1, [Code(OK)]) && old(h.inbox)[0] == Offset(offset)
    ensures h.outbox == old(h.outbox) || h.outbox == old(h.outbox) + [Code(OK)]
    ensures h.reliable && old(h.room) > 0 && Comes(old(h.inbox), AnOffset) ==> ok
    ensures !ok ==> h.Halted()
  {
    offset := 0;
    ok := h.Say(Code(OK), S(AwaitOffset));
    if !ok {
      return;
    }
    var fo := h.Hear(AnOffset);
    if fo.None? {
      return false, 0;
    }
    offset := fo.value.offset;
  }

  // ---------------------------------------------------------------- filerail_recvfile_handler

  /**
   The whole receiver. It ends at once if the sender answers an offer with anything but OK or ABORT, and otherwise when
   the received file has been judged by the digest that was heard first.
   */
  method RecvFileHandler(h: Process, resource: CString, path: CString) returns (ok: bool)
    requires h.Valid() && h.proc.pc == R(AwaitHash) && h.proc.resource == resource && h.proc.Path() == path
    modifies h
    ensures ok ==> h.Valid() && (h.proc.pc == End || (h.proc.pc.R? && h.proc.pc.r.RecvEnd?))
    ensures ok && h.proc.pc == End ==> h.Kept()
    ensures ok && h.proc.pc.R? ==>
              && old(h.inbox) != [] && old(h.inbox)[0].Digest?
              && exists content, was :: Judged(h, resource, content, old(h.inbox)[0].hash, was, old(h.log))
    ensures !ok ==> h.Halted()
  {
    var rh := h.Hear(ADigest);
    if rh.None? {
      return false;
    }
    var hash := rh.value.hash;
    var goes, offset;
    ghost var readable, found;
    ok, goes, offset, readable, found := OfferCheckpoint(h, path, hash);
    if !ok || !goes {
      return;
    }
    ok := RecvFile(h, path, hash, offset);
    if ok {
      ok := CheckAndExtract(h, resource, path, hash, offset);
    }
  }

  /** A whole checkpoint of the hash records c for the path, and the partial file has at least so many octets. */
  ghost predicate CanResume(env: Env, path: CString, hash: Hash, fs: Fs, c: nat) {
    && Holds(fs, CkptName(env.dir, hash), Checkpoint(c, path))
    && env.file(path) in fs && c <= |fs[env.file(path)]|
  }

  /** The receiver can resume from c, and nothing keeps it from finding that out. */
  ghost predicate Resumes(h: Process, path: CString, hash: Hash, fs: Fs, c: nat) {
    h.answers.ckptOpens && h.answers.stats && CanResume(h.env, path, hash, fs, c)
  }

  /**
   The search for a checkpoint (filerail/operations.h:248-316) and the talk about it: RESUME if there is one to resume
   from, otherwise RESTART.
   */
  method OfferCheckpoint(h: Process, path: CString, hash: Hash)
      returns (ok: bool, goes: bool, offset: nat, ghost readable: bool, ghost found: Option<nat>)
    requires h.Valid() && h.proc.pc == R(Lookup) && h.proc.Path() == path && h.proc.hash == hash
    modifies h
    ensures h.Kept()
    ensures ok ==> h.Valid() && if goes then h.proc == old(h.proc).At(R(OpenFile(offset))) else h.proc.pc == End
    ensures readable <==> (CkptName(h.env.dir, hash) in h.fs ==> h.answers.ckptReadable)
    ensures readable ==> forall c: nat :: found == Some(c) <==> Resumes(h, path, hash, h.fs, c)
    ensures ok ==> readable && if found.Some? then Asked(h, found.value, goes, offset)
                               else goes && offset == 0 && h.Talked(0, [Code(RESTART)])
    ensures readable && old(h.room) > 0 ==>
              old(h.outbox) + [Code(if found.Some? then RESUME else RESTART)] <= h.outbox
    ensures (&& h.reliable && readable && old(h.room) > 1
             && (found.Some? ==> Comes(old(h.inbox), ACode))) ==> ok
    ensures !ok ==> h.Halted()
  {
    goes, offset := true, 0;
    var there, known := FindCheckpoint(h, path, hash);
    readable, found := there, known;
    if !there {
      return false, false, 0, readable, found;
    }
    Settle(h, known);
    if known.Some? {
      ok, goes, offset := AskToResume(h, known.value);
    } else {
      ok := h.Say(Code(RESTART), R(OpenFile(0)));
    }
  }

  /** The model finds the same. */
  ghost predicate Known(h: Process, found: Option<nat>)
    reads h
  {
    found == if h.answers.ckptOpens && h.answers.stats
             then Resumable(h.env, h.proc.Path(), h.proc.hash, h.fs) else None
  }

  ghost method Settle(h: Process, found: Option<nat>)
    requires h.Valid() && h.proc.pc == R(Lookup) && Known(h, found)
    modifies h`proc, h`steps
    ensures h.Valid()
    ensures h.proc == old(h.proc).At(if found.Some? then R(AskResume(found.value)) else R(SayRestart))
  {
    h.Pass(if found.Some? then R(AskResume(found.value)) else R(SayRestart));
  }

  /**
   An existing checkpoint that cannot be accessed ends the session. If it can be opened and the partial file examined,
   what is found is exactly what can be resumed from.
   */
  method FindCheckpoint(h: Process, path: CString, hash: Hash) returns (readable: bool, found: Option<nat>)
    requires h.Valid() && h.proc.pc == R(Lookup) && h.proc.Path() == path && h.proc.hash == hash
    modifies h`failed
    ensures readable <==> (CkptName(h.env.dir, hash) in h.fs ==> h.answers.ckptReadable)
    ensures readable ==> forall c: nat :: found == Some(c) <==> Resumes(h, path, hash, h.fs, c)
    ensures readable ==> Known(h, found)
    ensures if readable then h.Valid() else h.Halted()
  {
    var name, file := CkptName(h.env.dir, hash), h.env.file(path);
    readable, found := true, None;
    if name in h.fs {
      readable := h.Readable(name);
      if readable && h.answers.ckptOpens && |h.fs[name]| >= RECORD_SIZE {
        var ckpt := ParseRecord(h.fs[name][..RECORD_SIZE]);
        if ckpt.path == path && file in h.fs && h.answers.stats && ckpt.offset <= |h.fs[file]| {
          found := Some(ckpt.offset);
        }
      }
    }
  }

  /** What is said and heard about an offer of c, and where the transfer then begins. */
  twostate predicate Asked(h: Process, c: nat, goes: bool, offset: nat)
    reads h
  {
    && old(h.inbox) != []
    && (old(h.inbox)[0] == Code(OK) ==> h.Talked(1, [Code(RESUME), Offset(c)]) && goes && offset == c)
    && (old(h.inbox)[0] != Code(OK) ==> h.Talked(1, [Code(RESUME)]) && offset == 0
                                        && (goes <==> old(h.inbox)[0] == Code(ABORT)))
  }

  method AskToResume(h: Process, found: nat) returns (ok: bool, goes: bool, offset: nat)
    requires h.Valid() && h.proc.pc == R(AskResume(found))
    modifies h
    ensures ok ==> h.Valid() && Asked(h, found, goes, offset)
    ensures ok ==> if goes then h.proc == old(h.proc).At(R(OpenFile(offset))) else h.proc.pc == End
    ensures old(h.room) > 0 ==> old(h.outbox) + [Code(RESUME)] <= h.outbox
    ensures h.Kept()
    ensures h.reliable && old(h.room) > 1 && Comes(old(h.inbox), ACode) ==> ok
    ensures !ok ==> h.Halted()
  {
    goes, offset := false, 0;
    ok := h.Say(Code(RESUME), R(AwaitChoice(found)));
    if ok {
      ok, goes, offset := HearChoice(h, found);
    }
  }

  method HearChoice(h: Process, found: nat) returns (ok: bool, goes: bool, offset: nat)
    requires h.Valid() && h.proc.pc == R(AwaitChoice(found))
    modifies h
    ensures h.Kept() && old(h.outbox) <= h.outbox
    ensures ok ==> h.Valid() && if goes then h.proc == old(h.proc).At(R(OpenFile(offset))) else h.proc.pc == End
    ensures ok ==> && old(h.inbox) != []
                   && (goes <==> old(h.inbox)[0] == Code(OK) || old(h.inbox)[0] == Code(ABORT))
                   && if old(h.inbox)[0] == Code(OK) then h.Talked(1, [Offset(found)]) && offset == found
                      else h.Talked(1, []) && offset == 0
    ensures h.reliable && old(h.room) > 0 && Comes(old(h.inbox), ACode) ==> ok
    ensures !ok ==> h.Halted()
  {
    ok, goes, offset := true, false, 0;
    var response := h.Hear(ACode);
    if response.None? {
      return false, false, 0;
    }
    goes := response.value.code == OK || response.value.code == ABORT;
    if response.value.code == OK {
      offset := found;
      ok := h.Say(Offset(offset), R(OpenFile(offset)));
    }
  }

  /** What the handler has made of the received file: it is extracted exactly if its digest is the advertised one. */
  ghost predicate Judged(h: Process, resource: CString, content: Bytes, hash: Hash, fs: Fs, log: seq<Event>)
    requires h.proc.pc.R? && h.proc.pc.r.RecvEnd?
    reads h
  {
    var good, extracted := h.proc.pc.r.good, h.env.Unzipped(h.env.file(resource), content);
    && (good <==> h.env.md5(content) == hash)
    && h.log == log + (if good then [Verified(content), Extracted(content)] else [])
    && h.fs == (if good then fs + extracted else fs)
                - {h.env.file(resource + ZIP_SUFFIX), CkptName(h.env.dir, hash)}
    && h.outbox != [] && h.outbox[|h.outbox| - 1] == Code(if good then OK else NO_INTEGRITY)
  }

  /** From the digest of the received file to the removal of file and checkpoint. */
  method CheckAndExtract(h: Process, resource: CString, path: CString, hash: Hash, ghost st: nat) returns (ok: bool)
    requires h.Valid() && h.proc.pc == R(Verify(st)) && h.proc.hash == hash
    requires h.proc.resource == resource && h.proc.Path() == path
    modifies h
    ensures ok ==> h.Valid() && h.proc.pc.R? && h.proc.pc.r.RecvEnd?
    ensures ok ==> var file := h.env.file(path);
                   file in old(h.fs) && Judged(h, resource, old(h.fs)[file], hash, old(h.fs), old(h.log))
    ensures ok ==> h.Talked(0, [Code(if h.proc.pc.r.good then OK else NO_INTEGRITY)])
    ensures var file, ckpt := h.env.file(path), CkptName(h.env.dir, hash);
            h.reliable && old(h.room) > 0 && file in old(h.fs) && ckpt in old(h.fs) && file != ckpt ==> ok
    ensures !ok ==> h.Halted()
  {
    var content := h.Load(h.env.file(path));
    if content.None? {
      return false;
    }
    var computed := Md5(h.env.md5, content.value);
    if computed == hash {
      ok := ExtractArchive(h, resource, path, hash, st);
    } else {
      ok := RefuseMatch(h, path, hash, st);
    }
    if ok {
      ok := CleanFiles(h, path, hash, computed == hash);
    }
  }

  method RefuseMatch(h: Process, path: CString, hash: Hash, ghost st: nat) returns (ok: bool)
    requires h.Valid() && h.proc.pc == R(Verify(st)) && h.proc.Path() == path && h.proc.hash == hash
    requires h.env.file(path) in h.fs && h.env.md5(h.fs[h.env.file(path)]) != hash
    modifies h
    ensures ok <==> old(h.room) > 0
    ensures ok ==> h.Valid() && h.proc == old(h.proc).At(R(RemoveFile(false))) && h.fs == old(h.fs)
                   && h.log == old(h.log) + [] && h.Talked(0, [Code(NO_INTEGRITY)])
    ensures !ok ==> h.Halted()
  {
    h.Pass(R(SayBad));
    ok := h.Say(Code(NO_INTEGRITY), R(RemoveFile(false)));
    assert h.log == old(h.log) + [];
  }

  method ExtractArchive(h: Process, resource: CString, path: CString, hash: Hash, ghost st: nat) returns (ok: bool)
    requires h.Valid() && h.proc.pc == R(Verify(st)) && h.proc.hash == hash
    requires h.proc.resource == resource && h.proc.Path() == path
    requires h.env.file(path) in h.fs && h.env.md5(h.fs[h.env.file(path)]) == hash
    modifies h
    ensures var content := old(h.fs)[h.env.file(path)];
            ok ==> h.Valid() && h.proc == old(h.proc).At(R(RemoveFile(true))) && h.Talked(0, [Code(OK)])
                   && h.fs == old(h.fs) + h.env.Unzipped(h.env.file(resource), content)
                   && h.log == old(h.log) + [Verified(content), Extracted(content)]
    ensures h.reliable && old(h.room) > 0 ==> ok
    ensures !ok ==> h.Halted()
  {
    var content := h.fs[h.env.file(path)];
    ok := ConfirmMatch(h, path, hash, st);
    if !ok {
      return;
    }
    ok := h.ExtractInto(h.env.file(resource), content);
    assert ok ==> h.log == old(h.log) + [Verified(content), Extracted(content)];
  }

  method ConfirmMatch(h: Process, path: CString, hash: Hash, ghost st: nat) returns (ok: bool)
    requires h.Valid() && h.proc.pc == R(Verify(st)) && h.proc.Path() == path && h.proc.hash == hash
    requires h.env.file(path) in h.fs && h.env.md5(h.fs[h.env.file(path)]) == hash
    modifies h
    ensures ok <==> old(h.room) > 0
    ensures ok ==> h.Valid() && h.proc == old(h.proc).At(R(Extract)) && h.Talked(0, [Code(OK)]) && h.fs == old(h.fs)
                   && h.log == old(h.log) + [Verified(h.fs[h.env.file(path)])]
    ensures !ok ==> h.Halted()
  {
    h.Report(Verified(h.fs[h.env.file(path)]), R(SayOk));
    ok := h.Say(Code(OK), R(Extract));
  }

  method CleanFiles(h: Process, path: CString, hash: Hash, ghost good: bool) returns (ok: bool)
    requires h.Valid() && h.proc.pc == R(RemoveFile(good)) && h.proc.Path() == path && h.proc.hash == hash
    modifies h
    ensures ok ==> h.Valid() && h.proc.pc == R(RecvEnd(good)) && h.log == old(h.log) && h.Talked(0, [])
    ensures ok ==> h.fs == old(h.fs) - {h.env.file(path), CkptName(h.env.dir, hash)}
    ensures var file, ckpt := h.env.file(path), CkptName(h.env.dir, hash);
            h.reliable && file in old(h.fs) && ckpt in old(h.fs) && file != ckpt ==> ok
    ensures !ok ==> h.Halted()
  {
    var file, ckpt := h.env.file(path), CkptName(h.env.dir, hash);
    RemoveBoth(h.fs, file, ckpt);
    ok := h.Remove(file, R(RemoveCkpt(good)));
    if ok {
      ok := RemoveCheckpoint(h, ckpt, good);
    }
  }

  method RemoveCheckpoint(h: Process, ckpt: CString, ghost good: bool) returns (ok: bool)
    requires h.Valid() && h.proc.pc == R(RemoveCkpt(good)) && ckpt == CkptName(h.env.dir, h.proc.hash)
    modifies h
    ensures ok ==> h.Valid() && h.proc.pc == R(RecvEnd(good)) && h.log == old(h.log) && h.Talked(0, [])
    ensures ok ==> h.fs == old(h.fs) - {ckpt}
    ensures h.reliable && ckpt in old(h.fs) ==> ok
    ensures !ok ==> h.Halted()
  {
    ok := h.Remove(ckpt, R(RecvEnd(good)));
  }

  lemma RemoveBoth(fs: Fs, a: CString, b: CString)
    ensures fs - {a} - {b} == fs - {a, b}
  {
  }

  // ---------------------------------------------------------------- filerail_client.c

  method ClientPing(h: Process) returns (ok: bool)
    requires h.Valid() && h.proc.pc == C(PingAsk)
    modifies h
    ensures ok ==> h.Valid() && h.proc.pc == End && h.Talked(1, [Code(PING)]) && h.Kept()
    ensures h.reliable && old(h.room) > 0 && Comes(old(h.inbox), ACode) ==> ok
    ensures !ok ==> h.Halted()
  {
    ok := h.Say(Code(PING), C(PingWait));
    if ok {
      var response := h.Hear(ACode);
      ok := response.Some?;
    }
  }

  /** An upload: to its end, if the server allows it. */
  method ClientPut(h: Process, zip: Bytes) returns (ok: bool, ghost started: bool)
    requires h.Valid() && h.proc.pc == C(PutAsk) && h.job.mode == Put && zip == h.job.archive && |zip| < TWO64
    modifies h
    ensures ok ==> h.Valid() && h.Kept() && old(h.inbox) != []
                   && (started <==> MayPut(h, old(h.inbox)[0]))
                   && if started then h.proc.pc.S? && h.proc.pc.s.SendEnd? else h.proc.pc == End
    ensures !ok ==> h.Halted()
  {
    var start: bool;
    ok, start := AskToPut(h);
    started := start;
    if ok && start {
      var matched;
      ghost var offset;
      ok, matched, offset := SendFileHandler(h, zip);
    }
  }

  /** The server allows the upload, or the user has the existing resource overwritten. */
  predicate MayPut(h: Process, answer: Msg) {
    answer == Code(OK) || (answer == Code(DUPLICATE_RESOURCE_NAME) && h.answers.rewrites)
  }

  /** Up to the answer that allows the transfer, if any. */
  method AskToPut(h: Process) returns (ok: bool, start: bool)
    requires h.Valid() && h.proc.pc == C(PutAsk)
    modifies h
    ensures ok ==> h.Valid() && h.proc.pc == (if start then S(Zip) else End) && h.Kept()
    ensures ok ==> old(h.inbox) != [] && (start <==> MayPut(h, old(h.inbox)[0]))
                   && var request := [Code(PUT), Resource(h.job.statSize, h.job.name, h.job.target)];
                      h.Talked(1, if old(h.inbox)[0] != Code(DUPLICATE_RESOURCE_NAME) then request
                                  else request + [Code(if h.answers.rewrites then OVERWRITE else ABORT)])
    ensures h.reliable && old(h.room) > 2 && Comes(old(h.inbox), ACode) ==> ok
    ensures !ok ==> h.Halted()
  {
    start := false;
    ok := RequestPut(h);
    if !ok {
      return;
    }
    var response := h.Hear(ACode);
    if response.None? {
      return false, false;
    }
    var code := response.value.code;
    if code == DUPLICATE_RESOURCE_NAME {
      ok, start := AnswerDuplicate(h);
    } else {
      start := code == OK;
    }
  }

  method AnswerDuplicate(h: Process) returns (ok: bool, start: bool)
    requires h.Valid() && h.proc.pc == C(PutChoose)
    modifies h
    ensures ok <==> old(h.room) > 0
    ensures ok ==> h.Valid() && h.proc.pc == (if start then S(Zip) else End) && h.Kept()
                   && start == h.answers.rewrites && h.Talked(0, [Code(if start then OVERWRITE else ABORT)])
    ensures !ok ==> h.Halted()
  {
    start := h.answers.rewrites;
    if start {
      ok := h.Say(Code(OVERWRITE), S(Zip));
    } else {
      ok := h.Say(Code(ABORT), End);
    }
  }

  method RequestPut(h: Process) returns (ok: bool)
    requires h.Valid() && h.proc.pc == C(PutAsk)
    modifies h
    ensures ok <==> old(h.room) >= 2
    ensures ok ==> h.Valid() && h.proc == old(h.proc).At(C(PutWait)) && h.Kept()
                   && h.Talked(0, [Code(PUT), Resource(h.job.statSize, h.job.name, h.job.target)])
    ensures !ok ==> h.Halted()
  {
    ok := h.Say(Code(PUT), C(PutDescribe));
    if ok {
      ok := h.Say(Resource(h.job.statSize, h.job.name, h.job.target), C(PutWait));
    }
  }

  /** A download: to its end, if the server has the resource and there is room for it. */
  method ClientGet(h: Process, resource: CString) returns (ok: bool, ghost started: bool)
    requires h.Valid() && h.proc.pc == C(GetAsk) && h.proc.resource == resource
    modifies h
    ensures ok ==> h.Valid() && old(h.inbox) != []
                   && (started <==> old(h.inbox)[0] == Code(OK) && h.answers.fits)
                   && (!started ==> h.proc.pc == End)
                   && (h.proc.pc == End || (h.proc.pc.R? && h.proc.pc.r.RecvEnd?))
    ensures !ok ==> h.Halted()
  {
    var start: bool;
    ok, start := AskToGet(h);
    started := start;
    if ok && start {
      ok := RecvFileHandler(h, resource, resource + ZIP_SUFFIX);
    }
  }

  method AskToGet(h: Process) returns (ok: bool, start: bool)
    requires h.Valid() && h.proc.pc == C(GetAsk)
    modifies h
    ensures ok ==> h.Valid() && h.proc.resource == old(h.proc.resource) && h.Kept()
                   && h.proc.pc == if start then R(AwaitHash) else End
    ensures ok ==> old(h.inbox) != []
                   && var request := [Code(GET), Resource(0, h.job.name, h.job.source)];
                      if old(h.inbox)[0] != Code(OK) then h.Talked(1, request) && !start
                      else h.Talked(2, request + [Code(if start then OK else ABORT)]) && start == h.answers.fits
    ensures (&& h.reliable && old(h.room) > 2 && Comes(old(h.inbox), ACode)
             && (old(h.inbox)[0] == Code(OK) ==> Comes(old(h.inbox)[1..], AResource))) ==> ok
    ensures !ok ==> h.Halted()
  {
    start := false;
    ok := RequestGet(h);
    if !ok {
      return;
    }
    var response := h.Hear(ACode);
    if response.None? {
      return false, false;
    }
    if response.value.code == OK {
      ok, start := CheckStorage(h);
    }
  }

  method RequestGet(h: Process) returns (ok: bool)
    requires h.Valid() && h.proc.pc == C(GetAsk)
    modifies h
    ensures ok <==> old(h.room) >= 2
    ensures ok ==> h.Valid() && h.proc == old(h.proc).At(C(GetWait)) && h.Kept()
                   && h.Talked(0, [Code(GET), Resource(0, h.job.name, h.job.source)])
    ensures !ok ==> h.Halted()
  {
    ok := h.Say(Code(GET), C(GetDescribe));
    if ok {
      ok := h.Say(Resource(0, h.job.name, h.job.source), C(GetWait));
    }
  }

  method CheckStorage(h: Process) returns (ok: bool, start: bool)
    requires h.Valid() && h.proc.pc == C(GetSize)
    modifies h
    ensures ok ==> h.Valid() && h.proc.resource == old(h.proc.resource) && h.Kept()
                   && h.proc.pc == if start then R(AwaitHash) else End
    ensures ok ==> start == h.answers.fits && h.Talked(1, [Code(if start then OK else ABORT)])
    ensures h.reliable && old(h.room) > 0 && Comes(old(h.inbox), AResource) ==> ok
    ensures !ok ==> h.Halted()
  {
    var resource := h.Hear(AResource);
    if resource.None? {
      return false, false;
    }
    start := h.answers.fits; // filerail_check_storage_size
    if start {
      ok := h.Say(Code(OK), R(AwaitHash));
    } else {
      ok := h.Say(Code(ABORT), End);
    }
  }

  // ---------------------------------------------------------------- filerail_server.c

  /** The child process of one client. `zip` is what it would send for a GET. */
  method ServeClient(h: Process, zip: Bytes) returns (ok: bool)
    requires h.Valid() && h.proc.pc == V(AwaitCommand) && h.isServer && zip == h.job.archive && |zip| < TWO64
    modifies h
    ensures ok ==> h.Valid() && old(h.inbox) != []
                   && match old(h.inbox)[0]
                      case Code(c) =>
                        if c == PUT then h.proc.pc == End || (h.proc.pc.R? && h.proc.pc.r.RecvEnd?)
                        else if c == PING then h.proc.pc == End && h.Talked(1, [Code(PONG)]) && h.Kept()
                        else if c == GET then h.Kept() && (h.proc.pc == End || (h.proc.pc.S? && h.proc.pc.s.SendEnd?))
                        else h.proc.pc == End && h.Talked(1, []) && h.Kept()
                      case _ => false
    ensures !ok ==> h.Halted()
  {
    var command := h.Hear(ACode);
    if command.None? {
      return false;
    }
    if command.value.code == PUT {
      var start, resource;
      ok, start, resource := CheckPut(h);
      if ok && start {
        ok := RecvFileHandler(h, resource, resource + ZIP_SUFFIX);
      }
    } else if command.value.code == PING {
      ok := h.Say(Code(PONG), End);
    } else if command.value.code == GET {
      var start;
      ok, start := CheckGet(h);
      if ok && start {
        var matched;
        ghost var offset;
        ok, matched, offset := SendFileHandler(h, zip);
      }
    } else {
      ok := true; // "PROTOCOL NOT FOLLOWED"
    }
  }

  /** One message heard, this code said in return, and the disk left alone. */
  twostate predicate Answered(h: Process, code: byte)
    reads h
  {
    h.Talked(1, [Code(code)]) && h.Kept()
  }

  /** Says what the answers of the system call for; all but a duplicate name end the session. */
  method Respond(h: Process, code: byte) returns (ok: bool)
    requires h.Valid() && (h.proc.pc == V(PutCheck) || h.proc.pc == V(GetCheck))
    requires h.Chosen(h.proc.pc) == Answer(code)
    modifies h
    ensures ok <==> old(h.room) > 0
    ensures ok ==> h.Valid() && h.Talked(0, [Code(code)]) && h.Kept()
                   && h.proc == old(h.proc).At(if code == DUPLICATE_RESOURCE_NAME then V(PutReply) else End)
    ensures !ok ==> h.Halted()
  {
    ok := h.Say(Code(code), if code == DUPLICATE_RESOURCE_NAME then V(PutReply) else End);
  }

  /** Everything before the server's side of an upload. */
  method CheckPut(h: Process) returns (ok: bool, start: bool, resource: CString)
    requires h.Valid() && h.proc.pc == V(PutInfo)
    modifies h
    ensures ok ==> h.Valid() && if start then h.proc.pc == R(AwaitHash) && h.proc.resource == resource
                                else h.proc.pc == End
    ensures ok ==> old(h.inbox) != [] && old(h.inbox)[0].Resource?
                   && resource == old(h.inbox)[0].dir + [SLASH] + old(h.inbox)[0].name
    ensures var a := h.answers;
            ok ==> if !a.fits then Answered(h, INSUFFICIENT_SPACE) && !start
                   else if a.present && a.writeable then
                     && h.Talked(2, [Code(DUPLICATE_RESOURCE_NAME)])
                     && (start <==> old(h.inbox)[1] == Code(OVERWRITE))
                     && h.fs == (if start then Removed(old(h.fs), h.env.file(resource)) else old(h.fs))
                     && h.log == old(h.log)
                   else if a.present then Answered(h, NO_ACCESS) && !start
                   else if !a.dirFound then Answered(h, NOT_FOUND) && !start
                   else if a.dirWriteable then Answered(h, OK) && start
                   else Answered(h, NO_ACCESS) && !start
    ensures (&& h.reliable && old(h.room) > 0 && Comes(old(h.inbox), AResource)
             && (h.answers.present && h.answers.writeable ==> Comes(old(h.inbox)[1..], ACode))) ==> ok
    ensures !ok ==> h.Halted()
  {
    start, resource := false, [];
    var info := h.Hear(AResource);
    if info.None? {
      return false, false, [];
    }
    resource := info.value.dir + [SLASH] + info.value.name;
    if h.answers.fits {
      if h.answers.present {
        if h.answers.writeable {
          ok, start := OfferOverwrite(h, resource);
        } else {
          ok := Respond(h, NO_ACCESS);
        }
      } else if !h.answers.dirFound {
        ok := Respond(h, NOT_FOUND);
      } else if h.answers.dirWriteable {
        ok := h.Say(Code(OK), R(AwaitHash));
        start := true;
      } else {
        ok := Respond(h, NO_ACCESS);
      }
    } else {
      ok := Respond(h, INSUFFICIENT_SPACE);
    }
  }

  /** A duplicate name: the old resource goes if the client says so. */
  method OfferOverwrite(h: Process, resource: CString) returns (ok: bool, start: bool)
    requires h.Valid() && h.proc.pc == V(PutCheck) && h.proc.resource == resource
    requires h.answers.fits && h.answers.present && h.answers.writeable
    modifies h
    ensures ok ==> h.Valid() && h.proc.resource == resource && h.proc.pc == if start then R(AwaitHash) else End
    ensures ok ==> h.Talked(1, [Code(DUPLICATE_RESOURCE_NAME)]) && (start <==> old(h.inbox)[0] == Code(OVERWRITE))
    ensures ok ==> h.fs == (if start then Removed(old(h.fs), h.env.file(resource)) else old(h.fs))
                   && h.log == old(h.log)
    ensures h.reliable && old(h.room) > 0 && Comes(old(h.inbox), ACode) ==> ok
    ensures !ok ==> h.Halted()
  {
    start := false;
    ok := Respond(h, DUPLICATE_RESOURCE_NAME);
    if !ok {
      return;
    }
    var command := h.Hear(ACode);
    if command.None? {
      return false, false;
    }
    if command.value.code == OVERWRITE {
      ok := h.RemoveResource(h.env.file(resource));
      start := ok;
    }
  }

  /** Everything before the server's side of a download. */
  method CheckGet(h: Process) returns (ok: bool, start: bool)
    requires h.Valid() && h.proc.pc == V(GetInfo)
    modifies h
    ensures ok ==> h.Valid() && h.proc.pc == if start then S(Zip) else End
    ensures var a := h.answers;
            ok ==> if !a.present then Answered(h, NOT_FOUND) && !start
                   else if !a.readable then Answered(h, NO_ACCESS) && !start
                   else if !a.regular then Answered(h, BAD_RESOURCE) && !start
                   else h.Talked(2, [Code(OK), Resource(h.job.statSize, [], [])]) && h.Kept()
                        && (start <==> old(h.inbox)[1] == Code(OK))
    ensures (&& h.reliable && old(h.room) > 1 && Comes(old(h.inbox), AResource)
             && Comes(old(h.inbox)[1..], ACode)) ==> ok
    ensures !ok ==> h.Halted()
  {
    start := false;
    var resource := h.Hear(AResource);
    if resource.None? {
      return false, false;
    }
    if !h.answers.present {
      ok := Respond(h, NOT_FOUND);
    } else if !h.answers.readable {
      ok := Respond(h, NO_ACCESS);
    } else if !h.answers.regular {
      ok := Respond(h, BAD_RESOURCE);
    } else {
      ok, start := AnnounceGet(h);
    }
  }

  /** The server is ready: OK, the size, and the client's answer to it. */
  method AnnounceGet(h: Process) returns (ok: bool, start: bool)
    requires h.Valid() && h.proc.pc == V(GetCheck) && h.Chosen(h.proc.pc) == Go
    modifies h
    ensures ok ==> h.Valid() && (h.proc.pc == if start then S(Zip) else End) && h.Kept()
    ensures ok ==> h.Talked(1, [Code(OK), Resource(h.job.statSize, [], [])])
                   && (start <==> old(h.inbox)[0] == Code(OK))
    ensures h.reliable && old(h.room) > 1 && Comes(old(h.inbox), ACode) ==> ok
    ensures !ok ==> h.Halted()
  {
    start := false;
    ok := h.Say(Code(OK), V(GetAdvertise));
    if ok {
      ok, start := AdvertiseSize(h);
    }
  }

  method AdvertiseSize(h: Process) returns (ok: bool, start: bool)
    requires h.Valid() && h.proc.pc == V(GetAdvertise)
    modifies h
    ensures ok ==> h.Valid() && (h.proc.pc == if start then S(Zip) else End) && h.Kept()
    ensures ok ==> h.Talked(1, [Resource(h.job.statSize, [], [])]) && (start <==> old(h.inbox)[0] == Code(OK))
    ensures h.reliable && old(h.room) > 0 && Comes(old(h.inbox), ACode) ==> ok
    ensures !ok ==> h.Halted()
  {
    start := false;
    ok := h.Say(Resource(h.job.statSize, [], []), V(GetReply));
    if !ok {
      return;
    }
    var response := h.Hear(ACode);
    if response.None? {
      return false, false;
    }
    start := response.value.code == OK;
  }
}
