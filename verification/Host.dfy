/**
 One running process with its connection and its disk. Every operation is one of the calls the C code makes; the
 ghost fields record how far the process has come in the session model, so that code written with these operations is
 proved to take the steps of the model, in order, for as long as it can take them.
 */
module Hosts {
  import opened Bytes
  import opened Cipher
  import opened Disk
  import opened Protocol

  /**
   What the system and the user answer in one session: the user's choices, the tests of the resource and of the
   directory it is to go to, the tests of the checkpoint, and what is in memory behind a recorded path.
   */
  datatype Answers = Answers(
    agrees: bool,        // to resume (filerail/operations.h:115-122)
    rewrites: bool,      // the resource that exists
    fits: bool,          // filerail_check_storage_size
    present: bool,       // filerail_is_exists of the resource
    writeable: bool,     // filerail_is_writeable of the resource
    readable: bool,      // filerail_is_readable of the resource
    regular: bool,       // filerail_is_file or filerail_is_dir of the resource
    dirFound: bool,      // stat of the directory
    dirWriteable: bool,  // filerail_is_writeable of the directory
    ckptReadable: bool,  // filerail_is_readable of a checkpoint that exists
    ckptOpens: bool,     // fopen and fread of it report no error
    stats: bool,         // nor does stat of a partial file that exists
    junk: nat -> Bytes)

  /** What the answers decide at each point that the session model leaves open. */
  function Decision(a: Answers, isServer: bool, pc: Pc): Choice {
    match pc
    case C(PutChoose) => if a.rewrites then Go else Decline
    case C(GetChoose) => if a.fits then Go else Decline
    case V(PutCheck) =>
      if !a.fits then Answer(INSUFFICIENT_SPACE)
      else if a.present then Answer(if a.writeable then DUPLICATE_RESOURCE_NAME else NO_ACCESS)
      else if !a.dirFound then Answer(NOT_FOUND)
      else if a.dirWriteable then Go
      else Answer(NO_ACCESS)
    case V(GetCheck) =>
      if !a.present then Answer(NOT_FOUND)
      else if !a.readable then Answer(NO_ACCESS)
      else if !a.regular then Answer(BAD_RESOURCE)
      else Go
    case S(Choose) => if isServer || a.agrees then Go else Decline
    case R(Lookup) => if a.ckptOpens && a.stats then Go else ReadError
    case R(WriteTmp(_, pos, _)) => Junk(a.junk(pos))
    case _ => Go
  }

  /** A message of the kind, within the limits of its structure. */
  predicate IsA(k: Kind, m: Msg) {
    && KindOf(m) == k
    && match m
       case Resource(size, _, _) => size < TWO64
       case Offset(offset) => offset < TWO64
       case Packet(payload, count) => |payload| == BUFFER_SIZE && count <= BUFFER_SIZE
       case _ => true
  }

  /** The next message is there and of the kind. */
  predicate Comes(q: seq<Msg>, k: Kind) { q != [] && IsA(k, q[0]) }

  /** A waiting process can take any message of the kind it reads. */
  lemma Hearable(env: Env, p: Proc, m: Msg)
    requires env.Valid() && Waits(p.pc) && IsA(Reads(p.pc), m)
    ensures OnMsg(env, p, m).Hears?
  {
  }

  /** The receiver's extraction, whole or in part. */
  lemma ExtractTurn(env: Env, job: Job, p: Proc, fs: Fs)
    requires env.Valid() && p.pc == R(Extract) && p.File(env) in fs
    ensures var all := env.Unzipped(p.Home(env), fs[p.File(env)]);
            && OnTurn(env, job, p, fs, Go) == Works(R(RemoveFile(true)), fs + all, [Extracted(fs[p.File(env)])])
            && forall done :: Torn(env, p, fs, Remains(0, [], done)) == if PartOf(done, all) then fs + done else fs
  {
  }

  /** The receiver's writing of data, whole or in part. */
  lemma WriteTurn(env: Env, job: Job, p: Proc, fs: Fs, ch: Choice)
    requires env.Valid() && p.pc.R? && p.pc.r.WriteData?
    ensures var r, file := p.pc.r, p.File(env);
            var next := R(WriteTmp(r.start, r.pos + |r.data|, Sub64(r.left, |r.data|)));
            if file in fs && r.pos <= |fs[file]|
            then OnTurn(env, job, p, fs, ch) == Works(next, fs[file := Overwrite(fs[file], r.pos, r.data)], [])
                 && forall n: nat | n <= |r.data| ::
                      Torn(env, p, fs, Remains(n, [], map[])) == fs[file := Overwrite(fs[file], r.pos, r.data[..n])]
            else OnTurn(env, job, p, fs, ch) == Blocked
  {
  }

  /** The two removals at the end of a transfer, in their order. */
  ghost predicate Removes(env: Env, p: Proc, file: CString, next: Pc) {
    && p.pc.R? && next.R?
    && (|| (p.pc.r.RemoveFile? && next.r == RemoveCkpt(p.pc.r.good) && file == p.File(env))
        || (p.pc.r.RemoveCkpt? && next.r == RecvEnd(p.pc.r.good) && file == CkptName(env.dir, p.hash)))
  }

  lemma RemoveTurn(env: Env, job: Job, p: Proc, file: CString, next: Pc, fs: Fs, ch: Choice)
    requires env.Valid() && Removes(env, p, file, next)
    ensures OnTurn(env, job, p, fs, ch) == if file in fs then Works(next, fs - {file}, []) else Blocked
    ensures !Waits(p.pc) && p.pc != R(Lookup)
    ensures forall left :: Torn(env, p, fs, left) == fs
  {
  }

  class Process {
    const env: Env
    const job: Job
    const isServer: bool
    const answers: Answers
    const reliable: bool     // no call fails that can succeed
    var inbox: seq<Msg>      // what the peer will have sent by the time it is read
    var outbox: seq<Msg>
    var room: nat            // how many more messages the connection will accept
    var fs: Fs
    var log: seq<Event>
    var failed: bool         // a call has failed that the code does not go on after
    ghost const start: Local
    ghost var proc: Proc
    ghost var packets: nat
    ghost var steps: nat

    constructor (env: Env, job: Job, isServer: bool, answers: Answers, reliable: bool,
                 ghost l: Local, inq: seq<Msg>, room: nat, disk: Fs)
      requires env.Valid() && l.inq == inq && l.outq == [] && l.fs == disk && l.log == []
      ensures this.env == env && this.job == job && this.isServer == isServer && this.answers == answers
      ensures this.reliable == reliable && this.room == room && start == l && View() == l && Valid()
    {
      this.env, this.job, this.isServer, this.answers, this.reliable := env, job, isServer, answers, reliable;
      inbox, outbox, this.room, fs, log, failed := inq, [], room, disk, [], false;
      start, proc, packets, steps := l, l.proc, l.packets, 0;
    }

    ghost function View(): Local
      reads this
    {
      Local(proc, inbox, outbox, fs, log, packets)
    }

    function Chosen(pc: Pc): Choice { Decision(answers, isServer, pc) }

    /** Where the one run of the model with these answers is after n steps. */
    ghost function After(n: nat): Option<Local>
      requires env.Valid()
    {
      if n == 0 then Some(start) else
        match After(n - 1)
        case None => None
        case Some(l) => Next(env, job, l, Chosen(l.proc.pc))
    }

    ghost predicate At(n: nat, l: Local)
      requires env.Valid()
    {
      After(n) == Some(l)
    }

    /** The process is where the run of the model is, and no call has failed. */
    ghost predicate Valid()
      reads this
    {
      env.Valid() && !failed && forall n | n == steps :: At(n, View())
    }

    /** Nothing can be done at this point: no message or another kind, no room, or a file that is not there. */
    ghost predicate Stuck()
      requires env.Valid()
      reads this
    {
      if Waits(proc.pc) then !Comes(inbox, Reads(proc.pc))
      else if proc.pc == R(Lookup) then CkptName(env.dir, proc.hash) in fs && !answers.ckptReadable
      else match OnTurn(env, job, proc, fs, Chosen(proc.pc))
           case Blocked => true
           case Says(_, _) => room == 0
           case _ => false
    }

    /**
     A call has failed and the process has given up where it was in the run, possibly in the middle of a write. If no
     call fails that can succeed, it was stuck.
     */
    ghost predicate Halted()
      reads this
    {
      env.Valid() && failed && forall n | n == steps :: HaltedAfter(n)
    }

    ghost predicate HaltedAfter(n: nat)
      requires env.Valid()
      reads this
    {
      exists before: Fs, left: Remains ::
        && At(n, View().(fs := before)) && fs == Torn(env, proc, before, left)
        && (reliable ==> fs == before && Stuck())
    }

    /** So many messages were heard and these were said. */
    twostate predicate Talked(heard: nat, said: seq<Msg>)
      reads this
    {
      && heard <= |old(inbox)| && inbox == old(inbox)[heard..]
      && outbox == old(outbox) + said && old(room) == room + |said|
    }

    /** Nothing happened to the disk. */
    twostate predicate Kept()
      reads this
    {
      fs == old(fs) && log == old(log)
    }

    /** Stopping between two calls leaves the disk alone. */
    method Fail()
      requires Valid() && (reliable ==> Stuck())
      modifies this`failed
      ensures Halted()
    {
      ghost var now := View();
      failed := true;
      var torn := if proc.pc.R? && proc.pc.r.WriteData? then |proc.pc.r.data| + 1 else RECORD_SIZE + 1;
      assert fs + map[] == fs && View().(fs := fs) == now;
      Stops(fs, Remains(torn, [], map[]));
    }

    /** So does stopping with only some of a call done. */
    lemma Stops(before: Fs, left: Remains)
      requires env.Valid() && failed && forall n | n == steps :: At(n, View().(fs := before))
      requires fs == Torn(env, proc, before, left) && (reliable ==> fs == before && Stuck())
      ensures Halted()
    {
      assert HaltedAfter(steps);
    }

    /** Records that what just happened was the next step of the run. */
    ghost method Advance(pc: Pc, before: Local)
      requires env.Valid() && !failed && before.proc == proc && forall n | n == steps :: At(n, before)
      requires Next(env, job, before, Chosen(proc.pc)) == Some(View().(proc := proc.At(pc)))
      modifies this`proc, this`steps
      ensures Valid() && proc == old(proc).At(pc)
    {
      var next := View().(proc := proc.At(pc));
      OneMore(before, next);
      proc := proc.At(pc);
      steps := steps + 1;
      assert View() == next;
    }

    lemma OneMore(before: Local, next: Local)
      requires env.Valid() && forall n | n == steps :: At(n, before)
      requires Next(env, job, before, Chosen(before.proc.pc)) == Some(next)
      ensures forall n | n == steps + 1 :: At(n, next)
    {
      assert At(steps, before);
    }

    /** A filerail_recv_* call: the next message, or None if the connection fails or another kind arrives. */
    method Hear(k: Kind) returns (m: Option<Msg>)
      requires Valid() && Waits(proc.pc) && k == Reads(proc.pc)
      modifies this`inbox, this`proc, this`packets, this`steps, this`failed
      ensures reliable && Comes(old(inbox), k) ==> m.Some?
      ensures m.Some? ==> Valid() && Talked(1, []) && m.value == old(inbox)[0] && IsA(k, m.value)
                          && OnMsg(env, old(proc), m.value) == Hears(proc)
      ensures m.None? ==> Halted()
    {
      var fails: bool := *;
      if (fails && !reliable) || !Comes(inbox, k) {
        Fail();
        return None;
      }
      m := Some(inbox[0]);
      Hearable(env, proc, m.value);
      ghost var next := Next(env, job, View(), Chosen(proc.pc)).value;
      OneMore(View(), next);
      inbox := inbox[1..];
      packets := packets + if m.value.Packet? then 1 else 0;
      proc := OnMsg(env, proc, m.value).proc;
      steps := steps + 1;
      assert View() == next;
    }

    /** A filerail_send_* call. */
    method Say(m: Msg, ghost pc: Pc) returns (ok: bool)
      requires Valid() && !Waits(proc.pc) && OnTurn(env, job, proc, fs, Chosen(proc.pc)) == Says(m, pc)
      modifies this`outbox, this`room, this`proc, this`steps, this`failed
      ensures ok <==> old(room) > 0
      ensures ok ==> Valid() && Talked(0, [m]) && proc == old(proc).At(pc)
      ensures !ok ==> Halted() && outbox == old(outbox)
    {
      ok := room > 0;
      if ok {
      ghost var before := View();
        room := room - 1;
        outbox := outbox + [m];
        Advance(pc, before);
      } else {
        Fail();
      }
    }

    /** A local step that leaves the disk alone. */
    ghost method Pass(pc: Pc)
      requires Valid() && !Waits(proc.pc) && OnTurn(env, job, proc, fs, Chosen(proc.pc)) == Works(pc, fs, [])
      modifies this`proc, this`steps
      ensures Valid() && proc == old(proc).At(pc)
    {
      assert log + [] == log;
      Advance(pc, View());
    }

    /** The receiver passes judgement on the whole file. */
    method Report(e: Event, ghost pc: Pc)
      requires Valid() && !Waits(proc.pc) && OnTurn(env, job, proc, fs, Chosen(proc.pc)) == Works(pc, fs, [e])
      modifies this`log, this`proc, this`steps
      ensures Valid() && proc == old(proc).At(pc) && log == old(log) + [e]
    {
      ghost var before := View();
      log := log + [e];
      Advance(pc, before);
    }

    /** filerail_is_readable of a checkpoint that exists. */
    method Readable(ckpt: CString) returns (ok: bool)
      requires Valid() && proc.pc == R(Lookup) && ckpt == CkptName(env.dir, proc.hash) && ckpt in fs
      modifies this`failed
      ensures ok == answers.ckptReadable && (if ok then Valid() else Halted())
    {
      ok := answers.ckptReadable;
      if !ok {
        Fail();
      }
    }

    /** fgetc of octet i of the partial file; where there is no file, fopen has returned NULL and the call faults. */
    method Getc(file: CString, i: nat) returns (ok: bool)
      requires Valid() && proc.pc.R? && proc.pc.r.OpenFile? && i < proc.pc.r.offset && file == proc.File(env)
      modifies this`failed
      ensures reliable && file in fs && i < |fs[file]| ==> ok
      ensures ok ==> Valid() && file in fs && i < |fs[file]|
      ensures !ok ==> Halted()
    {
      var fails: bool := *;
      ok := !(fails && !reliable) && file in fs && i < |fs[file]|;
      if !ok {
        Fail();
      }
    }

    /** fopen, stat and fread of the whole received file. */
    method Load(file: CString) returns (content: Option<Bytes>)
      requires Valid() && proc.pc.R? && proc.pc.r.Verify? && file == proc.File(env)
      modifies this`failed
      ensures reliable && file in fs ==> content.Some?
      ensures content.Some? ==> Valid() && file in fs && content.value == fs[file]
      ensures content.None? ==> Halted()
    {
      var fails: bool := *;
      if (fails && !reliable) || file !in fs {
        Fail();
        return None;
      }
      return Some(fs[file]);
    }

    /** zip_extract: all files of the archive, or some of them to some length. */
    method ExtractInto(home: CString, archive: Bytes) returns (ok: bool)
      requires Valid() && proc.pc == R(Extract) && home == proc.Home(env)
      requires proc.File(env) in fs && fs[proc.File(env)] == archive
      modifies this`fs, this`log, this`proc, this`steps, this`failed
      ensures reliable ==> ok
      ensures ok ==> Valid() && proc == old(proc).At(R(RemoveFile(true)))
                     && fs == old(fs) + env.Unzipped(home, archive) && log == old(log) + [Extracted(archive)]
      ensures !ok ==> Halted()
    {
      var fails: bool := *;
      ok := reliable || !fails;
      ghost var before := View();
      var all := env.Unzipped(home, archive);
      ExtractTurn(env, job, proc, fs);
      if ok {
        fs := fs + all;
        log := log + [Extracted(archive)];
        Advance(R(RemoveFile(true)), before);
      } else {
        var done: Fs := *;
        if PartOf(done, all) {
          fs := fs + done;
        }
        failed := true;
        Stops(before.fs, Remains(0, [], done));
      }
    }

    /** filerail_rm of the old resource: all of it, or some. */
    method RemoveResource(home: CString) returns (ok: bool)
      requires Valid() && proc.pc == V(PutRemove) && home == proc.Home(env)
      modifies this`fs, this`proc, this`steps, this`failed
      ensures reliable ==> ok
      ensures ok ==> Valid() && proc == old(proc).At(R(AwaitHash)) && fs == Removed(old(fs), home)
      ensures !ok ==> Halted()
    {
      var fails: bool := *;
      ok := reliable || !fails;
      ghost var before := View();
      if ok {
        fs := Removed(fs, home);
        assert log + [] == log;
        Advance(R(AwaitHash), before);
      } else {
        var done: Fs := *;
        fs := map n | n in fs && !(Within(home, n) && n in done) :: fs[n];
        failed := true;
        Stops(before.fs, Remains(0, [], done));
      }
    }

    /** fopen(path, "wb"). */
    method Truncate(file: CString) returns (ok: bool)
      requires Valid() && proc.pc == R(OpenFile(0)) && file == proc.File(env)
      modifies this`fs, this`proc, this`steps, this`failed
      ensures reliable ==> ok
      ensures ok ==> Valid() && proc == old(proc).At(R(AwaitSize(0))) && fs == old(fs)[file := []]
      ensures !ok ==> Halted()
    {
      var fails: bool := *;
      ok := reliable || !fails;
      if ok {
        ghost var before := View();
        fs := fs[file := []];
        assert log + [] == log;
        Advance(R(AwaitSize(0)), before);
      } else {
        Fail();
      }
    }

    /**
     fwrite at a position followed by fflush: all of the data, or only some of it. A file that is not there, or not so
     long, is not the one that this process has open.
     */
    method Write(file: CString, pos: nat, data: Bytes) returns (ok: bool)
      requires Valid() && proc.pc.R? && proc.pc.r.WriteData? && proc.pc.r.pos == pos && proc.pc.r.data == data
      requires file == proc.File(env)
      modifies this`fs, this`proc, this`steps, this`failed
      ensures reliable && file in old(fs) && pos <= |old(fs)[file]| ==> ok
      ensures ok ==> file in old(fs) && pos <= |old(fs)[file]|
                     && fs == old(fs)[file := Overwrite(old(fs)[file], pos, data)]
      ensures var r := old(proc).pc.r;
              ok ==> Valid() && proc == old(proc).At(R(WriteTmp(r.start, pos + |data|, Sub64(r.left, |data|))))
      ensures !ok ==> Halted()
    {
      WriteTurn(env, job, proc, fs, Chosen(proc.pc));
      if file !in fs || pos > |fs[file]| {
        Fail();
        return false;
      }
      ghost var before := View();
      var n: nat :| n <= |data| && (reliable ==> n == |data|);
      fs := fs[file := Overwrite(fs[file], pos, data[..n])];
      ok := n == |data|;
      if ok {
        assert data[..n] == data && log + [] == log;
        Advance(R(WriteTmp(proc.pc.r.start, pos + |data|, Sub64(proc.pc.r.left, |data|))), before);
      } else {
        failed := true;
        Stops(before.fs, Remains(n, [], map[]));
      }
    }

    /** fopen(tmp, "wb") and fwrite of a checkpoint record: all of it, or only some of it. */
    method WriteRecord(tmp: CString, c: Checkpoint) returns (ok: bool)
      requires Valid() && proc.pc.R? && proc.pc.r.WriteTmp? && c == Checkpoint(proc.pc.r.pos, proc.Path())
      requires tmp == TmpName(env.dir, proc.hash)
      modifies this`fs, this`proc, this`steps, this`failed
      ensures reliable && c.Fits() ==> ok
      ensures ok ==> c.Fits() && fs == old(fs)[tmp := Record(c, answers.junk(c.offset))]
      ensures var r := old(proc).pc.r;
              ok ==> Valid() && proc == old(proc).At(R(RenameTmp(r.start, r.pos, r.left)))
      ensures !ok ==> Halted()
    {
      var created: bool := *;
      if !(created || reliable) || !c.Fits() { // an offset beyond uint64_t, or a path beyond its buffer
        Fail();
        return false;
      }
      ghost var before := View();
      var junk := answers.junk(c.offset);
      var n: nat :| n <= RECORD_SIZE && (reliable ==> n == RECORD_SIZE);
      fs := fs[tmp := Record(c, junk)[..n]];
      ok := n == RECORD_SIZE;
      if ok {
        assert Record(c, junk)[..n] == Record(c, junk) && log + [] == log;
        Advance(R(RenameTmp(proc.pc.r.start, proc.pc.r.pos, proc.pc.r.left)), before);
      } else {
        failed := true;
        Stops(before.fs, Remains(n, junk, map[]));
      }
    }

    /** rename(tmp, ckpt). */
    method Rename(tmp: CString, ckpt: CString) returns (ok: bool)
      requires Valid() && proc.pc.R? && proc.pc.r.RenameTmp?
      requires tmp == TmpName(env.dir, proc.hash) && ckpt == CkptName(env.dir, proc.hash)
      modifies this`fs, this`proc, this`steps, this`failed
      ensures reliable && tmp in old(fs) ==> ok
      ensures ok ==> tmp in old(fs) && fs == old(fs)[ckpt := old(fs)[tmp]] - {tmp}
      ensures var r := old(proc).pc.r;
              ok ==> Valid() && proc == old(proc).At(R(RecvLoop(r.start, r.pos, r.left)))
      ensures !ok ==> Halted()
    {
      var fails: bool := *;
      ok := (reliable || !fails) && tmp in fs;
      if ok {
        ghost var before := View();
        fs := fs[ckpt := fs[tmp]] - {tmp};
        assert log + [] == log;
        Advance(R(RecvLoop(proc.pc.r.start, proc.pc.r.pos, proc.pc.r.left)), before);
      } else {
        Fail();
      }
    }

    /** filerail_rm of a regular file: first the partial file, then the checkpoint. */
    method Remove(file: CString, ghost pc: Pc) returns (ok: bool)
      requires Valid() && Removes(env, proc, file, pc)
      modifies this`fs, this`proc, this`steps, this`failed
      ensures reliable && file in old(fs) ==> ok
      ensures ok ==> Valid() && file in old(fs) && proc == old(proc).At(pc) && fs == old(fs) - {file}
      ensures !ok ==> Halted()
    {
      var fails: bool := *;
      ok := (reliable || !fails) && file in fs;
      RemoveTurn(env, job, proc, file, pc, fs, Chosen(proc.pc));
      if ok {
        ghost var before := View();
        fs := fs - {file};
        assert log + [] == log;
        Advance(pc, before);
      } else {
        Fail();
      }
    }
  }
}
