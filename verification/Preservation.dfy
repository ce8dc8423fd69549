/** Every action of a session, crashes and torn writes included, keeps the session invariant. */
module Preservation {
  import opened Bytes
  import opened Cipher
  import opened Disk
  import opened Protocol
  import opened Invariant

  // ---------------------------------------------------------------- positions and registers

  lemma HearingGood(env: Env, job: Job, side: Side, p: Proc, m: Msg)
    requires job.Valid(env) && Waits(p.pc) && PcGood(env, job, side, p) && Accept(env, job, Norm(p.pc), m).Some?
    ensures OnMsg(env, p, m).Hears? && PcGood(env, job, side, OnMsg(env, p, m).proc)
  {
    match p.pc
    case C(c) => ClientHearingGood(env, job, side, p, m);
    case V(v) => ServerHearingGood(env, job, side, p, m);
    case S(s) => SenderHearingGood(env, job, side, p, m);
    case R(r) => ReceiverHearingGood(env, job, side, p, m);
  }

  lemma ClientHearingGood(env: Env, job: Job, side: Side, p: Proc, m: Msg)
    requires job.Valid(env) && p.pc.C? && Waits(p.pc) && PcGood(env, job, side, p) && Accept(env, job, p.pc, m).Some?
    ensures OnMsg(env, p, m).Hears? && PcGood(env, job, side, OnMsg(env, p, m).proc)
  {
  }

  lemma ServerHearingGood(env: Env, job: Job, side: Side, p: Proc, m: Msg)
    requires job.Valid(env) && p.pc.V? && Waits(p.pc) && PcGood(env, job, side, p) && Accept(env, job, p.pc, m).Some?
    ensures OnMsg(env, p, m).Hears? && PcGood(env, job, side, OnMsg(env, p, m).proc)
  {
  }

  lemma SenderHearingGood(env: Env, job: Job, side: Side, p: Proc, m: Msg)
    requires job.Valid(env) && p.pc.S? && Waits(p.pc) && PcGood(env, job, side, p) && Accept(env, job, p.pc, m).Some?
    ensures OnMsg(env, p, m).Hears? && PcGood(env, job, side, OnMsg(env, p, m).proc)
  {
  }

  lemma ReceiverHearingGood(env: Env, job: Job, side: Side, p: Proc, m: Msg)
    requires job.Valid(env) && p.pc.R? && Waits(p.pc) && PcGood(env, job, side, p) && Accept(env, job, p.pc, m).Some?
    ensures OnMsg(env, p, m).Hears? && PcGood(env, job, side, OnMsg(env, p, m).proc)
  {
    if p.pc.r.RecvLoop? {
      OpenSeal(env.keys, Chunk(job.archive, p.pc.r.pos, p.pc.r.left));
    }
  }

  lemma TurnGood(env: Env, job: Job, side: Side, p: Proc, fs: Fs, ch: Choice)
    requires job.Valid(env) && !Waits(p.pc) && PcGood(env, job, side, p) && CkptOk(env, fs, job.archive)
    ensures var e := OnTurn(env, job, p, fs, ch);
            && !e.Hears?
            && (e.Says? ==> PcGood(env, job, side, p.At(e.pc)))
            && (e.Works? ==> PcGood(env, job, side, p.At(e.pc)))
            && (e.Works? && !p.pc.R? ==>
                  && e.events == []
                  && e.fs == if p.pc == V(PutRemove) then Removed(fs, job.Home(env)) else fs)
  {
    match p.pc
    case C(c) => ClientTurnGood(env, job, side, p, fs, ch);
    case V(v) => ServerTurnGood(env, job, side, p, fs, ch);
    case S(s) => SenderTurnGood(env, job, side, p, fs, ch);
    case R(r) => ReceiverTurnGood(env, job, side, p, fs, ch);
    case End =>
  }

  lemma ClientTurnGood(env: Env, job: Job, side: Side, p: Proc, fs: Fs, ch: Choice)
    requires job.Valid(env) && p.pc.C? && !Waits(p.pc) && PcGood(env, job, side, p)
    ensures var e := OnTurn(env, job, p, fs, ch);
            !e.Hears? && !e.Works? && (e.Says? ==> PcGood(env, job, side, p.At(e.pc)))
  {
  }

  lemma ServerTurnGood(env: Env, job: Job, side: Side, p: Proc, fs: Fs, ch: Choice)
    requires job.Valid(env) && p.pc.V? && !Waits(p.pc) && PcGood(env, job, side, p)
    ensures var e := OnTurn(env, job, p, fs, ch);
            && !e.Hears?
            && (e.Says? ==> PcGood(env, job, side, p.At(e.pc)))
            && (e.Works? ==> p.pc == V(PutRemove) && PcGood(env, job, side, p.At(e.pc))
                             && e.fs == Removed(fs, job.Home(env)) && e.events == [])
  {
  }

  lemma SenderTurnGood(env: Env, job: Job, side: Side, p: Proc, fs: Fs, ch: Choice)
    requires job.Valid(env) && p.pc.S? && !Waits(p.pc) && PcGood(env, job, side, p)
    ensures var e := OnTurn(env, job, p, fs, ch);
            && !e.Hears?
            && (e.Says? ==> PcGood(env, job, side, p.At(e.pc)))
            && (e.Works? ==> PcGood(env, job, side, p.At(e.pc)) && e.fs == fs && e.events == [])
  {
  }

  lemma ReceiverTurnGood(env: Env, job: Job, side: Side, p: Proc, fs: Fs, ch: Choice)
    requires job.Valid(env) && p.pc.R? && !Waits(p.pc) && PcGood(env, job, side, p) && CkptOk(env, fs, job.archive)
    ensures var e := OnTurn(env, job, p, fs, ch);
            && !e.Hears?
            && (e.Says? ==> PcGood(env, job, side, p.At(e.pc)))
            && (e.Works? ==> PcGood(env, job, side, p.At(e.pc)))
  {
    if p.pc.r.Lookup? {
      LookupFinds(env, job, p, fs);
    } else if p.pc.r.RecvLoop? || p.pc.r.WriteData? || p.pc.r.WriteTmp? || p.pc.r.RenameTmp? {
      LoopTurnGood(env, job, side, p, fs, ch);
    } else {
      OtherTurnGood(env, job, side, p, fs, ch);
    }
  }

  lemma LoopTurnGood(env: Env, job: Job, side: Side, p: Proc, fs: Fs, ch: Choice)
    requires job.Valid(env) && p.pc.R? && !Waits(p.pc) && PcGood(env, job, side, p)
    requires p.pc.r.RecvLoop? || p.pc.r.WriteData? || p.pc.r.WriteTmp? || p.pc.r.RenameTmp?
    ensures var e := OnTurn(env, job, p, fs, ch);
            && !e.Hears?
            && (e.Says? ==> PcGood(env, job, side, p.At(e.pc)))
            && (e.Works? ==> PcGood(env, job, side, p.At(e.pc)))
  {
    if p.pc.r.WriteData? {
      NextAligned(job.archive, p.pc.r.pos, p.pc.r.left);
    }
  }

  lemma OtherTurnGood(env: Env, job: Job, side: Side, p: Proc, fs: Fs, ch: Choice)
    requires job.Valid(env) && p.pc.R? && !Waits(p.pc) && PcGood(env, job, side, p)
    requires !(p.pc.r.Lookup? || p.pc.r.RecvLoop? || p.pc.r.WriteData? || p.pc.r.WriteTmp? || p.pc.r.RenameTmp?)
    ensures var e := OnTurn(env, job, p, fs, ch);
            && !e.Hears?
            && (e.Says? ==> PcGood(env, job, side, p.At(e.pc)))
            && (e.Works? ==> PcGood(env, job, side, p.At(e.pc)))
  {
  }

  /** An accepted checkpoint names this path and an offset the transfer can have reached, within the partial file. */
  lemma LookupFinds(env: Env, job: Job, p: Proc, fs: Fs)
    requires job.Valid(env) && CkptOk(env, fs, job.archive)
    requires p.resource == job.Resource() && p.hash == env.md5(job.archive)
    ensures var o := Resumable(env, p.Path(), p.hash, fs);
            o.Some? ==>
              && 0 < o.value && Aligned(job.archive, o.value)
              && job.File(env) in fs && o.value <= |fs[job.File(env)]|
              && Holds(fs, CkptName(env.dir, p.hash), Checkpoint(o.value, job.Path()))
  {
    var name := CkptName(env.dir, p.hash);
    if name in fs {
      assert fs[name][..RECORD_SIZE] == fs[name];
    }
  }

  lemma NextAligned(a: Bytes, pos: nat, left: nat)
    requires pos + left == |a| && Aligned(a, pos) && 0 < left
    ensures 0 < |Chunk(a, pos, left)| <= left && Aligned(a, pos + |Chunk(a, pos, left)|)
    ensures Chunk(a, pos, left) == a[pos..pos + |Chunk(a, pos, left)|]
  {
  }

  // ---------------------------------------------------------------- the disk

  lemma HearingDisk(env: Env, job: Job, p: Proc, fs: Fs, m: Msg)
    requires job.Valid(env) && p.pc.R? && Waits(p.pc) && Numbers(job.archive, p.pc) && DiskGood(env, job, p.pc.r, fs)
    requires Accept(env, job, Norm(p.pc), m).Some? && OnMsg(env, p, m).Hears?
    ensures OnMsg(env, p, m).proc.pc.R? && DiskGood(env, job, OnMsg(env, p, m).proc.pc.r, fs)
  {
  }

  lemma OverwriteExtends(a: Bytes, file: CString, st: nat, pos: nat, data: Bytes, fs: Fs)
    requires Written(a, file, st, pos, fs) && pos + |data| <= |a| && data == a[pos..pos + |data|]
    ensures Written(a, file, st, pos + |data|, fs[file := Overwrite(fs[file], pos, data)])
  {
    var f := Overwrite(fs[file], pos, data);
    assert f[st..pos] == fs[file][st..pos] by {
      assert f[st..pos] == f[..pos][st..] && fs[file][st..pos] == fs[file][..pos][st..];
    }
    assert f[st..pos + |data|] == f[st..pos] + f[pos..pos + |data|];
    assert a[st..pos + |data|] == a[st..pos] + a[pos..pos + |data|];
  }

  /** The disk is what the receiver's next position says, and its checkpoint sound. */
  predicate WorksWell(env: Env, job: Job, e: Effect) {
    e.Works? && e.pc.R? && DiskGood(env, job, e.pc.r, e.fs) && CkptOk(env, e.fs, job.archive)
  }

  lemma WriteKeeps(env: Env, job: Job, side: Side, p: Proc, fs: Fs, ch: Choice)
    requires job.Valid(env) && p.pc.R? && p.pc.r.WriteData? && PcGood(env, job, side, p)
    requires DiskGood(env, job, p.pc.r, fs) && CkptOk(env, fs, job.archive)
    requires OnTurn(env, job, p, fs, ch).Works?
    ensures WorksWell(env, job, OnTurn(env, job, p, fs, ch))
  {
    NextAligned(job.archive, p.pc.r.pos, p.pc.r.left);
    OverwriteExtends(job.archive, p.File(env), p.pc.r.start, p.pc.r.pos, p.pc.r.data, fs);
  }

  /** What the receiver's own disk actions guarantee. */
  lemma WorkingDisk(env: Env, job: Job, side: Side, p: Proc, fs: Fs, ch: Choice)
    requires job.Valid(env) && p.pc.R? && !Waits(p.pc) && PcGood(env, job, side, p)
    requires DiskGood(env, job, p.pc.r, fs) && CkptOk(env, fs, job.archive)
    requires OnTurn(env, job, p, fs, ch).Works?
    ensures WorksWell(env, job, OnTurn(env, job, p, fs, ch))
  {
    match p.pc.r
    case Lookup => LookupFinds(env, job, p, fs);
    case WriteData(_, _, _, _) => WriteKeeps(env, job, side, p, fs, ch);
    case WriteTmp(_, _, _) => TmpKeeps(env, job, side, p, fs, ch);
    case RenameTmp(_, _, _) => RenameKeeps(env, job, side, p, fs, ch);
    case Extract => ExtractKeeps(env, job, side, p, fs, ch);
    case _ => OtherKeeps(env, job, side, p, fs, ch);
  }

  lemma OtherKeeps(env: Env, job: Job, side: Side, p: Proc, fs: Fs, ch: Choice)
    requires job.Valid(env) && p.pc.R? && !Waits(p.pc) && PcGood(env, job, side, p)
    requires !(p.pc.r.Lookup? || p.pc.r.WriteData? || p.pc.r.WriteTmp? || p.pc.r.RenameTmp? || p.pc.r.Extract?)
    requires DiskGood(env, job, p.pc.r, fs) && CkptOk(env, fs, job.archive)
    requires OnTurn(env, job, p, fs, ch).Works?
    ensures WorksWell(env, job, OnTurn(env, job, p, fs, ch))
  {
  }

  /** What is extracted lies in the resource, away from the partial file and its checkpoint. */
  lemma ExtractKeeps(env: Env, job: Job, side: Side, p: Proc, fs: Fs, ch: Choice)
    requires job.Valid(env) && p.pc == R(Extract) && PcGood(env, job, side, p)
    requires DiskGood(env, job, p.pc.r, fs) && CkptOk(env, fs, job.archive)
    ensures WorksWell(env, job, OnTurn(env, job, p, fs, ch))
  {
    var all := env.Unzipped(p.Home(env), fs[p.File(env)]);
    assert p.File(env) !in all && CkptName(env.dir, p.hash) !in all;
  }

  /** What is removed with the old resource, likewise. */
  lemma RemovalKeeps(env: Env, job: Job, fs: Fs)
    requires job.Valid(env)
    ensures var h := env.md5(job.archive);
            && SameAt(fs, Removed(fs, job.Home(env)), job.File(env))
            && SameAt(fs, Removed(fs, job.Home(env)), CkptName(env.dir, h))
            && SameAt(fs, Removed(fs, job.Home(env)), TmpName(env.dir, h))
  {
  }

  lemma TmpKeeps(env: Env, job: Job, side: Side, p: Proc, fs: Fs, ch: Choice)
    requires job.Valid(env) && p.pc.R? && p.pc.r.WriteTmp? && PcGood(env, job, side, p)
    requires DiskGood(env, job, p.pc.r, fs) && CkptOk(env, fs, job.archive) && ch.Junk?
    requires OnTurn(env, job, p, fs, ch).Works?
    ensures WorksWell(env, job, OnTurn(env, job, p, fs, ch))
  {
    NamesDistinct(env.dir, p.hash, p.hash);
    var c := Checkpoint(p.pc.r.pos, p.Path());
    RecordRoundTrip(c, ch.junk);
    assert Record(c, ch.junk)[..RECORD_SIZE] == Record(c, ch.junk);
  }

  lemma RenameKeeps(env: Env, job: Job, side: Side, p: Proc, fs: Fs, ch: Choice)
    requires job.Valid(env) && p.pc.R? && p.pc.r.RenameTmp? && PcGood(env, job, side, p)
    requires DiskGood(env, job, p.pc.r, fs) && CkptOk(env, fs, job.archive)
    requires OnTurn(env, job, p, fs, ch).Works?
    ensures WorksWell(env, job, OnTurn(env, job, p, fs, ch))
  {
    NamesDistinct(env.dir, p.hash, p.hash);
    var tmp := TmpName(env.dir, p.hash);
    assert fs[tmp][..RECORD_SIZE] == fs[tmp];
  }

  lemma SayingDisk(env: Env, job: Job, p: Proc, fs: Fs, ch: Choice)
    requires job.Valid(env) && p.pc.R? && !Waits(p.pc)
    requires DiskGood(env, job, p.pc.r, fs) && OnTurn(env, job, p, fs, ch).Says?
    ensures var e := OnTurn(env, job, p, fs, ch); e.pc.R? && DiskGood(env, job, e.pc.r, fs)
  {
  }

  // ---------------------------------------------------------------- the log

  lemma HearingLog(env: Env, job: Job, side: Side, p: Proc, up: bool, fs: Fs, log: seq<Event>, m: Msg)
    requires env.Valid() && Waits(p.pc) && PcGood(env, job, side, p) && Receives(job, side)
    requires LogGood(env, job, p.pc, up, fs, log) && OnMsg(env, p, m).Hears?
    ensures LogGood(env, job, OnMsg(env, p, m).proc.pc, up, fs, log)
  {
  }

  lemma TurnLog(env: Env, job: Job, side: Side, p: Proc, fs: Fs, log: seq<Event>, ch: Choice)
    requires env.Valid() && !Waits(p.pc) && PcGood(env, job, side, p) && Receives(job, side)
    requires LogGood(env, job, p.pc, true, fs, log)
    ensures var e := OnTurn(env, job, p, fs, ch);
            && (e.Says? ==> LogGood(env, job, e.pc, true, fs, log))
            && (e.Works? ==> LogGood(env, job, e.pc, true, e.fs, log + e.events))
  {
    if p.pc.R? {
      ReceiverTurnLog(env, job, side, p, fs, log, ch);
    }
  }

  lemma ReceiverTurnLog(env: Env, job: Job, side: Side, p: Proc, fs: Fs, log: seq<Event>, ch: Choice)
    requires env.Valid() && p.pc.R? && !Waits(p.pc) && PcGood(env, job, side, p) && Receives(job, side)
    requires LogGood(env, job, p.pc, true, fs, log)
    ensures var e := OnTurn(env, job, p, fs, ch);
            && (e.Says? ==> LogGood(env, job, e.pc, true, fs, log))
            && (e.Works? ==> LogGood(env, job, e.pc, true, e.fs, log + e.events))
  {
    var r := p.pc.r;
    if !(r.Verify? || r.SayOk? || r.SayBad? || r.Extract? || r.RemoveFile? || r.RemoveCkpt?) {
      EarlyTurnLog(env, job, p, fs, log, ch);
    }
  }

  /** Before the hash check nothing is logged. */
  lemma EarlyTurnLog(env: Env, job: Job, p: Proc, fs: Fs, log: seq<Event>, ch: Choice)
    requires env.Valid() && p.pc.R? && !Waits(p.pc) && LogGood(env, job, p.pc, true, fs, log)
    requires var r := p.pc.r; !(r.Verify? || r.SayOk? || r.SayBad? || r.Extract? || r.RemoveFile? || r.RemoveCkpt?)
    ensures var e := OnTurn(env, job, p, fs, ch);
            && (e.Says? ==> LogGood(env, job, e.pc, true, fs, log))
            && (e.Works? ==> LogGood(env, job, e.pc, true, e.fs, log + e.events))
  {
  }

  // ---------------------------------------------------------------- actions

  /** A local view with everything the invariant says about it. */
  ghost predicate LocalGood(env: Env, job: Job, side: Side, l: Local, y: Pc)
    requires job.Valid(env)
  {
    && OneWay(env, job, l.proc.pc, l.inq, y, l.outq)
    && PcGood(env, job, side, l.proc)
    && CkptOk(env, l.fs, job.archive)
    && (Receives(job, side) ==> Receipt(env, job, l.proc.pc, true, l.fs, l.log))
  }

  lemma LocalStepGood(env: Env, job: Job, side: Side, l: Local, y: Pc, ch: Choice)
    requires job.Valid(env) && LocalGood(env, job, side, l, y) && Next(env, job, l, ch).Some?
    ensures var l' := Next(env, job, l, ch).value;
            && LocalGood(env, job, side, l', y)
            && (!Receives(job, side) ==> l'.fs == l.fs && l'.log == l.log)
  {
    StepOneWay(env, job, side, l, y, ch);
    if Waits(l.proc.pc) {
      LocalHearing(env, job, side, l, y, ch);
    } else {
      LocalTurn(env, job, side, l, ch);
    }
  }

  /** The part of LocalGood that is not about channels. */
  ghost predicate DataGood(env: Env, job: Job, side: Side, l: Local)
    requires job.Valid(env)
  {
    && PcGood(env, job, side, l.proc)
    && CkptOk(env, l.fs, job.archive)
    && (Receives(job, side) ==> Receipt(env, job, l.proc.pc, true, l.fs, l.log))
  }

  lemma LocalHearing(env: Env, job: Job, side: Side, l: Local, y: Pc, ch: Choice)
    requires job.Valid(env) && LocalGood(env, job, side, l, y) && Next(env, job, l, ch).Some? && Waits(l.proc.pc)
    ensures var l' := Next(env, job, l, ch).value; DataGood(env, job, side, l') && l'.fs == l.fs && l'.log == l.log
  {
    if l.inq != [] {
      var m := l.inq[0];
      assert Conn(env, job, y, l.inq, l.proc.pc);
      HearingGood(env, job, side, l.proc, m);
      if Receives(job, side) {
        HearingLog(env, job, side, l.proc, true, l.fs, l.log, m);
        if l.proc.pc.R? {
          HearingDisk(env, job, l.proc, l.fs, m);
        } else {
          HearingNotYet(env, job, side, l.proc, m);
        }
      }
    }
  }

  lemma LocalTurn(env: Env, job: Job, side: Side, l: Local, ch: Choice)
    requires job.Valid(env) && DataGood(env, job, side, l) && Next(env, job, l, ch).Some? && !Waits(l.proc.pc)
    ensures var l' := Next(env, job, l, ch).value;
            DataGood(env, job, side, l') && (!Receives(job, side) ==> l'.fs == l.fs && l'.log == l.log)
  {
    TurnGood(env, job, side, l.proc, l.fs, ch);
    if l.proc.pc == V(PutRemove) {
      RemovalKeeps(env, job, l.fs);
    }
    if Receives(job, side) {
      TurnLog(env, job, side, l.proc, l.fs, l.log, ch);
      if l.proc.pc.R? {
        ReceiverTurnKeeps(env, job, side, l, ch);
      } else {
        TurnNotYet(env, job, side, l.proc, l.fs, ch);
      }
    }
  }

  lemma ReceiverTurnKeeps(env: Env, job: Job, side: Side, l: Local, ch: Choice)
    requires job.Valid(env) && l.proc.pc.R? && !Waits(l.proc.pc) && PcGood(env, job, side, l.proc)
    requires DiskGood(env, job, l.proc.pc.r, l.fs) && CkptOk(env, l.fs, job.archive) && Next(env, job, l, ch).Some?
    ensures var l' := Next(env, job, l, ch).value;
            l'.proc.pc.R? && DiskGood(env, job, l'.proc.pc.r, l'.fs) && CkptOk(env, l'.fs, job.archive)
  {
    TurnGood(env, job, side, l.proc, l.fs, ch);
    if OnTurn(env, job, l.proc, l.fs, ch).Works? {
      WorkingDisk(env, job, side, l.proc, l.fs, ch);
    } else {
      SayingDisk(env, job, l.proc, l.fs, ch);
    }
  }

  // Before the transfer, a receiving side knows nothing about the disk.

  lemma HearingNotYet(env: Env, job: Job, side: Side, p: Proc, m: Msg)
    requires env.Valid() && Waits(p.pc) && !p.pc.R? && Receives(job, side) && PcGood(env, job, side, p)
    requires OnMsg(env, p, m).Hears?
    ensures !OnMsg(env, p, m).proc.pc.R?
  {
  }

  lemma TurnNotYet(env: Env, job: Job, side: Side, p: Proc, fs: Fs, ch: Choice)
    requires env.Valid() && !Waits(p.pc) && !p.pc.R? && Receives(job, side) && PcGood(env, job, side, p)
    ensures var e := OnTurn(env, job, p, fs, ch);
            && (e.Says? && e.pc.R? ==> e.pc.r.AwaitHash?)
            && (e.Works? && e.pc.R? ==> e.pc.r.AwaitHash?)
  {
  }

  lemma ActKeeps(env: Env, job: Job, w: World, side: Side, ch: Choice)
    requires job.Valid(env) && Inv(env, job, w) && Do(env, job, w, Act(side, ch)).Some?
    ensures Inv(env, job, Do(env, job, w, Act(side, ch)).value)
  {
    LocalStepGood(env, job, side, w.View(side), w.Of(side.Other()).pc, ch);
  }

  /** A process that dies mid-write leaves its own files torn, never a checkpoint. */
  lemma TornKeeps(env: Env, job: Job, side: Side, p: Proc, fs: Fs, left: Remains)
    requires job.Valid(env) && PcGood(env, job, side, p) && CkptOk(env, fs, job.archive)
    ensures CkptOk(env, Torn(env, p, fs, left), job.archive)
    ensures !Receives(job, side) ==> Torn(env, p, fs, left) == fs
  {
    NamesDistinct(env.dir, p.hash, env.md5(job.archive));
  }

  lemma StopKeeps(env: Env, job: Job, w: World, side: Side, left: Remains)
    requires job.Valid(env) && Inv(env, job, w) && Do(env, job, w, Stop(side, left)).Some?
    ensures Inv(env, job, Do(env, job, w, Stop(side, left)).value)
  {
    StoppedReceipts(env, job, w, side, left);
    SameButDisk(env, job, w, Do(env, job, w, Stop(side, left)).value);
  }

  lemma StoppedReceipts(env: Env, job: Job, w: World, side: Side, left: Remains)
    requires job.Valid(env) && Inv(env, job, w) && Do(env, job, w, Stop(side, left)).Some?
    ensures var w' := Do(env, job, w, Stop(side, left)).value;
            && CkptOk(env, w'.fs, job.archive)
            && (Receives(job, Client) ==> Receipt(env, job, w'.client.pc, w'.clientUp, w'.fs, w'.log))
            && (Receives(job, Server) ==> Receipt(env, job, w'.server.pc, w'.serverUp, w'.fs, w'.log))
  {
    TornKeeps(env, job, side, w.Of(side), w.fs, left);
    StoppedReceipt(env, job, w, side, Client, left);
    StoppedReceipt(env, job, w, side, Server, left);
  }

  lemma StoppedReceipt(env: Env, job: Job, w: World, side: Side, of: Side, left: Remains)
    requires job.Valid(env) && PcGood(env, job, side, w.Of(side)) && CkptOk(env, w.fs, job.archive)
    requires Receives(job, of) ==> Receipt(env, job, w.Of(of).pc, w.Up(of), w.fs, w.log)
    requires Do(env, job, w, Stop(side, left)).Some?
    ensures var w' := Do(env, job, w, Stop(side, left)).value;
            Receives(job, of) ==> Receipt(env, job, w'.Of(of).pc, w'.Up(of), w'.fs, w'.log)
  {
    if Receives(job, of) {
      if of == side {
        ReceiptOutlives(env, job, w.Of(of).pc, w.Up(of), w.fs, w.log, Torn(env, w.Of(side), w.fs, left));
      } else {
        TornKeeps(env, job, side, w.Of(side), w.fs, left);
      }
    }
  }

  /** What has to be shown again when only the disk changed, or a process stopped. */
  lemma SameButDisk(env: Env, job: Job, w: World, w': World)
    requires job.Valid(env) && Inv(env, job, w) && CkptOk(env, w'.fs, job.archive)
    requires w' == w.(fs := w'.fs, clientUp := w'.clientUp, serverUp := w'.serverUp)
    requires Receives(job, Client) ==> Receipt(env, job, w'.client.pc, w'.clientUp, w'.fs, w'.log)
    requires Receives(job, Server) ==> Receipt(env, job, w'.server.pc, w'.serverUp, w'.fs, w'.log)
    ensures Inv(env, job, w')
  {
  }

  lemma ReceiptOutlives(env: Env, job: Job, pc: Pc, up: bool, fs: Fs, log: seq<Event>, fs': Fs)
    requires Receipt(env, job, pc, up, fs, log)
    ensures Receipt(env, job, pc, false, fs', log)
  {
    LogOutlives(env, job, pc, up, fs, log, fs');
  }

  lemma LogOutlives(env: Env, job: Job, pc: Pc, up: bool, fs: Fs, log: seq<Event>, fs': Fs)
    requires LogGood(env, job, pc, up, fs, log)
    ensures LogGood(env, job, pc, false, fs', log)
  {
  }

  /** The session invariant is inductive. */
  lemma DoKeeps(env: Env, job: Job, w: World, a: Action)
    requires job.Valid(env) && Inv(env, job, w) && Do(env, job, w, a).Some?
    ensures Inv(env, job, Do(env, job, w, a).value)
  {
    match a
    case Act(side, ch) => ActKeeps(env, job, w, side, ch);
    case Stop(side, left) => StopKeeps(env, job, w, side, left);
  }

  lemma OnlyReceiversTakePackets(env: Env, job: Job, side: Side, p: Proc, m: Msg)
    requires env.Valid() && PcGood(env, job, side, p) && !Receives(job, side) && OnMsg(env, p, m).Hears?
    ensures !m.Packet?
  {
  }

  /** The side that does not receive the archive leaves the disk, the log and its peer alone. */
  lemma LocalFrame(env: Env, job: Job, side: Side, l: Local, y: Pc, ch: Choice)
    requires job.Valid(env) && LocalGood(env, job, side, l, y) && Next(env, job, l, ch).Some? && !Receives(job, side)
    ensures var l' := Next(env, job, l, ch).value; l'.fs == l.fs && l'.log == l.log && l'.packets == l.packets
  {
    LocalStepGood(env, job, side, l, y, ch);
    if Waits(l.proc.pc) && l.inq != [] {
      OnlyReceiversTakePackets(env, job, side, l.proc, l.inq[0]);
    }
  }

  lemma OtherFrame(env: Env, job: Job, w: World, a: Action, w': World)
    requires job.Valid(env) && Inv(env, job, w) && Do(env, job, w, a) == Some(w') && !Receives(job, a.side)
    ensures w'.fs == w.fs && w'.log == w.log && w'.Of(a.side.Other()) == w.Of(a.side.Other())
    ensures w'.Up(a.side.Other()) == w.Up(a.side.Other()) && w'.packets == w.packets
  {
    if a.Act? {
      LocalFrame(env, job, a.side, w.View(a.side), w.Of(a.side.Other()).pc, a.choice);
    } else {
      TornKeeps(env, job, a.side, w.Of(a.side), w.fs, a.left);
    }
  }

  lemma StartGood(env: Env, job: Job, fs: Fs)
    requires job.Valid(env) && CkptOk(env, fs, job.archive)
    ensures Inv(env, job, Start(job, fs))
  {
  }

  lemma {:induction false} RunKeeps(env: Env, job: Job, w: World, actions: seq<Action>)
    requires job.Valid(env) && Inv(env, job, w) && Run(env, job, w, actions).Some?
    ensures Inv(env, job, Run(env, job, w, actions).value)
    decreases |actions|
  {
    if actions != [] {
      DoKeeps(env, job, w, actions[0]);
      RunKeeps(env, job, Do(env, job, w, actions[0]).value, actions[1..]);
    }
  }
}
