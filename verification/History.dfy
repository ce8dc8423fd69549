/**
 Unbounded sequences of sessions on one host, each abandoned or killed anywhere: what every reachable disk satisfies.
 Sessions of any archives to any paths may alternate, and with sessions in which the host itself is the sender.
 */
module History {
  import opened Bytes
  import opened Cipher
  import opened Disk
  import opened Protocol
  import opened Invariant
  import opened Preservation

  /**
   One session that receives on this host: what was asked, and everything that happened until both processes were gone.
   Or one in which this host sent: its zip file is removed again, or left with any content.
   */
  datatype Session = Session(job: Job, actions: seq<Action>) | Sent(zip: CString, left: Option<Bytes>)

  /** The disk of this host after it. */
  ghost function Outcome(env: Env, fs: Fs, s: Session): Option<Fs>
    requires env.Valid()
  {
    match s
    case Session(job, actions) =>
      (match Run(env, job, Start(job, fs), actions) case None => None case Some(w) => Some(w.fs))
    case Sent(zip, left) => Lent(env, fs, zip, left)
  }

  /** Building, and perhaps removing, a zip file that is not a checkpoint. */
  ghost function Lent(env: Env, fs: Fs, zip: CString, left: Option<Bytes>): Option<Fs> {
    var file := env.file(zip);
    if !env.Clear(file) then None else Some(if left.None? then fs - {file} else fs[file := left.value])
  }

  ghost function RunAll(env: Env, fs: Fs, past: seq<Session>): Option<Fs>
    requires env.Valid()
    decreases |past|
  {
    if past == [] then Some(fs) else
      match Outcome(env, fs, past[0])
      case None => None
      case Some(fs') => RunAll(env, fs', past[1..])
  }

  /** No two different archives of the history have the same digest. */
  ghost predicate Distinguished(env: Env, jobs: seq<Job>) {
    forall i, j | 0 <= i < |jobs| && 0 <= j < |jobs| ::
      env.md5(jobs[i].archive) == env.md5(jobs[j].archive) ==> jobs[i].archive == jobs[j].archive
  }

  ghost predicate Legal(env: Env, jobs: seq<Job>) {
    && env.Valid()
    && (forall j | j in jobs :: j.Valid(env))
    && Distinguished(env, jobs)
  }

  /** No other content has the digest of this archive. */
  ghost predicate NoSecondPreimage(env: Env, archive: Bytes) {
    forall b: Bytes {:trigger env.md5(b)} :: env.md5(b) == env.md5(archive) ==> b == archive
  }

  /** Nor that of any archive of the history whose resource the file lies in. */
  ghost predicate Genuine(env: Env, jobs: seq<Job>, file: CString) {
    forall j | j in jobs && Within(j.Home(env), file) :: NoSecondPreimage(env, j.archive)
  }

  lemma Different(env: Env, jobs: seq<Job>, a: Job, b: Job)
    requires Legal(env, jobs) && a in jobs && b in jobs && a.archive != b.archive
    ensures env.md5(a.archive) != env.md5(b.archive)
  {
    var i :| 0 <= i < |jobs| && jobs[i] == a;
    var j :| 0 <= j < |jobs| && jobs[j] == b;
  }

  /** The jobs of a past and of the session that follows it. */
  function AllJobs(past: seq<Session>, job: Job): (jobs: seq<Job>)
    ensures |jobs| == |past| + 1 && jobs[|past|] == job && job in jobs
    ensures forall i | 0 <= i < |past| :: jobs[i] == if past[i].Session? then past[i].job else job
  {
    seq(|past|, i requires 0 <= i < |past| => if past[i].Session? then past[i].job else job) + [job]
  }

  /** The zip files that a past has built. */
  function AllZips(past: seq<Session>): set<CString> {
    set i | 0 <= i < |past| && past[i].Sent? :: past[i].zip
  }

  // ---------------------------------------------------------------- frame

  /** The names of a session's own files: the partial archive, its checkpoint and the temporary one. */
  function Footprint(env: Env, job: Job): set<CString> {
    {job.File(env), CkptName(env.dir, env.md5(job.archive)), TmpName(env.dir, env.md5(job.archive))}
  }

  /** A session writes its own files, removes the old resource, and writes into the new one. */
  ghost predicate Touches(env: Env, job: Job, name: CString) {
    name in Footprint(env, job) || Within(job.Home(env), name)
  }

  ghost predicate OnlyOwn(env: Env, job: Job, fs: Fs, fs': Fs) {
    forall n: CString | !Touches(env, job, n) :: SameAt(fs, fs', n)
  }

  /** A running receiver, or a server about to remove the old resource, and all that the invariant says about it. */
  ghost predicate Owner(env: Env, job: Job, p: Proc, fs: Fs) {
    && job.Valid(env) && job.mode != Ping && p.resource == job.Resource()
    && CkptOk(env, fs, job.archive)
    && (p.pc == V(PutRemove) || (p.pc.R? && ReceiverOwns(env, job, p, p.pc.r, fs)))
  }

  ghost predicate ReceiverOwns(env: Env, job: Job, p: Proc, r: ReceiverPc, fs: Fs) {
    && (!r.AwaitHash? ==> p.hash == env.md5(job.archive))
    && Numbers(job.archive, R(r))
    && DiskGood(env, job, r, fs)
    && (r.Extract? ==> env.md5(fs[job.File(env)]) == env.md5(job.archive))
  }

  /** The disk changes only by an own action of such a process, or by how far it has got when it dies. */
  ghost predicate DiskStep(env: Env, job: Job, p: Proc, fs: Fs, a: Action, fs': Fs) {
    fs' != fs ==>
      && Owner(env, job, p, fs)
      && match a
         case Act(_, ch) =>
           if p.pc.R? then
             var e := ReceiverActs(env, p, p.pc.r, fs, ch); !ReceiverWaits(p.pc.r) && e.Works? && e.fs == fs'
           else fs' == Removed(fs, job.Home(env))
         case Stop(_, left) => fs' == Torn(env, p, fs, left)
  }

  lemma DoDisk(env: Env, job: Job, w: World, a: Action, w': World)
    requires job.Valid(env) && Inv(env, job, w) && Do(env, job, w, a) == Some(w')
    ensures DiskStep(env, job, w.Of(a.side), w.fs, a, w'.fs)
  {
    match a
    case Act(side, ch) => ActDisk(env, job, w, side, ch, w');
    case Stop(side, left) => StopDisk(env, job, w, side, left, w');
  }

  lemma ActDisk(env: Env, job: Job, w: World, side: Side, ch: Choice, w': World)
    requires job.Valid(env) && Inv(env, job, w) && Do(env, job, w, Act(side, ch)) == Some(w')
    ensures DiskStep(env, job, w.Of(side), w.fs, Act(side, ch), w'.fs)
  {
    if w'.fs != w.fs {
      ActWrites(env, job, w, side, ch, w');
      Writer(env, job, w, side);
    }
  }

  lemma ActWrites(env: Env, job: Job, w: World, side: Side, ch: Choice, w': World)
    requires job.Valid(env) && Inv(env, job, w) && Do(env, job, w, Act(side, ch)) == Some(w') && w'.fs != w.fs
    ensures var p := w.Of(side);
            if p.pc.R? then
              var e := ReceiverActs(env, p, p.pc.r, w.fs, ch); !Waits(p.pc) && e.Works? && e.fs == w'.fs
            else p.pc == V(PutRemove) && w'.fs == Removed(w.fs, job.Home(env))
  {
    if !Waits(w.Of(side).pc) {
      TurnGood(env, job, side, w.Of(side), w.fs, ch);
    }
  }

  /** Only the receiving side, from the removal of the old resource on, is ever about to write. */
  lemma Writer(env: Env, job: Job, w: World, side: Side)
    requires job.Valid(env) && Inv(env, job, w) && w.Up(side) && (w.Of(side).pc == V(PutRemove) || w.Of(side).pc.R?)
    ensures Owner(env, job, w.Of(side), w.fs)
  {
  }

  lemma StopDisk(env: Env, job: Job, w: World, side: Side, left: Remains, w': World)
    requires job.Valid(env) && Inv(env, job, w) && Do(env, job, w, Stop(side, left)) == Some(w')
    ensures DiskStep(env, job, w.Of(side), w.fs, Stop(side, left), w'.fs)
  {
  }

  lemma StepFrame(env: Env, job: Job, p: Proc, fs: Fs, a: Action, fs': Fs)
    requires DiskStep(env, job, p, fs, a, fs')
    ensures OnlyOwn(env, job, fs, fs')
  {
    forall n: CString | fs' != fs && !Touches(env, job, n) ensures SameAt(fs, fs', n) {
      if a.Act? && p.pc.R? {
        ActFrame(env, job, p, fs, a.choice, n);
      } else if a.Stop? {
        StopFrame(env, job, p, fs, a.left, n);
      }
    }
  }

  lemma ActFrame(env: Env, job: Job, p: Proc, fs: Fs, ch: Choice, n: CString)
    requires Owner(env, job, p, fs) && p.pc.R? && !Waits(p.pc) && !Touches(env, job, n)
    requires ReceiverActs(env, p, p.pc.r, fs, ch).Works?
    ensures SameAt(fs, ReceiverActs(env, p, p.pc.r, fs, ch).fs, n)
  {
  }

  lemma StopFrame(env: Env, job: Job, p: Proc, fs: Fs, left: Remains, n: CString)
    requires Owner(env, job, p, fs) && !Touches(env, job, n)
    ensures SameAt(fs, Torn(env, p, fs, left), n)
  {
  }

  /** A whole run, likewise; a ping leaves the disk alone. */
  lemma {:induction false} RunFrame(env: Env, job: Job, w: World, actions: seq<Action>)
    requires job.Valid(env) && Inv(env, job, w) && Run(env, job, w, actions).Some?
    ensures var fs' := Run(env, job, w, actions).value.fs;
            OnlyOwn(env, job, w.fs, fs') && (job.mode == Ping ==> fs' == w.fs)
    decreases |actions|
  {
    if actions != [] {
      var a, w1 := actions[0], Do(env, job, w, actions[0]).value;
      DoDisk(env, job, w, a, w1);
      StepFrame(env, job, w.Of(a.side), w.fs, a, w1.fs);
      DoKeeps(env, job, w, a);
      RunFrame(env, job, w1, actions[1..]);
      OnlyOwnTwice(env, job, w.fs, w1.fs, Run(env, job, w, actions).value.fs);
    }
  }

  lemma OnlyOwnTwice(env: Env, job: Job, fs: Fs, fs1: Fs, fs2: Fs)
    requires OnlyOwn(env, job, fs, fs1) && OnlyOwn(env, job, fs1, fs2)
    ensures OnlyOwn(env, job, fs, fs2)
  {
    forall n: CString | !Touches(env, job, n) ensures SameAt(fs, fs2, n) {
      assert SameAt(fs, fs1, n) && SameAt(fs1, fs2, n);
    }
  }

  /** A session leaves the checkpoints of other archives alone. */
  lemma CkptUntouched(env: Env, a: Job, b: Job, fs: Fs, fs': Fs)
    requires b.Valid(env) && env.md5(a.archive) != env.md5(b.archive) && OnlyOwn(env, b, fs, fs')
    ensures SameAt(fs, fs', CkptName(env.dir, env.md5(a.archive)))
  {
    OtherCkpt(env, b, env.md5(a.archive));
  }

  lemma OtherCkpt(env: Env, job: Job, h: Hash)
    requires job.Valid(env) && h != env.md5(job.archive)
    ensures !Touches(env, job, CkptName(env.dir, h))
  {
    NamesDistinct(env.dir, h, env.md5(job.archive));
  }

  // ---------------------------------------------------------------- checkpoints

  /** The checkpoint under h is a whole record written by a session of the archive that h names. */
  ghost predicate Stored(env: Env, fs: Fs, h: Hash, job: Job) {
    var name := CkptName(env.dir, h);
    && name in fs && |fs[name]| == RECORD_SIZE
    && env.md5(job.archive) == h
    && var c := ParseRecord(fs[name]);
       c.path == job.Path() && 0 < c.offset && Aligned(job.archive, c.offset)
  }

  ghost predicate Recorded(env: Env, fs: Fs, jobs: seq<Job>) {
    forall h: Hash {:trigger CkptName(env.dir, h)} | CkptName(env.dir, h) in fs ::
      exists i :: 0 <= i < |jobs| && Stored(env, fs, h, jobs[i])
  }

  lemma RecordedGivesCkptOk(env: Env, fs: Fs, jobs: seq<Job>, j: nat)
    requires Legal(env, jobs) && Recorded(env, fs, jobs) && j < |jobs|
    ensures CkptOk(env, fs, jobs[j].archive)
  {
    var h := env.md5(jobs[j].archive);
    if CkptName(env.dir, h) in fs {
      var i :| 0 <= i < |jobs| && Stored(env, fs, h, jobs[i]);
      assert jobs[i].archive == jobs[j].archive;
    }
  }

  /** The only new checkpoint a session can leave names its own path. */
  lemma OwnCheckpoint(env: Env, job: Job, p: Proc, fs: Fs, a: Action, fs': Fs)
    requires job.Valid(env) && DiskStep(env, job, p, fs, a, fs')
    ensures var name := CkptName(env.dir, env.md5(job.archive));
            name in fs' ==> SameAt(fs, fs', name) || Stored(env, fs', env.md5(job.archive), job)
  {
    if fs' != fs && a.Act? && p.pc.R? && p.pc.r.RenameTmp? {
      Renamed(env, job, p, fs, a.choice);
    } else if fs' != fs {
      CkptStays(env, job, p, fs, a, fs');
    }
  }

  lemma Renamed(env: Env, job: Job, p: Proc, fs: Fs, ch: Choice)
    requires Owner(env, job, p, fs) && p.pc.R? && p.pc.r.RenameTmp?
    ensures var e := ReceiverActs(env, p, p.pc.r, fs, ch); e.Works? && Stored(env, e.fs, env.md5(job.archive), job)
  {
    var tmp := TmpName(env.dir, p.hash);
    NamesDistinct(env.dir, p.hash, p.hash);
    assert fs[tmp][..RECORD_SIZE] == fs[tmp];
  }

  /** Any other action leaves the checkpoint, or removes it. */
  lemma CkptStays(env: Env, job: Job, p: Proc, fs: Fs, a: Action, fs': Fs)
    requires job.Valid(env) && DiskStep(env, job, p, fs, a, fs') && !(a.Act? && p.pc.R? && p.pc.r.RenameTmp?)
    ensures var name := CkptName(env.dir, env.md5(job.archive)); name in fs' ==> SameAt(fs, fs', name)
  {
    NamesDistinct(env.dir, p.hash, env.md5(job.archive));
    if fs' != fs && a.Act? && p.pc.R? {
      ActLeavesCkpt(env, job, p, fs, a.choice);
    }
  }

  lemma ActLeavesCkpt(env: Env, job: Job, p: Proc, fs: Fs, ch: Choice)
    requires Owner(env, job, p, fs) && p.pc.R? && !Waits(p.pc) && !p.pc.r.RenameTmp?
    requires ReceiverActs(env, p, p.pc.r, fs, ch).Works?
    ensures var name, fs' := CkptName(env.dir, env.md5(job.archive)), ReceiverActs(env, p, p.pc.r, fs, ch).fs;
            name in fs' ==> SameAt(fs, fs', name)
  {
    NamesDistinct(env.dir, p.hash, env.md5(job.archive));
  }

  lemma RecordedKept(env: Env, jobs: seq<Job>, j: nat, p: Proc, fs: Fs, a: Action, fs': Fs)
    requires Legal(env, jobs) && j < |jobs| && DiskStep(env, jobs[j], p, fs, a, fs')
    requires Recorded(env, fs, jobs)
    ensures Recorded(env, fs', jobs)
  {
    var job := jobs[j];
    StepFrame(env, job, p, fs, a, fs');
    OwnCheckpoint(env, job, p, fs, a, fs');
    forall h: Hash | CkptName(env.dir, h) in fs' && !Stored(env, fs', h, job)
      ensures exists i :: 0 <= i < |jobs| && Stored(env, fs', h, jobs[i])
    {
      if h != env.md5(job.archive) { OtherCkpt(env, job, h); }
      assert SameAt(fs, fs', CkptName(env.dir, h));
      var i :| 0 <= i < |jobs| && Stored(env, fs, h, jobs[i]);
      assert Stored(env, fs', h, jobs[i]);
    }
  }

  /** Nor does a zip file that this host builds make or change a checkpoint. */
  lemma RecordedLent(env: Env, jobs: seq<Job>, fs: Fs, zip: CString, left: Option<Bytes>)
    requires Recorded(env, fs, jobs) && Lent(env, fs, zip, left).Some?
    ensures Recorded(env, Lent(env, fs, zip, left).value, jobs)
  {
    var fs' := Lent(env, fs, zip, left).value;
    forall h: Hash | CkptName(env.dir, h) in fs'
      ensures exists i :: 0 <= i < |jobs| && Stored(env, fs', h, jobs[i])
    {
      assert SameAt(fs, fs', CkptName(env.dir, h));
      var i :| 0 <= i < |jobs| && Stored(env, fs, h, jobs[i]);
      assert Stored(env, fs', h, jobs[i]);
    }
  }

  // ---------------------------------------------------------------- partial archives

  /** What a file holds, if it exists, is a prefix of an archive. */
  predicate PrefixAt(fs: Fs, file: CString, archive: Bytes) {
    file in fs ==> fs[file] <= archive
  }

  /** Octets pos..pos + n of the archive were written over the content: the first block over nothing only. */
  ghost predicate Wrote(archive: Bytes, f: Bytes, pos: nat, n: nat, f': Bytes) {
    && pos <= |f| && pos < |archive| && pos + n <= |archive| && pos % BUFFER_SIZE == 0
    && (pos == 0 ==> f == [])
    && f' == Overwrite(f, pos, archive[pos..pos + n])
  }

  /** All that one action of a session does to its partial file. */
  ghost predicate FileStep(archive: Bytes, file: CString, fs: Fs, fs': Fs) {
    || file !in fs' || fs'[file] == []
    || (file in fs && fs'[file] == fs[file])
    || (file in fs && exists pos: nat, n: nat :: Wrote(archive, fs[file], pos, n, fs'[file]))
  }

  lemma FileStepIs(env: Env, job: Job, p: Proc, fs: Fs, a: Action, fs': Fs)
    requires job.Valid(env) && DiskStep(env, job, p, fs, a, fs')
    ensures FileStep(job.archive, job.File(env), fs, fs')
  {
    if fs' != fs && p.pc.R? {
      if p.pc.r.WriteData? {
        WriteStep(env, job, p, fs, a, fs');
      } else {
        FileStays(env, job, p, fs, a, fs');
      }
    }
  }

  lemma WriteStep(env: Env, job: Job, p: Proc, fs: Fs, a: Action, fs': Fs)
    requires job.Valid(env) && DiskStep(env, job, p, fs, a, fs') && fs' != fs && p.pc.R? && p.pc.r.WriteData?
    ensures var file, pos := job.File(env), p.pc.r.pos;
            file in fs && file in fs' && exists n: nat :: Wrote(job.archive, fs[file], pos, n, fs'[file])
  {
    var pos, data := p.pc.r.pos, p.pc.r.data;
    var n := if a.Stop? && a.left.torn <= |data| then a.left.torn else |data|;
    NextAligned(job.archive, pos, p.pc.r.left);
    assert data[..|data|] == data;
    assert data[..n] == job.archive[pos..pos + n];
    assert Wrote(job.archive, fs[p.File(env)], pos, n, fs'[p.File(env)]);
  }

  /** Only opening, writing and removal change the partial file. */
  lemma FileStays(env: Env, job: Job, p: Proc, fs: Fs, a: Action, fs': Fs)
    requires job.Valid(env) && DiskStep(env, job, p, fs, a, fs') && fs' != fs && p.pc.R? && !p.pc.r.WriteData?
    ensures var file := job.File(env);
            SameAt(fs, fs', file) || file !in fs' || (p.pc.r.OpenFile? && fs'[file] == [])
  {
  }

  /** Writing an archive that is a prefix of `whole` keeps the file a prefix of `whole`. */
  lemma PrefixKept(archive: Bytes, whole: Bytes, file: CString, fs: Fs, fs': Fs)
    requires FileStep(archive, file, fs, fs') && archive <= whole && PrefixAt(fs, file, whole)
    ensures PrefixAt(fs', file, whole)
  {
    if file in fs && file in fs' {
      if pos: nat, n: nat :| Wrote(archive, fs[file], pos, n, fs'[file]) {
        assert archive[pos..pos + n] == whole[pos..pos + n];
        OverwritePrefix(whole, fs[file], pos, n);
      }
    }
  }

  /**
   All that one action of a session does to a file that is no checkpoint: nothing, or it goes; or it is the partial
   file, and written; or it holds a beginning of what the archive has for it.
   */
  ghost predicate Changed(env: Env, job: Job, n: CString, fs: Fs, fs': Fs) {
    || SameAt(fs, fs', n) || n !in fs'
    || (n == job.File(env) && FileStep(job.archive, n, fs, fs'))
    || (n in job.Content(env) && fs'[n] <= job.Content(env)[n])
  }

  lemma ChangedIs(env: Env, job: Job, p: Proc, fs: Fs, a: Action, fs': Fs, n: CString)
    requires job.Valid(env) && DiskStep(env, job, p, fs, a, fs') && env.Clear(n)
    requires Within(job.Home(env), n) ==> NoSecondPreimage(env, job.archive)
    ensures Changed(env, job, n, fs, fs')
  {
    if n == job.File(env) {
      FileStepIs(env, job, p, fs, a, fs');
    } else if fs' != fs && p.pc == R(Extract) {
      if Within(job.Home(env), n) { assert fs[job.File(env)] == job.archive; }
    } else if fs' != fs && p.pc.R? {
      OthersStay(env, job, p, fs, a, fs', n);
    }
  }

  lemma OthersStay(env: Env, job: Job, p: Proc, fs: Fs, a: Action, fs': Fs, n: CString)
    requires job.Valid(env) && DiskStep(env, job, p, fs, a, fs') && fs' != fs && p.pc.R? && !p.pc.r.Extract?
    requires n !in Footprint(env, job)
    ensures SameAt(fs, fs', n)
  {
  }

  /** Whatever a session of j puts into the partial file of the job is a beginning of the job's archive. */
  predicate Conforms(env: Env, j: Job, job: Job) {
    var file := job.File(env);
    && (j.File(env) == file ==> j.archive <= job.archive)
    && (file in j.Content(env) ==> j.Content(env)[file] <= job.archive)
  }

  lemma ConformsKeeps(env: Env, j: Job, job: Job, fs: Fs, fs': Fs)
    requires Conforms(env, j, job) && Changed(env, j, job.File(env), fs, fs')
    requires PrefixAt(fs, job.File(env), job.archive)
    ensures PrefixAt(fs', job.File(env), job.archive)
  {
    var file := job.File(env);
    if j.File(env) == file && FileStep(j.archive, file, fs, fs') {
      PrefixKept(j.archive, job.archive, file, fs, fs');
    }
  }

  /** None of the zip files that this host builds is the partial file of the job. */
  predicate Spared(env: Env, zips: set<CString>, job: Job) {
    forall z | z in zips :: env.file(z) != job.File(env)
  }

  /** Only beginnings of the archive of jobs[k] are ever put into its partial file. (A ping sends nothing.) */
  predicate Longest(env: Env, jobs: seq<Job>, zips: set<CString>, k: nat)
    requires k < |jobs|
  {
    && (forall i | 0 <= i < |jobs| && jobs[i].mode != Ping :: Conforms(env, jobs[i], jobs[k]))
    && Spared(env, zips, jobs[k])
  }

  /** Then the file holds one of them. */
  ghost predicate Prefixes(env: Env, fs: Fs, jobs: seq<Job>, zips: set<CString>) {
    forall k: nat {:trigger jobs[k]}
      | k < |jobs| && Genuine(env, jobs, jobs[k].File(env)) && Longest(env, jobs, zips, k) ::
      PrefixAt(fs, jobs[k].File(env), jobs[k].archive)
  }

  lemma PrefixesKept(env: Env, jobs: seq<Job>, zips: set<CString>, j: nat, p: Proc, fs: Fs, a: Action, fs': Fs)
    requires Legal(env, jobs) && j < |jobs| && DiskStep(env, jobs[j], p, fs, a, fs')
    requires Prefixes(env, fs, jobs, zips)
    ensures Prefixes(env, fs', jobs, zips)
  {
    forall k: nat | k < |jobs| && Genuine(env, jobs, jobs[k].File(env)) && Longest(env, jobs, zips, k) && fs' != fs
      ensures PrefixAt(fs', jobs[k].File(env), jobs[k].archive)
    {
      assert jobs[k] in jobs && jobs[j] in jobs && PrefixAt(fs, jobs[k].File(env), jobs[k].archive);
      ChangedIs(env, jobs[j], p, fs, a, fs', jobs[k].File(env));
      ConformsKeeps(env, jobs[j], jobs[k], fs, fs');
    }
  }

  // ---------------------------------------------------------------- agreement with an archive

  /** One of the two is a prefix of the other. */
  predicate Comparable(a: Bytes, b: Bytes) { a <= b || b <= a }

  /** The least offset a checkpoint of the archive can hold. */
  function Least(archive: Bytes): nat { Min(BUFFER_SIZE, |archive|) }

  /** Writing b never falsifies a checkpoint of a. */
  predicate Harmless(a: Bytes, b: Bytes) { |b| < Least(a) || Comparable(a, b) }

  /** The content agrees with the archive up to every offset that a checkpoint can hold and that it reaches. */
  ghost predicate Agrees(f: Bytes, archive: Bytes) {
    forall m: nat | 0 < m <= |f| && Aligned(archive, m) :: f[..m] == archive[..m]
  }

  lemma ComparableIs(a: Bytes, b: Bytes)
    ensures Comparable(a, b) <==> forall i | 0 <= i < |a| && i < |b| :: a[i] == b[i]
  {
  }

  lemma PrefixAgrees(f: Bytes, whole: Bytes, archive: Bytes)
    requires f <= whole && Agrees(whole, archive)
    ensures Agrees(f, archive)
  {
    forall m: nat | 0 < m <= |f| && Aligned(archive, m) ensures f[..m] == archive[..m] {
      assert f[..m] == whole[..m];
    }
  }

  lemma OverwrittenAt(f: Bytes, b: Bytes, pos: nat, n: nat, f': Bytes, i: nat)
    requires Wrote(b, f, pos, n, f') && i < |f'|
    ensures f'[i] == if pos <= i < pos + n then b[i] else f[i]
  {
    if i < pos {
      assert f'[..pos][i] == f[..pos][i];
    } else if i < pos + n {
      assert f'[pos..pos + n][i - pos] == b[pos..pos + n][i - pos];
    }
  }

  lemma OverwriteAgrees(a: Bytes, f: Bytes, b: Bytes, pos: nat, n: nat, f': Bytes)
    requires Agrees(f, a) && Harmless(a, b) && Wrote(b, f, pos, n, f')
    ensures Agrees(f', a)
  {
    forall m: nat | 0 < m <= |f'| && Aligned(a, m) ensures f'[..m] == a[..m] {
      assert Comparable(a, b);
      ComparableIs(a, b);
      forall i | 0 <= i < m ensures f'[i] == a[i] {
        OverwrittenAt(f, b, pos, n, f', i);
        if i < pos && |f| < m {
          assert f[..pos][i] == a[..pos][i];
        } else if m <= |f| {
          assert f[..m][i] == a[..m][i];
        }
      }
    }
  }

  /** Where a checkpoint of the job names the job's path, its partial file agrees with its archive. */
  ghost predicate Backed(env: Env, job: Job, fs: Fs) {
    var file := job.File(env);
    Names(fs, CkptName(env.dir, env.md5(job.archive)), job.Path()) && file in fs ==> Agrees(fs[file], job.archive)
  }

  /** Nothing that a session of j puts into the partial file of the job falsifies a checkpoint of the job. */
  ghost predicate Gentle(env: Env, j: Job, job: Job) {
    var file := job.File(env);
    && (j.File(env) == file ==> Harmless(job.archive, j.archive))
    && (j.archive != job.archive && file in j.Content(env) ==> Agrees(j.Content(env)[file], job.archive))
  }

  lemma GentleKeeps(env: Env, j: Job, job: Job, p: Proc, fs: Fs, a: Action, fs': Fs)
    requires job.Valid(env) && j.Valid(env) && DiskStep(env, j, p, fs, a, fs')
    requires Within(j.Home(env), job.File(env)) ==> NoSecondPreimage(env, j.archive)
    requires Gentle(env, j, job) && Backed(env, job, fs)
    requires env.md5(j.archive) == env.md5(job.archive) ==> j.archive == job.archive
    ensures Backed(env, job, fs')
  {
    if fs' == fs {
    } else if j.archive == job.archive {
      SameArchiveKeeps(env, j, job, p, fs, a, fs');
    } else {
      StepFrame(env, j, p, fs, a, fs');
      CkptUntouched(env, job, j, fs, fs');
      ChangedIs(env, j, p, fs, a, fs', job.File(env));
      OtherArchiveKeeps(env, j, job, fs, fs');
    }
  }

  lemma OtherArchiveKeeps(env: Env, j: Job, job: Job, fs: Fs, fs': Fs)
    requires j.archive != job.archive && Gentle(env, j, job) && Backed(env, job, fs)
    requires Changed(env, j, job.File(env), fs, fs') && SameAt(fs, fs', CkptName(env.dir, env.md5(job.archive)))
    ensures Backed(env, job, fs')
  {
    var file := job.File(env);
    if Names(fs', CkptName(env.dir, env.md5(job.archive)), job.Path()) && file in fs' && !SameAt(fs, fs', file) {
      if j.File(env) == file && FileStep(j.archive, file, fs, fs') {
        StepAgrees(j.archive, job.archive, file, fs, fs');
      } else {
        PrefixAgrees(fs'[file], j.Content(env)[file], job.archive);
      }
    }
  }

  lemma StepAgrees(archive: Bytes, whole: Bytes, file: CString, fs: Fs, fs': Fs)
    requires FileStep(archive, file, fs, fs') && Harmless(whole, archive) && file in fs'
    requires file in fs ==> Agrees(fs[file], whole)
    ensures Agrees(fs'[file], whole)
  {
    if file in fs {
      if pos: nat, n: nat :| Wrote(archive, fs[file], pos, n, fs'[file]) {
        OverwriteAgrees(whole, fs[file], archive, pos, n, fs'[file]);
      }
    }
  }

  /**
   A session of the same archive, perhaps by another path: past an offset it resumed from, the checkpoint names its own
   path; and what it wrote from the start on is the archive.
   */
  lemma SameArchiveKeeps(env: Env, j: Job, job: Job, p: Proc, fs: Fs, a: Action, fs': Fs)
    requires job.Valid(env) && j.Valid(env) && DiskStep(env, j, p, fs, a, fs') && fs' != fs
    requires j.archive == job.archive && Backed(env, job, fs)
    ensures Backed(env, job, fs')
  {
    if a.Act? && p.pc.R? && p.pc.r.RenameTmp? {
      RenameBacks(env, j, job, p, fs, a.choice);
    } else {
      CkptStays(env, j, p, fs, a, fs');
      if p.pc.R? && p.pc.r.WriteData? && j.File(env) == job.File(env) {
        WriteBacks(env, j, job, p, fs, a, fs');
      } else if p.pc == R(Extract) {
        ExtractBacks(env, j, job, p, fs, a, fs');
      } else if p.pc.R? {
        if j.File(env) == job.File(env) {
          FileStays(env, j, p, fs, a, fs');
        } else {
          OthersStay(env, j, p, fs, a, fs', job.File(env));
        }
      }
    }
  }

  lemma RenameBacks(env: Env, j: Job, job: Job, p: Proc, fs: Fs, ch: Choice)
    requires job.Valid(env) && Owner(env, j, p, fs) && p.pc.R? && p.pc.r.RenameTmp?
    requires j.archive == job.archive && Backed(env, job, fs)
    ensures var e := ReceiverActs(env, p, p.pc.r, fs, ch); e.Works? && Backed(env, job, e.fs)
  {
    Renamed(env, j, p, fs, ch);
    var e, file := ReceiverActs(env, p, p.pc.r, fs, ch), j.File(env);
    var name := CkptName(env.dir, p.hash);
    assert e.fs[name][..RECORD_SIZE] == e.fs[name];
    if j.Path() == job.Path() {
      WrittenAgrees(j.archive, file, p.pc.r.start, p.pc.r.pos, fs);
      assert SameAt(fs, e.fs, file);
    }
  }

  lemma WrittenAgrees(a: Bytes, file: CString, st: nat, pos: nat, fs: Fs)
    requires Written(a, file, st, pos, fs)
    ensures st == 0 ==> fs[file] <= a && Agrees(fs[file], a)
  {
    if st == 0 {
      assert fs[file][0..pos] == fs[file] && a[0..pos] == a[..pos];
      PrefixAgrees(fs[file], a, a);
    }
  }

  lemma WriteBacks(env: Env, j: Job, job: Job, p: Proc, fs: Fs, a: Action, fs': Fs)
    requires job.Valid(env) && j.Valid(env) && DiskStep(env, j, p, fs, a, fs') && fs' != fs
    requires p.pc.R? && p.pc.r.WriteData? && j.archive == job.archive && j.File(env) == job.File(env)
    requires Backed(env, job, fs)
    ensures Backed(env, job, fs')
  {
    var file, r := j.File(env), p.pc.r;
    WriteStep(env, j, p, fs, a, fs');
    var n: nat :| Wrote(j.archive, fs[file], r.pos, n, fs'[file]);
    WrittenAgrees(j.archive, file, r.start, r.pos, fs);
    if Agrees(fs[file], j.archive) {
      OverwriteAgrees(j.archive, fs[file], j.archive, r.pos, n, fs'[file]);
    } else {
      assert Holds(fs, CkptName(env.dir, p.hash), Checkpoint(r.pos, j.Path()));
      CkptStays(env, j, p, fs, a, fs');
    }
  }

  lemma ExtractBacks(env: Env, j: Job, job: Job, p: Proc, fs: Fs, a: Action, fs': Fs)
    requires job.Valid(env) && j.Valid(env) && DiskStep(env, j, p, fs, a, fs') && fs' != fs && p.pc == R(Extract)
    requires j.archive == job.archive && Backed(env, job, fs)
    ensures Backed(env, job, fs')
  {
    CkptStays(env, j, p, fs, a, fs');
    if j.Path() == job.Path() {
      FileStays(env, j, p, fs, a, fs');
    }
  }

  /** Nothing that is ever put into the partial file of jobs[k] falsifies its checkpoint. */
  ghost predicate Undisturbed(env: Env, jobs: seq<Job>, zips: set<CString>, k: nat)
    requires k < |jobs|
  {
    && (forall i | 0 <= i < |jobs| && jobs[i].mode != Ping :: Gentle(env, jobs[i], jobs[k]))
    && Spared(env, zips, jobs[k])
  }

  ghost predicate AllBacked(env: Env, fs: Fs, jobs: seq<Job>, zips: set<CString>) {
    forall k: nat {:trigger jobs[k]}
      | k < |jobs| && Genuine(env, jobs, jobs[k].File(env)) && Undisturbed(env, jobs, zips, k) ::
      Backed(env, jobs[k], fs)
  }

  lemma AllBackedKept(env: Env, jobs: seq<Job>, zips: set<CString>, j: nat, p: Proc, fs: Fs, a: Action, fs': Fs)
    requires Legal(env, jobs) && j < |jobs| && DiskStep(env, jobs[j], p, fs, a, fs')
    requires AllBacked(env, fs, jobs, zips)
    ensures AllBacked(env, fs', jobs, zips)
  {
    forall k: nat
      | k < |jobs| && Genuine(env, jobs, jobs[k].File(env)) && Undisturbed(env, jobs, zips, k) && fs' != fs
      ensures Backed(env, jobs[k], fs')
    {
      assert jobs[k] in jobs && jobs[j] in jobs && Backed(env, jobs[k], fs);
      GentleKeeps(env, jobs[j], jobs[k], p, fs, a, fs');
    }
  }

  // ---------------------------------------------------------------- every reachable state

  ghost predicate DiskInv(env: Env, fs: Fs, jobs: seq<Job>, zips: set<CString>) {
    Recorded(env, fs, jobs) && Prefixes(env, fs, jobs, zips) && AllBacked(env, fs, jobs, zips)
  }

  lemma StepKeepsDisk(env: Env, jobs: seq<Job>, zips: set<CString>, j: nat, p: Proc, fs: Fs, a: Action, fs': Fs)
    requires Legal(env, jobs) && j < |jobs| && DiskStep(env, jobs[j], p, fs, a, fs') && DiskInv(env, fs, jobs, zips)
    ensures DiskInv(env, fs', jobs, zips)
  {
    RecordedKept(env, jobs, j, p, fs, a, fs');
    PrefixesKept(env, jobs, zips, j, p, fs, a, fs');
    AllBackedKept(env, jobs, zips, j, p, fs, a, fs');
  }

  lemma LentKeepsDisk(env: Env, jobs: seq<Job>, zips: set<CString>, fs: Fs, zip: CString, left: Option<Bytes>)
    requires DiskInv(env, fs, jobs, zips) && zip in zips && Lent(env, fs, zip, left).Some?
    ensures DiskInv(env, Lent(env, fs, zip, left).value, jobs, zips)
  {
    RecordedLent(env, jobs, fs, zip, left);
    var fs' := Lent(env, fs, zip, left).value;
    forall k: nat | k < |jobs| && Spared(env, zips, jobs[k]) ensures SameAt(fs, fs', jobs[k].File(env)) {
      assert env.file(zip) != jobs[k].File(env);
    }
    assert forall h: Hash :: SameAt(fs, fs', CkptName(env.dir, h));
  }

  lemma {:induction false} SessionKeeps(env: Env, jobs: seq<Job>, zips: set<CString>, j: nat, w: World,
      actions: seq<Action>)
    requires Legal(env, jobs) && j < |jobs| && Inv(env, jobs[j], w) && DiskInv(env, w.fs, jobs, zips)
    requires Run(env, jobs[j], w, actions).Some?
    ensures var w' := Run(env, jobs[j], w, actions).value; Inv(env, jobs[j], w') && DiskInv(env, w'.fs, jobs, zips)
    decreases |actions|
  {
    if actions != [] {
      var a := actions[0];
      var w1 := Do(env, jobs[j], w, a).value;
      DoDisk(env, jobs[j], w, a, w1);
      StepKeepsDisk(env, jobs, zips, j, w.Of(a.side), w.fs, a, w1.fs);
      DoKeeps(env, jobs[j], w, a);
      SessionKeeps(env, jobs, zips, j, w1, actions[1..]);
    }
  }

  /** The jobs of a past and of the session that follows are among the given ones, and so are the zip files built. */
  ghost predicate Drawn(past: seq<Session>, job: Job, jobs: seq<Job>, zips: set<CString>) {
    job in jobs && AllDrawn(past, jobs, zips)
  }

  ghost predicate AllDrawn(past: seq<Session>, jobs: seq<Job>, zips: set<CString>) {
    forall i | 0 <= i < |past| :: IsDrawn(past[i], jobs, zips)
  }

  predicate IsDrawn(s: Session, jobs: seq<Job>, zips: set<CString>) {
    match s
    case Session(job, _) => job in jobs
    case Sent(zip, _) => zip in zips
  }

  lemma {:induction false} PastKeeps(env: Env, jobs: seq<Job>, zips: set<CString>, fs: Fs, past: seq<Session>, fs': Fs)
    requires Legal(env, jobs) && DiskInv(env, fs, jobs, zips) && AllDrawn(past, jobs, zips)
    requires RunAll(env, fs, past) == Some(fs')
    ensures DiskInv(env, fs', jobs, zips)
    decreases |past|
  {
    if past != [] {
      var fs1 := Outcome(env, fs, past[0]).value;
      OutcomeKeeps(env, jobs, zips, fs, past[0], fs1);
      PastKeeps(env, jobs, zips, fs1, past[1..], fs');
    }
  }

  lemma OutcomeKeeps(env: Env, jobs: seq<Job>, zips: set<CString>, fs: Fs, s: Session, fs': Fs)
    requires Legal(env, jobs) && DiskInv(env, fs, jobs, zips) && IsDrawn(s, jobs, zips)
    requires Outcome(env, fs, s) == Some(fs')
    ensures DiskInv(env, fs', jobs, zips)
  {
    match s
    case Session(job, actions) =>
      WholeSessionKeeps(env, jobs, zips, fs, job, actions, Run(env, job, Start(job, fs), actions).value);
    case Sent(zip, left) => LentKeepsDisk(env, jobs, zips, fs, zip, left);
  }

  lemma WholeSessionKeeps(env: Env, jobs: seq<Job>, zips: set<CString>, fs: Fs, job: Job, actions: seq<Action>,
      w: World)
    requires Legal(env, jobs) && DiskInv(env, fs, jobs, zips) && job in jobs
    requires Run(env, job, Start(job, fs), actions) == Some(w)
    ensures Inv(env, job, w) && DiskInv(env, w.fs, jobs, zips)
  {
    var j :| 0 <= j < |jobs| && jobs[j] == job;
    RecordedGivesCkptOk(env, fs, jobs, j);
    StartGood(env, job, fs);
    SessionKeeps(env, jobs, zips, j, Start(job, fs), actions);
  }

  /** The state after a past of whole or interrupted sessions, and some actions of a current one. */
  ghost function Reach(env: Env, past: seq<Session>, job: Job, actions: seq<Action>): Option<World>
    requires env.Valid()
  {
    match RunAll(env, map[], past)
    case None => None
    case Some(fs) => Run(env, job, Start(job, fs), actions)
  }

  lemma ReachedAmong(env: Env, jobs: seq<Job>, zips: set<CString>, past: seq<Session>, job: Job, actions: seq<Action>,
      w: World)
    requires Legal(env, jobs) && Drawn(past, job, jobs, zips) && Reach(env, past, job, actions) == Some(w)
    ensures Inv(env, job, w) && DiskInv(env, w.fs, jobs, zips)
  {
    var fs := RunAll(env, map[], past).value;
    PastKeeps(env, jobs, zips, map[], past, fs);
    WholeSessionKeeps(env, jobs, zips, fs, job, actions, w);
  }

  lemma ReachedGood(env: Env, past: seq<Session>, job: Job, actions: seq<Action>, w: World)
    requires Legal(env, AllJobs(past, job)) && Reach(env, past, job, actions) == Some(w)
    ensures Inv(env, job, w) && DiskInv(env, w.fs, AllJobs(past, job), AllZips(past))
  {
    var jobs := AllJobs(past, job);
    forall i | 0 <= i < |past| ensures IsDrawn(past[i], jobs, AllZips(past)) {
      if past[i].Session? { assert jobs[i] == past[i].job; }
    }
    ReachedAmong(env, jobs, AllZips(past), past, job, actions, w);
  }

  // ---------------------------------------------------------------- main results

  /** What the partial file of a job holds is a prefix of the job's archive. */
  predicate PrefixKnown(env: Env, j: Job, fs: Fs) {
    PrefixAt(fs, j.File(env), j.archive)
  }

  /** A checkpoint of the job that passes the receiver's test promises octets that are there and are the archive's. */
  predicate Truthful(env: Env, j: Job, fs: Fs) {
    var o, file := Resumable(env, j.Path(), env.md5(j.archive), fs), j.File(env);
    o.Some? ==>
      && file in fs && o.value <= |fs[file]| && o.value <= |j.archive|
      && fs[file][..o.value] == j.archive[..o.value]
  }

  /**
   Crash consistency. In every reachable state, torn writes, half-done removals and extractions and declined resumes
   included: a partial file that only beginnings of one archive are ever put into holds one of them; and where nothing
   ever put there falsifies it, an accepted checkpoint is true. SharedPaths shows that both conditions are exact.
   */
  lemma CrashConsistency(env: Env, jobs: seq<Job>, zips: set<CString>, past: seq<Session>, job: Job,
      actions: seq<Action>, w: World, k: nat)
    requires Legal(env, jobs) && k < |jobs| && Genuine(env, jobs, jobs[k].File(env))
    requires Drawn(past, job, jobs, zips) && Reach(env, past, job, actions) == Some(w)
    ensures Longest(env, jobs, zips, k) ==> PrefixKnown(env, jobs[k], w.fs)
    ensures Undisturbed(env, jobs, zips, k) ==> Truthful(env, jobs[k], w.fs)
  {
    ReachedAmong(env, jobs, zips, past, job, actions, w);
    if Undisturbed(env, jobs, zips, k) {
      RecordedGivesCkptOk(env, w.fs, jobs, k);
      assert Backed(env, jobs[k], w.fs);
      BackedTruthful(env, jobs[k], w.fs);
    }
  }

  lemma BackedTruthful(env: Env, j: Job, fs: Fs)
    requires CkptOk(env, fs, j.archive) && Backed(env, j, fs)
    ensures Truthful(env, j, fs)
  {
    var name := CkptName(env.dir, env.md5(j.archive));
    if name in fs {
      assert fs[name][..RECORD_SIZE] == fs[name];
    }
  }

  /**
   Atomic checkpoints. Whatever the crashes, a checkpoint file is either absent or a complete record, written by a
   session of the very archive it is named after, with an offset that session can have reached. So the short-read
   branch of the receiver is never taken.
   */
  lemma CheckpointsAtomic(env: Env, past: seq<Session>, job: Job, actions: seq<Action>, w: World, h: Hash)
    requires Legal(env, AllJobs(past, job)) && Reach(env, past, job, actions) == Some(w)
    requires CkptName(env.dir, h) in w.fs
    ensures |w.fs[CkptName(env.dir, h)]| == RECORD_SIZE
    ensures exists j :: j in AllJobs(past, job) && env.md5(j.archive) == h
                        && var c := ParseRecord(w.fs[CkptName(env.dir, h)]);
                           c.path == j.Path() && 0 < c.offset <= |j.archive|
                           && (c.offset % BUFFER_SIZE == 0 || c.offset == |j.archive|)
  {
    ReachedGood(env, past, job, actions, w);
    var jobs := AllJobs(past, job);
    var i :| 0 <= i < |jobs| && Stored(env, w.fs, h, jobs[i]);
    assert jobs[i] in jobs;
  }
}
