/**
 What happens when several sessions write to one file: exactly when the partial file is always a prefix of an archive,
 and exactly when every checkpoint the receiver accepts is true.
 */
module SharedPaths {
  import opened Bytes
  import opened Cipher
  import opened Disk
  import opened Protocol
  import opened Invariant
  import opened History
  import opened Recovery
  import opened Walks

  /** In every state that sessions of these jobs can reach, the partial file of jobs[k] is a prefix of its archive. */
  ghost predicate AlwaysPrefix(env: Env, jobs: seq<Job>, zips: set<CString>, k: nat)
    requires env.Valid() && k < |jobs|
  {
    forall past: seq<Session>, job: Job, actions: seq<Action> {:trigger Reach(env, past, job, actions)} ::
      Drawn(past, job, jobs, zips) && Reach(env, past, job, actions).Some? ==>
        PrefixKnown(env, jobs[k], Reach(env, past, job, actions).value.fs)
  }

  /** In every such state a checkpoint of jobs[k] that passes the receiver's test is true. */
  ghost predicate AlwaysTruthful(env: Env, jobs: seq<Job>, zips: set<CString>, k: nat)
    requires env.Valid() && k < |jobs|
  {
    forall past: seq<Session>, job: Job, actions: seq<Action> {:trigger Reach(env, past, job, actions)} ::
      Drawn(past, job, jobs, zips) && Reach(env, past, job, actions).Some? ==>
        Truthful(env, jobs[k], Reach(env, past, job, actions).value.fs)
  }

  // ---------------------------------------------------------------- disks that these sessions can leave

  ghost predicate Possible(env: Env, jobs: seq<Job>, zips: set<CString>, fs: Fs)
    requires env.Valid()
  {
    exists past: seq<Session> :: AllDrawn(past, jobs, zips) && RunAll(env, map[], past) == Some(fs)
  }

  lemma EmptyPossible(env: Env, jobs: seq<Job>, zips: set<CString>)
    requires env.Valid()
    ensures Possible(env, jobs, zips, map[])
  {
    assert RunAll(env, map[], []) == Some(map[]);
  }

  lemma PossibleNext(env: Env, jobs: seq<Job>, zips: set<CString>, fs: Fs, s: Session, fs': Fs)
    requires env.Valid() && Possible(env, jobs, zips, fs) && IsDrawn(s, jobs, zips) && Outcome(env, fs, s) == Some(fs')
    ensures Possible(env, jobs, zips, fs')
  {
    var past: seq<Session> :| AllDrawn(past, jobs, zips) && RunAll(env, map[], past) == Some(fs);
    RunAllSnoc(env, map[], past, s);
    assert AllDrawn(past + [s], jobs, zips);
  }

  lemma PossibleAfter(env: Env, jobs: seq<Job>, zips: set<CString>, fs: Fs, job: Job, actions: seq<Action>, w: World)
    requires env.Valid() && Possible(env, jobs, zips, fs) && job in jobs
    requires Run(env, job, Start(job, fs), actions) == Some(w)
    ensures Possible(env, jobs, zips, w.fs)
  {
    PossibleNext(env, jobs, zips, fs, Session(job, actions), w.fs);
  }

  lemma PossibleTruthful(env: Env, jobs: seq<Job>, zips: set<CString>, k: nat, fs: Fs)
    requires env.Valid() && k < |jobs| && AlwaysTruthful(env, jobs, zips, k) && Possible(env, jobs, zips, fs)
    ensures Truthful(env, jobs[k], fs)
  {
    var past: seq<Session> :| AllDrawn(past, jobs, zips) && RunAll(env, map[], past) == Some(fs);
    assert Reach(env, past, jobs[k], []) == Some(Start(jobs[k], fs));
  }

  lemma PossiblePrefix(env: Env, jobs: seq<Job>, zips: set<CString>, k: nat, fs: Fs)
    requires env.Valid() && k < |jobs| && AlwaysPrefix(env, jobs, zips, k) && Possible(env, jobs, zips, fs)
    ensures PrefixKnown(env, jobs[k], fs)
  {
    var past: seq<Session> :| AllDrawn(past, jobs, zips) && RunAll(env, map[], past) == Some(fs);
    assert Reach(env, past, jobs[k], []) == Some(Start(jobs[k], fs));
  }

  /** A whole transfer of b, up to the extraction, where b has no checkpoint. */
  lemma Delivered(env: Env, jobs: seq<Job>, zips: set<CString>, b: Job, fs: Fs) returns (fs': Fs)
    requires Legal(env, jobs) && b in jobs && b.mode != Ping && Possible(env, jobs, zips, fs)
    requires CkptName(env.dir, env.md5(b.archive)) !in fs
    ensures Possible(env, jobs, zips, fs') && OnlyOwn(env, b, fs, fs')
    ensures forall n | n in b.Content(env) :: n in fs' && fs'[n] == b.Content(env)[n]
  {
    Restarts(env, b, fs);
    var actions, w := ToExtraction(env, b, fs);
    PossibleAfter(env, jobs, zips, fs, b, actions, w);
    fs' := w.fs;
  }

  /** This host, as a sender, builds its zip file over the partial file of a job. */
  lemma Built(env: Env, jobs: seq<Job>, zips: set<CString>, z: CString, job: Job, content: Bytes, fs: Fs)
    requires Legal(env, jobs) && job in jobs && z in zips && env.file(z) == job.File(env)
    requires Possible(env, jobs, zips, fs)
    ensures Possible(env, jobs, zips, fs[job.File(env) := content])
  {
    PossibleNext(env, jobs, zips, fs, Sent(z, Some(content)), fs[job.File(env) := content]);
  }

  function Other(b: byte): (o: byte)
    ensures o != b
  {
    if b == 0 then 1 else 0
  }

  // ---------------------------------------------------------------- the partial file

  /** An archive that is not a prefix, sent alone, already leaves something else; so does one that extracts it there. */
  lemma Spoils(env: Env, jobs: seq<Job>, zips: set<CString>, k: nat, i: nat)
    requires Legal(env, jobs) && k < |jobs| && i < |jobs| && jobs[i].mode != Ping
    requires !Conforms(env, jobs[i], jobs[k])
    ensures !AlwaysPrefix(env, jobs, zips, k)
  {
    var a, b := jobs[k], jobs[i];
    EmptyPossible(env, jobs, zips);
    var fs;
    if a.File(env) in b.Content(env) && !(b.Content(env)[a.File(env)] <= a.archive) {
      fs := Delivered(env, jobs, zips, b, map[]);
    } else {
      fs := Advanced(env, jobs, zips, b, |b.archive|, map[]);
      assert b.archive[..|b.archive|] == b.archive;
    }
    if AlwaysPrefix(env, jobs, zips, k) {
      PossiblePrefix(env, jobs, zips, k, fs);
    }
  }

  /** So does a zip file built there. */
  lemma SpoiledBySending(env: Env, jobs: seq<Job>, zips: set<CString>, k: nat)
    requires Legal(env, jobs) && k < |jobs| && !Spared(env, zips, jobs[k])
    ensures !AlwaysPrefix(env, jobs, zips, k)
  {
    var a := jobs[k];
    var z :| z in zips && env.file(z) == a.File(env);
    EmptyPossible(env, jobs, zips);
    assert a in jobs;
    var content := [Other(a.archive[0])];
    Built(env, jobs, zips, z, a, content, map[]);
    if AlwaysPrefix(env, jobs, zips, k) {
      PossiblePrefix(env, jobs, zips, k, map[][a.File(env) := content]);
    }
  }

  /**
   The partial file, exactly: it is a prefix of the archive in every reachable state if and only if every archive sent
   to that file is, every archive that is extracted there holds one for it, and no zip file is built there.
   */
  lemma PrefixExact(env: Env, jobs: seq<Job>, zips: set<CString>, k: nat)
    requires Legal(env, jobs) && k < |jobs| && Genuine(env, jobs, jobs[k].File(env))
    ensures AlwaysPrefix(env, jobs, zips, k) <==> Longest(env, jobs, zips, k)
  {
    if Longest(env, jobs, zips, k) {
      forall past: seq<Session>, job: Job, actions: seq<Action>
        | Drawn(past, job, jobs, zips) && Reach(env, past, job, actions).Some?
        ensures PrefixKnown(env, jobs[k], Reach(env, past, job, actions).value.fs)
      {
        CrashConsistency(env, jobs, zips, past, job, actions, Reach(env, past, job, actions).value, k);
      }
    } else if !Spared(env, zips, jobs[k]) {
      SpoiledBySending(env, jobs, zips, k);
    } else {
      var i :| 0 <= i < |jobs| && jobs[i].mode != Ping && !Conforms(env, jobs[i], jobs[k]);
      Spoils(env, jobs, zips, k, i);
    }
  }

  // ---------------------------------------------------------------- checkpoints

  lemma OfferedIs(env: Env, job: Job, o: nat, fs: Fs)
    requires CkptAt(env, job, o, fs) && job.File(env) in fs && o <= |fs[job.File(env)]|
    ensures Offered(env, job, fs) == Some(o)
  {
    var name := CkptName(env.dir, env.md5(job.archive));
    assert fs[name][..RECORD_SIZE] == fs[name];
  }

  /** The last packet boundary at or before an index. */
  function Boundary(d: nat): nat { d / BUFFER_SIZE * BUFFER_SIZE }

  lemma BoundaryIs(job: Job, d: nat)
    requires d < |job.archive|
    ensures Boundary(d) <= d < NextPos(job, Boundary(d)) && Boundary(d) % BUFFER_SIZE == 0
    ensures Aligned(job.archive, Boundary(d)) && Aligned(job.archive, NextPos(job, Boundary(d)))
  {
  }

  /** First b up to the boundary before the difference; nothing if that is the beginning. */
  lemma Prepared(env: Env, jobs: seq<Job>, zips: set<CString>, b: Job, q: nat) returns (fs: Fs)
    requires Legal(env, jobs) && b in jobs && b.mode != Ping && Aligned(b.archive, q)
    ensures Possible(env, jobs, zips, fs) && OnlyOwn(env, b, map[], fs)
    ensures if q == 0 then fs == map[] else CkptAt(env, b, q, fs)
  {
    EmptyPossible(env, jobs, zips);
    if q == 0 {
      fs := map[];
    } else {
      fs := Advanced(env, jobs, zips, b, q, map[]);
    }
  }

  /** Then a up to the boundary after the difference. */
  lemma Advanced(env: Env, jobs: seq<Job>, zips: set<CString>, a: Job, m: nat, fs: Fs) returns (fs': Fs)
    requires Legal(env, jobs) && a in jobs && a.mode != Ping && Possible(env, jobs, zips, fs)
    requires 0 < m && Aligned(a.archive, m) && CkptName(env.dir, env.md5(a.archive)) !in fs
    ensures Possible(env, jobs, zips, fs') && OnlyOwn(env, a, fs, fs')
    ensures a.File(env) in fs' && fs'[a.File(env)] == a.archive[..m] && CkptAt(env, a, m, fs')
  {
    Restarts(env, a, fs);
    var actions, w := FromStart(env, a, m, fs);
    PossibleAfter(env, jobs, zips, fs, a, actions, w);
    fs' := w.fs;
  }

  /** And b once more, for one packet: from its checkpoint, or from the start. */
  lemma Overwritten(env: Env, jobs: seq<Job>, zips: set<CString>, b: Job, q: nat, fs: Fs) returns (fs': Fs)
    requires Legal(env, jobs) && b in jobs && b.mode != Ping && Possible(env, jobs, zips, fs) && b.File(env) in fs
    requires q < |b.archive| && q % BUFFER_SIZE == 0 && q <= |fs[b.File(env)]|
    requires if q == 0 then CkptName(env.dir, env.md5(b.archive)) !in fs else CkptAt(env, b, q, fs)
    ensures Possible(env, jobs, zips, fs') && OnlyOwn(env, b, fs, fs') && b.File(env) in fs'
    ensures var next, file := NextPos(b, q), b.File(env);
            fs'[file] == if q == 0 then b.archive[..next] else Overwrite(fs[file], q, b.archive[q..next])
  {
    if q == 0 {
      fs' := Advanced(env, jobs, zips, b, NextPos(b, 0), fs);
    } else {
      OfferedIs(env, b, q, fs);
      var actions, w := FromCheckpoint(env, b, q, fs);
      PossibleAfter(env, jobs, zips, fs, b, actions, w);
      fs' := w.fs;
    }
  }

  /** The three sessions leave a checkpoint of a at m over a file that differs from a at d. */
  lemma Falsified(env: Env, jobs: seq<Job>, zips: set<CString>, a: Job, b: Job, d: nat) returns (fs: Fs)
    requires Legal(env, jobs) && a in jobs && b in jobs && a.mode != Ping && b.mode != Ping
    requires a.File(env) == b.File(env)
    requires d < |a.archive| && d < |b.archive| && a.archive[d] != b.archive[d] && Least(a.archive) <= |b.archive|
    ensures Possible(env, jobs, zips, fs) && !Truthful(env, a, fs)
  {
    var q, file := Boundary(d), a.File(env);
    BoundaryIs(a, d);
    BoundaryIs(b, d);
    var m := NextPos(a, q);
    Different(env, jobs, a, b);
    var fs1 := Prepared(env, jobs, zips, b, q);
    CkptUntouched(env, a, b, map[], fs1);
    var fs2 := Advanced(env, jobs, zips, a, m, fs1);
    CkptUntouched(env, b, a, fs1, fs2);
    fs := Overwritten(env, jobs, zips, b, q, fs2);
    CkptUntouched(env, a, b, fs2, fs);
    FileDiffers(a, b, d, m, fs2[file], fs[file]);
    NotTruthful(env, a, d, m, fs);
  }

  lemma NotTruthful(env: Env, a: Job, d: nat, m: nat, fs: Fs)
    requires CkptAt(env, a, m, fs) && a.File(env) in fs && d < m <= |fs[a.File(env)]| && m <= |a.archive|
    requires fs[a.File(env)][d] != a.archive[d]
    ensures !Truthful(env, a, fs)
  {
    OfferedIs(env, a, m, fs);
    assert fs[a.File(env)][..m][d] != a.archive[..m][d];
  }

  lemma FileDiffers(a: Job, b: Job, d: nat, m: nat, f: Bytes, f': Bytes)
    requires d < |a.archive| && d < |b.archive| && a.archive[d] != b.archive[d] && Least(a.archive) <= |b.archive|
    requires m == NextPos(a, Boundary(d)) && f == a.archive[..m]
    requires var q := Boundary(d); var next := NextPos(b, q);
             f' == if q == 0 then b.archive[..next] else Overwrite(f, q, b.archive[q..next])
    ensures d < m <= |f'| && f'[d] == b.archive[d]
  {
    var q := Boundary(d);
    BoundaryIs(a, d);
    BoundaryIs(b, d);
    if q > 0 {
      var c := b.archive[q..NextPos(b, q)];
      assert f'[q..q + |c|][d - q] == c[d - q];
    }
  }

  /** Two sessions do, where extracting b leaves something else at the partial file of a. */
  lemma FalsifiedByExtraction(env: Env, jobs: seq<Job>, zips: set<CString>, a: Job, b: Job) returns (fs: Fs)
    requires Legal(env, jobs) && a in jobs && b in jobs && a.mode != Ping && b.mode != Ping && a.archive != b.archive
    requires a.File(env) in b.Content(env) && !Agrees(b.Content(env)[a.File(env)], a.archive)
    ensures Possible(env, jobs, zips, fs) && !Truthful(env, a, fs)
  {
    var f := b.Content(env)[a.File(env)];
    var m: nat :| 0 < m <= |f| && Aligned(a.archive, m) && f[..m] != a.archive[..m];
    EmptyPossible(env, jobs, zips);
    Different(env, jobs, a, b);
    var fs1 := Advanced(env, jobs, zips, a, m, map[]);
    CkptUntouched(env, b, a, map[], fs1);
    fs := Delivered(env, jobs, zips, b, fs1);
    CkptUntouched(env, a, b, fs1, fs);
    OfferedIs(env, a, m, fs);
  }

  /** One session and a zip file do, where this host builds the zip file over the partial file of a. */
  lemma FalsifiedBySending(env: Env, jobs: seq<Job>, zips: set<CString>, a: Job) returns (fs: Fs)
    requires Legal(env, jobs) && a in jobs && a.mode != Ping && !Spared(env, zips, a)
    ensures Possible(env, jobs, zips, fs) && !Truthful(env, a, fs)
  {
    var z :| z in zips && env.file(z) == a.File(env);
    var m, content := Least(a.archive), a.archive[0 := Other(a.archive[0])];
    EmptyPossible(env, jobs, zips);
    var fs1 := Advanced(env, jobs, zips, a, m, map[]);
    Built(env, jobs, zips, z, a, content, fs1);
    fs := fs1[a.File(env) := content];
    NotTruthful(env, a, 0, m, fs);
  }

  lemma Falsifiable(env: Env, jobs: seq<Job>, zips: set<CString>, k: nat, i: nat)
    requires Legal(env, jobs) && k < |jobs| && i < |jobs| && jobs[k].mode != Ping && jobs[i].mode != Ping
    requires !Gentle(env, jobs[i], jobs[k])
    ensures !AlwaysTruthful(env, jobs, zips, k)
  {
    var a, b := jobs[k], jobs[i];
    var fs;
    if a.File(env) == b.File(env) && !Harmless(a.archive, b.archive) {
      ComparableIs(a.archive, b.archive);
      var d :| 0 <= d < |a.archive| && d < |b.archive| && a.archive[d] != b.archive[d];
      fs := Falsified(env, jobs, zips, a, b, d);
    } else {
      fs := FalsifiedByExtraction(env, jobs, zips, a, b);
    }
    if AlwaysTruthful(env, jobs, zips, k) {
      PossibleTruthful(env, jobs, zips, k, fs);
    }
  }

  lemma FalsifiableBySending(env: Env, jobs: seq<Job>, zips: set<CString>, k: nat)
    requires Legal(env, jobs) && k < |jobs| && jobs[k].mode != Ping && !Spared(env, zips, jobs[k])
    ensures !AlwaysTruthful(env, jobs, zips, k)
  {
    var fs := FalsifiedBySending(env, jobs, zips, jobs[k]);
    if AlwaysTruthful(env, jobs, zips, k) {
      PossibleTruthful(env, jobs, zips, k, fs);
    }
  }

  /**
   Checkpoints, exactly. In every state that sessions of these jobs can reach, an accepted checkpoint of the archive is
   true, if and only if: each archive sent to its partial file, by whatever path, is shorter than the first block of
   this one, or a prefix of it, or an extension of it; what extracting another archive leaves there agrees with this
   one up to every offset a checkpoint can hold; and this host builds no zip file there.
   */
  lemma CheckpointExact(env: Env, jobs: seq<Job>, zips: set<CString>, k: nat)
    requires Legal(env, jobs) && k < |jobs| && jobs[k].mode != Ping && Genuine(env, jobs, jobs[k].File(env))
    ensures AlwaysTruthful(env, jobs, zips, k) <==> Undisturbed(env, jobs, zips, k)
  {
    if Undisturbed(env, jobs, zips, k) {
      forall past: seq<Session>, job: Job, actions: seq<Action>
        | Drawn(past, job, jobs, zips) && Reach(env, past, job, actions).Some?
        ensures Truthful(env, jobs[k], Reach(env, past, job, actions).value.fs)
      {
        CrashConsistency(env, jobs, zips, past, job, actions, Reach(env, past, job, actions).value, k);
      }
    } else if !Spared(env, zips, jobs[k]) {
      FalsifiableBySending(env, jobs, zips, k);
    } else {
      var i :| 0 <= i < |jobs| && jobs[i].mode != Ping && !Gentle(env, jobs[i], jobs[k]);
      Falsifiable(env, jobs, zips, k, i);
    }
  }

  // ---------------------------------------------------------------- concrete cases

  function Sample(b: byte, n: nat): Bytes { seq(n, _ => b) }

  /** A digest that tells two archives from each other and from everything else. */
  function SampleDigest(x: Bytes, y: Bytes, b: Bytes): Hash {
    seq(HASH_LENGTH, _ => if b == x then 0 else if b == y then 1 else 2)
  }

  /** The name of the file that a path names: doubled slashes count as one. */
  function Collapsed(path: CString): CString {
    if |path| < 2 then path
    else if path[0] == SLASH && path[1] == SLASH then Collapsed(path[1..])
    else [path[0]] + Collapsed(path[1..])
  }

  /** An archive of one file, whose content follows a first octet. */
  function SampleUnzip(resource: CString, archive: Bytes): Fs {
    if archive == [] then map[] else map[resource := archive[1..]]
  }

  function SampleEnv(x: Bytes, y: Bytes): Env {
    Env(b => SampleDigest(x, y, b), Keys(b => b, b => b, seq(BLOCK, _ => 0)), CKPT_DIR, Collapsed, SampleUnzip)
  }

  const CKPT_DIR: CString := [47, 99] // "/c"
  const TARGET: CString := [47, 116] // "/t"
  const TARGET_SLASH: CString := [47, 116, 47] // "/t/"

  function SampleJob(archive: Bytes, target: CString, name: CString): Job {
    Job(Put, archive, |archive|, name, target, target)
  }

  predicate Slashless(name: CString) {
    forall i | 0 <= i < |name| :: name[i] != SLASH
  }

  lemma {:induction false} SlashlessStays(name: CString)
    requires Slashless(name)
    ensures Collapsed(name) == name
  {
    if |name| >= 2 {
      var rest: CString := name[1..];
      SlashlessStays(rest);
    }
  }

  /** One more octet in front. */
  lemma CollapsedCons(c: byte, p: CString)
    requires c != 0 && p != []
    ensures Collapsed([c] + p) == if c == SLASH && p[0] == SLASH then Collapsed(p) else [c] + Collapsed(p)
  {
    assert ([c] + p)[1..] == p;
  }

  /** Both targets name the same directory. */
  lemma AliasIs(target: CString, name: CString)
    requires (target == TARGET || target == TARGET_SLASH) && name != [] && Slashless(name)
    ensures Collapsed(target + [SLASH] + name) == TARGET + [SLASH] + name
  {
    var below: CString := [SLASH] + name;
    SlashlessStays(name);
    CollapsedCons(SLASH, name);
    CollapsedCons(SLASH, below);
    UnderTarget(below);
    UnderTarget([SLASH] + below);
    assert TARGET + below == TARGET + [SLASH] + name;
    assert TARGET + ([SLASH] + below) == TARGET_SLASH + [SLASH] + name;
  }

  lemma UnderTarget(below: CString)
    requires below != []
    ensures Collapsed(TARGET + below) == TARGET + Collapsed(below)
  {
    var t: byte := 116;
    CollapsedCons(t, below);
    CollapsedCons(SLASH, [t] + below);
    TargetIs(below);
    TargetIs(Collapsed(below));
  }

  lemma TargetIs(below: CString)
    ensures TARGET + below == [SLASH] + ([116] + below)
  {
  }

  /** A short name of a file, in the one target. */
  predicate SampleName(target: CString, name: CString) {
    && (target == TARGET || target == TARGET_SLASH)
    && 0 < |name| < 256 && Slashless(name) && Slashless(name + ZIP_SUFFIX)
  }

  lemma SampleNameZip(target: CString, name: CString)
    requires SampleName(target, name) && |name| < 252
    ensures SampleName(target, name + ZIP_SUFFIX)
  {
  }

  lemma SampleNames(x: Bytes, y: Bytes, archive: Bytes, target: CString, name: CString)
    requires SampleName(target, name)
    ensures var job, env := SampleJob(archive, target, name), SampleEnv(x, y);
            && job.Home(env) == TARGET + [SLASH] + name
            && job.File(env) == TARGET + [SLASH] + name + ZIP_SUFFIX
            && |job.Path()| < 264
  {
    AliasIs(target, name);
    AliasZip(target, name);
    SampleFile(x, y, SampleJob(archive, target, name), target + [SLASH] + name, TARGET + [SLASH] + name);
  }

  lemma SampleFile(x: Bytes, y: Bytes, job: Job, resource: CString, home: CString)
    requires job.Resource() == resource && Collapsed(resource) == home
    requires Collapsed(resource + ZIP_SUFFIX) == home + ZIP_SUFFIX
    ensures job.Home(SampleEnv(x, y)) == home && job.File(SampleEnv(x, y)) == home + ZIP_SUFFIX
  {
  }

  lemma AliasZip(target: CString, name: CString)
    requires SampleName(target, name)
    ensures Collapsed(target + [SLASH] + name + ZIP_SUFFIX) == TARGET + [SLASH] + name + ZIP_SUFFIX
  {
    AliasIs(target, name + ZIP_SUFFIX);
    Regroup(target + [SLASH], name);
    Regroup(TARGET + [SLASH], name);
  }

  lemma Regroup(p: CString, name: CString)
    ensures p + name + ZIP_SUFFIX == p + (name + ZIP_SUFFIX)
  {
  }

  /** The partial file lies beside the resource. */
  lemma Beside(resource: CString)
    ensures !Within(resource, resource + ZIP_SUFFIX) && resource + ZIP_SUFFIX != resource
  {
    assert (resource + [SLASH])[|resource|] == SLASH && (resource + ZIP_SUFFIX)[|resource|] == 46;
  }

  /** What lies in one directory of the root is no checkpoint in another. */
  lemma NotInCkptDir(name: CString, h: Hash)
    requires |name| >= 2 && name[1] != CKPT_DIR[1]
    ensures name != CkptName(CKPT_DIR, h) && name != TmpName(CKPT_DIR, h)
    ensures !Within(name, CkptName(CKPT_DIR, h)) && !Within(name, TmpName(CKPT_DIR, h))
  {
    var c, t := CkptName(CKPT_DIR, h), TmpName(CKPT_DIR, h);
    assert c[1] == t[1] == CKPT_DIR[1] && (name + [SLASH])[1] == name[1];
  }

  lemma SampleValid(x: Bytes, y: Bytes, archive: Bytes, target: CString, name: CString)
    requires SampleName(target, name) && 0 < |archive| < TWO64
    ensures SampleJob(archive, target, name).Valid(SampleEnv(x, y))
  {
    var home: CString := TARGET + [SLASH] + name;
    var file: CString := home + ZIP_SUFFIX;
    SampleNames(x, y, archive, target, name);
    Beside(home);
    forall h: Hash
      ensures !Within(home, CkptName(CKPT_DIR, h)) && !Within(home, TmpName(CKPT_DIR, h))
      ensures file != CkptName(CKPT_DIR, h) && file != TmpName(CKPT_DIR, h)
    {
      NotInCkptDir(home, h);
      NotInCkptDir(file, h);
    }
  }

  /** The archives of the samples: octets 0 and octets 1. */
  lemma SamplesLegal(m: nat, n: nat, target: CString, name: CString, target2: CString, name2: CString)
    requires 0 < m < TWO64 && 0 < n < TWO64 && SampleName(target, name) && SampleName(target2, name2)
    ensures var x, y := Sample(0, m), Sample(1, n);
            var env, jobs := SampleEnv(x, y), [SampleJob(x, target, name), SampleJob(y, target2, name2)];
            Legal(env, jobs) && forall file :: Genuine(env, jobs, file)
  {
    var x, y := Sample(0, m), Sample(1, n);
    SamplesDiffer(m, n);
    SampleValid(x, y, x, target, name);
    SampleValid(x, y, y, target2, name2);
    DigestTells(x, y);
    BothLegal(SampleEnv(x, y), SampleJob(x, target, name), SampleJob(y, target2, name2));
  }

  lemma DigestTells(x: Bytes, y: Bytes)
    requires x != y
    ensures NoSecondPreimage(SampleEnv(x, y), x) && NoSecondPreimage(SampleEnv(x, y), y)
  {
    forall b: Bytes ensures SampleDigest(x, y, b)[0] == if b == x then 0 else if b == y then 1 else 2 {
    }
  }

  lemma BothLegal(env: Env, a: Job, b: Job)
    requires a.Valid(env) && b.Valid(env) && NoSecondPreimage(env, a.archive) && NoSecondPreimage(env, b.archive)
    ensures Legal(env, [a, b]) && forall file :: Genuine(env, [a, b], file)
  {
    assert forall j | j in [a, b] :: j == a || j == b;
  }

  /** Whether the second of two samples disturbs the first depends on what it does there. */
  lemma SamplesDisturb(env: Env, a: Job, b: Job)
    requires a.Valid(env) && a.mode != Ping && b.mode != Ping
    ensures Undisturbed(env, [a, b], {}, 0) <==> Gentle(env, b, a)
  {
    assert Gentle(env, a, a);
    var jobs := [a, b];
    assert jobs[0] == a && jobs[1] == b;
  }

  /**
   Archives without a common octet, uploaded under one name by the same path, or by two paths to one file ("/t" and
   "/t/"): 2048 and 2048 octets can mislead, 2000 and 500 cannot.
   */
  lemma Samples(m: nat, n: nat, target: CString, name: CString)
    requires 0 < m < TWO64 && 0 < n < TWO64 && SampleName(target, name)
    ensures var x, y := Sample(0, m), Sample(1, n);
            AlwaysTruthful(SampleEnv(x, y), [SampleJob(x, TARGET, name), SampleJob(y, target, name)], {}, 0)
            <==> n < Min(BUFFER_SIZE, m)
  {
    var x, y := Sample(0, m), Sample(1, n);
    var env, a, b := SampleEnv(x, y), SampleJob(x, TARGET, name), SampleJob(y, target, name);
    SamplesLegal(m, n, TARGET, name, target, name);
    assert [a, b][0] == a;
    CheckpointExact(env, [a, b], {}, 0);
    SamplesDisturb(env, a, b);
    SampleNames(x, y, x, TARGET, name);
    SampleNames(x, y, y, target, name);
    SamplesDiffer(m, n);
    SampleContent(x, y, b);
  }

  lemma SamplesDiffer(m: nat, n: nat)
    requires 0 < m && 0 < n
    ensures Sample(0, m) != Sample(1, n) && (Harmless(Sample(0, m), Sample(1, n)) <==> n < Min(BUFFER_SIZE, m))
  {
    assert Sample(0, m)[0] == 0 && Sample(1, n)[0] == 1;
    ComparableIs(Sample(0, m), Sample(1, n));
  }

  lemma SampleContent(x: Bytes, y: Bytes, b: Job)
    requires b.archive != []
    ensures b.Content(SampleEnv(x, y)) == map[b.Home(SampleEnv(x, y)) := b.archive[1..]]
  {
  }

  lemma SampleAgrees(m: nat, n: nat)
    requires 0 < m
    ensures Agrees(Sample(1, n + 1)[1..], Sample(0, m)) <==> n < Min(BUFFER_SIZE, m)
  {
    var f, a, least := Sample(1, n + 1)[1..], Sample(0, m), Min(BUFFER_SIZE, m);
    if least <= n {
      assert Aligned(a, least) && f[..least][0] != a[..least][0];
    }
  }

  /**
   The second upload is a file that is called like the partial archive of the first: what it extracts there, n octets 1,
   is taken for the partial archive.
   */
  lemma SamplesExtracted(m: nat, n: nat, name: CString)
    requires 0 < m < TWO64 && n + 1 < TWO64 && SampleName(TARGET, name) && |name| < 252
    ensures var x, y := Sample(0, m), Sample(1, n + 1);
            var jobs := [SampleJob(x, TARGET, name), SampleJob(y, TARGET, name + ZIP_SUFFIX)];
            AlwaysTruthful(SampleEnv(x, y), jobs, {}, 0) <==> n < Min(BUFFER_SIZE, m)
  {
    var x, y := Sample(0, m), Sample(1, n + 1);
    var env, a, b := SampleEnv(x, y), SampleJob(x, TARGET, name), SampleJob(y, TARGET, name + ZIP_SUFFIX);
    SampleNameZip(TARGET, name);
    SamplesLegal(m, n + 1, TARGET, name, TARGET, name + ZIP_SUFFIX);
    assert [a, b][0] == a;
    CheckpointExact(env, [a, b], {}, 0);
    SamplesDisturb(env, a, b);
    SampleFiles(x, y, name);
    SampleContent(x, y, b);
    SampleAgrees(m, n);
    SamplesDiffer(m, n + 1);
  }

  /** The second resource is called like the first partial file. */
  lemma SampleFiles(x: Bytes, y: Bytes, name: CString)
    requires SampleName(TARGET, name) && SampleName(TARGET, name + ZIP_SUFFIX)
    ensures var env, a, b := SampleEnv(x, y), SampleJob(x, TARGET, name), SampleJob(y, TARGET, name + ZIP_SUFFIX);
            b.Home(env) == a.File(env) && b.File(env) != a.File(env)
  {
    SampleNames(x, y, x, TARGET, name);
    SampleNames(x, y, y, TARGET, name + ZIP_SUFFIX);
    Regroup(TARGET + [SLASH], name);
    Beside(TARGET + [SLASH] + (name + ZIP_SUFFIX));
  }
}
