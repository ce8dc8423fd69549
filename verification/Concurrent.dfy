/**
 The forking server (filerail_server.c:192-418): any number of sessions interleave on one disk. Sessions of different
 archives to different files, none of which lies in the resource of another, never disturb each other.
 */
module Concurrent {
  import opened Bytes
  import opened Cipher
  import opened Disk
  import opened Protocol
  import opened Invariant
  import opened Preservation
  import opened History
  import opened SessionProperties

  /** A forked child and its client; `world.fs` is only meaningful as the shared disk. */
  datatype Live = Live(job: Job, world: World)

  datatype Service = Service(fs: Fs, live: seq<Live>)

  /** A child that sends builds its zip file, part by part, or removes it. */
  datatype Event =
    | Fork(job: Job) | Step(index: nat, action: Action) | Reap(index: nat)
    | Send(zip: CString, left: Option<Bytes>)

  /** Different archives and partial files, and neither session removes or extracts at the partial file of the other. */
  predicate Apart(env: Env, a: Job, b: Job) {
    && a.File(env) != b.File(env) && env.md5(a.archive) != env.md5(b.archive)
    && !Within(a.Home(env), b.File(env)) && !Within(b.Home(env), a.File(env))
  }

  function On(l: Live, fs: Fs): World { l.world.(fs := fs) }

  /** The parent accepts a client, a child acts or dies, a finished child is forgotten, or one sends. */
  ghost function Serve(env: Env, s: Service, e: Event): Option<Service>
    requires env.Valid()
  {
    match e
    case Fork(job) =>
      if forall i | 0 <= i < |s.live| :: Apart(env, s.live[i].job, job)
      then Some(s.(live := s.live + [Live(job, Start(job, s.fs))])) else None
    case Step(i, a) =>
      if i >= |s.live| then None else
        (match Do(env, s.live[i].job, On(s.live[i], s.fs), a)
         case None => None
         case Some(w) => Some(Service(w.fs, s.live[i := s.live[i].(world := w)])))
    case Reap(i) =>
      if i < |s.live| && !s.live[i].world.clientUp && !s.live[i].world.serverUp
      then Some(s.(live := s.live[..i] + s.live[i + 1..])) else None
    case Send(zip, left) =>
      if exists i :: 0 <= i < |s.live| && s.live[i].job.File(env) == env.file(zip) then None else
        (match Lent(env, s.fs, zip, left) case None => None case Some(fs) => Some(s.(fs := fs)))
  }

  ghost function ServeAll(env: Env, s: Service, events: seq<Event>): Option<Service>
    requires env.Valid()
    decreases |events|
  {
    if events == [] then Some(s) else
      match Serve(env, s, events[0])
      case None => None
      case Some(s') => ServeAll(env, s', events[1..])
  }

  // ---------------------------------------------------------------- isolation

  ghost predicate ServiceInv(env: Env, jobs: seq<Job>, zips: set<CString>, s: Service)
    requires Legal(env, jobs)
  {
    DiskInv(env, s.fs, jobs, zips) && Sessions(env, jobs, s.live, s.fs) && AllApart(env, s.live)
  }

  ghost predicate AllValid(env: Env, jobs: seq<Job>) {
    forall j | j in jobs :: j.Valid(env)
  }

  /** Every session satisfies the invariant of a session that runs alone on this disk. */
  ghost predicate Sessions(env: Env, jobs: seq<Job>, live: seq<Live>, fs: Fs)
    requires AllValid(env, jobs)
  {
    forall i | 0 <= i < |live| :: live[i].job in jobs && Inv(env, live[i].job, On(live[i], fs))
  }

  ghost predicate AllApart(env: Env, live: seq<Live>) {
    forall i, j | 0 <= i < j < |live| :: Apart(env, live[i].job, live[j].job)
  }

  /** A session's invariant speaks about its own three names only. */
  lemma InvFrame(env: Env, job: Job, w: World, fs: Fs)
    requires job.Valid(env) && Inv(env, job, w)
    requires forall n: CString | n in Footprint(env, job) :: SameAt(w.fs, fs, n)
    ensures Inv(env, job, w.(fs := fs))
  {
    var h := env.md5(job.archive);
    assert SameAt(w.fs, fs, CkptName(env.dir, h));
    if Receives(job, Client) { ReceiptFrame(env, job, w.client.pc, w.clientUp, w.fs, fs, w.log); }
    if Receives(job, Server) { ReceiptFrame(env, job, w.server.pc, w.serverUp, w.fs, fs, w.log); }
  }

  lemma ReceiptFrame(env: Env, job: Job, pc: Pc, up: bool, fs: Fs, fs': Fs, log: seq<Protocol.Event>)
    requires Receipt(env, job, pc, up, fs, log)
    requires forall n: CString | n in Footprint(env, job) :: SameAt(fs, fs', n)
    ensures Receipt(env, job, pc, up, fs', log)
  {
    var h := env.md5(job.archive);
    assert SameAt(fs, fs', job.File(env));
    assert SameAt(fs, fs', CkptName(env.dir, h)) && SameAt(fs, fs', TmpName(env.dir, h));
  }

  /** Then nothing that one of them touches is a file of the other: the checkpoint names are injective. */
  lemma FootprintsDisjoint(env: Env, a: Job, b: Job)
    requires a.Valid(env) && b.Valid(env) && Apart(env, a, b)
    ensures forall n: CString | n in Footprint(env, b) :: !Touches(env, a, n)
    ensures forall n: CString | n in Footprint(env, a) :: !Touches(env, b, n)
  {
    NamesDistinct(env.dir, env.md5(a.archive), env.md5(b.archive));
    NamesDistinct(env.dir, env.md5(b.archive), env.md5(a.archive));
  }

  lemma StepKeeps(env: Env, jobs: seq<Job>, zips: set<CString>, s: Service, i: nat, a: Action)
    requires Legal(env, jobs) && ServiceInv(env, jobs, zips, s) && Serve(env, s, Step(i, a)).Some?
    ensures ServiceInv(env, jobs, zips, Serve(env, s, Step(i, a)).value)
  {
    var job, w := s.live[i].job, On(s.live[i], s.fs);
    var w' := Do(env, job, w, a).value;
    DoKeeps(env, job, w, a);
    StepDisk(env, jobs, zips, job, w, a, w');
    StepLive(env, jobs, s.live, s.fs, i, w');
  }

  lemma StepLive(env: Env, jobs: seq<Job>, live: seq<Live>, fs: Fs, i: nat, w': World)
    requires AllValid(env, jobs) && Sessions(env, jobs, live, fs) && AllApart(env, live) && i < |live|
    requires Inv(env, live[i].job, w') && OnlyOwn(env, live[i].job, fs, w'.fs)
    ensures Sessions(env, jobs, live[i := live[i].(world := w')], w'.fs)
  {
    var live' := live[i := live[i].(world := w')];
    forall k | 0 <= k < |live'| ensures live'[k].job in jobs && Inv(env, live'[k].job, On(live'[k], w'.fs)) {
      if k == i {
        assert On(live'[k], w'.fs) == w';
      } else {
        OthersUndisturbed(env, live[i].job, live[k].job, On(live[k], fs), fs, w'.fs);
        assert On(live[k], w'.fs) == On(live[k], fs).(fs := w'.fs);
      }
    }
  }

  /** What one action of one session does to the disk they all share. */
  lemma StepDisk(env: Env, jobs: seq<Job>, zips: set<CString>, job: Job, w: World, a: Action, w': World)
    requires Legal(env, jobs) && job in jobs && Inv(env, job, w) && DiskInv(env, w.fs, jobs, zips)
    requires Do(env, job, w, a) == Some(w')
    ensures DiskInv(env, w'.fs, jobs, zips) && OnlyOwn(env, job, w.fs, w'.fs)
  {
    var j :| 0 <= j < |jobs| && jobs[j] == job;
    DoDisk(env, job, w, a, w');
    StepKeepsDisk(env, jobs, zips, j, w.Of(a.side), w.fs, a, w'.fs);
    StepFrame(env, job, w.Of(a.side), w.fs, a, w'.fs);
  }

  lemma OthersUndisturbed(env: Env, job: Job, other: Job, w: World, fs: Fs, fs': Fs)
    requires job.Valid(env) && other.Valid(env) && (Apart(env, job, other) || Apart(env, other, job))
    requires OnlyOwn(env, job, fs, fs') && w.fs == fs && Inv(env, other, w)
    ensures Inv(env, other, w.(fs := fs'))
  {
    if Apart(env, job, other) { FootprintsDisjoint(env, job, other); } else { FootprintsDisjoint(env, other, job); }
    InvFrame(env, other, w, fs');
  }

  /** A child that sends leaves the others and their files alone. */
  lemma SendKeeps(env: Env, jobs: seq<Job>, zips: set<CString>, s: Service, zip: CString, left: Option<Bytes>)
    requires Legal(env, jobs) && ServiceInv(env, jobs, zips, s) && zip in zips
    requires Serve(env, s, Send(zip, left)).Some?
    ensures ServiceInv(env, jobs, zips, Serve(env, s, Send(zip, left)).value)
  {
    var fs := Lent(env, s.fs, zip, left).value;
    LentKeepsDisk(env, jobs, zips, s.fs, zip, left);
    SendLive(env, jobs, s.live, s.fs, zip, left);
  }

  lemma SendLive(env: Env, jobs: seq<Job>, live: seq<Live>, fs: Fs, zip: CString, left: Option<Bytes>)
    requires AllValid(env, jobs) && Sessions(env, jobs, live, fs) && Lent(env, fs, zip, left).Some?
    requires forall i | 0 <= i < |live| :: live[i].job.File(env) != env.file(zip)
    ensures Sessions(env, jobs, live, Lent(env, fs, zip, left).value)
  {
    var fs' := Lent(env, fs, zip, left).value;
    forall i | 0 <= i < |live| ensures Inv(env, live[i].job, On(live[i], fs')) {
      LentFrame(env, live[i].job, fs, zip, left);
      InvFrame(env, live[i].job, On(live[i], fs), fs');
      assert On(live[i], fs') == On(live[i], fs).(fs := fs');
    }
  }

  lemma LentFrame(env: Env, job: Job, fs: Fs, zip: CString, left: Option<Bytes>)
    requires Lent(env, fs, zip, left).Some? && job.File(env) != env.file(zip)
    ensures forall n: CString | n in Footprint(env, job) :: SameAt(fs, Lent(env, fs, zip, left).value, n)
  {
  }

  lemma ForkKeeps(env: Env, jobs: seq<Job>, zips: set<CString>, s: Service, job: Job)
    requires Legal(env, jobs) && ServiceInv(env, jobs, zips, s) && Serve(env, s, Fork(job)).Some? && job in jobs
    ensures ServiceInv(env, jobs, zips, Serve(env, s, Fork(job)).value)
  {
    ForkStart(env, jobs, s.fs, job);
    ForkLive(env, jobs, s.live, s.fs, job);
    ForkApart(env, s.live, Live(job, Start(job, s.fs)));
  }

  lemma ForkStart(env: Env, jobs: seq<Job>, fs: Fs, job: Job)
    requires Legal(env, jobs) && Recorded(env, fs, jobs) && job in jobs
    ensures Inv(env, job, Start(job, fs))
  {
    var j :| 0 <= j < |jobs| && jobs[j] == job;
    RecordedGivesCkptOk(env, fs, jobs, j);
    StartGood(env, job, fs);
  }

  lemma ForkApart(env: Env, live: seq<Live>, l: Live)
    requires AllApart(env, live) && forall i | 0 <= i < |live| :: Apart(env, live[i].job, l.job)
    ensures AllApart(env, live + [l])
  {
  }

  lemma ForkLive(env: Env, jobs: seq<Job>, live: seq<Live>, fs: Fs, job: Job)
    requires AllValid(env, jobs) && Sessions(env, jobs, live, fs) && job in jobs && Inv(env, job, Start(job, fs))
    ensures Sessions(env, jobs, live + [Live(job, Start(job, fs))], fs)
  {
    var live' := live + [Live(job, Start(job, fs))];
    forall k | 0 <= k < |live'| ensures live'[k].job in jobs && Inv(env, live'[k].job, On(live'[k], fs)) {
      if k < |live| {
        assert live'[k] == live[k];
      } else {
        assert On(live'[k], fs) == Start(job, fs);
      }
    }
  }

  lemma ReapKeeps(env: Env, jobs: seq<Job>, zips: set<CString>, s: Service, i: nat)
    requires Legal(env, jobs) && ServiceInv(env, jobs, zips, s) && Serve(env, s, Reap(i)).Some?
    ensures ServiceInv(env, jobs, zips, Serve(env, s, Reap(i)).value)
  {
    ReapLive(env, jobs, s.live, s.fs, i);
  }

  lemma ReapLive(env: Env, jobs: seq<Job>, live: seq<Live>, fs: Fs, i: nat)
    requires AllValid(env, jobs) && Sessions(env, jobs, live, fs) && AllApart(env, live) && i < |live|
    ensures Sessions(env, jobs, live[..i] + live[i + 1..], fs) && AllApart(env, live[..i] + live[i + 1..])
  {
    var live' := live[..i] + live[i + 1..];
    forall k | 0 <= k < |live'| ensures live'[k].job in jobs && Inv(env, live'[k].job, On(live'[k], fs)) {
      assert live'[k] == live[if k < i then k else k + 1];
    }
  }

  /** The jobs and zip files of an event are among the given ones. */
  predicate Among(e: Event, jobs: seq<Job>, zips: set<CString>) {
    match e
    case Fork(job) => job in jobs
    case Send(zip, _) => zip in zips
    case _ => true
  }

  lemma ServeKeeps(env: Env, jobs: seq<Job>, zips: set<CString>, s: Service, e: Event)
    requires Legal(env, jobs) && ServiceInv(env, jobs, zips, s) && Serve(env, s, e).Some? && Among(e, jobs, zips)
    ensures ServiceInv(env, jobs, zips, Serve(env, s, e).value)
  {
    match e
    case Fork(job) => ForkKeeps(env, jobs, zips, s, job);
    case Step(i, a) => StepKeeps(env, jobs, zips, s, i, a);
    case Reap(i) => ReapKeeps(env, jobs, zips, s, i);
    case Send(zip, left) => SendKeeps(env, jobs, zips, s, zip, left);
  }

  lemma {:induction false} ServeAllKeeps(env: Env, jobs: seq<Job>, zips: set<CString>, s: Service, events: seq<Event>)
    requires Legal(env, jobs) && ServiceInv(env, jobs, zips, s) && ServeAll(env, s, events).Some?
    requires forall e | e in events :: Among(e, jobs, zips)
    ensures ServiceInv(env, jobs, zips, ServeAll(env, s, events).value)
    decreases |events|
  {
    if events != [] {
      ServeKeeps(env, jobs, zips, s, events[0]);
      ServeAllKeeps(env, jobs, zips, Serve(env, s, events[0]).value, events[1..]);
    }
  }

  /**
   Non-interference. Whatever the interleaving of concurrently served sessions that are pairwise apart, and of sending
   ones that build no zip file over a live partial file, starting from an empty disk, each session keeps the invariant
   of a session running alone, the disk stays crash consistent, and no session checks or extracts anything but its own
   archive.
   */
  lemma NonInterference(env: Env, jobs: seq<Job>, zips: set<CString>, events: seq<Event>, s: Service, i: nat)
    requires Legal(env, jobs) && forall e | e in events :: Among(e, jobs, zips)
    requires ServeAll(env, Service(map[], []), events) == Some(s) && i < |s.live|
    ensures s.live[i].job.Valid(env) && Inv(env, s.live[i].job, On(s.live[i], s.fs))
    ensures DiskInv(env, s.fs, jobs, zips)
    ensures NoSecondPreimage(env, s.live[i].job.archive) ==>
              var a, log := s.live[i].job.archive, s.live[i].world.log;
              log == [] || log == [Verified(a)] || log == [Verified(a), Extracted(a)]
  {
    ServeAllKeeps(env, jobs, zips, Service(map[], []), events);
    if NoSecondPreimage(env, s.live[i].job.archive) {
      LogsExact(env, s.live[i].job, On(s.live[i], s.fs));
    }
  }

  /**
   Sessions have to be apart: a receiver in its loop does not survive a session that removes its partial file with an
   old resource, nor one that starts over in the same file.
   */
  lemma Interferes(env: Env, job: Job, w: World, side: Side, other: Job)
    requires job.Valid(env) && Inv(env, job, w) && w.Up(side) && w.Of(side).pc.R? && Consumed(w.Of(side).pc.r).Some?
    ensures Within(other.Home(env), job.File(env)) ==> !Inv(env, job, w.(fs := Removed(w.fs, other.Home(env))))
    ensures other.File(env) == job.File(env) && 0 < w.Of(side).pc.r.pos ==>
              !Inv(env, job, w.(fs := w.fs[other.File(env) := []]))
  {
  }
}
