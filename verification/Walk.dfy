/**
 Explicit runs of a transfer, for the results that say something can happen: uploads and downloads that start over,
 resume or have their resume offer declined, up to any checkpoint.
 */
module Walks {
  import opened Bytes
  import opened Cipher
  import opened Disk
  import opened Protocol
  import opened Invariant
  import opened Preservation
  import opened History
  import opened Recovery

  // ---------------------------------------------------------------- runs, step by step

  ghost predicate Reaches(env: Env, job: Job, w: World, w2: World)
    requires env.Valid()
  {
    exists actions :: Run(env, job, w, actions) == Some(w2)
  }

  /** Some run leads from one state to the other, put so that proofs which only chain such facts need not see it. */
  ghost predicate Leads(env: Env, job: Job, w: World, w2: World)
    requires env.Valid()
  {
    forall x | x == w2 :: Reaches(env, job, w, x)
  }

  lemma RunFirst(env: Env, job: Job, w: World, a: Action, next: World, rest: seq<Action>, w2: World)
    requires env.Valid() && Do(env, job, w, a) == Some(next) && Run(env, job, next, rest) == Some(w2)
    ensures Run(env, job, w, [a] + rest) == Some(w2)
  {
    assert ([a] + rest)[1..] == rest;
  }

  lemma RunUncons(env: Env, job: Job, w: World, actions: seq<Action>, w2: World) returns (next: World)
    requires env.Valid() && actions != [] && Run(env, job, w, actions) == Some(w2)
    ensures Do(env, job, w, actions[0]) == Some(next) && Run(env, job, next, actions[1..]) == Some(w2)
  {
    next := Do(env, job, w, actions[0]).value;
  }

  lemma {:induction false} RunAppend(env: Env, job: Job, w: World, first: seq<Action>, w1: World,
      second: seq<Action>, w2: World)
    requires env.Valid() && Run(env, job, w, first) == Some(w1) && Run(env, job, w1, second) == Some(w2)
    ensures Run(env, job, w, first + second) == Some(w2)
    decreases |first|
  {
    if first == [] {
      assert first + second == second;
    } else {
      var a, rest := first[0], first[1..];
      var next := RunUncons(env, job, w, first, w1);
      RunAppend(env, job, next, rest, w1, second, w2);
      RunFirst(env, job, w, a, next, rest + second, w2);
      HeadFirst(first, second);
    }
  }

  lemma HeadFirst(first: seq<Action>, second: seq<Action>)
    requires first != []
    ensures [first[0]] + (first[1..] + second) == first + second
  {
  }

  lemma Then(env: Env, job: Job, w: World, w1: World, w2: World)
    requires env.Valid() && Leads(env, job, w, w1) && Leads(env, job, w1, w2)
    ensures Leads(env, job, w, w2)
  {
    assert Reaches(env, job, w, w1) && Reaches(env, job, w1, w2);
    var first :| Run(env, job, w, first) == Some(w1);
    var second :| Run(env, job, w1, second) == Some(w2);
    RunAppend(env, job, w, first, w1, second, w2);
    assert Reaches(env, job, w, w2);
  }

  lemma Step(env: Env, job: Job, w: World, side: Side, ch: Choice, w1: World)
    requires env.Valid() && Do(env, job, w, Act(side, ch)) == Some(w1)
    ensures Leads(env, job, w, w1)
  {
    assert Run(env, job, w1, []) == Some(w1);
    RunFirst(env, job, w, Act(side, ch), w1, [], w1);
    assert Reaches(env, job, w, w1);
  }

  /** Short queues, as the steps below leave them. */
  lemma Queues()
    ensures forall m: Msg :: [] + [m] == [m] && [m][1..] == []
    ensures forall m: Msg, n: Msg :: [m] + [n] == [m, n] && [m, n][1..] == [n]
    ensures forall log: seq<Event> :: log + [] == log
  {
  }

  // ---------------------------------------------------------------- a transfer under way

  function Idle(): Hash { seq(HASH_LENGTH, _ => 0) }

  /** The two ends of a transfer, whichever of client and server they are, and what is in flight between them. */
  function Moving(job: Job, s: SenderPc, r: ReceiverPc, hash: Hash, toR: seq<Msg>, toS: seq<Msg>, fs: Fs,
      k: nat): World {
    if job.mode == Get
    then World(ReceiverProc(job, r, hash), SenderProc(job, s), toS, toR, true, true, fs, [], k)
    else World(SenderProc(job, s), ReceiverProc(job, r, hash), toR, toS, true, true, fs, [], k)
  }

  function Quiet(job: Job, s: SenderPc, r: ReceiverPc, hash: Hash, fs: Fs, k: nat): World {
    Moving(job, s, r, hash, [], [], fs, k)
  }

  /** The sender says something that the receiver takes. */
  lemma Sends(env: Env, job: Job, s: SenderPc, ch: Choice, m: Msg, s': SenderPc,
              r: ReceiverPc, hash: Hash, r': ReceiverPc, hash': Hash, fs: Fs, k: nat)
    requires env.Valid() && !SenderWaits(s) && SenderActs(env, job, s, fs, ch) == Says(m, S(s'))
    requires ReceiverWaits(r)
    requires ReceiverHears(env, ReceiverProc(job, r, hash), r, m) == Hears(ReceiverProc(job, r', hash'))
    ensures Leads(env, job, Quiet(job, s, r, hash, fs, k),
                  Quiet(job, s', r', hash', fs, k + if m.Packet? then 1 else 0))
  {
    SenderSays(env, job, s, ch, m, s', r, hash, fs, k);
    ReceiverTakes(env, job, s', m, r, hash, r', hash', fs, k);
    Then(env, job, Quiet(job, s, r, hash, fs, k), Moving(job, s', r, hash, [m], [], fs, k),
         Quiet(job, s', r', hash', fs, k + if m.Packet? then 1 else 0));
  }

  // One process with empty channels says, takes or does something.

  lemma SaysAlone(env: Env, job: Job, p: Proc, fs: Fs, k: nat, ch: Choice, m: Msg, pc: Pc)
    requires env.Valid() && !Waits(p.pc) && OnTurn(env, job, p, fs, ch) == Says(m, pc)
    ensures Next(env, job, Local(p, [], [], fs, [], k), ch) == Some(Local(p.At(pc), [], [m], fs, [], k))
  {
    Queues();
  }

  lemma TakesAlone(env: Env, job: Job, p: Proc, fs: Fs, k: nat, m: Msg, p': Proc)
    requires env.Valid() && Waits(p.pc) && OnMsg(env, p, m) == Hears(p')
    ensures Next(env, job, Local(p, [m], [], fs, [], k), Go)
            == Some(Local(p', [], [], fs, [], k + if m.Packet? then 1 else 0))
  {
    Queues();
  }

  lemma WorksAlone(env: Env, job: Job, p: Proc, fs: Fs, k: nat, ch: Choice, pc: Pc, fs': Fs)
    requires env.Valid() && !Waits(p.pc) && OnTurn(env, job, p, fs, ch) == Effect.Works(pc, fs', [])
    ensures Next(env, job, Local(p, [], [], fs, [], k), ch) == Some(Local(p.At(pc), [], [], fs', [], k))
  {
    Queues();
  }

  /** A local step of one side is a step of the whole. */
  lemma Locally(env: Env, job: Job, w: World, side: Side, ch: Choice, l': Local)
    requires env.Valid() && w.Up(side) && Next(env, job, w.View(side), ch) == Some(l')
    ensures Leads(env, job, w, w.Update(side, l'))
  {
    Step(env, job, w, side, ch, w.Update(side, l'));
  }

  function SenderProc(job: Job, s: SenderPc): Proc {
    Proc(S(s), if job.mode == Put then job.Resource() else [], Idle(), false)
  }

  function ReceiverProc(job: Job, r: ReceiverPc, hash: Hash): Proc { Proc(R(r), job.Resource(), hash, false) }

  lemma SenderSays(env: Env, job: Job, s: SenderPc, ch: Choice, m: Msg, s': SenderPc,
                   r: ReceiverPc, hash: Hash, fs: Fs, k: nat)
    requires env.Valid() && !SenderWaits(s) && SenderActs(env, job, s, fs, ch) == Says(m, S(s'))
    ensures Leads(env, job, Quiet(job, s, r, hash, fs, k), Moving(job, s', r, hash, [m], [], fs, k))
  {
    SaysAlone(env, job, SenderProc(job, s), fs, k, ch, m, S(s'));
    Locally(env, job, Quiet(job, s, r, hash, fs, k), Receiver(job).Other(), ch,
            Local(SenderProc(job, s'), [], [m], fs, [], k));
  }

  lemma ReceiverTakes(env: Env, job: Job, s: SenderPc, m: Msg,
                      r: ReceiverPc, hash: Hash, r': ReceiverPc, hash': Hash, fs: Fs, k: nat)
    requires env.Valid() && ReceiverWaits(r)
    requires ReceiverHears(env, ReceiverProc(job, r, hash), r, m) == Hears(ReceiverProc(job, r', hash'))
    ensures Leads(env, job, Moving(job, s, r, hash, [m], [], fs, k),
                  Quiet(job, s, r', hash', fs, k + if m.Packet? then 1 else 0))
  {
    TakesAlone(env, job, ReceiverProc(job, r, hash), fs, k, m, ReceiverProc(job, r', hash'));
    Locally(env, job, Moving(job, s, r, hash, [m], [], fs, k), Receiver(job), Go,
            Local(ReceiverProc(job, r', hash'), [], [], fs, [], k + if m.Packet? then 1 else 0));
  }

  lemma ReceiverSays(env: Env, job: Job, r: ReceiverPc, m: Msg, r': ReceiverPc, s: SenderPc, hash: Hash, fs: Fs, k: nat)
    requires env.Valid() && !ReceiverWaits(r)
    requires ReceiverActs(env, ReceiverProc(job, r, hash), r, fs, Go) == Says(m, R(r'))
    ensures Leads(env, job, Quiet(job, s, r, hash, fs, k), Moving(job, s, r', hash, [], [m], fs, k))
  {
    SaysAlone(env, job, ReceiverProc(job, r, hash), fs, k, Go, m, R(r'));
    Locally(env, job, Quiet(job, s, r, hash, fs, k), Receiver(job), Go,
            Local(ReceiverProc(job, r', hash), [], [m], fs, [], k));
  }

  lemma SenderTakes(env: Env, job: Job, r: ReceiverPc, m: Msg, s: SenderPc, s': SenderPc, hash: Hash, fs: Fs, k: nat)
    requires env.Valid() && SenderWaits(s) && !m.Packet?
    requires SenderHears(SenderProc(job, s), s, m) == Hears(SenderProc(job, s'))
    ensures Leads(env, job, Moving(job, s, r, hash, [], [m], fs, k), Quiet(job, s', r, hash, fs, k))
  {
    TakesAlone(env, job, SenderProc(job, s), fs, k, m, SenderProc(job, s'));
    Locally(env, job, Moving(job, s, r, hash, [], [m], fs, k), Receiver(job).Other(), Go,
            Local(SenderProc(job, s'), [], [], fs, [], k));
  }

  /** The receiver says something that the sender takes. */
  lemma Replies(env: Env, job: Job, r: ReceiverPc, m: Msg, r': ReceiverPc, s: SenderPc, s': SenderPc,
                hash: Hash, fs: Fs, k: nat)
    requires env.Valid() && !ReceiverWaits(r) && !m.Packet? && SenderWaits(s)
    requires ReceiverActs(env, ReceiverProc(job, r, hash), r, fs, Go) == Says(m, R(r'))
    requires SenderHears(SenderProc(job, s), s, m) == Hears(SenderProc(job, s'))
    ensures Leads(env, job, Quiet(job, s, r, hash, fs, k), Quiet(job, s', r', hash, fs, k))
  {
    ReceiverSays(env, job, r, m, r', s, hash, fs, k);
    SenderTakes(env, job, r', m, s, s', hash, fs, k);
    Then(env, job, Quiet(job, s, r, hash, fs, k), Moving(job, s, r', hash, [], [m], fs, k),
         Quiet(job, s', r', hash, fs, k));
  }

  lemma Works(env: Env, job: Job, r: ReceiverPc, ch: Choice, r': ReceiverPc, s: SenderPc, hash: Hash, fs: Fs,
      fs': Fs, k: nat)
    requires env.Valid() && !ReceiverWaits(r)
    requires ReceiverActs(env, ReceiverProc(job, r, hash), r, fs, ch) == Effect.Works(R(r'), fs', [])
    ensures Leads(env, job, Quiet(job, s, r, hash, fs, k), Quiet(job, s, r', hash, fs', k))
  {
    WorksAlone(env, job, ReceiverProc(job, r, hash), fs, k, ch, R(r'), fs');
    Locally(env, job, Quiet(job, s, r, hash, fs, k), Receiver(job), ch,
            Local(ReceiverProc(job, r', hash), [], [], fs', [], k));
  }

  // ---------------------------------------------------------------- the preliminaries

  function Asking(job: Job, c: Pc, s: Pc, at: CString, c2s: seq<Msg>, s2c: seq<Msg>, fs: Fs): World {
    World(Proc(c, job.Resource(), Idle(), false), Proc(s, at, Idle(), false), c2s, s2c, true, true, fs, [], 0)
  }

  lemma PutRequested(env: Env, job: Job, fs: Fs)
    requires env.Valid() && job.mode == Put
    ensures var info := Resource(job.statSize, job.name, job.target);
            Leads(env, job, Start(job, fs), Asking(job, C(PutWait), V(AwaitCommand), [], [Code(PUT), info], [], fs))
  {
    Queues();
    var info := Resource(job.statSize, job.name, job.target);
    var w0, w1 := Start(job, fs), Asking(job, C(PutDescribe), V(AwaitCommand), [], [Code(PUT)], [], fs);
    var w2 := Asking(job, C(PutWait), V(AwaitCommand), [], [Code(PUT), info], [], fs);
    Step(env, job, w0, Client, Go, w1);
    Step(env, job, w1, Client, Go, w2);
    Then(env, job, w0, w1, w2);
  }

  lemma PutAsked(env: Env, job: Job, fs: Fs)
    requires env.Valid() && job.mode == Put
    ensures Leads(env, job, Start(job, fs), Asking(job, C(PutWait), V(PutCheck), job.Resource(), [], [], fs))
  {
    Queues();
    var info := Resource(job.statSize, job.name, job.target);
    var w2 := Asking(job, C(PutWait), V(AwaitCommand), [], [Code(PUT), info], [], fs);
    var w3, w4 := Asking(job, C(PutWait), V(PutInfo), [], [info], [], fs),
                  Asking(job, C(PutWait), V(PutCheck), job.Resource(), [], [], fs);
    PutRequested(env, job, fs);
    Step(env, job, w2, Server, Go, w3);
    Step(env, job, w3, Server, Go, w4);
    Then(env, job, Start(job, fs), w2, w3);
    Then(env, job, Start(job, fs), w3, w4);
  }

  lemma PutGranted(env: Env, job: Job, fs: Fs)
    requires env.Valid() && job.mode == Put
    ensures Leads(env, job, Asking(job, C(PutWait), V(PutCheck), job.Resource(), [], [], fs),
                  Quiet(job, Zip, AwaitHash, Idle(), fs, 0))
  {
    Queues();
    var w0, w1 := Asking(job, C(PutWait), V(PutCheck), job.Resource(), [], [], fs),
                  Asking(job, C(PutWait), R(AwaitHash), job.Resource(), [], [Code(OK)], fs);
    Step(env, job, w0, Server, Go, w1);
    Step(env, job, w1, Client, Go, Quiet(job, Zip, AwaitHash, Idle(), fs, 0));
    Then(env, job, w0, w1, Quiet(job, Zip, AwaitHash, Idle(), fs, 0));
  }

  lemma GetRequested(env: Env, job: Job, fs: Fs)
    requires env.Valid() && job.mode == Get
    ensures var info := Resource(0, job.name, job.source);
            Leads(env, job, Start(job, fs), Asking(job, C(GetWait), V(AwaitCommand), [], [Code(GET), info], [], fs))
  {
    Queues();
    var info := Resource(0, job.name, job.source);
    var w0, w1 := Start(job, fs), Asking(job, C(GetDescribe), V(AwaitCommand), [], [Code(GET)], [], fs);
    var w2 := Asking(job, C(GetWait), V(AwaitCommand), [], [Code(GET), info], [], fs);
    Step(env, job, w0, Client, Go, w1);
    Step(env, job, w1, Client, Go, w2);
    Then(env, job, w0, w1, w2);
  }

  lemma GetAsked(env: Env, job: Job, fs: Fs)
    requires env.Valid() && job.mode == Get
    ensures Leads(env, job, Start(job, fs), Asking(job, C(GetWait), V(GetCheck), [], [], [], fs))
  {
    Queues();
    var info := Resource(0, job.name, job.source);
    var w2 := Asking(job, C(GetWait), V(AwaitCommand), [], [Code(GET), info], [], fs);
    var w3, w4 := Asking(job, C(GetWait), V(GetInfo), [], [info], [], fs),
                  Asking(job, C(GetWait), V(GetCheck), [], [], [], fs);
    GetRequested(env, job, fs);
    Step(env, job, w2, Server, Go, w3);
    Step(env, job, w3, Server, Go, w4);
    Then(env, job, Start(job, fs), w2, w3);
    Then(env, job, Start(job, fs), w3, w4);
  }

  lemma GetOffered(env: Env, job: Job, fs: Fs)
    requires env.Valid() && job.mode == Get
    ensures var size := Resource(job.statSize, [], []);
            Leads(env, job, Asking(job, C(GetWait), V(GetCheck), [], [], [], fs),
                  Asking(job, C(GetWait), V(GetReply), [], [], [Code(OK), size], fs))
  {
    Queues();
    var size := Resource(job.statSize, [], []);
    var w0, w1 := Asking(job, C(GetWait), V(GetCheck), [], [], [], fs),
                  Asking(job, C(GetWait), V(GetAdvertise), [], [], [Code(OK)], fs);
    var w2 := Asking(job, C(GetWait), V(GetReply), [], [], [Code(OK), size], fs);
    Step(env, job, w0, Server, Go, w1);
    Step(env, job, w1, Server, Go, w2);
    Then(env, job, w0, w1, w2);
  }

  lemma GetAdvertised(env: Env, job: Job, fs: Fs)
    requires env.Valid() && job.mode == Get
    ensures Leads(env, job, Asking(job, C(GetWait), V(GetCheck), [], [], [], fs),
                  Asking(job, C(GetChoose), V(GetReply), [], [], [], fs))
  {
    Queues();
    var size, w0 := Resource(job.statSize, [], []), Asking(job, C(GetWait), V(GetCheck), [], [], [], fs);
    var w2 := Asking(job, C(GetWait), V(GetReply), [], [], [Code(OK), size], fs);
    var w3, w4 := Asking(job, C(GetSize), V(GetReply), [], [], [size], fs),
                  Asking(job, C(GetChoose), V(GetReply), [], [], [], fs);
    GetOffered(env, job, fs);
    Step(env, job, w2, Client, Go, w3);
    Step(env, job, w3, Client, Go, w4);
    Then(env, job, w0, w2, w3);
    Then(env, job, w0, w3, w4);
  }

  lemma GetGranted(env: Env, job: Job, fs: Fs)
    requires env.Valid() && job.mode == Get
    ensures Leads(env, job, Asking(job, C(GetChoose), V(GetReply), [], [], [], fs),
                  Quiet(job, Zip, AwaitHash, Idle(), fs, 0))
  {
    Queues();
    var w0, w1 := Asking(job, C(GetChoose), V(GetReply), [], [], [], fs),
                  Asking(job, R(AwaitHash), V(GetReply), [], [Code(OK)], [], fs);
    Step(env, job, w0, Client, Go, w1);
    GetStarted(env, job, fs);
    Then(env, job, w0, w1, Quiet(job, Zip, AwaitHash, Idle(), fs, 0));
  }

  lemma GetStarted(env: Env, job: Job, fs: Fs)
    requires env.Valid() && job.mode == Get
    ensures Leads(env, job, Asking(job, R(AwaitHash), V(GetReply), [], [Code(OK)], [], fs),
                  Quiet(job, Zip, AwaitHash, Idle(), fs, 0))
  {
    Queues();
    var w := Asking(job, R(AwaitHash), V(GetReply), [], [Code(OK)], [], fs);
    Step(env, job, w, Server, Go, Quiet(job, Zip, AwaitHash, Idle(), fs, 0));
  }

  /** The hash is advertised and the receiver looks for its checkpoint. */
  lemma Advertised(env: Env, job: Job, fs: Fs)
    requires env.Valid()
    ensures Leads(env, job, Quiet(job, Zip, AwaitHash, Idle(), fs, 0),
                  Quiet(job, AwaitPlan, Lookup, env.md5(job.archive), fs, 0))
  {
    Queues();
    var h, w0 := env.md5(job.archive), Quiet(job, Zip, AwaitHash, Idle(), fs, 0);
    var w1 := Quiet(job, SayHash, AwaitHash, Idle(), fs, 0);
    Step(env, job, w0, Receiver(job).Other(), Go, w1);
    Sends(env, job, SayHash, Go, Digest(h), AwaitPlan, AwaitHash, Idle(), Lookup, h, fs, 0);
    Then(env, job, w0, w1, Quiet(job, AwaitPlan, Lookup, h, fs, 0));
  }

  lemma Begun(env: Env, job: Job, fs: Fs)
    requires env.Valid() && job.mode != Ping
    ensures Leads(env, job, Start(job, fs), Quiet(job, AwaitPlan, Lookup, env.md5(job.archive), fs, 0))
  {
    var w0, w := Start(job, fs), Quiet(job, Zip, AwaitHash, Idle(), fs, 0);
    if job.mode == Put {
      PutAsked(env, job, fs);
      PutGranted(env, job, fs);
      Then(env, job, w0, Asking(job, C(PutWait), V(PutCheck), job.Resource(), [], [], fs), w);
    } else {
      GetAsked(env, job, fs);
      GetAdvertised(env, job, fs);
      Then(env, job, w0, Asking(job, C(GetWait), V(GetCheck), [], [], [], fs),
           Asking(job, C(GetChoose), V(GetReply), [], [], [], fs));
      GetGranted(env, job, fs);
      Then(env, job, w0, Asking(job, C(GetChoose), V(GetReply), [], [], [], fs), w);
    }
    Advertised(env, job, fs);
    Then(env, job, w0, w, Quiet(job, AwaitPlan, Lookup, env.md5(job.archive), fs, 0));
  }

  // ---------------------------------------------------------------- the plan

  /** The point both processes have reached when the size is to be advertised. */
  function Ready(env: Env, job: Job, o: nat, fs: Fs): World {
    Quiet(job, SaySize(o), OpenFile(o), env.md5(job.archive), fs, 0)
  }

  lemma Restarts(env: Env, job: Job, fs: Fs)
    requires env.Valid() && job.mode != Ping && Offered(env, job, fs).None?
    ensures Leads(env, job, Start(job, fs), Ready(env, job, 0, fs))
  {
    var h, w0 := env.md5(job.archive), Start(job, fs);
    Begun(env, job, fs);
    Works(env, job, Lookup, Go, SayRestart, AwaitPlan, h, fs, fs, 0);
    Then(env, job, w0, Quiet(job, AwaitPlan, Lookup, h, fs, 0), Quiet(job, AwaitPlan, SayRestart, h, fs, 0));
    Replies(env, job, SayRestart, Code(RESTART), OpenFile(0), AwaitPlan, SaySize(0), h, fs, 0);
    Then(env, job, w0, Quiet(job, AwaitPlan, SayRestart, h, fs, 0), Ready(env, job, 0, fs));
  }

  lemma Offers(env: Env, job: Job, fs: Fs, o: nat)
    requires env.Valid() && job.mode != Ping && Offered(env, job, fs) == Some(o)
    ensures Leads(env, job, Start(job, fs), Quiet(job, Choose, AwaitChoice(o), env.md5(job.archive), fs, 0))
  {
    var h, w0 := env.md5(job.archive), Start(job, fs);
    Begun(env, job, fs);
    Works(env, job, Lookup, Go, AskResume(o), AwaitPlan, h, fs, fs, 0);
    Then(env, job, w0, Quiet(job, AwaitPlan, Lookup, h, fs, 0), Quiet(job, AwaitPlan, AskResume(o), h, fs, 0));
    Replies(env, job, AskResume(o), Code(RESUME), AwaitChoice(o), AwaitPlan, Choose, h, fs, 0);
    Then(env, job, w0, Quiet(job, AwaitPlan, AskResume(o), h, fs, 0), Quiet(job, Choose, AwaitChoice(o), h, fs, 0));
  }

  lemma Resumes(env: Env, job: Job, fs: Fs, o: nat)
    requires env.Valid() && job.mode != Ping && Offered(env, job, fs) == Some(o)
    ensures Leads(env, job, Start(job, fs), Ready(env, job, o, fs))
  {
    var h, w0 := env.md5(job.archive), Start(job, fs);
    Offers(env, job, fs, o);
    Sends(env, job, Choose, Go, Code(OK), AwaitOffset, AwaitChoice(o), h, SayOffset(o), h, fs, 0);
    Then(env, job, w0, Quiet(job, Choose, AwaitChoice(o), h, fs, 0), Quiet(job, AwaitOffset, SayOffset(o), h, fs, 0));
    Replies(env, job, SayOffset(o), Offset(o), OpenFile(o), AwaitOffset, SaySize(o), h, fs, 0);
    Then(env, job, w0, Quiet(job, AwaitOffset, SayOffset(o), h, fs, 0), Ready(env, job, o, fs));
  }

  /** Only the user of an upload can decline. */
  lemma Declines(env: Env, job: Job, fs: Fs, o: nat)
    requires env.Valid() && job.mode == Put && Offered(env, job, fs) == Some(o)
    ensures Leads(env, job, Start(job, fs), Ready(env, job, 0, fs))
  {
    var h, w0 := env.md5(job.archive), Start(job, fs);
    Offers(env, job, fs, o);
    Sends(env, job, Choose, Decline, Code(ABORT), SaySize(0), AwaitChoice(o), h, OpenFile(0), h, fs, 0);
    Then(env, job, w0, Quiet(job, Choose, AwaitChoice(o), h, fs, 0), Ready(env, job, 0, fs));
  }

  // ---------------------------------------------------------------- packets

  /** Both loops at the same position. */
  function Looping(env: Env, job: Job, st: nat, pos: nat, fs: Fs, k: nat): World
    requires pos <= |job.archive|
  {
    var left := |job.archive| - pos;
    Quiet(job, SendLoop(pos, left), RecvLoop(st, pos, left), env.md5(job.archive), fs, k)
  }

  /** The disk after the file was opened for a transfer from o. */
  function Opened(env: Env, job: Job, o: nat, fs: Fs): Fs { if o == 0 then fs[job.File(env) := []] else fs }

  lemma Sized(env: Env, job: Job, o: nat, fs: Fs)
    requires job.Valid(env) && o <= |job.archive|
    requires o > 0 ==> job.File(env) in fs && o <= |fs[job.File(env)]|
    ensures Leads(env, job, Ready(env, job, o, fs), Looping(env, job, o, o, Opened(env, job, o, fs), 0))
  {
    var h, fs' := env.md5(job.archive), Opened(env, job, o, fs);
    Works(env, job, OpenFile(o), Go, AwaitSize(o), SaySize(o), h, fs, fs', 0);
    Announced(env, job, Ready(env, job, o, fs), o, fs');
  }

  lemma Announced(env: Env, job: Job, w: World, o: nat, fs: Fs)
    requires job.Valid(env) && o <= |job.archive|
    requires Leads(env, job, w, Quiet(job, SaySize(o), AwaitSize(o), env.md5(job.archive), fs, 0))
    ensures Leads(env, job, w, Looping(env, job, o, o, fs, 0))
  {
    var h, n := env.md5(job.archive), |job.archive|;
    Sends(env, job, SaySize(o), Go, Resource(n, [], []), SendLoop(o, n - o),
          AwaitSize(o), h, RecvLoop(o, o, n - o), h, fs, 0);
    Then(env, job, w, Quiet(job, SaySize(o), AwaitSize(o), h, fs, 0), Looping(env, job, o, o, fs, 0));
  }

  function NextPos(job: Job, pos: nat): nat
    requires pos <= |job.archive|
  {
    pos + Min(BUFFER_SIZE, |job.archive| - pos)
  }

  /** The packet from pos has been sent and received. */
  function Carrying(env: Env, job: Job, st: nat, pos: nat, fs: Fs, k: nat): World
    requires pos <= |job.archive|
  {
    var n, next := |job.archive|, NextPos(job, pos);
    var s, r := SendLoop(next, n - next), WriteData(st, pos, n - pos, job.archive[pos..next]);
    Quiet(job, s, r, env.md5(job.archive), fs, k)
  }

  lemma Carried(env: Env, job: Job, st: nat, pos: nat, fs: Fs, k: nat)
    requires job.Valid(env) && pos < |job.archive|
    ensures Leads(env, job, Looping(env, job, st, pos, fs, k), Carrying(env, job, st, pos, fs, k + 1))
  {
    var h, n, next := env.md5(job.archive), |job.archive|, NextPos(job, pos);
    var c := job.archive[pos..next];
    assert Chunk(job.archive, pos, n - pos) == c;
    OpenSeal(env.keys, c);
    Sends(env, job, SendLoop(pos, n - pos), Go, Packet(Seal(env.keys, c), |c|), SendLoop(next, n - next),
          RecvLoop(st, pos, n - pos), h, WriteData(st, pos, n - pos, c), h, fs, k);
  }

  /** The checkpoint of the archive is a whole record of this offset for this path. */
  predicate CkptAt(env: Env, job: Job, o: nat, fs: Fs) {
    var name := CkptName(env.dir, env.md5(job.archive));
    name in fs && |fs[name]| == RECORD_SIZE && ParseRecord(fs[name]) == Checkpoint(o, job.Path())
  }

  /** What one packet from pos does to the disk: its octets in the file, and a checkpoint behind them. */
  predicate AfterPacket(env: Env, job: Job, pos: nat, fs: Fs, fs': Fs)
    requires pos <= |job.archive| && job.File(env) in fs && pos <= |fs[job.File(env)]|
  {
    && job.File(env) in fs'
    && fs'[job.File(env)] == Overwrite(fs[job.File(env)], pos, job.archive[pos..NextPos(job, pos)])
    && CkptAt(env, job, NextPos(job, pos), fs')
  }

  lemma WritesData(env: Env, job: Job, s: SenderPc, st: nat, pos: nat, next: nat, c: Bytes, fs: Fs, k: nat)
      returns (fs': Fs)
    requires job.Valid(env) && pos < next <= |job.archive| && |c| == next - pos
    requires job.File(env) in fs && pos <= |fs[job.File(env)]|
    ensures var h, n := env.md5(job.archive), |job.archive|;
            Leads(env, job, Quiet(job, s, WriteData(st, pos, n - pos, c), h, fs, k),
                  Quiet(job, s, WriteTmp(st, next, n - next), h, fs', k))
    ensures job.File(env) in fs' && fs'[job.File(env)] == Overwrite(fs[job.File(env)], pos, c)
  {
    var h, file, n := env.md5(job.archive), job.File(env), |job.archive|;
    fs' := fs[file := Overwrite(fs[file], pos, c)];
    Works(env, job, WriteData(st, pos, n - pos, c), Go, WriteTmp(st, next, n - next), s, h, fs, fs', k);
  }

  lemma ThenQuiet(env: Env, job: Job, s: SenderPc, r: ReceiverPc, r1: ReceiverPc, r2: ReceiverPc, h: Hash,
                  fs: Fs, fs1: Fs, fs2: Fs, k: nat)
    requires env.Valid()
    requires Leads(env, job, Quiet(job, s, r, h, fs, k), Quiet(job, s, r1, h, fs1, k))
    requires Leads(env, job, Quiet(job, s, r1, h, fs1, k), Quiet(job, s, r2, h, fs2, k))
    ensures Leads(env, job, Quiet(job, s, r, h, fs, k), Quiet(job, s, r2, h, fs2, k))
  {
    Then(env, job, Quiet(job, s, r, h, fs, k), Quiet(job, s, r1, h, fs1, k), Quiet(job, s, r2, h, fs2, k));
  }

  lemma SavesCkpt(env: Env, job: Job, s: SenderPc, st: nat, next: nat, fs: Fs, k: nat) returns (fs': Fs)
    requires job.Valid(env) && next <= |job.archive| && job.File(env) in fs
    ensures var h, left := env.md5(job.archive), |job.archive| - next;
            Leads(env, job, Quiet(job, s, WriteTmp(st, next, left), h, fs, k),
                  Quiet(job, s, RecvLoop(st, next, left), h, fs', k))
    ensures CkptAt(env, job, next, fs') && job.File(env) in fs' && fs'[job.File(env)] == fs[job.File(env)]
  {
    var h, left, c := env.md5(job.archive), |job.archive| - next, Checkpoint(next, job.Path());
    var tmp := fs[TmpName(env.dir, h) := Record(c, [])];
    fs' := tmp[CkptName(env.dir, h) := tmp[TmpName(env.dir, h)]] - {TmpName(env.dir, h)};
    SavedFacts(env, job, c, fs);
    WritesTmp(env, job, s, st, next, left, c, fs, tmp, k);
    RenamesTmp(env, job, s, st, next, left, tmp, fs', k);
    ThenQuiet(env, job, s, WriteTmp(st, next, left), RenameTmp(st, next, left), RecvLoop(st, next, left),
              h, fs, tmp, fs', k);
  }

  lemma WritesTmp(env: Env, job: Job, s: SenderPc, st: nat, next: nat, left: nat, c: Checkpoint,
                  fs: Fs, tmp: Fs, k: nat)
    requires job.Valid(env) && c == Checkpoint(next, job.Path()) && c.Fits()
    requires tmp == fs[TmpName(env.dir, env.md5(job.archive)) := Record(c, [])]
    ensures var h := env.md5(job.archive);
            Leads(env, job, Quiet(job, s, WriteTmp(st, next, left), h, fs, k),
                  Quiet(job, s, RenameTmp(st, next, left), h, tmp, k))
  {
    Works(env, job, WriteTmp(st, next, left), Junk([]), RenameTmp(st, next, left), s, env.md5(job.archive), fs, tmp, k);
  }

  lemma RenamesTmp(env: Env, job: Job, s: SenderPc, st: nat, next: nat, left: nat, tmp: Fs, fs: Fs, k: nat)
    requires job.Valid(env) && TmpName(env.dir, env.md5(job.archive)) in tmp
    requires var h := env.md5(job.archive);
             fs == tmp[CkptName(env.dir, h) := tmp[TmpName(env.dir, h)]] - {TmpName(env.dir, h)}
    ensures var h := env.md5(job.archive);
            Leads(env, job, Quiet(job, s, RenameTmp(st, next, left), h, tmp, k),
                  Quiet(job, s, RecvLoop(st, next, left), h, fs, k))
  {
    Works(env, job, RenameTmp(st, next, left), Go, RecvLoop(st, next, left), s, env.md5(job.archive), tmp, fs, k);
  }

  lemma SavedFacts(env: Env, job: Job, c: Checkpoint, fs: Fs)
    requires job.Valid(env) && c.Fits() && c.path == job.Path() && job.File(env) in fs
    ensures var h := env.md5(job.archive);
            var tmp := fs[TmpName(env.dir, h) := Record(c, [])];
            var fs' := tmp[CkptName(env.dir, h) := tmp[TmpName(env.dir, h)]] - {TmpName(env.dir, h)};
            CkptAt(env, job, c.offset, fs') && job.File(env) in fs' && fs'[job.File(env)] == fs[job.File(env)]
  {
    NamesDistinct(env.dir, env.md5(job.archive), env.md5(job.archive));
    RecordRoundTrip(c, []);
  }

  lemma Stores(env: Env, job: Job, s: SenderPc, st: nat, pos: nat, next: nat, c: Bytes, fs: Fs, k: nat)
      returns (fs': Fs)
    requires job.Valid(env) && pos < next <= |job.archive| && |c| == next - pos
    requires job.File(env) in fs && pos <= |fs[job.File(env)]|
    ensures var h, n := env.md5(job.archive), |job.archive|;
            Leads(env, job, Quiet(job, s, WriteData(st, pos, n - pos, c), h, fs, k),
                  Quiet(job, s, RecvLoop(st, next, n - next), h, fs', k))
    ensures job.File(env) in fs' && fs'[job.File(env)] == Overwrite(fs[job.File(env)], pos, c)
    ensures CkptAt(env, job, next, fs')
  {
    var h, n := env.md5(job.archive), |job.archive|;
    var fs1 := WritesData(env, job, s, st, pos, next, c, fs, k);
    fs' := SavesCkpt(env, job, s, st, next, fs1, k);
    ThenQuiet(env, job, s, WriteData(st, pos, n - pos, c), WriteTmp(st, next, n - next), RecvLoop(st, next, n - next),
              h, fs, fs1, fs', k);
  }

  lemma OnePacket(env: Env, job: Job, st: nat, pos: nat, fs: Fs, k: nat) returns (fs': Fs)
    requires job.Valid(env) && pos < |job.archive| && job.File(env) in fs && pos <= |fs[job.File(env)]|
    ensures Leads(env, job, Looping(env, job, st, pos, fs, k), Looping(env, job, st, NextPos(job, pos), fs', k + 1))
    ensures AfterPacket(env, job, pos, fs, fs')
  {
    Carried(env, job, st, pos, fs, k);
    fs' := Kept(env, job, Looping(env, job, st, pos, fs, k), st, pos, fs, k + 1);
  }

  lemma Kept(env: Env, job: Job, w: World, st: nat, pos: nat, fs: Fs, k: nat) returns (fs': Fs)
    requires job.Valid(env) && pos < |job.archive| && job.File(env) in fs && pos <= |fs[job.File(env)]|
    requires Leads(env, job, w, Carrying(env, job, st, pos, fs, k))
    ensures Leads(env, job, w, Looping(env, job, st, NextPos(job, pos), fs', k))
    ensures AfterPacket(env, job, pos, fs, fs')
  {
    var n, next := |job.archive|, NextPos(job, pos);
    fs' := Stores(env, job, SendLoop(next, n - next), st, pos, next, job.archive[pos..next], fs, k);
    Then(env, job, w, Carrying(env, job, st, pos, fs, k), Looping(env, job, st, next, fs', k));
  }

  lemma NextPosAligned(job: Job, pos: nat, upTo: nat)
    requires pos % BUFFER_SIZE == 0 && pos < upTo && Aligned(job.archive, upTo)
    ensures pos < NextPos(job, pos) <= upTo && (NextPos(job, pos) < upTo ==> NextPos(job, pos) % BUFFER_SIZE == 0)
  {
  }

  /** One packet of a transfer from the start. */
  lemma PacketFromStart(env: Env, job: Job, pos: nat, fs: Fs, k: nat) returns (fs': Fs)
    requires job.Valid(env) && pos < |job.archive|
    requires job.File(env) in fs && fs[job.File(env)] == job.archive[..pos]
    ensures Leads(env, job, Looping(env, job, 0, pos, fs, k), Looping(env, job, 0, NextPos(job, pos), fs', k + 1))
    ensures job.File(env) in fs' && fs'[job.File(env)] == job.archive[..NextPos(job, pos)]
    ensures CkptAt(env, job, NextPos(job, pos), fs')
  {
    fs' := OnePacket(env, job, 0, pos, fs, k);
    OverwritePrefix(job.archive, fs[job.File(env)], pos, NextPos(job, pos) - pos);
  }

  /** From any position on a packet boundary to any later position a checkpoint can hold. */
  lemma {:induction false} Packets(env: Env, job: Job, pos: nat, upTo: nat, fs: Fs, k: nat) returns (fs': Fs, k': nat)
    requires job.Valid(env) && pos % BUFFER_SIZE == 0 && pos < upTo && Aligned(job.archive, upTo)
    requires job.File(env) in fs && fs[job.File(env)] == job.archive[..pos]
    ensures Leads(env, job, Looping(env, job, 0, pos, fs, k), Looping(env, job, 0, upTo, fs', k'))
    ensures job.File(env) in fs' && fs'[job.File(env)] == job.archive[..upTo] && CkptAt(env, job, upTo, fs')
    decreases upTo - pos
  {
    NextPosAligned(job, pos, upTo);
    var next := NextPos(job, pos);
    var fs1 := PacketFromStart(env, job, pos, fs, k);
    fs', k' := fs1, k + 1;
    if next < upTo {
      fs', k' := Packets(env, job, next, upTo, fs1, k + 1);
      Then(env, job, Looping(env, job, 0, pos, fs, k), Looping(env, job, 0, next, fs1, k + 1),
           Looping(env, job, 0, upTo, fs', k'));
    }
  }

  // ---------------------------------------------------------------- interrupted sessions

  /** A transfer that starts at 0 can be interrupted right after any of its checkpoints. */
  lemma FromStart(env: Env, job: Job, upTo: nat, fs: Fs) returns (actions: seq<Action>, w: World)
    requires job.Valid(env) && job.mode != Ping && 0 < upTo && Aligned(job.archive, upTo)
    requires CkptOk(env, fs, job.archive) && Leads(env, job, Start(job, fs), Ready(env, job, 0, fs))
    ensures Run(env, job, Start(job, fs), actions) == Some(w)
    ensures job.File(env) in w.fs && w.fs[job.File(env)] == job.archive[..upTo] && CkptAt(env, job, upTo, w.fs)
    ensures OnlyOwn(env, job, fs, w.fs)
  {
    var k;
    w, k := TransferFromStart(env, job, upTo, fs);
    assert Reaches(env, job, Start(job, fs), w);
    actions :| Run(env, job, Start(job, fs), actions) == Some(w);
    StartGood(env, job, fs);
    RunFrame(env, job, Start(job, fs), actions);
  }

  lemma TransferFromStart(env: Env, job: Job, upTo: nat, fs: Fs) returns (w: World, k: nat)
    requires job.Valid(env) && 0 < upTo && Aligned(job.archive, upTo)
    requires Leads(env, job, Start(job, fs), Ready(env, job, 0, fs))
    ensures Leads(env, job, Start(job, fs), w) && w == Looping(env, job, 0, upTo, w.fs, k)
    ensures job.File(env) in w.fs && w.fs[job.File(env)] == job.archive[..upTo] && CkptAt(env, job, upTo, w.fs)
  {
    var fs0 := Opened(env, job, 0, fs);
    Sized(env, job, 0, fs);
    Then(env, job, Start(job, fs), Ready(env, job, 0, fs), Looping(env, job, 0, 0, fs0, 0));
    var fs';
    fs', k := Packets(env, job, 0, upTo, fs0, 0);
    w := Looping(env, job, 0, upTo, fs', k);
    Then(env, job, Start(job, fs), Looping(env, job, 0, 0, fs0, 0), w);
  }

  /** A transfer that starts at 0 can run until its archive is extracted. */
  lemma ToExtraction(env: Env, job: Job, fs: Fs) returns (actions: seq<Action>, w: World)
    requires job.Valid(env) && job.mode != Ping && CkptOk(env, fs, job.archive)
    requires Leads(env, job, Start(job, fs), Ready(env, job, 0, fs))
    ensures Run(env, job, Start(job, fs), actions) == Some(w)
    ensures OnlyOwn(env, job, fs, w.fs)
    ensures forall n | n in job.Content(env) :: n in w.fs && w.fs[n] == job.Content(env)[n]
  {
    var n := |job.archive|;
    var w1, k := TransferFromStart(env, job, n, fs);
    assert job.archive[..n] == job.archive;
    w := Finishes(env, job, w1.fs, k);
    Then(env, job, Start(job, fs), w1, w);
    assert Reaches(env, job, Start(job, fs), w);
    actions :| Run(env, job, Start(job, fs), actions) == Some(w);
    StartGood(env, job, fs);
    RunFrame(env, job, Start(job, fs), actions);
  }

  /** From the end of the loop the receiver alone checks the digest, says OK and extracts. */
  lemma Finishes(env: Env, job: Job, fs: Fs, k: nat) returns (w: World)
    requires job.Valid(env) && job.File(env) in fs && fs[job.File(env)] == job.archive
    ensures Leads(env, job, Looping(env, job, 0, |job.archive|, fs, k), w) && w.fs == fs + job.Content(env)
  {
    var n, h, a, s := |job.archive|, env.md5(job.archive), job.archive, SendLoop(|job.archive|, 0);
    var w0, w1 := Looping(env, job, 0, n, fs, k), Quiet(job, s, Verify(0), h, fs, k);
    Works(env, job, RecvLoop(0, n, 0), Go, Verify(0), s, h, fs, fs, k);
    var w2 := Matches(env, job, s, fs, k);
    w := Extracts(env, job, s, fs, k);
    Then(env, job, w0, w1, w2);
    Then(env, job, w0, w2, w);
  }

  lemma Matches(env: Env, job: Job, s: SenderPc, fs: Fs, k: nat) returns (w: World)
    requires env.Valid() && job.File(env) in fs && fs[job.File(env)] == job.archive
    ensures var h := env.md5(job.archive);
            && Leads(env, job, Quiet(job, s, Verify(0), h, fs, k), w)
            && w == Moving(job, s, Extract, h, [], [Code(OK)], fs, k).(log := [Verified(job.archive)])
  {
    var h, log := env.md5(job.archive), [Verified(job.archive)];
    var w0, w1 := Quiet(job, s, Verify(0), h, fs, k), Quiet(job, s, SayOk, h, fs, k).(log := log);
    w := Moving(job, s, Extract, h, [], [Code(OK)], fs, k).(log := log);
    Compares(env, job, s, fs, k);
    Confirms(env, job, s, fs, k, log);
    Then(env, job, w0, w1, w);
  }

  lemma Compares(env: Env, job: Job, s: SenderPc, fs: Fs, k: nat)
    requires env.Valid() && job.File(env) in fs && fs[job.File(env)] == job.archive
    ensures var h := env.md5(job.archive);
            Leads(env, job, Quiet(job, s, Verify(0), h, fs, k),
                  Quiet(job, s, SayOk, h, fs, k).(log := [Verified(job.archive)]))
  {
    var h, log := env.md5(job.archive), [Verified(job.archive)];
    assert [] + log == log;
    Locally(env, job, Quiet(job, s, Verify(0), h, fs, k), Receiver(job), Go,
            Local(ReceiverProc(job, SayOk, h), [], [], fs, log, k));
  }

  lemma Confirms(env: Env, job: Job, s: SenderPc, fs: Fs, k: nat, log: seq<Event>)
    requires env.Valid()
    ensures var h := env.md5(job.archive);
            Leads(env, job, Quiet(job, s, SayOk, h, fs, k).(log := log),
                  Moving(job, s, Extract, h, [], [Code(OK)], fs, k).(log := log))
  {
    Queues();
    var h := env.md5(job.archive);
    Locally(env, job, Quiet(job, s, SayOk, h, fs, k).(log := log), Receiver(job), Go,
            Local(ReceiverProc(job, Extract, h), [], [Code(OK)], fs, log, k));
  }

  lemma Extracts(env: Env, job: Job, s: SenderPc, fs: Fs, k: nat) returns (w: World)
    requires env.Valid() && job.File(env) in fs && fs[job.File(env)] == job.archive
    ensures var h, log := env.md5(job.archive), [Verified(job.archive)];
            Leads(env, job, Moving(job, s, Extract, h, [], [Code(OK)], fs, k).(log := log), w)
    ensures w.fs == fs + job.Content(env)
  {
    var h, a, log := env.md5(job.archive), job.archive, [Verified(job.archive)];
    var w0, fs' := Moving(job, s, Extract, h, [], [Code(OK)], fs, k).(log := log), fs + job.Content(env);
    var l := Local(ReceiverProc(job, RemoveFile(true), h), [], [Code(OK)], fs', log + [Extracted(a)], k);
    Locally(env, job, w0, Receiver(job), Go, l);
    w := w0.Update(Receiver(job), l);
  }

  /** A resumed transfer can be interrupted right after its first packet. */
  lemma FromCheckpoint(env: Env, job: Job, o: nat, fs: Fs) returns (actions: seq<Action>, w: World)
    requires job.Valid(env) && job.mode != Ping && 0 < o < |job.archive| && Offered(env, job, fs) == Some(o)
    requires CkptOk(env, fs, job.archive)
    ensures Run(env, job, Start(job, fs), actions) == Some(w)
    ensures job.File(env) in fs && job.File(env) in w.fs
    ensures w.fs[job.File(env)] == Overwrite(fs[job.File(env)], o, job.archive[o..NextPos(job, o)])
    ensures OnlyOwn(env, job, fs, w.fs)
  {
    ResumedLoop(env, job, o, fs);
    var fs' := ResumedPacket(env, job, o, fs);
    w := Looping(env, job, o, NextPos(job, o), fs', 1);
    assert Reaches(env, job, Start(job, fs), w);
    actions :| Run(env, job, Start(job, fs), actions) == Some(w);
    StartGood(env, job, fs);
    RunFrame(env, job, Start(job, fs), actions);
  }

  lemma ResumedPacket(env: Env, job: Job, o: nat, fs: Fs) returns (fs': Fs)
    requires job.Valid(env) && o < |job.archive| && job.File(env) in fs && o <= |fs[job.File(env)]|
    requires Leads(env, job, Start(job, fs), Looping(env, job, o, o, fs, 0))
    ensures Leads(env, job, Start(job, fs), Looping(env, job, o, NextPos(job, o), fs', 1))
    ensures AfterPacket(env, job, o, fs, fs')
  {
    fs' := OnePacket(env, job, o, o, fs, 0);
    Then(env, job, Start(job, fs), Looping(env, job, o, o, fs, 0), Looping(env, job, o, NextPos(job, o), fs', 1));
  }

  lemma ResumedLoop(env: Env, job: Job, o: nat, fs: Fs)
    requires job.Valid(env) && job.mode != Ping && 0 < o < |job.archive| && Offered(env, job, fs) == Some(o)
    ensures Leads(env, job, Start(job, fs), Looping(env, job, o, o, fs, 0))
  {
    Resumes(env, job, fs, o);
    Sized(env, job, o, fs);
    Then(env, job, Start(job, fs), Ready(env, job, o, fs), Looping(env, job, o, o, fs, 0));
  }
}
