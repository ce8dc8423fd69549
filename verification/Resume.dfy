/**
 Who may decline a resume: in a download nobody does, so that a client that offers its checkpoint goes on from it; in
 an upload the client may, and only then does a receiver that offered a checkpoint begin at 0.
 */
module Resumption {
  import opened Bytes
  import opened Disk
  import opened Protocol
  import opened Invariant
  import opened Preservation
  import opened History
  import opened SessionProperties
  import opened Recovery

  /** The receiver has a checkpoint to resume from and has not yet opened its file. */
  predicate Offers(pc: Pc, c: nat) {
    pc == R(AskResume(c)) || pc == R(AwaitChoice(c)) || pc == R(SayOffset(c))
  }

  /** Where the transfer begins, of a receiver that opens its file or has it open. */
  function BegunAt(pc: Pc): Option<nat> {
    match pc
    case R(OpenFile(o)) => Some(o)
    case R(AwaitSize(o)) => Some(o)
    case R(RecvLoop(st, _, _)) => Some(st)
    case R(WriteData(st, _, _, _)) => Some(st)
    case R(WriteTmp(st, _, _)) => Some(st)
    case R(RenameTmp(st, _, _)) => Some(st)
    case R(Verify(st)) => Some(st)
    case _ => None
  }

  /** What can have become of an offer of c. */
  predicate Held(job: Job, pc: Pc, c: nat) {
    match BegunAt(pc)
    case Some(o) => o == c || (o == 0 && job.mode == Put)
    case None => Offers(pc, c) || !Early(pc)
  }

  // ---------------------------------------------------------------- what arrives

  lemma ChoiceHeard(env: Env, job: Job, c: nat, q: seq<Msg>, y: Pc, out: seq<Msg>)
    requires env.Valid() && OneWay(env, job, R(AwaitChoice(c)), q, y, out) && q != []
    ensures q[0] == Code(OK) || (q[0] == Code(ABORT) && job.mode == Put)
    ensures q[0] == Code(OK) ==> q == [q[0]]
  {
    assert Conn(env, job, y, q, R(AwaitChoice(c)));
    if q[0] == Code(OK) {
      OffersNext(env, job, c, q[1..]);
    }
  }

  /** A receiver that was told to resume speaks next. */
  lemma OffersNext(env: Env, job: Job, c: nat, q: seq<Msg>)
    requires env.Valid() && After(env, job, R(SayOffset(c)), q).Some?
    ensures q == []
  {
  }

  /** In a download no refusal is ever under way to a receiver that asked to resume. */
  lemma DownloadsNeverDeclined(env: Env, past: seq<Session>, job: Job, actions: seq<Action>, w: World, side: Side)
    requires Legal(env, AllJobs(past, job)) && Reach(env, past, job, actions) == Some(w) && job.mode == Get
    requires w.Of(side).pc.R? && w.Of(side).pc.r.AwaitChoice?
    ensures Code(ABORT) !in w.In(side) && (w.In(side) == [] || w.In(side) == [Code(OK)])
  {
    ReachedSide(env, past, job, actions, w, side);
    if w.In(side) != [] {
      ChoiceHeard(env, job, w.Of(side).pc.r.offset, w.In(side), w.Of(side.Other()).pc, w.In(side.Other()));
    }
  }

  // ---------------------------------------------------------------- what becomes of an offer

  lemma HeldHearing(env: Env, job: Job, p: Proc, c: nat, m: Msg)
    requires env.Valid() && Waits(p.pc) && Held(job, p.pc, c) && OnMsg(env, p, m).Hears?
    requires p.pc == R(AwaitChoice(c)) ==> m == Code(OK) || (m == Code(ABORT) && job.mode == Put)
    ensures Held(job, OnMsg(env, p, m).proc.pc, c)
    ensures Offers(p.pc, c) ==>
              var pc := OnMsg(env, p, m).proc.pc; Offers(pc, c) || pc == R(OpenFile(c)) || job.mode == Put
  {
  }

  lemma HeldTurn(env: Env, job: Job, p: Proc, c: nat, fs: Fs, ch: Choice)
    requires env.Valid() && !Waits(p.pc) && Held(job, p.pc, c) && p.pc.R?
    ensures var e := ReceiverActs(env, p, p.pc.r, fs, ch);
            e.Says? || e.Works? ==>
              Held(job, e.pc, c) && (Offers(p.pc, c) ==> Offers(e.pc, c) || e.pc == R(OpenFile(c)))
  {
    if Early(p.pc) {
      HeldEarly(env, job, p, c, fs, ch);
    } else {
      LateStays(env, p, fs, ch);
    }
  }

  lemma HeldEarly(env: Env, job: Job, p: Proc, c: nat, fs: Fs, ch: Choice)
    requires env.Valid() && !Waits(p.pc) && Held(job, p.pc, c) && p.pc.R? && Early(p.pc)
    ensures var e := ReceiverActs(env, p, p.pc.r, fs, ch);
            e.Says? || e.Works? ==>
              Held(job, e.pc, c) && (Offers(p.pc, c) ==> Offers(e.pc, c) || e.pc == R(OpenFile(c)))
  {
  }

  lemma HeldKept(env: Env, job: Job, side: Side, c: nat, w: World, a: Action, w': World)
    requires job.Valid(env) && Inv(env, job, w) && Do(env, job, w, a) == Some(w') && Held(job, w.Of(side).pc, c)
    ensures Held(job, w'.Of(side).pc, c)
    ensures Offers(w.Of(side).pc, c) ==>
              Offers(w'.Of(side).pc, c) || w'.Of(side).pc == R(OpenFile(c)) || job.mode == Put
  {
    if a.side == side && a.Act? {
      InvGivesLocal(env, job, w, side);
      HeldAct(env, job, c, w.View(side), w.Of(side.Other()).pc, a.choice);
    }
  }

  lemma HeldAct(env: Env, job: Job, c: nat, l: Local, y: Pc, ch: Choice)
    requires env.Valid() && OneWay(env, job, l.proc.pc, l.inq, y, l.outq)
    requires Next(env, job, l, ch).Some? && Held(job, l.proc.pc, c)
    ensures var pc := Next(env, job, l, ch).value.proc.pc;
            && Held(job, pc, c)
            && (Offers(l.proc.pc, c) ==> Offers(pc, c) || pc == R(OpenFile(c)) || job.mode == Put)
  {
    if Waits(l.proc.pc) {
      if l.proc.pc == R(AwaitChoice(c)) {
        ChoiceHeard(env, job, c, l.inq, y, l.outq);
      }
      HeldHearing(env, job, l.proc, c, l.inq[0]);
    } else {
      HearsOnlyWaiting(env, job, l.proc, l.fs, ch);
      HeldTurn(env, job, l.proc, c, l.fs, ch);
    }
  }

  lemma {:induction false} HeldRun(env: Env, job: Job, side: Side, c: nat, w: World, more: seq<Action>)
    requires job.Valid(env) && Inv(env, job, w) && Run(env, job, w, more).Some? && Held(job, w.Of(side).pc, c)
    ensures Held(job, Run(env, job, w, more).value.Of(side).pc, c)
    decreases |more|
  {
    if more != [] {
      var w1 := Do(env, job, w, more[0]).value;
      HeldKept(env, job, side, c, w, more[0], w1);
      DoKeeps(env, job, w, more[0]);
      HeldRun(env, job, side, c, w1, more[1..]);
    }
  }

  /**
   An offer holds. Whatever happens after a receiver has offered to resume at c, its transfer begins at c; it begins at
   0 only in an upload.
   */
  lemma OfferHolds(env: Env, past: seq<Session>, job: Job, actions: seq<Action>, w: World, side: Side, c: nat,
                   more: seq<Action>, w': World)
    requires Legal(env, AllJobs(past, job)) && Reach(env, past, job, actions) == Some(w) && Offers(w.Of(side).pc, c)
    requires Run(env, job, w, more) == Some(w')
    ensures Held(job, w'.Of(side).pc, c)
  {
    ReachedGood(env, past, job, actions, w);
    HeldRun(env, job, side, c, w, more);
  }

  /**
   A download resumes. Once the client has offered c, a session in which neither process is stopped comes to the point
   where the client opens its partial file to go on at c.
   */
  lemma DownloadResumes(env: Env, past: seq<Session>, job: Job, actions: seq<Action>, w: World, c: nat,
                        more: seq<Action>, w': World)
    requires Legal(env, AllJobs(past, job)) && Reach(env, past, job, actions) == Some(w) && Offers(w.client.pc, c)
    requires Run(env, job, w, more) == Some(w') && Quiescent(env, job, w') && job.mode == Get
    ensures Opens(env, job, w, more, c)
  {
    ReachedGood(env, past, job, actions, w);
    DownloadRun(env, job, w, c, more, w');
  }

  lemma DownloadRun(env: Env, job: Job, w: World, c: nat, more: seq<Action>, w': World)
    requires job.Valid(env) && Inv(env, job, w) && Offers(w.client.pc, c)
    requires Run(env, job, w, more) == Some(w') && Quiescent(env, job, w') && job.mode == Get
    ensures Opens(env, job, w, more, c)
  {
    RunKeeps(env, job, w, more);
    AllDone(env, job, w');
    OpensRun(env, job, c, w, more);
  }

  lemma AllDone(env: Env, job: Job, w: World)
    requires job.Valid(env) && Inv(env, job, w) && Quiescent(env, job, w)
    ensures Done(w.client.pc) && forall c :: !Offers(w.client.pc, c)
  {
    if !(Done(w.client.pc) && Done(w.server.pc)) {
      Live(env, job, w);
    }
  }

  /** At some point of the run the client is about to open its file at c. */
  ghost predicate Opens(env: Env, job: Job, w: World, more: seq<Action>, c: nat)
    requires env.Valid()
  {
    exists i {:trigger more[..i]} :: 0 <= i <= |more| &&
      match Run(env, job, w, more[..i])
      case None => false
      case Some(x) => x.client.pc == R(OpenFile(c))
  }

  lemma {:induction false} OpensRun(env: Env, job: Job, c: nat, w: World, more: seq<Action>)
    requires job.Valid(env) && Inv(env, job, w) && Run(env, job, w, more).Some? && job.mode == Get
    requires Offers(w.client.pc, c) && !Offers(Run(env, job, w, more).value.client.pc, c)
    ensures Opens(env, job, w, more, c)
    decreases |more|
  {
    var w1 := Do(env, job, w, more[0]).value;
    HeldKept(env, job, Client, c, w, more[0], w1);
    if w1.client.pc == R(OpenFile(c)) {
      OpensNow(env, job, w1, more[1..], c);
    } else {
      DoKeeps(env, job, w, more[0]);
      OpensRun(env, job, c, w1, more[1..]);
    }
    OpensLater(env, job, w, more, w1, c);
  }

  lemma OpensNow(env: Env, job: Job, w: World, more: seq<Action>, c: nat)
    requires env.Valid() && w.client.pc == R(OpenFile(c))
    ensures Opens(env, job, w, more, c)
  {
    assert more[..0] == [];
  }

  lemma OpensLater(env: Env, job: Job, w: World, more: seq<Action>, w1: World, c: nat)
    requires env.Valid() && more != [] && Do(env, job, w, more[0]) == Some(w1) && Opens(env, job, w1, more[1..], c)
    ensures Opens(env, job, w, more, c)
  {
    var rest := more[1..];
    var i :| 0 <= i <= |rest| && Run(env, job, w1, rest[..i]).Some? &&
             Run(env, job, w1, rest[..i]).value.client.pc == R(OpenFile(c));
    RunCons(env, job, w, more[0], w1, rest[..i]);
    assert more[..i + 1] == [more[0]] + rest[..i];
  }

  lemma RunCons(env: Env, job: Job, w: World, a: Action, w1: World, rest: seq<Action>)
    requires env.Valid() && Do(env, job, w, a) == Some(w1)
    ensures Run(env, job, w, [a] + rest) == Run(env, job, w1, rest)
  {
    assert ([a] + rest)[0] == a && ([a] + rest)[1..] == rest;
  }

  // ---------------------------------------------------------------- where a download begins

  /** No read of a checkpoint fails. */
  ghost predicate AllRead(env: Env, job: Job, w: World, actions: seq<Action>)
    requires env.Valid()
    decreases |actions|
  {
    actions == [] || (!(actions[0].Act? && w.Of(actions[0].side).pc == R(Lookup) && actions[0].choice == ReadError) &&
                      match Do(env, job, w, actions[0])
                      case None => true
                      case Some(w') => AllRead(env, job, w', actions[1..]))
  }

  lemma {:induction false} ReadsSuffice(env: Env, job: Job, w: World, actions: seq<Action>)
    requires job.Valid(env) && Inv(env, job, w) && Run(env, job, w, actions).Some? && job.mode == Get
    ensures AllAccepting(env, job, w, actions) <==> AllRead(env, job, w, actions)
    decreases |actions|
  {
    if actions != [] {
      NoRefusal(env, job, w, actions[0]);
      DoKeeps(env, job, w, actions[0]);
      ReadsSuffice(env, job, Do(env, job, w, actions[0]).value, actions[1..]);
    }
  }

  lemma NoRefusal(env: Env, job: Job, w: World, a: Action)
    requires job.Valid(env) && Inv(env, job, w) && w.Up(a.side) && job.mode == Get
    ensures Accepting(w, a) <==> !(a.Act? && w.Of(a.side).pc == R(Lookup) && a.choice == ReadError)
  {
    var pc, q := w.Of(a.side).pc, w.In(a.side);
    if pc.R? && pc.r.AwaitChoice? && q != [] {
      InvGivesLocal(env, job, w, a.side);
      ChoiceHeard(env, job, pc.r.offset, q, w.Of(a.side.Other()).pc, w.In(a.side.Other()));
    }
  }

  /**
   Where a download begins is decided by the disk alone: at the offset of the checkpoint found there, unless that cannot
   be read; at 0 if there is none.
   */
  lemma DownloadBegins(env: Env, past: seq<Session>, job: Job, actions: seq<Action>, fs: Fs, w: World)
    requires Legal(env, AllJobs(past, job)) && RunAll(env, map[], past) == Some(fs)
    requires Reach(env, past, job, actions) == Some(w) && job.mode == Get && BegunAt(w.client.pc).Some?
    ensures BegunAt(w.client.pc).value ==
            match Offered(env, job, fs)
            case Some(c) => if AllRead(env, job, Start(job, fs), actions) then c else 0
            case None => 0
  {
    ReachedGood(env, past, job, [], Start(job, fs));
    ReadsSuffice(env, job, Start(job, fs), actions);
    CourseRun(env, job, Client, fs, true, Start(job, fs), actions);
  }
}
