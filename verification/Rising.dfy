/** The offsets that sessions record: rising within a session, and exactly when they fall across sessions. */
module RisingOffsets {
  import opened Bytes
  import opened Cipher
  import opened Disk
  import opened Protocol
  import opened Invariant
  import opened Preservation
  import opened History
  import opened Recovery
  import opened SessionProperties
  import opened Walks

  /** The action renames a temporary record into place. */
  predicate Installs(w: World, a: Action) {
    a.Act? && w.Of(a.side).pc.R? && w.Of(a.side).pc.r.RenameTmp?
  }

  /** The offsets of the records put in place during a run, as read back from the disk each time. */
  ghost function Marks(env: Env, job: Job, w: World, actions: seq<Action>): seq<nat>
    requires env.Valid()
    decreases |actions|
  {
    if actions == [] then [] else
      match Do(env, job, w, actions[0])
      case None => []
      case Some(w') =>
        (if Installs(w, actions[0]) then [Mark(env, job, w'.fs)] else []) + Marks(env, job, w', actions[1..])
  }

  /** No record the process has yet to write holds a smaller offset than this. */
  function Floor(pc: Pc, total: nat): nat {
    match pc
    case R(SayOffset(c)) => c + 1
    case R(OpenFile(o)) => o + 1
    case R(AwaitSize(o)) => o + 1
    case R(RecvLoop(_, pos, _)) => pos + 1
    case R(WriteData(_, pos, _, _)) => pos + 1
    case R(WriteTmp(_, pos, _)) => pos
    case R(RenameTmp(_, pos, _)) => pos
    case R(Verify(_)) => total + 1
    case R(SayOk) => total + 1
    case R(SayBad) => total + 1
    case R(Extract) => total + 1
    case R(RemoveFile(_)) => total + 1
    case R(RemoveCkpt(_)) => total + 1
    case R(RecvEnd(_)) => total + 1
    case _ => 0
  }

  lemma FloorHearing(env: Env, job: Job, p: Proc, m: Msg)
    requires env.Valid() && Waits(p.pc) && OnMsg(env, p, m).Hears?
    ensures Floor(OnMsg(env, p, m).proc.pc, |job.archive|) >= Floor(p.pc, |job.archive|)
            || (p.pc.R? && p.pc.r.AwaitChoice?)
  {
  }

  lemma FloorTurn(env: Env, job: Job, p: Proc, fs: Fs, ch: Choice)
    requires env.Valid() && p.pc.R? && Numbers(job.archive, p.pc)
    ensures var e, n := ReceiverActs(env, p, p.pc.r, fs, ch), |job.archive|;
            e.Says? || e.Works? ==>
              Floor(e.pc, n) >= Floor(p.pc, n) + if p.pc.r.RenameTmp? then 1 else 0
  {
    if p.pc.r.WriteData? {
      FloorWrite(env, job, p, fs, ch);
    }
  }

  lemma FloorWrite(env: Env, job: Job, p: Proc, fs: Fs, ch: Choice)
    requires p.pc.R? && p.pc.r.WriteData? && Numbers(job.archive, p.pc)
    ensures var e, n := ReceiverActs(env, p, p.pc.r, fs, ch), |job.archive|;
            e.Works? ==> Floor(e.pc, n) >= Floor(p.pc, n)
  {
    NextAligned(job.archive, p.pc.r.pos, p.pc.r.left);
  }

  lemma FloorAct(env: Env, job: Job, l: Local, ch: Choice)
    requires env.Valid() && Numbers(job.archive, l.proc.pc) && Next(env, job, l, ch).Some?
    ensures var n := |job.archive|;
            Floor(Next(env, job, l, ch).value.proc.pc, n)
            >= Floor(l.proc.pc, n) + if l.proc.pc.R? && l.proc.pc.r.RenameTmp? then 1 else 0
  {
    if Waits(l.proc.pc) {
      FloorHearing(env, job, l.proc, l.inq[0]);
    } else {
      HearsOnlyWaiting(env, job, l.proc, l.fs, ch);
      if l.proc.pc.R? {
        FloorTurn(env, job, l.proc, l.fs, ch);
      }
    }
  }

  /** A rename puts in place the position of the receiver that renames. */
  lemma RenameIs(env: Env, job: Job, p: Proc, fs: Fs, ch: Choice)
    requires job.Valid(env) && p.pc.R? && p.pc.r.RenameTmp?
    requires p.resource == job.Resource() && p.hash == env.md5(job.archive)
    requires DiskGood(env, job, p.pc.r, fs)
    ensures var e := ReceiverActs(env, p, p.pc.r, fs, ch); e.Works? && Mark(env, job, e.fs) == p.pc.r.pos
  {
    NamesDistinct(env.dir, p.hash, p.hash);
    var tmp := TmpName(env.dir, p.hash);
    assert fs[tmp][..RECORD_SIZE] == fs[tmp];
  }

  /** And nothing else changes what is recorded, except that the checkpoint may be removed. */
  lemma OnlyRenamesRecord(env: Env, job: Job, p: Proc, fs: Fs, a: Action, fs': Fs)
    requires job.Valid(env) && DiskStep(env, job, p, fs, a, fs')
    requires !(a.Act? && p.pc.R? && p.pc.r.RenameTmp?)
    ensures Mark(env, job, fs') == Mark(env, job, fs) || CkptName(env.dir, env.md5(job.archive)) !in fs'
  {
    CkptStays(env, job, p, fs, a, fs');
  }

  predicate Rising(s: seq<nat>, floor: nat, total: nat) {
    && (forall i | 0 <= i < |s| :: floor <= s[i] <= total)
    && (forall i, j | 0 <= i < j < |s| :: s[i] < s[j])
  }

  lemma FloorStep(env: Env, job: Job, side: Side, w: World, a: Action, w': World)
    requires job.Valid(env) && Receives(job, side) && Inv(env, job, w) && Do(env, job, w, a) == Some(w')
    ensures var n := |job.archive|;
            Floor(w'.Of(side).pc, n) >= Floor(w.Of(side).pc, n) + if Installs(w, a) then 1 else 0
  {
    if a.side != side {
      OtherFrame(env, job, w, a, w');
    } else if a.Act? {
      FloorAct(env, job, w.View(side), a.choice);
    }
  }

  /** A rename is the receiver's, and its record is read back. */
  lemma InstalledIs(env: Env, job: Job, side: Side, w: World, a: Action, w': World)
    requires job.Valid(env) && Receives(job, side) && Inv(env, job, w) && Do(env, job, w, a) == Some(w')
    requires Installs(w, a)
    ensures a.side == side && Mark(env, job, w'.fs) == w.Of(side).pc.r.pos <= |job.archive|
  {
    assert a.side == side;
    RenameIs(env, job, w.Of(side), w.fs, a.choice);
  }

  lemma RisingCons(o: nat, s: seq<nat>, low: nat, next: nat, total: nat)
    requires Rising(s, next, total) && low <= o < next && o <= total
    ensures Rising([o] + s, low, total)
  {
  }

  lemma MarkStep(env: Env, job: Job, side: Side, w: World, a: Action, w': World)
    requires job.Valid(env) && Receives(job, side) && Inv(env, job, w) && Do(env, job, w, a) == Some(w')
    ensures Inv(env, job, w')
    ensures var n := |job.archive|;
            && Floor(w.Of(side).pc, n) <= Floor(w'.Of(side).pc, n)
            && (Installs(w, a) ==>
                  var m := Mark(env, job, w'.fs); Floor(w.Of(side).pc, n) <= m < Floor(w'.Of(side).pc, n) && m <= n)
  {
    DoKeeps(env, job, w, a);
    FloorStep(env, job, side, w, a, w');
    if Installs(w, a) {
      InstalledIs(env, job, side, w, a, w');
    }
  }

  lemma {:induction false} MarksRise(env: Env, job: Job, side: Side, w: World, actions: seq<Action>)
    requires job.Valid(env) && Receives(job, side) && Inv(env, job, w)
    ensures Rising(Marks(env, job, w, actions), Floor(w.Of(side).pc, |job.archive|), |job.archive|)
    decreases |actions|
  {
    if actions != [] && Do(env, job, w, actions[0]).Some? {
      var w1 := Do(env, job, w, actions[0]).value;
      MarkStep(env, job, side, w, actions[0], w1);
      MarksRise(env, job, side, w1, actions[1..]);
      var rest, n := Marks(env, job, w1, actions[1..]), |job.archive|;
      if Installs(w, actions[0]) {
        RisingCons(Mark(env, job, w1.fs), rest, Floor(w.Of(side).pc, n), Floor(w1.Of(side).pc, n), n);
      } else {
        assert Marks(env, job, w, actions) == rest;
      }
    }
  }

  // ---------------------------------------------------------------- the first record of a session

  /** The receiver has not yet put a record in place, or never will again. */
  predicate Unrecorded(a: Bytes, pc: Pc) {
    match pc
    case R(RecvLoop(st, pos, _)) => pos == st
    case R(WriteData(st, pos, _, _)) => pos == st
    case R(WriteTmp(st, pos, _)) => st < |a| && pos == Min(|a|, st + BUFFER_SIZE)
    case R(RenameTmp(st, pos, _)) => st < |a| && pos == Min(|a|, st + BUFFER_SIZE)
    case _ => true
  }

  /** From here on no step can fail to be accepting. */
  predicate Underway(pc: Pc) {
    pc.R? && !pc.r.AwaitHash? && !pc.r.Lookup? && !pc.r.AskResume? && !pc.r.AwaitChoice?
  }

  lemma UnderwayAct(env: Env, job: Job, l: Local, ch: Choice)
    requires env.Valid() && Underway(l.proc.pc) && Next(env, job, l, ch).Some?
    ensures Underway(Next(env, job, l, ch).value.proc.pc)
  {
    if Waits(l.proc.pc) {
      if l.inq != [] {
        UnderwayHearing(env, l.proc, l.inq[0]);
      }
    } else {
      HearsOnlyWaiting(env, job, l.proc, l.fs, ch);
      UnderwayTurn(env, l.proc, l.fs, ch);
    }
  }

  lemma UnderwayHearing(env: Env, p: Proc, m: Msg)
    requires env.Valid() && Underway(p.pc) && Waits(p.pc)
    ensures OnMsg(env, p, m).Hears? ==> Underway(OnMsg(env, p, m).proc.pc)
  {
  }

  lemma UnderwayTurn(env: Env, p: Proc, fs: Fs, ch: Choice)
    requires Underway(p.pc)
    ensures var e := ReceiverActs(env, p, p.pc.r, fs, ch); e.Says? || e.Works? ==> Underway(e.pc)
  {
  }

  lemma {:induction false} UnderwayAccepts(env: Env, job: Job, side: Side, w: World, actions: seq<Action>)
    requires job.Valid(env) && Receives(job, side) && Inv(env, job, w) && Underway(w.Of(side).pc)
    ensures AllAccepting(env, job, w, actions)
    decreases |actions|
  {
    if actions != [] && Do(env, job, w, actions[0]).Some? {
      var a, w1 := actions[0], Do(env, job, w, actions[0]).value;
      if a.side != side {
        OtherFrame(env, job, w, a, w1);
      } else if a.Act? {
        UnderwayAct(env, job, w.View(side), a.choice);
      }
      DoKeeps(env, job, w, a);
      UnderwayAccepts(env, job, side, w1, actions[1..]);
    }
  }

  lemma UnrecordedHearing(env: Env, job: Job, p: Proc, m: Msg)
    requires env.Valid() && Waits(p.pc) && OnMsg(env, p, m).Hears? && Unrecorded(job.archive, p.pc)
    ensures Unrecorded(job.archive, OnMsg(env, p, m).proc.pc)
  {
  }

  lemma UnrecordedTurn(env: Env, job: Job, p: Proc, fs: Fs, ch: Choice)
    requires env.Valid() && p.pc.R? && Numbers(job.archive, p.pc) && Unrecorded(job.archive, p.pc) && !p.pc.r.RenameTmp?
    ensures var e := ReceiverActs(env, p, p.pc.r, fs, ch); e.Says? || e.Works? ==> Unrecorded(job.archive, e.pc)
  {
    if p.pc.r.WriteData? {
      UnrecordedWrite(env, job, p, fs, ch);
    }
  }

  lemma UnrecordedWrite(env: Env, job: Job, p: Proc, fs: Fs, ch: Choice)
    requires p.pc.R? && p.pc.r.WriteData? && Numbers(job.archive, p.pc) && Unrecorded(job.archive, p.pc)
    ensures var e := ReceiverActs(env, p, p.pc.r, fs, ch); e.Works? ==> Unrecorded(job.archive, e.pc)
  {
    NextAligned(job.archive, p.pc.r.pos, p.pc.r.left);
  }

  lemma UnrecordedStep(env: Env, job: Job, side: Side, w: World, a: Action, w': World)
    requires job.Valid(env) && Receives(job, side) && Inv(env, job, w) && Do(env, job, w, a) == Some(w')
    requires Unrecorded(job.archive, w.Of(side).pc) && !Installs(w, a)
    ensures Unrecorded(job.archive, w'.Of(side).pc)
  {
    if a.side != side {
      OtherFrame(env, job, w, a, w');
    } else if a.Act? {
      UnrecordedAct(env, job, side, w.View(side), a.choice);
    }
  }

  lemma UnrecordedAct(env: Env, job: Job, side: Side, l: Local, ch: Choice)
    requires job.Valid(env) && Receives(job, side) && PcGood(env, job, side, l.proc) && Next(env, job, l, ch).Some?
    requires Unrecorded(job.archive, l.proc.pc) && !(l.proc.pc.R? && l.proc.pc.r.RenameTmp?)
    ensures Unrecorded(job.archive, Next(env, job, l, ch).value.proc.pc)
  {
    if Waits(l.proc.pc) {
      UnrecordedHearing(env, job, l.proc, l.inq[0]);
    } else {
      HearsOnlyWaiting(env, job, l.proc, l.fs, ch);
      if l.proc.pc.R? {
        UnrecordedTurn(env, job, l.proc, l.fs, ch);
      } else {
        StillEarly(env, job, side, l.proc, l.fs, ch);
      }
    }
  }

  /** The first record of a session is one packet past where its transfer began. */
  lemma {:induction false} FirstMark(env: Env, job: Job, side: Side, base: Fs, ok: bool, w: World, actions: seq<Action>)
    requires job.Valid(env) && Receives(job, side) && Inv(env, job, w)
    requires Course(env, job, w.Of(side).pc, base, w.fs, ok) && Unrecorded(job.archive, w.Of(side).pc)
    ensures FirstIs(Marks(env, job, w, actions), |job.archive|,
                    Chosen(env, job, base, ok && AllAccepting(env, job, w, actions)))
    decreases |actions|
  {
    if actions != [] && Do(env, job, w, actions[0]).Some? {
      var a, w1 := actions[0], Do(env, job, w, actions[0]).value;
      FirstStep(env, job, side, base, ok, w, a, w1);
      RunCons(env, job, w, actions, w1);
      if Installs(w, a) {
        UnderwayAccepts(env, job, side, w, actions);
      } else {
        FirstMark(env, job, side, base, ok && Accepting(w, a), w1, actions[1..]);
      }
    }
  }

  predicate FirstIs(marks: seq<nat>, total: nat, start: nat) {
    marks != [] ==> start < total && marks[0] == Min(total, start + BUFFER_SIZE)
  }

  lemma RunCons(env: Env, job: Job, w: World, actions: seq<Action>, w1: World)
    requires env.Valid() && actions != [] && Do(env, job, w, actions[0]) == Some(w1)
    ensures AllAccepting(env, job, w, actions) == (Accepting(w, actions[0]) && AllAccepting(env, job, w1, actions[1..]))
    ensures Marks(env, job, w, actions)
            == (if Installs(w, actions[0]) then [Mark(env, job, w1.fs)] else []) + Marks(env, job, w1, actions[1..])
    ensures !Installs(w, actions[0]) ==> Marks(env, job, w, actions) == Marks(env, job, w1, actions[1..])
  {
  }

  lemma FirstStep(env: Env, job: Job, side: Side, base: Fs, ok: bool, w: World, a: Action, w': World)
    requires job.Valid(env) && Receives(job, side) && Inv(env, job, w) && Do(env, job, w, a) == Some(w')
    requires Course(env, job, w.Of(side).pc, base, w.fs, ok) && Unrecorded(job.archive, w.Of(side).pc)
    ensures Inv(env, job, w') && Course(env, job, w'.Of(side).pc, base, w'.fs, ok && Accepting(w, a))
    ensures if Installs(w, a) then
              var start := Chosen(env, job, base, ok);
              && Underway(w.Of(side).pc) && start < |job.archive|
              && Mark(env, job, w'.fs) == Min(|job.archive|, start + BUFFER_SIZE)
            else Unrecorded(job.archive, w'.Of(side).pc)
  {
    DoKeeps(env, job, w, a);
    CourseKept(env, job, side, base, ok, w, a, w');
    if Installs(w, a) {
      InstalledIs(env, job, side, w, a, w');
    } else {
      UnrecordedStep(env, job, side, w, a, w');
    }
  }

  // ---------------------------------------------------------------- main results

  /** The session resumes: the disk offers an offset and nothing speaks against it. */
  ghost predicate Resumed(env: Env, job: Job, fs: Fs, actions: seq<Action>)
    requires env.Valid()
  {
    Offered(env, job, fs).Some? && AllAccepting(env, job, Start(job, fs), actions)
  }

  /** An offered offset is the recorded one. */
  lemma OfferIsMark(env: Env, job: Job, fs: Fs)
    requires CkptOk(env, fs, job.archive)
    ensures Offered(env, job, fs).Some? ==> Offered(env, job, fs).value == Mark(env, job, fs)
    ensures Mark(env, job, fs) == 0 || Least(job.archive) <= Mark(env, job, fs) <= |job.archive|
  {
    var name := CkptName(env.dir, env.md5(job.archive));
    if name in fs {
      assert fs[name][..RECORD_SIZE] == fs[name];
    }
  }

  /**
   Recorded offsets. Of the records a session puts in place each later one holds the larger offset, and the first is
   one packet past the offset the session began at. Against the offset m recorded before the session: the first record
   lies below m exactly when the session did not resume (its offer was declined, or the checkpoint could not be read
   or failed a test) and m was past the first block; all of them lie above m exactly when it resumed or m was not
   yet the first block.
   */
  lemma RecordedOffsets(env: Env, past: seq<Session>, job: Job, actions: seq<Action>, fs: Fs, w: World)
    requires Legal(env, AllJobs(past, job)) && job.mode != Ping && RunAll(env, map[], past) == Some(fs)
    requires Reach(env, past, job, actions) == Some(w)
    ensures var marks, m, least := Marks(env, job, Start(job, fs), actions), Mark(env, job, fs), Least(job.archive);
            var resumed := Resumed(env, job, fs, actions);
            && (forall i, j | 0 <= i < j < |marks| :: marks[i] < marks[j])
            && (marks != [] ==>
                  && marks[0] == Min(|job.archive|, (if resumed then m else 0) + BUFFER_SIZE)
                  && (marks[0] < m <==> !resumed && least < m)
                  && ((forall i | 0 <= i < |marks| :: m < marks[i]) <==> resumed || m < least))
  {
    PastSound(env, past, job, fs);
    SessionMarks(env, job, fs, actions);
    OfferIsMark(env, job, fs);
    var marks := Marks(env, job, Start(job, fs), actions);
    if marks != [] {
      AgainstMark(marks, |job.archive|, Mark(env, job, fs), Resumed(env, job, fs, actions));
    }
  }

  lemma PastSound(env: Env, past: seq<Session>, job: Job, fs: Fs)
    requires Legal(env, AllJobs(past, job)) && RunAll(env, map[], past) == Some(fs)
    ensures job.Valid(env) && CkptOk(env, fs, job.archive)
  {
    ReachedGood(env, past, job, [], Start(job, fs));
  }

  lemma SessionMarks(env: Env, job: Job, fs: Fs, actions: seq<Action>)
    requires job.Valid(env) && job.mode != Ping && CkptOk(env, fs, job.archive)
    ensures var marks := Marks(env, job, Start(job, fs), actions);
            && (forall i, j | 0 <= i < j < |marks| :: marks[i] < marks[j])
            && FirstIs(marks, |job.archive|, StartsAt(env, job, fs, actions))
  {
    StartGood(env, job, fs);
    MarksRise(env, job, Receiver(job), Start(job, fs), actions);
    FirstMark(env, job, Receiver(job), fs, true, Start(job, fs), actions);
  }

  lemma AgainstMark(marks: seq<nat>, total: nat, m: nat, resumed: bool)
    requires marks != [] && forall i, j | 0 <= i < j < |marks| :: marks[i] < marks[j]
    requires FirstIs(marks, total, if resumed then m else 0)
    ensures marks[0] < m <==> !resumed && Min(BUFFER_SIZE, total) < m
    ensures (forall i | 0 <= i < |marks| :: m < marks[i]) <==> resumed || m < Min(BUFFER_SIZE, total)
  {
    assert forall i | 0 <= i < |marks| :: marks[0] <= marks[i];
  }

  /**
   And they do fall: an upload longer than one block that was interrupted at its second checkpoint, whose resumption is
   then declined, and which is interrupted again at its first checkpoint.
   */
  lemma OffsetsFall(env: Env, job: Job) returns (past: seq<Session>, fs1: Fs, fs2: Fs)
    requires job.Valid(env) && job.mode == Put && BUFFER_SIZE < |job.archive|
    ensures |past| == 2 && past[0].Session? && past[1].Session? && past[0].job == past[1].job == job
    ensures RunAll(env, map[], past[..1]) == Some(fs1) && RunAll(env, map[], past) == Some(fs2)
    ensures Offered(env, job, fs1) == Some(Mark(env, job, fs1))
    ensures Mark(env, job, fs2) == BUFFER_SIZE < Mark(env, job, fs1) == Min(|job.archive|, 2 * BUFFER_SIZE)
  {
    var far := NextPos(job, BUFFER_SIZE);
    Restarts(env, job, map[]);
    var first, w1 := FromStart(env, job, far, map[]);
    fs1 := w1.fs;
    var ckpt := CkptName(env.dir, env.md5(job.archive));
    assert fs1[ckpt][..RECORD_SIZE] == fs1[ckpt];
    Declines(env, job, fs1, far);
    var second, w2 := FromStart(env, job, BUFFER_SIZE, fs1);
    fs2 := w2.fs;
    past := [Session(job, first), Session(job, second)];
    TwoSessions(env, job, first, w1, second, w2);
  }

  lemma TwoSessions(env: Env, job: Job, first: seq<Action>, w1: World, second: seq<Action>, w2: World)
    requires env.Valid() && Run(env, job, Start(job, map[]), first) == Some(w1)
    requires Run(env, job, Start(job, w1.fs), second) == Some(w2)
    ensures var past := [Session(job, first), Session(job, second)];
            RunAll(env, map[], past[..1]) == Some(w1.fs) && RunAll(env, map[], past) == Some(w2.fs)
  {
    var a, b := Session(job, first), Session(job, second);
    RunAllSnoc(env, map[], [], a);
    RunAllSnoc(env, map[], [a], b);
    assert [] + [a] == [a] == [a, b][..1] && [a] + [b] == [a, b];
  }
}
