/**
 Single runs and stretches of runs that show how answers get mixed up, and how a
 shutdown puts an end to it.
 */
module AnswerRuns {
  import opened Prelude
  import opened Daemon
  import opened AnswerPairing
  import opened ShapeSafety

  // ---- After a shutdown ----

  /** No process from number n on has been sent a job, and the daemon, if there is
      one, is among them. */
  ghost predicate Untouched(s: State, n: nat) {
    && Wf(s) && n <= |s.procs|
    && (forall p :: n <= p < |s.procs| ==> s.procs[p].inbox == [])
    && (s.daemon.Some? ==> s.daemon.value >= n)
  }

  lemma LeavingTouchesNothing(s: State, n: nat)
    requires Untouched(s, n)
    ensures Untouched(EndSlice(s), n) && Untouched(Fail(s), n) && Untouched(AbortHandshake(s), n)
    ensures Untouched(CancelSlice(s), n) && Untouched(Spawn(s), n)
  {
  }

  lemma EndingTouchesNothing(s: State, n: nat)
    requires Untouched(s, n)
    ensures Untouched(FinishShutdown(s), n) && Untouched(EscalateShutdown(s).s, n)
  {
  }

  lemma ResumingTouchesNothing(pc: Pc, r: Shutdown, n: nat)
    requires ShutdownOk(r) && Untouched(r.s, n)
    ensures Untouched(ResumeSlice(pc, r), n)
  {
  }

  lemma WaitingTouchesNothing(s: State, n: nat)
    requires Untouched(s, n) && SliceWaits(s)
    ensures Untouched(OnWake(s), n) && Untouched(OnWaitTimeout(s), n)
  {
    EndingTouchesNothing(s, n);
    hide FinishShutdown, EscalateShutdown, ResumeSlice;
    ResumingTouchesNothing(s.slice.pc, Done(FinishShutdown(s)), n);
    ResumingTouchesNothing(s.slice.pc, EscalateShutdown(s), n);
  }

  lemma ReadingTouchesNothing(s: State, p: nat, n: nat)
    requires Untouched(s, n) && p < |s.procs|
    ensures Untouched(OnReadLine(s, p), n)
  {
    if s.procs[p].read < |s.procs[p].lines| {
      assert Untouched(Consume(s, p), n);
      hide Consume, Untouched, Fail, EndSlice;
      LeavingTouchesNothing(Consume(s, p), n);
    }
  }

  lemma EnsuringTouchesNothing(s: State, n: nat)
    requires Untouched(s, n) && !Usable(s, s.slice.shape)
    ensures Untouched(EnsureDaemon(s), n)
  {
  }

  lemma HealTouchesNothing(s: State, e: Event, n: nat)
    requires Untouched(s, n)
    ensures Untouched(HealStep(s, e), n)
  {
  }

  lemma ProcTouchesNothing(s: State, e: Event, n: nat)
    requires Untouched(s, n) && (e.Emit? || e.Die? || e.Reap?)
    ensures Untouched(Step(s, e), n)
  {
  }

  lemma StepTouchesNothing(s: State, e: Event, n: nat)
    requires Untouched(s, n) && Written(s, e).None?
    ensures Untouched(Step(s, e), n)
  {
    hide EndSlice, Fail, AbortHandshake, CancelSlice, Spawn, OnReadLine, OnWake, OnWaitTimeout, EnsureDaemon, HealStep;
    var pc := s.slice.pc;
    LeavingTouchesNothing(s, n);
    if e.HealStart? || e.HealWake? || e.HealWaitTimeout? || e.HealCancel? {
      HealTouchesNothing(s, e, n);
    } else if e.Emit? || e.Die? || e.Reap? {
      ProcTouchesNothing(s, e, n);
    } else {
      match e
      case Start(shape) =>
        if pc.Idle? {
          EnsuringTouchesNothing(s.(slice := Slice(pc, s.nextJob, shape, 1, None, false), nextJob := s.nextJob + 1), n);
        }
      case BackoffOver => if pc.Backoff? { EnsuringTouchesNothing(s.(slice := s.slice.(attempt := 2)), n); }
      case Ready => LeavingTouchesNothing(s.(params := Some(s.slice.shape)), n);
      case ReadLine => if pc.Reading? { ReadingTouchesNothing(s, pc.pid, n); }
      case SliceWake => if SliceWaits(s) { WaitingTouchesNothing(s, n); }
      case SliceWaitTimeout => if SliceWaits(s) { WaitingTouchesNothing(s, n); }
      case _ =>
    }
  }

  /** No job is handed over between two points of a run. */
  ghost predicate NothingHanded(ss: seq<State>, i: nat, j: nat)
    requires i <= j < |ss|
  {
    forall k :: i <= k <= j ==> ss[k].handed == ss[i].handed
  }

  lemma {:induction false} UntouchedUntilHandOver(ss: seq<State>, es: seq<Event>, k: nat, m: nat)
    requires Trace(ss, es) && k < m < |ss| && ss[k + 1].daemon.None? && NothingHanded(ss, k + 1, m)
    requires |ss[k].procs| == |ss[k + 1].procs|
    ensures Untouched(ss[m], |ss[k].procs|)
    decreases m
  {
    if m > k + 1 {
      hide Step, Untouched;
      UntouchedUntilHandOver(ss, es, k, m - 1);
      assert ss[m - 1].handed == ss[k + 1].handed == ss[m].handed;
      WritesExactly(ss[m - 1], es[m - 1]);
      StepTouchesNothing(ss[m - 1], es[m - 1], |ss[k].procs|) by { UntouchedIsWf(ss[m - 1], |ss[k].procs|); }
    }
  }

  lemma UntouchedIsWf(s: State, n: nat)
    requires Untouched(s, n)
    ensures Wf(s)
  {
  }

  lemma LeavingSpawnsNothing(s: State)
    requires Wf(s)
    ensures |EndSlice(s).procs| == |s.procs| && |Fail(s).procs| == |s.procs| && |AbortHandshake(s).procs| == |s.procs|
    ensures |CancelSlice(s).procs| == |s.procs| && |BecomeReady(s).procs| == |s.procs|
    ensures |EnsureDaemon(s).procs| == |s.procs|
  {
  }

  lemma ReadingSpawnsNothing(s: State, p: nat)
    requires Wf(s) && p < |s.procs|
    ensures |OnReadLine(s, p).procs| == |s.procs|
  {
    if s.procs[p].read < |s.procs[p].lines| {
      assert |Consume(s, p).procs| == |s.procs|;
      hide Consume, Fail, EndSlice;
      LeavingSpawnsNothing(Consume(s, p));
    }
  }

  lemma WaitingSpawnsNothing(s: State)
    requires Wf(s) && SliceWaits(s)
    ensures |OnWake(s).procs| == |s.procs| && |OnWaitTimeout(s).procs| == |s.procs|
  {
    EndingSpawnsNothing(s);
    hide FinishShutdown, EscalateShutdown, ResumeSlice;
    ResumingSpawnsNothing(s.slice.pc, Done(FinishShutdown(s)));
    ResumingSpawnsNothing(s.slice.pc, EscalateShutdown(s));
  }

  lemma EndingSpawnsNothing(s: State)
    requires Wf(s)
    ensures |FinishShutdown(s).procs| == |s.procs| && |EscalateShutdown(s).s.procs| == |s.procs|
  {
  }

  lemma ResumingSpawnsNothing(pc: Pc, r: Shutdown)
    requires ShutdownOk(r)
    ensures |ResumeSlice(pc, r).procs| == |r.s.procs|
  {
  }

  lemma SliceSpawnsNothing(s: State, e: Event)
    requires Wf(s) && !e.Spawned?
    ensures |SliceStep(s, e).procs| == |s.procs|
  {
    hide EndSlice, Fail, AbortHandshake, CancelSlice, BecomeReady, EnsureDaemon, OnReadLine, OnWake, OnWaitTimeout;
    var pc := s.slice.pc;
    LeavingSpawnsNothing(s);
    match e
    case Start(shape) =>
      LeavingSpawnsNothing(s.(slice := Slice(pc, s.nextJob, shape, 1, None, false), nextJob := s.nextJob + 1));
    case BackoffOver => LeavingSpawnsNothing(s.(slice := s.slice.(attempt := 2)));
    case ReadLine => if pc.Reading? { ReadingSpawnsNothing(s, pc.pid); }
    case SliceWake => if SliceWaits(s) { WaitingSpawnsNothing(s); }
    case SliceWaitTimeout => if SliceWaits(s) { WaitingSpawnsNothing(s); }
    case _ =>
  }

  lemma HealSpawnsNothing(s: State, e: Event)
    requires Wf(s)
    ensures |HealStep(s, e).procs| == |s.procs|
  {
  }

  lemma SpawningKeepsADaemon(s: State)
    requires Wf(s) && s.daemon.Some?
    ensures Step(s, Spawned).daemon.Some?
  {
  }

  lemma ForgettingSpawnsNothing(s: State, e: Event)
    requires Wf(s) && s.daemon.Some? && Step(s, e).daemon.None?
    ensures |Step(s, e).procs| == |s.procs|
  {
    SpawningKeepsADaemon(s);
    hide SliceStep, HealStep;
    HealSpawnsNothing(s, e);
    if !e.Spawned? {
      SliceSpawnsNothing(s, e);
    }
  }

  /** Once a shutdown has made the wrapper forget its daemon, the next job goes to
      a process spawned since, which has not been sent a job before and owes no
      line, whatever happens in between. */
  lemma RestartClears(ss: seq<State>, es: seq<Event>, k: nat, m: nat)
    requires Trace(ss, es) && k < m < |es| && ss[k].daemon.Some? && ss[k + 1].daemon.None?
    requires NothingHanded(ss, k + 1, m) && ss[m + 1].handed != ss[m].handed
    ensures ss[m].daemon.Some? && ss[m].daemon.value >= |ss[k].procs|
    ensures var d := ss[m].procs[ss[m].daemon.value];
            d.inbox == [] && Unread(d) == 0 && (ss[m + 1].slice.pristine <==> d.stdinOpen)
  {
    hide Step;
    ForgettingSpawnsNothing(ss[k], es[k]);
    UntouchedUntilHandOver(ss, es, k, m);
    PristineMeansNothingUnread(ss, es, m);
  }

  // ---- Two runs in which a slice reads another job's answer ----

  const SHAPE := Shape(512, 16, 8, 18)

  /** The first slice is cancelled after its job was written. */
  const LEFT_OVER: seq<Event> := [
    Start(SHAPE), Spawned, Ready, Cancel, Start(SHAPE), Drained, Emit(0, Answer), ReadLine]

  /** The same, with a forced restart closing stdin before the second slice. */
  const SWALLOWED: seq<Event> := [
    Start(SHAPE), Spawned, Ready, Cancel, HealStart, Start(SHAPE), Drained, Emit(0, Answer), ReadLine]

  const DRIVER := Proc(SHAPE, [], [], 0, true, false, false, 0, 0, 0)

  /** After the cancellation: job 0 is written, and nobody waits for its answer. */
  const ABANDONED := INIT.(
    procs := [DRIVER.(inbox := [0], cancelled := 1)], daemon := Some(0), params := Some(SHAPE),
    slice := Slice(Idle, 0, SHAPE, 1, None, true), nextJob := 1, handed := [Handed(0, SHAPE)])

  const SHAKING := INIT.(
    procs := [DRIVER], daemon := Some(0), slice := Slice(Handshaking(0), 0, SHAPE, 1, None, false), nextJob := 1)

  lemma Spawns()
    ensures Step(Step(INIT, Start(SHAPE)), Spawned) == SHAKING
  {
    assert INIT.procs + [DRIVER] == SHAKING.procs;
  }

  lemma WritesThenCancels()
    ensures Step(Step(SHAKING, Ready), Cancel) == ABANDONED
  {
    var s3 := SHAKING.(procs := [DRIVER.(inbox := [0])], params := Some(SHAPE), handed := [Handed(0, SHAPE)],
                       slice := Slice(Draining(0), 0, SHAPE, 1, Some(0), true));
    assert DRIVER.inbox + [0] == [0] && SHAKING.procs[0 := s3.procs[0]] == s3.procs;
    assert SHAKING.handed + [Handed(0, SHAPE)] == s3.handed;
    assert Step(SHAKING, Ready) == s3;
    assert s3.procs[0 := ABANDONED.procs[0]] == ABANDONED.procs;
  }

  lemma Abandons()
    ensures Step(Step(Step(Step(INIT, Start(SHAPE)), Spawned), Ready), Cancel) == ABANDONED
  {
    hide Step;
    Spawns();
    WritesThenCancels();
  }

  lemma ReadsTheOther()
    ensures Step(Step(Step(Step(ABANDONED, Start(SHAPE)), Drained), Emit(0, Answer)), ReadLine).got == [Got(0, 1, 0, false)]
  {
    var p := DRIVER.(inbox := [0, 1], cancelled := 1);
    var s5 := ABANDONED.(procs := [p], slice := Slice(Draining(0), 1, SHAPE, 1, Some(0), false), nextJob := 2,
                         handed := [Handed(0, SHAPE), Handed(0, SHAPE)]);
    assert ABANDONED.procs[0].inbox + [1] == p.inbox && ABANDONED.procs[0 := p] == [p];
    assert ABANDONED.handed + [Handed(0, SHAPE)] == s5.handed;
    assert Step(ABANDONED, Start(SHAPE)) == s5;
    ReadsOne(s5, p);
  }

  /** Reading the one line there is. */
  lemma ReadsLine(s: State)
    requires Wf(s) && s.slice.pc == Reading(0) && s.procs[0].read == 0 && s.procs[0].lines == [Answer]
    ensures var r := Step(s, ReadLine);
            && r.got == s.got + [Got(0, s.slice.job, s.procs[0].inbox[0], s.slice.pristine)]
            && r.slice.pc.Idle? && |r.procs| == |s.procs|
            && r.procs[0].cancelled == s.procs[0].cancelled && Unread(r.procs[0]) == |s.procs[0].inbox| - 1
  {
    assert Step(s, ReadLine) == EndSlice(Consume(s, 0));
  }

  lemma ReadsOne(s5: State, p: Proc)
    requires p == DRIVER.(inbox := [0, 1], cancelled := 1)
    requires s5 == ABANDONED.(procs := [p], slice := Slice(Draining(0), 1, SHAPE, 1, Some(0), false), nextJob := 2,
                              handed := [Handed(0, SHAPE), Handed(0, SHAPE)])
    ensures Step(Step(Step(s5, Drained), Emit(0, Answer)), ReadLine).got == [Got(0, 1, 0, false)]
  {
    var s7 := s5.(procs := [p.(lines := [Answer])], slice := s5.slice.(pc := Reading(0)));
    assert p.lines + [Answer] == [Answer] && s5.procs[0 := p.(lines := [Answer])] == s7.procs;
    assert Step(Step(s5, Drained), Emit(0, Answer)) == s7;
    hide Step;
    ReadsLine(s7);
  }

  /** A left-over in a run: the slice with job 1 gets the answer to job 0. */
  lemma LeftOverIsRead(ss: seq<State>)
    requires Trace(ss, LEFT_OVER)
    ensures ss[8].got == [Got(0, 1, 0, false)]
  {
    hide Step;
    var es := LEFT_OVER;
    assert es[0] == Start(SHAPE) && es[1] == Spawned && es[2] == Ready && es[3] == Cancel;
    assert es[4] == Start(SHAPE) && es[5] == Drained && es[6] == Emit(0, Answer) && es[7] == ReadLine;
    Abandons();
    ReadsTheOther();
  }

  lemma ReadsAndSettles()
    ensures var s := Step(Step(Step(Step(Step(ABANDONED, HealStart), Start(SHAPE)), Drained), Emit(0, Answer)), ReadLine);
            && s.got == [Got(0, 1, 0, false)] && s.slice.pc.Idle? && |s.procs| == 1
            && s.procs[0].cancelled == 1 && Unread(s.procs[0]) == 0
  {
    var p := DRIVER.(inbox := [0], cancelled := 1, stdinOpen := false);
    var s5 := ABANDONED.(procs := [p], heal := Some(Graceful(0)));
    assert ABANDONED.procs[0 := p] == [p];
    assert Step(ABANDONED, HealStart) == s5;
    var s6 := s5.(slice := Slice(Draining(0), 1, SHAPE, 1, None, false), nextJob := 2,
                  handed := [Handed(0, SHAPE), Handed(0, SHAPE)]);
    assert s5.procs[0 := p] == [p] && s5.handed + [Handed(0, SHAPE)] == s6.handed;
    assert Step(s5, Start(SHAPE)) == s6;
    ReadsStray(s6, p);
  }

  lemma ReadsStray(s6: State, p: Proc)
    requires p == DRIVER.(inbox := [0], cancelled := 1, stdinOpen := false)
    requires s6 == ABANDONED.(procs := [p], heal := Some(Graceful(0)),
                              slice := Slice(Draining(0), 1, SHAPE, 1, None, false),
                              nextJob := 2, handed := [Handed(0, SHAPE), Handed(0, SHAPE)])
    ensures var s := Step(Step(Step(s6, Drained), Emit(0, Answer)), ReadLine);
            && s.got == [Got(0, 1, 0, false)] && s.slice.pc.Idle? && |s.procs| == 1
            && s.procs[0].cancelled == 1 && Unread(s.procs[0]) == 0
  {
    var s8 := s6.(procs := [p.(lines := [Answer])], slice := s6.slice.(pc := Reading(0)));
    assert p.lines + [Answer] == [Answer] && s6.procs[0 := p.(lines := [Answer])] == s8.procs;
    assert Step(Step(s6, Drained), Emit(0, Answer)) == s8;
    hide Step;
    ReadsLine(s8);
  }

  /** A stray read in a run: the slice whose job a closed stdin swallowed reads the
      left-over, and one slice was cancelled with nothing left unread. */
  lemma SwallowedWriteUsesUpALeftOver(ss: seq<State>)
    requires Trace(ss, SWALLOWED)
    ensures ss[9].got == [Got(0, 1, 0, false)] && ss[9].slice.pc.Idle?
    ensures |ss[9].procs| == 1 && ss[9].procs[0].cancelled == 1 && Unread(ss[9].procs[0]) == 0
  {
    hide Step;
    var es := SWALLOWED;
    assert es[0] == Start(SHAPE) && es[1] == Spawned && es[2] == Ready && es[3] == Cancel;
    assert es[4] == HealStart && es[5] == Start(SHAPE) && es[6] == Drained && es[7] == Emit(0, Answer);
    assert es[8] == ReadLine;
    Abandons();
    ReadsAndSettles();
  }
}
