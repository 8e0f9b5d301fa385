/**
 Runs from the start that end in a state the code's comments do not promise: two
 in which a notify preempts although no slice runs, one for each way a slice can
 stay on record, and one in which a cursor is carried to another parent.
 */
module SessionRuns {
  import opened Prelude
  import opened Client
  import opened Session
  import opened Preemption

  const JOB_A := Job("1", "a", None, true, None, None, None, None)
  const JOB_B := Job("2", "b", None, true, None, None, None, None)
  const YES := Some(Reply(true, true))

  /** From the start to a slice on parent a. */
  const MINING: seq<Event> := [
    Connect(true),
    Calls(0, Drained), Line(0, Msg(Response(1, YES))), Calls(0, CallMove.Returns),
    Calls(1, Drained), Line(0, Msg(Response(2, YES))), Calls(1, CallMove.Returns),
    Line(0, Msg(Notify(JOB_A, true))), Solves(1, Continues)]

  /** The slice raises, and the tip moves before the next one begins. */
  const FAILED_RUN: seq<Event> := MINING + [Solves(1, Fails(0)), Line(0, Msg(Notify(JOB_B, true)))]

  /** The pool closes the connection during the slice, and the next session
      learns of another tip. */
  const CANCELLED_RUN: seq<Event> := MINING + [
    Line(0, Empty), SessionNotices, CloseStep, CloseStep, CloseStep, CloseStep, CloseStep,
    SleepOver, Connect(true), Line(4, Msg(Notify(JOB_B, true)))]

  predicate Subscribing1(w: World) {
    && w.phase == Subscribing(0) && w.calls == [Call(1, ForSubscribe, Unset, Sending, 0)] && w.handled == []
    && w.f.pending == map[1 := 0] && w.f.msgIdSeq == 2 && w.writer
    && w.tasks == map[0 := Reader] && w.nextTask == 1 && w.reader == Some(0)
  }

  lemma Connects(cfg: Config, t0: real)
    ensures Subscribing1(Step(cfg, Start(cfg, t0), Connect(true)))
  {
  }

  predicate Authorizing1(w: World) {
    && w.phase == Authorizing(1) && |w.calls| == 2 && w.calls[1] == Call(2, ForAuthorize, Unset, Sending, 1)
    && |w.handled| == 1 && 2 in w.f.pending && w.f.pending[2] == 1
    && w.tasks == map[0 := Reader] && w.nextTask == 1 && w.reader == Some(0)
  }

  lemma Subscribes(cfg: Config, w: World)
    requires Subscribing1(w)
    ensures Authorizing1(Step(cfg, Step(cfg, Step(cfg, w, Calls(0, Drained)), Line(0, Msg(Response(1, YES)))),
                              Calls(0, CallMove.Returns)))
  {
    var w1 := Step(cfg, w, Calls(0, Drained));
    assert w1 == w.(calls := [Call(1, ForSubscribe, Unset, Waiting, 0)]);
    var w2 := Step(cfg, w1, Line(0, Msg(Response(1, YES))));
    assert w2 == w1.(f := Forget(w1.f, 1), handled := [Handled(1, YES, Some(0))],
                     calls := [Call(1, ForSubscribe, Value(YES.value, 0), Waiting, 0)]);
  }

  predicate Fresh1(w: World) {
    && w.phase == Serving && w.nextTask == 4 && w.reader == Some(0) && w.solver == Some(1)
    && 0 in w.tasks && w.tasks[0] == Reader && 1 in w.tasks && w.tasks[1] == Solver(Fresh)
  }

  lemma Authorizes(cfg: Config, w: World)
    requires Authorizing1(w)
    ensures Fresh1(Step(cfg, Step(cfg, Step(cfg, w, Calls(1, Drained)), Line(0, Msg(Response(2, YES)))),
                        Calls(1, CallMove.Returns)))
  {
    var w1 := Step(cfg, w, Calls(1, Drained));
    assert w1 == w.(calls := w.calls[1 := Call(2, ForAuthorize, Unset, Waiting, 1)]);
    var w2 := Step(cfg, w1, Line(0, Msg(Response(2, YES))));
    assert w2 == w1.(f := Forget(w1.f, 2), handled := w.handled + [Handled(2, YES, Some(1))],
                     calls := w1.calls[1 := Call(2, ForAuthorize, Value(YES.value, 1), Waiting, 1)]);
  }

  predicate Mining1(w: World) {
    && w.phase == Serving && w.nextTask == 4 && w.reader == Some(0) && w.solver == Some(1)
    && 0 in w.tasks && w.tasks[0] == Reader && 1 in w.tasks && w.tasks[1] == Solver(Solving(JOB_A, 0))
    && Record(w.f.history) == Flying("a") && w.f.currentJob == Some(JOB_A)
  }

  lemma Begins(cfg: Config, w: World)
    requires Fresh1(w)
    ensures Mining1(Step(cfg, Step(cfg, w, Line(0, Msg(Notify(JOB_A, true)))), Solves(1, Continues)))
  {
    var w1 := Step(cfg, w, Line(0, Msg(Notify(JOB_A, true))));
    assert w1 == w.(f := w1.f) && w1.f.currentJob == Some(JOB_A);
  }

  lemma MiningStarts(cfg: Config, t0: real, ws: seq<World>, es: seq<Event>)
    requires Trace(cfg, t0, ws, es) && MINING <= es
    ensures Mining1(ws[9])
  {
    hide Step, Subscribing1, Authorizing1, Fresh1, Mining1;
    assert es[0] == MINING[0] && es[1] == MINING[1] && es[2] == MINING[2] && es[3] == MINING[3];
    assert es[4] == MINING[4] && es[5] == MINING[5] && es[6] == MINING[6];
    assert es[7] == MINING[7] && es[8] == MINING[8];
    Connects(cfg, t0);
    Subscribes(cfg, ws[1]);
    Authorizes(cfg, ws[4]);
    Begins(cfg, ws[7]);
  }

  lemma SliceFails(cfg: Config, w: World)
    requires Mining1(w)
    ensures var r := Step(cfg, w, Solves(1, Fails(0)));
            Record(r.f.history) == Failed("a") && 0 in r.tasks && r.tasks[0] == Reader
  {
  }

  lemma LearnsOf(cfg: Config, w: World, t: nat)
    requires t in w.tasks && w.tasks[t] == Reader
    ensures Step(cfg, w, Line(t, Msg(Notify(JOB_B, true)))).f == OnNotify(w.f, JOB_B, true)
  {
  }

  /** The run that ends with a notify after a failed slice: no slice runs, and
      the notify preempts. */
  lemma FailedSliceIsPreempted(cfg: Config, t0: real, ws: seq<World>)
    requires Trace(cfg, t0, ws, FAILED_RUN)
    ensures !SliceRuns(ws[10]) && ws[11].f.history.Then? && ws[11].f.history.last == Preempted("a", "b")
  {
    hide Step, Mining1, Reached;
    var es := FAILED_RUN;
    assert es[9] == Solves(1, Fails(0)) && es[10] == Line(0, Msg(Notify(JOB_B, true)));
    MiningStarts(cfg, t0, ws, es);
    SliceFails(cfg, ws[9]);
    LearnsOf(cfg, ws[10], 0);
    InTrace(cfg, t0, ws, es, 10);
    MissesExactly(cfg, t0, ws[10], JOB_B, true);
    PreemptsExactly(cfg, t0, ws[10], JOB_B, true);
  }

  lemma InTrace(cfg: Config, t0: real, ws: seq<World>, es: seq<Event>, i: nat)
    requires Trace(cfg, t0, ws, es) && i < |ws|
    ensures Reached(cfg, t0, ws[i])
  {
    hide Trace;
  }

  /** What is left of the slice while its session is taken down. */
  predicate Leaving(w: World, stage: nat) {
    && w.phase == Closing(stage) && w.exit.ByException? && w.nextTask == 4
    && Record(w.f.history) == (if stage >= 2 then Cancelled("a") else Flying("a"))
    && (stage < 2 ==> w.solver == Some(1) && w.tasks.Keys >= {1} && w.tasks[1] == Solver(Solving(JOB_A, 0)))
    && (stage == 0 ==> w.reader == Some(0))
  }

  lemma Leaves(cfg: Config, w: World)
    requires Mining1(w)
    ensures Leaving(Step(cfg, Step(cfg, w, Line(0, Empty)), SessionNotices), 0)
  {
    assert ReaderRound(Empty) == Round.Raises;
    var w1 := Step(cfg, w, Line(0, Empty));
    assert w1 == w.(tasks := w.tasks - {0}, ended := Some(ByException));
  }

  lemma Closes(cfg: Config, w: World, stage: nat)
    requires Leaving(w, stage) && stage < 4
    ensures Leaving(Step(cfg, w, CloseStep), stage + 1)
  {
  }

  lemma Reconnects(cfg: Config, w: World)
    requires Leaving(w, 4)
    ensures var r := Step(cfg, Step(cfg, Step(cfg, w, CloseStep), SleepOver), Connect(true));
            Record(r.f.history) == Cancelled("a") && 4 in r.tasks && r.tasks[4] == Reader
  {
    var w1 := Step(cfg, w, CloseStep);
    assert w1.phase == Sleeping && w1.nextTask == 4 && Record(w1.f.history) == Cancelled("a");
    var w2 := Step(cfg, w1, SleepOver);
    assert w2.phase == Connecting && w2.nextTask == 4 && w2.f == w1.f;
  }

  lemma CancelledEvents()
    ensures var es := CANCELLED_RUN;
            && |es| == 19 && MINING <= es && es[9] == Line(0, Empty) && es[10] == SessionNotices
            && es[11] == CloseStep && es[12] == CloseStep && es[13] == CloseStep && es[14] == CloseStep
            && es[15] == CloseStep && es[16] == SleepOver && es[17] == Connect(true)
            && es[18] == Line(4, Msg(Notify(JOB_B, true)))
  {
  }

  lemma TakenDown(cfg: Config, t0: real, ws: seq<World>, es: seq<Event>)
    requires Trace(cfg, t0, ws, es) && |es| == 19 && Leaving(ws[11], 0)
    requires es[11] == CloseStep && es[12] == CloseStep && es[13] == CloseStep && es[14] == CloseStep
    ensures Leaving(ws[15], 4)
  {
    hide Step, Leaving;
    Closes(cfg, ws[11], 0);
    Closes(cfg, ws[12], 1);
    Closes(cfg, ws[13], 2);
    Closes(cfg, ws[14], 3);
  }

  /** The run that ends with a notify after a cancelled slice. */
  lemma CancelledSliceIsPreempted(cfg: Config, t0: real, ws: seq<World>)
    requires Trace(cfg, t0, ws, CANCELLED_RUN)
    ensures !SliceRuns(ws[18]) && ws[19].f.history.Then? && ws[19].f.history.last == Preempted("a", "b")
  {
    hide Step, Mining1, Leaving, Reached, MINING, CANCELLED_RUN;
    var es := CANCELLED_RUN;
    CancelledEvents();
    MiningStarts(cfg, t0, ws, es);
    Leaves(cfg, ws[9]);
    TakenDown(cfg, t0, ws, es);
    Reconnects(cfg, ws[15]);
    LearnsOf(cfg, ws[18], 4);
    InTrace(cfg, t0, ws, es, 18);
    MissesExactly(cfg, t0, ws[18], JOB_B, true);
    PreemptsExactly(cfg, t0, ws[18], JOB_B, true);
  }

  // ---- A cursor on another parent ----

  /** The pool sends where to start on parent b. */
  const JOB_B_AT_9 := Job("2", "b", Some(9), true, None, None, None, None)

  /** The slice on parent a ends at 50, and the tip moves by a notify that is not clean. */
  const CARRIED_RUN: seq<Event> := MINING + [
    Solves(1, Answers(SliceResult(false, [], None, false, Some(50)), 50)),
    Line(0, Msg(Notify(JOB_B_AT_9, false)))]

  lemma SliceMisses(cfg: Config, w: World)
    requires Mining1(w)
    ensures var r := Step(cfg, w, Solves(1, Answers(SliceResult(false, [], None, false, Some(50)), 50)));
            0 in r.tasks && r.tasks[0] == Reader && r.f.currentJob == Some(JOB_A.(start := Some(51)))
  {
  }

  /** The run that carries the place reached on parent a over to parent b, against
      the start the pool sent for b. */
  lemma CursorIsCarriedToAnotherParent(cfg: Config, t0: real, ws: seq<World>)
    requires Trace(cfg, t0, ws, CARRIED_RUN)
    ensures ws[10].f.currentJob == Some(JOB_A.(start := Some(51)))
    ensures ws[11].f.currentJob == Some(JOB_B_AT_9.(start := Some(51)))
  {
    hide Step, Mining1;
    var es := CARRIED_RUN;
    assert es[9] == Solves(1, Answers(SliceResult(false, [], None, false, Some(50)), 50));
    assert es[10] == Line(0, Msg(Notify(JOB_B_AT_9, false)));
    MiningStarts(cfg, t0, ws, es);
    SliceMisses(cfg, ws[9]);
    HearsOf(cfg, ws[10], JOB_B_AT_9, false);
  }

  lemma HearsOf(cfg: Config, w: World, job: Job, clean: bool)
    requires 0 in w.tasks && w.tasks[0] == Reader
    ensures Step(cfg, w, Line(0, Msg(Notify(job, clean)))).f == OnNotify(w.f, job, clean)
  {
  }
}
