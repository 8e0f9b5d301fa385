/**
 When a notify preempts: which slice it hits, and when it hits none.
 */
module Preemption {
  import opened Prelude
  import opened Client
  import opened Session
  import opened SessionStructure
  import Tracking

  predicate InSlice(w: World, t: nat) {
    t in w.tasks && w.tasks[t].Solver? && w.tasks[t].pc.Solving?
  }

  /** Some solver task is inside `solve_slice`. */
  predicate SliceRuns(w: World) {
    exists t :: t in w.tasks && InSlice(w, t)
  }

  predicate Past(w: World, handle: Option<nat>) {
    handle.Some? ==> handle.value < w.nextTask
  }

  /** A handle never names a task of another kind, or one that is yet to come. */
  predicate Kinds(w: World) {
    && Past(w, w.reader) && Past(w, w.metrics) && Past(w, w.heal)
    && (w.reader.Some? && w.reader.value in w.tasks ==> w.tasks[w.reader.value].Reader?)
    && (w.metrics.Some? && w.metrics.value in w.tasks ==> w.tasks[w.metrics.value].Metrics?)
    && (w.heal.Some? && w.heal.value in w.tasks ==> w.tasks[w.heal.value].Heal?)
  }

  /** The history knows whether a slice runs, and on which parent. */
  ghost predicate OnBooks(w: World) {
    && Kinds(w)
    && (forall t <- w.tasks :: InSlice(w, t) ==> Record(w.f.history) == Flying(w.tasks[t].pc.job.parent))
    && (Record(w.f.history).Flying? ==> SliceRuns(w))
  }

  // ---- Every piece of a step keeps the books ----

  /** A piece that neither starts nor ends a slice. */
  ghost predicate NoSliceMoves(w: World, r: World) {
    && Record(r.f.history) == Record(w.f.history)
    && (forall u <- r.tasks :: InSlice(r, u) ==> u in w.tasks && r.tasks[u] == w.tasks[u])
    && (forall u <- w.tasks :: InSlice(w, u) ==> u in r.tasks && r.tasks[u] == w.tasks[u])
  }

  lemma FramePiece(w: World, r: World)
    requires OnBooks(w) && NoSliceMoves(w, r) && Kinds(r)
    ensures OnBooks(r)
  {
    if Record(r.f.history).Flying? {
      var u :| u in w.tasks && InSlice(w, u);
      assert InSlice(r, u);
    }
  }

  /** What the one solver, t, leaves behind. */
  predicate SolverBooked(r: World, t: nat) {
    if InSlice(r, t) then Record(r.f.history) == Flying(r.tasks[t].pc.job.parent) else !Record(r.f.history).Flying?
  }

  lemma MovePiece(w: World, r: World, t: nat)
    requires Structured(w) && t in w.tasks && w.tasks[t].Solver? && OnlySolver(w, r, t)
    requires SolverBooked(r, t) && Kinds(w)
    ensures OnBooks(r)
  {
    forall u <- r.tasks | InSlice(r, u) ensures u == t {
      assert TaskOk(w, u) && TaskOk(w, t);
    }
  }

  lemma NotFlying(w: World, t: nat)
    requires Structured(w) && OnBooks(w) && t in w.tasks && w.tasks[t].Solver? && !InSlice(w, t)
    ensures !Record(w.f.history).Flying?
  {
    forall u <- w.tasks ensures !InSlice(w, u) {
      assert TaskOk(w, u) && TaskOk(w, t);
    }
  }

  lemma LoopTopBooks(w: World, t: nat)
    requires !Record(w.f.history).Flying?
    ensures SolverBooked(LoopTop(w, t), t)
  {
  }

  lemma TurnBooks(w: World, t: nat, job: Job, next: int)
    requires !Record(w.f.history).Flying?
    ensures SolverBooked(Turn(w, t, job, next), t)
  {
    hide LoopTop;
    LoopTopBooks(w.(f := WriteBack(w.f, job, next), slices := Conclude(w.slices, next)), t);
  }

  lemma InlineBooks(w: World, t: nat, job: Job, res: SliceResult, next: int)
    requires !Record(w.f.history).Flying?
    ensures SolverBooked(SubmitInline(w, t, job, res, next), t)
  {
    hide Turn;
    TurnBooks(WithShare(w, t, job, res, Skipped), t, job, next);
    TurnBooks(Unsent(w, t, job, res), t, job, next);
  }

  lemma ResultBooks(cfg: Config, w: World, t: nat, job: Job, start: int, res: SliceResult, scanned: int)
    ensures SolverBooked(OnResult(cfg, w, t, job, start, res, scanned), t)
  {
    hide Turn, SubmitInline;
    var next := NextStart(cfg, start, res.nonceEnd);
    var w1 := Took(w, job, res, scanned);
    TurnBooks(w1, t, job, next);
    InlineBooks(w1, t, job, res, next);
    TurnBooks(WithQueue(w1, job, res.items), t, job, next);
  }

  lemma ContinueBooks(w: World, t: nat)
    requires Structured(w) && OnBooks(w) && t in w.tasks && w.tasks[t].Solver? && !InSlice(w, t)
    ensures OnBooks(LoopTop(w, t))
  {
    hide LoopTop, Structured, OnlySolver;
    NotFlying(w, t);
    LoopTopPiece(w, t);
    LoopTopBooks(w, t);
    MovePiece(w, LoopTop(w, t), t);
  }

  lemma CoolBooks(w: World, t: nat, job: Job, next: int)
    requires Structured(w) && OnBooks(w) && t in w.tasks && w.tasks[t].Solver? && !InSlice(w, t)
    ensures OnBooks(Turn(w, t, job, next))
  {
    hide Turn, Structured, OnlySolver;
    NotFlying(w, t);
    TurnPiece(w, t, job, next);
    TurnBooks(w, t, job, next);
    MovePiece(w, Turn(w, t, job, next), t);
  }

  lemma AnswerBooks(cfg: Config, w: World, t: nat, job: Job, start: int, res: SliceResult, scanned: int)
    requires Structured(w) && Kinds(w) && Runs(w, t, Solving(job, start))
    ensures OnBooks(OnResult(cfg, w, t, job, start, res, scanned))
  {
    assert TaskOk(w, t);
    hide OnResult, Structured, OnlySolver;
    OnResultPiece(cfg, w, t, job, start, res, scanned);
    ResultBooks(cfg, w, t, job, start, res, scanned);
    MovePiece(w, OnResult(cfg, w, t, job, start, res, scanned), t);
  }

  lemma FailBooks(cfg: Config, w: World, t: nat, scanned: int)
    requires Structured(w) && OnBooks(w) && InSlice(w, t)
    ensures OnBooks(OnSolver(cfg, w, t, w.tasks[t].pc, Fails(scanned)))
  {
    assert TaskOk(w, t);
    MovePiece(w, OnSolver(cfg, w, t, w.tasks[t].pc, Fails(scanned)), t);
  }

  lemma OnSolverBooks(cfg: Config, w: World, t: nat, move: SolverMove)
    requires Structured(w) && OnBooks(w) && t in w.tasks && w.tasks[t].Solver?
    ensures OnBooks(OnSolver(cfg, w, t, w.tasks[t].pc, move))
  {
    hide Turn, LoopTop, OnResult, Structured, OnBooks;
    var pc := w.tasks[t].pc;
    match move
    case Continues => if !InSlice(w, t) { ContinueBooks(w, t); }
    case Answers(res, scanned) =>
      if pc.Solving? {
        assert Kinds(w) by { BooksKeepKinds(w); }
        AnswerBooks(cfg, w, t, pc.job, pc.start, res, scanned);
      }
    case Fails(scanned) => if pc.Solving? { FailBooks(cfg, w, t, scanned); }
    case CoolsDown => if pc.Cooling? { CoolBooks(w, t, pc.job, pc.start + cfg.noncesPerSlice); }
  }

  lemma BooksKeepKinds(w: World)
    requires OnBooks(w)
    ensures Kinds(w)
  {
  }

  lemma NoTaskBooks(w: World, r: World)
    requires Structured(w) && OnBooks(w) && NoTask(w, r) && Record(r.f.history) == Record(w.f.history)
    ensures Structured(r) && OnBooks(r)
  {
    NoTaskPiece(w, r);
    FramePiece(w, r);
  }

  lemma EndShareBooks(w: World, k: nat, reply: Option<Reply>)
    requires Structured(w) && OnBooks(w) && k < |w.shares|
    ensures OnBooks(EndShare(w, k, reply))
  {
    var w1 := Settled(w, k, reply);
    var u := w.shares[k].awaiter;
    NoTaskBooks(w, w1);
    if u.Some? && Awaits(w, u.value, k) {
      hide Turn, Structured, OnBooks;
      CoolBooks(w1, u.value, w.tasks[u.value].pc.job, w.tasks[u.value].pc.next);
    }
  }

  lemma ServeBooks(cfg: Config, w: World)
    requires Structured(w) && OnBooks(w) && w.metrics.None? && w.heal.None?
    ensures OnBooks(Serve(cfg, w))
  {
    var r := Serve(cfg, w);
    forall u <- w.tasks ensures u in r.tasks && r.tasks[u] == w.tasks[u] {
      assert TaskOk(w, u);
    }
    FramePiece(w, r);
  }

  lemma EndCallBooks(cfg: Config, w: World, c: nat, reply: Option<Reply>)
    requires Structured(w) && OnBooks(w) && c < |w.calls|
    ensures OnBooks(EndCall(cfg, w, c, reply))
  {
    hide EndShare, Serve, OnBooks;
    match w.calls[c].owner
    case ForShare(k) => if k < |w.shares| { EndShareBooks(w, k, reply); }
    case ForAuthorize =>
      if w.phase == Authorizing(c) && reply.Some? && reply.value.truthy {
        ServeBooks(cfg, w);
      } else {
        UnmovedBooks(w, EndCall(cfg, w, c, reply));
      }
    case ForSubscribe => UnmovedBooks(w, EndCall(cfg, w, c, reply));
  }

  /** Tasks and handles stay as they are. */
  lemma UnmovedBooks(w: World, r: World)
    requires OnBooks(w) && r.tasks == w.tasks && r.nextTask == w.nextTask && Record(r.f.history) == Record(w.f.history)
    requires r.reader == w.reader && r.metrics == w.metrics && r.heal == w.heal
    ensures OnBooks(r)
  {
    FramePiece(w, r);
  }

  lemma OnCallBooks(cfg: Config, w: World, c: nat, move: CallMove)
    requires Structured(w) && OnBooks(w) && c < |w.calls|
    ensures OnBooks(OnCall(cfg, w, c, move))
  {
    hide Structured, OnBooks, EndCall;
    var call := w.calls[c];
    var dropped := SetCall(w, c, Dropped, Raised).(f := Forget(w.f, call.id));
    NoTaskBooks(w, dropped);
    NoTaskBooks(w, SetCall(w, c, call.future, Waiting));
    NoTaskBooks(w, SetCall(w, c, call.future, Raised));
    NoTaskBooks(w, SetCall(w, c, Error, Raised));
    EndCallBooks(cfg, SetCall(w, c, call.future, Raised), c, None);
    EndCallBooks(cfg, SetCall(w, c, Error, Raised), c, None);
    EndCallBooks(cfg, dropped, c, None);
    if call.future.Value? {
      NoTaskBooks(w, SetCall(w, c, call.future, Returned(call.future.reply)));
      EndCallBooks(cfg, SetCall(w, c, call.future, Returned(call.future.reply)), c, Some(call.future.reply));
    }
  }

  lemma StartSubmitBooks(w: World, k: nat)
    requires Structured(w) && OnBooks(w) && k < |w.shares|
    ensures OnBooks(StartSubmit(w, k))
  {
    hide Structured, OnBooks, EndShare;
    var b := BeginCall(w, ForShare(k)).w;
    NoTaskBooks(w, b);
    EndShareBooks(b, k, None);
    NoTaskBooks(b, SetShare(b, k, Calling(|w.calls|)));
  }

  lemma OnConnectBooks(cfg: Config, w: World, ok: bool)
    requires Structured(w) && OnBooks(w) && w.phase.Connecting?
    ensures OnBooks(OnConnect(cfg, w, ok))
  {
    var r := OnConnect(cfg, w, ok);
    NoHandlesNoTasks(w);
    FramePiece(w, r);
  }

  lemma OnLineBooks(w: World, t: nat, read: Read)
    requires OnBooks(w) && t in w.tasks && w.tasks[t].Reader?
    ensures OnBooks(OnLine(w, t, read))
  {
    hide OnBooks, HandleResponse;
    if ReaderRound(read).GoesOn? {
      if read.Msg? && read.m.Response? {
        ResponseBooks(w, read.m.id, read.m.outcome);
      } else if read.Msg? && read.m.Notify? {
        NotifyBooks(w.f, read.m.job, read.m.clean);
        UnmovedBooks(w, OnLine(w, t, read));
      }
    } else {
      ReaderEndsBooks(w, t, OnLine(w, t, read));
    }
  }

  lemma ResponseBooks(w: World, id: nat, outcome: Option<Reply>)
    requires OnBooks(w)
    ensures OnBooks(HandleResponse(w, id, outcome))
  {
    hide OnBooks;
    UnmovedBooks(w, HandleResponse(w, id, outcome));
  }

  lemma NotifyBooks(f: Fields, job: Job, clean: bool)
    ensures Record(OnNotify(f, job, clean).history) == Record(f.history)
  {
  }

  lemma ReaderEndsBooks(w: World, t: nat, r: World)
    requires OnBooks(w) && t in w.tasks && w.tasks[t].Reader?
    requires r == w.(tasks := w.tasks - {t}, ended := r.ended)
    ensures OnBooks(r)
  {
    FramePiece(w, r);
  }

  lemma OnHealBooks(cfg: Config, w: World, t: nat, move: HealMove)
    requires OnBooks(w) && t in w.tasks && w.tasks[t].Heal?
    ensures OnBooks(OnHeal(cfg, w, t, w.tasks[t].hpc, move))
  {
    FramePiece(w, OnHeal(cfg, w, t, w.tasks[t].hpc, move));
  }

  /** The end of the solver task takes a running slice off the air. */
  lemma CancelBooks(w: World, t: nat)
    requires Structured(w) && OnBooks(w) && w.solver == Some(t)
    ensures OnBooks(CancelSolver(w, t))
  {
    var r := CancelSolver(w, t);
    forall u <- w.tasks | InSlice(w, u) ensures u == t {
      assert TaskOk(w, u);
    }
    if !InSlice(w, t) {
      FramePiece(w, r);
    } else {
      assert Record(w.f.history).Flying?;
    }
  }

  lemma OnCloseBooks(cfg: Config, w: World, stage: nat)
    requires Structured(w) && OnBooks(w) && w.phase == Closing(stage)
    ensures OnBooks(OnClose(cfg, w, stage))
  {
    hide CancelSolver;
    var r := OnClose(cfg, w, stage);
    if stage == 1 && w.solver.Some? {
      var c := CancelSolver(w, w.solver.value);
      CancelBooks(w, w.solver.value);
      CancelSolverPiece(w, w.solver.value);
      FramePiece(c, r);
    } else {
      FramePiece(w, r);
    }
  }

  lemma StepBooks(cfg: Config, w: World, e: Event)
    requires Structured(w) && OnBooks(w)
    ensures OnBooks(Step(cfg, w, e))
  {
    hide OnCall, StartSubmit, OnSolver, OnClose, OnLine, OnHeal, OnConnect, Structured, OnBooks;
    match e
    case Calls(c, move) => if c < |w.calls| { OnCallBooks(cfg, w, c, move); }
    case SubmitStarts(k) => if k < |w.shares| { StartSubmitBooks(w, k); }
    case Solves(t, move) => if t in w.tasks && w.tasks[t].Solver? { OnSolverBooks(cfg, w, t, move); }
    case Connect(ok) => if w.phase.Connecting? { OnConnectBooks(cfg, w, ok); }
    case Line(t, read) => if t in w.tasks && w.tasks[t].Reader? { OnLineBooks(w, t, read); }
    case Heals(t, move) => if t in w.tasks && w.tasks[t].Heal? { OnHealBooks(cfg, w, t, move); }
    case CloseStep => if w.phase.Closing? { OnCloseBooks(cfg, w, w.phase.stage); }
    case _ => UnmovedBooks(w, Step(cfg, w, e));
  }

  lemma {:induction false} BooksAlong(cfg: Config, t0: real, ws: seq<World>, es: seq<Event>, i: nat)
    requires Trace(cfg, t0, ws, es) && i < |ws|
    ensures OnBooks(ws[i])
  {
    hide Step;
    if i > 0 {
      BooksAlong(cfg, t0, ws, es, i - 1);
      Along(cfg, t0, ws, es, i - 1);
      StepBooks(cfg, ws[i - 1], es[i - 1]);
    }
  }

  lemma BooksReachable(cfg: Config, t0: real, w: World)
    requires Reached(cfg, t0, w)
    ensures OnBooks(w)
  {
    hide Trace;
    var ws, es, i :| Trace(cfg, t0, ws, es) && 0 <= i < |ws| && ws[i] == w;
    BooksAlong(cfg, t0, ws, es, i);
  }

  // ---- Main results ----

  /** A slice runs exactly when the latest one that began has neither been
      answered nor failed nor been cancelled. */
  lemma RunsExactly(cfg: Config, t0: real, w: World)
    requires Reached(cfg, t0, w)
    ensures SliceRuns(w) <==> Record(w.f.history).Flying?
  {
    hide Reached;
    BooksReachable(cfg, t0, w);
  }

  /** The notify preempts: it is recorded as the last thing that happened. */
  predicate Preempts(f: Fields, job: Job, clean: bool) {
    OnNotify(f, job, clean).history.Then? && OnNotify(f, job, clean).history.last.Preempted?
  }

  /** In every state a notify preempts exactly when the parent on record, if any,
      is another one than its own. */
  lemma PreemptsExactly(cfg: Config, t0: real, w: World, job: Job, clean: bool)
    requires Reached(cfg, t0, w)
    ensures Preempts(w.f, job, clean) <==> Inflight(w.f.history).Some? && Inflight(w.f.history).value != job.parent
    ensures Preempts(w.f, job, clean) ==>
              OnNotify(w.f, job, clean).history.last == Preempted(Inflight(w.f.history).value, job.parent)
  {
    hide Reached;
    Tracking.Reachable(cfg, t0, w);
  }

  /** While a slice runs, a notify preempts it exactly when it is for another
      parent: no slice on a dead tip is spared, and no slice on the tip is hit. */
  lemma HitsExactly(cfg: Config, t0: real, w: World, t: nat, job: Job, clean: bool)
    requires Reached(cfg, t0, w) && InSlice(w, t)
    ensures Preempts(w.f, job, clean) <==> w.tasks[t].pc.job.parent != job.parent
  {
    BooksReachable(cfg, t0, w);
    PreemptsExactly(cfg, t0, w, job, clean);
    hide Reached;
  }

  /** A notify preempts although no slice runs exactly when the latest slice that
      was accepted has failed or was cancelled, and was on another parent. */
  lemma MissesExactly(cfg: Config, t0: real, w: World, job: Job, clean: bool)
    requires Reached(cfg, t0, w)
    ensures Preempts(w.f, job, clean) && !SliceRuns(w) <==>
              var s := Record(w.f.history); (s.Failed? || s.Cancelled?) && s.parent != job.parent
  {
    RunsExactly(cfg, t0, w);
    PreemptsExactly(cfg, t0, w, job, clean);
    hide Reached;
  }
}
