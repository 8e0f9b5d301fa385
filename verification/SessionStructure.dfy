/**
 Which tasks are alive, and that the solver is never left asleep on a job.
 */
module SessionStructure {
  import opened Prelude
  import opened Client
  import opened Session

  /** The handle the client keeps for a task of this kind. */
  function Handle(w: World, task: Task): Option<nat> {
    match task
    case Reader => w.reader
    case Solver(_) => w.solver
    case Metrics => w.metrics
    case Heal(_) => w.heal
  }

  predicate SameKind(a: Task, b: Task) {
    (a.Reader? && b.Reader?) || (a.Solver? && b.Solver?) || (a.Metrics? && b.Metrics?) || (a.Heal? && b.Heal?)
  }

  predicate Busy(pc: SolverPc) {
    pc.Solving? || pc.Submitting? || pc.Cooling?
  }

  /** A live task is the one its handle names; a busy solver has a job, and a
      solver that waits for a job while there is one is about to wake. */
  ghost predicate TaskOk(w: World, t: nat)
    requires t in w.tasks
  {
    && t < w.nextTask
    && Handle(w, w.tasks[t]) == Some(t)
    && (w.tasks[t].Solver? && Busy(w.tasks[t].pc) ==> w.f.currentJob.Some?)
    && (w.tasks[t] == Solver(AwaitingJob) && !w.f.jobChanged ==> w.f.currentJob.None?)
  }

  predicate NothingLeft(w: World) {
    && w.reader.None? && w.solver.None? && w.metrics.None? && w.heal.None?
    && w.f.currentJob.None? && !w.writer
  }

  /** Which handles a phase of the session leaves empty; between two sessions there is
      no connection and no job either. */
  predicate PhaseOk(w: World) {
    match w.phase
    case Connecting => NothingLeft(w)
    case Sleeping => NothingLeft(w)
    case Subscribing(_) => w.solver.None? && w.metrics.None? && w.heal.None?
    case Authorizing(_) => w.solver.None? && w.metrics.None? && w.heal.None?
    case Serving => true
    case Closing(k) =>
      && (k >= 1 ==> w.reader.None?) && (k >= 2 ==> w.solver.None?)
      && (k >= 3 ==> w.metrics.None?) && (k >= 4 ==> w.heal.None?)
  }

  ghost predicate Structured(w: World) {
    PhaseOk(w) && forall t <- w.tasks :: TaskOk(w, t)
  }

  /** What a piece of a step on solver task t may change, as far as tasks go. */
  ghost predicate OnlySolver(w: World, r: World, t: nat) {
    && r.phase == w.phase && r.nextTask == w.nextTask && r.writer == w.writer
    && r.reader == w.reader && r.solver == w.solver && r.metrics == w.metrics && r.heal == w.heal
    && r.tasks.Keys == w.tasks.Keys
    && (forall u <- w.tasks :: u != t ==> r.tasks[u] == w.tasks[u])
    && t in r.tasks && r.tasks[t].Solver?
    && (Busy(r.tasks[t].pc) ==> r.f.currentJob.Some?)
    && (r.tasks[t] == Solver(AwaitingJob) ==> r.f.currentJob.None?)
  }

  lemma SolverPiece(w: World, r: World, t: nat)
    requires Structured(w) && t in w.tasks && w.tasks[t].Solver? && OnlySolver(w, r, t)
    ensures Structured(r)
  {
    forall u <- r.tasks ensures TaskOk(r, u) {
      assert TaskOk(w, u) && TaskOk(w, t);
    }
  }

  lemma LoopTopPiece(w: World, t: nat)
    requires t in w.tasks
    ensures OnlySolver(w, LoopTop(w, t), t)
  {
  }

  lemma TurnPiece(w: World, t: nat, job: Job, next: int)
    requires t in w.tasks
    ensures OnlySolver(w, Turn(w, t, job, next), t)
  {
    LoopTopPiece(w.(f := WriteBack(w.f, job, next), slices := Conclude(w.slices, next)), t);
  }

  lemma OnResultPiece(cfg: Config, w: World, t: nat, job: Job, start: int, res: SliceResult, scanned: int)
    requires t in w.tasks && w.f.currentJob.Some?
    ensures OnlySolver(w, OnResult(cfg, w, t, job, start, res, scanned), t)
  {
    hide Turn, LoopTop;
    var next := NextStart(cfg, start, res.nonceEnd);
    var w1 := Took(w, job, res, scanned);
    TurnPiece(w1, t, job, next);
    if res.found && !Stale(w.f, job) {
      if res.items == [] {
        SubmitInlinePiece(w1, t, job, res, next);
      } else {
        TurnPiece(WithQueue(w1, job, res.items), t, job, next);
      }
    }
  }

  lemma SubmitInlinePiece(w: World, t: nat, job: Job, res: SliceResult, next: int)
    requires t in w.tasks && w.f.currentJob.Some?
    ensures OnlySolver(w, SubmitInline(w, t, job, res, next), t)
  {
    hide Turn, LoopTop;
    TurnPiece(WithShare(w, t, job, res, Skipped), t, job, next);
    TurnPiece(Unsent(w, t, job, res), t, job, next);
  }

  /** A piece that leaves tasks, handles, phase and job alone. */
  ghost predicate NoTask(w: World, r: World) {
    && r.phase == w.phase && r.nextTask == w.nextTask && r.tasks == w.tasks && r.writer == w.writer
    && r.reader == w.reader && r.solver == w.solver && r.metrics == w.metrics && r.heal == w.heal
    && r.f.currentJob == w.f.currentJob && r.f.jobChanged == w.f.jobChanged
  }

  lemma NoTaskPiece(w: World, r: World)
    requires Structured(w) && NoTask(w, r)
    ensures Structured(r)
  {
    forall t <- r.tasks ensures TaskOk(r, t) {
      assert TaskOk(w, t);
    }
  }

  lemma EndSharePiece(w: World, k: nat, reply: Option<Reply>)
    requires Structured(w) && k < |w.shares|
    ensures Structured(EndShare(w, k, reply))
  {
    hide Turn, LoopTop;
    var w1 := Settled(w, k, reply);
    var u := w.shares[k].awaiter;
    NoTaskPiece(w, w1);
    if u.Some? && Awaits(w, u.value, k) {
      var pc := w.tasks[u.value].pc;
      TurnPiece(w1, u.value, pc.job, pc.next);
      SolverPiece(w1, Turn(w1, u.value, pc.job, pc.next), u.value);
    }
  }

  lemma ServePiece(cfg: Config, w: World)
    requires Structured(w) && w.solver.None? && w.metrics.None? && w.heal.None?
    ensures Structured(Serve(cfg, w))
  {
    var r := Serve(cfg, w);
    forall t <- r.tasks ensures TaskOk(r, t) {
      if t in w.tasks {
        assert TaskOk(w, t);
      }
    }
  }

  lemma EndCallPiece(cfg: Config, w: World, c: nat, reply: Option<Reply>)
    requires Structured(w) && c < |w.calls|
    ensures Structured(EndCall(cfg, w, c, reply))
  {
    hide EndShare, Serve;
    var r := EndCall(cfg, w, c, reply);
    match w.calls[c].owner
    case ForShare(k) => if k < |w.shares| { EndSharePiece(w, k, reply); }
    case ForAuthorize =>
      if w.phase == Authorizing(c) && reply.Some? && reply.value.truthy {
        ServePiece(cfg, w);
      } else {
        forall t <- r.tasks ensures TaskOk(r, t) { assert TaskOk(w, t); }
      }
    case ForSubscribe =>
      forall t <- r.tasks ensures TaskOk(r, t) { assert TaskOk(w, t); }
  }

  lemma OnCallPiece(cfg: Config, w: World, c: nat, move: CallMove)
    requires Structured(w) && c < |w.calls|
    ensures Structured(OnCall(cfg, w, c, move))
  {
    hide EndCall;
    var call := w.calls[c];
    var raised := SetCall(w, c, call.future, Raised);
    NoTaskPiece(w, raised);
    EndCallPiece(cfg, raised, c, None);
    match move
    case Drained => NoTaskPiece(w, OnCall(cfg, w, c, move));
    case DrainFails => if !call.phase.Sending? { NoTaskPiece(w, w); }
    case Returns =>
      if call.future.Value? {
        var w1 := SetCall(w, c, call.future, Returned(call.future.reply));
        NoTaskPiece(w, w1);
        EndCallPiece(cfg, w1, c, Some(call.future.reply));
      }
    case TimesOut =>
      var w1 := SetCall(w, c, Dropped, Raised).(f := Forget(w.f, call.id));
      NoTaskPiece(w, w1);
      EndCallPiece(cfg, w1, c, None);
  }

  lemma StartSubmitPiece(w: World, k: nat)
    requires Structured(w) && k < |w.shares|
    ensures Structured(StartSubmit(w, k))
  {
    hide EndShare;
    var b := BeginCall(w, ForShare(k));
    NoTaskPiece(w, b.w);
    EndSharePiece(b.w, k, None);
    NoTaskPiece(w, SetShare(b.w, k, Calling(|w.calls|)));
  }

  lemma OnConnectPiece(cfg: Config, w: World, ok: bool)
    requires Structured(w) && w.phase.Connecting?
    ensures Structured(OnConnect(cfg, w, ok))
  {
    assert forall t <- w.tasks :: TaskOk(w, t);
    assert w.tasks == map[];
  }

  lemma OnLinePiece(w: World, t: nat, read: Read)
    requires Structured(w) && t in w.tasks
    ensures Structured(OnLine(w, t, read))
  {
    hide HandleResponse;
    var r := OnLine(w, t, read);
    if read.Msg? && read.m.Response? {
      ResponsePiece(w, read.m.id, read.m.outcome);
    } else {
      forall u <- r.tasks ensures TaskOk(r, u) {
        assert TaskOk(w, u);
      }
    }
  }

  lemma ResponsePiece(w: World, id: nat, outcome: Option<Reply>)
    requires Structured(w)
    ensures Structured(HandleResponse(w, id, outcome))
  {
    NoTaskPiece(w, HandleResponse(w, id, outcome));
  }

  predicate SameJob(w: World, r: World) {
    r.f.currentJob == w.f.currentJob && r.f.jobChanged == w.f.jobChanged
  }

  /** A stage of the `finally` block: one handle emptied, its task gone. */
  lemma FewerTasks(w: World, r: World, gone: set<nat>)
    requires Structured(w) && PhaseOk(r)
    requires r.tasks == w.tasks - gone && r.nextTask == w.nextTask && SameJob(w, r)
    requires forall t <- r.tasks :: Handle(r, r.tasks[t]) == Handle(w, w.tasks[t])
    ensures Structured(r)
  {
    forall t <- r.tasks ensures TaskOk(r, t) {
      assert TaskOk(w, t);
    }
  }

  lemma CancelSolverPiece(w: World, t: nat)
    ensures var r := CancelSolver(w, t);
            r == w.(f := r.f, tasks := w.tasks - {t}, calls := r.calls, shares := r.shares) && SameJob(w, r)
  {
  }

  lemma NoHandlesNoTasks(w: World)
    requires Structured(w) && w.reader.None? && w.solver.None? && w.metrics.None? && w.heal.None?
    ensures w.tasks == map[]
  {
    forall t | t in w.tasks ensures false {
      HasHandle(w, t);
    }
  }

  lemma HasHandle(w: World, t: nat)
    requires Structured(w) && t in w.tasks
    ensures w.reader == Some(t) || w.solver == Some(t) || w.metrics == Some(t) || w.heal == Some(t)
  {
    assert TaskOk(w, t);
  }

  lemma OnClosePiece(cfg: Config, w: World, stage: nat)
    requires Structured(w) && w.phase == Closing(stage)
    ensures Structured(OnClose(cfg, w, stage))
  {
    hide CancelSolver;
    var r := OnClose(cfg, w, stage);
    if stage >= 4 {
      NoHandlesNoTasks(w);
    } else {
      var handle := if stage == 0 then w.reader else if stage == 1 then w.solver
                    else if stage == 2 then w.metrics else w.heal;
      if stage == 1 && w.solver.Some? {
        CancelSolverPiece(w, w.solver.value);
      }
      assert forall t <- w.tasks :: TaskOk(w, t);
      var gone := if handle.Some? then {handle.value} else {};
      assert r.tasks == w.tasks - gone;
      FewerTasks(w, r, gone);
    }
  }

  lemma OnSolverPiece(cfg: Config, w: World, t: nat, move: SolverMove)
    requires Structured(w) && t in w.tasks && w.tasks[t].Solver?
    ensures Structured(OnSolver(cfg, w, t, w.tasks[t].pc, move))
  {
    hide LoopTop, Turn, OnResult;
    assert TaskOk(w, t);
    var pc := w.tasks[t].pc;
    var r := OnSolver(cfg, w, t, pc, move);
    if r != w {
      match move
      case Continues => LoopTopPiece(w, t);
      case Answers(res, scanned) => OnResultPiece(cfg, w, t, pc.job, pc.start, res, scanned);
      case Fails(scanned) =>
      case CoolsDown => TurnPiece(w, t, pc.job, pc.start + cfg.noncesPerSlice);
      SolverPiece(w, r, t);
    }
  }

  lemma OnHealPiece(cfg: Config, w: World, t: nat, move: HealMove)
    requires Structured(w) && t in w.tasks && w.tasks[t].Heal?
    ensures Structured(OnHeal(cfg, w, t, w.tasks[t].hpc, move))
  {
    var r := OnHeal(cfg, w, t, w.tasks[t].hpc, move);
    forall u <- r.tasks ensures TaskOk(r, u) {
      assert TaskOk(w, u);
    }
  }

  lemma StepKeeps(cfg: Config, w: World, e: Event)
    requires Structured(w)
    ensures Structured(Step(cfg, w, e))
  {
    hide OnConnect, OnLine, OnCall, StartSubmit, OnSolver, OnHeal, OnClose;
    match e
    case Tick(d) => if d >= 0.0 { NoTaskPiece(w, Step(cfg, w, e)); }
    case Connect(ok) => if w.phase.Connecting? { OnConnectPiece(cfg, w, ok); }
    case Line(t, read) => if t in w.tasks { OnLinePiece(w, t, read); }
    case Calls(c, move) => if c < |w.calls| { OnCallPiece(cfg, w, c, move); }
    case SubmitStarts(k) => if k < |w.shares| { StartSubmitPiece(w, k); }
    case Solves(t, move) => if t in w.tasks && w.tasks[t].Solver? { OnSolverPiece(cfg, w, t, move); }
    case Heals(t, move) => if t in w.tasks && w.tasks[t].Heal? { OnHealPiece(cfg, w, t, move); }
    case CloseStep => if w.phase.Closing? { OnClosePiece(cfg, w, w.phase.stage); }
    case SessionNotices => forall t <- w.tasks ensures TaskOk(Step(cfg, w, e), t) { assert TaskOk(w, t); }
    case SleepOver => forall t <- w.tasks ensures TaskOk(Step(cfg, w, e), t) { assert TaskOk(w, t); }
  }

  lemma {:induction false} Along(cfg: Config, t0: real, ws: seq<World>, es: seq<Event>, i: nat)
    requires Trace(cfg, t0, ws, es) && i < |ws|
    ensures Structured(ws[i])
  {
    hide Step;
    if i > 0 {
      Along(cfg, t0, ws, es, i - 1);
      StepKeeps(cfg, ws[i - 1], es[i - 1]);
    }
  }

  lemma Reachable(cfg: Config, t0: real, w: World)
    requires Reached(cfg, t0, w)
    ensures Structured(w)
  {
    hide Trace;
    var ws, es, i :| Trace(cfg, t0, ws, es) && 0 <= i < |ws| && ws[i] == w;
    Along(cfg, t0, ws, es, i);
  }

  /** At every moment of every run, across all reconnects, no two live tasks are
      of the same kind. */
  lemma OneTaskOfAKind(cfg: Config, t0: real, w: World, t: nat, u: nat)
    requires Reached(cfg, t0, w) && t in w.tasks && u in w.tasks && SameKind(w.tasks[t], w.tasks[u])
    ensures t == u
  {
    hide Reached;
    Reachable(cfg, t0, w);
    assert TaskOk(w, t) && TaskOk(w, u);
  }

  /** Between two sessions nothing of the old one is alive but submissions: no task, no
      connection and no job. */
  lemma NothingOutlivesASession(cfg: Config, t0: real, w: World)
    requires Reached(cfg, t0, w) && (w.phase.Connecting? || w.phase.Sleeping?)
    ensures w.tasks == map[] && !w.writer && w.f.currentJob.None?
  {
    hide Reached;
    Reachable(cfg, t0, w);
    assert forall t <- w.tasks :: TaskOk(w, t);
  }

  /** No lost wakeup: a solver blocked on an unset event has no job. */
  lemma NoLostWakeup(cfg: Config, t0: real, w: World, t: nat)
    requires Reached(cfg, t0, w) && Runs(w, t, AwaitingJob) && !w.f.jobChanged
    ensures w.f.currentJob.None?
  {
    hide Reached;
    Reachable(cfg, t0, w);
    assert TaskOk(w, t);
  }
}
