/**
 What a session may do before the pool has let it in: the solver, the metrics and
 the watchdog start after a well-formed answer to subscribe and a true one to
 authorize, and then only.
 */
module Handshakes {
  import opened Prelude
  import opened Client
  import opened Session
  import SessionStructure
  import ShareVerdicts

  /** Call s is the subscribe call of the latest session. */
  ghost predicate IsSubscribe(w: World, s: nat) {
    && s < |w.calls| && w.calls[s].owner.ForSubscribe?
    && forall c :: s < c < |w.calls| ==> !w.calls[c].owner.ForSubscribe?
  }

  /** It came back well-formed, and a, made after it, is the authorize call. */
  ghost predicate Subscribed(w: World, s: nat, a: nat) {
    && IsSubscribe(w, s) && w.calls[s].phase.Returned? && w.calls[s].phase.reply.shaped
    && s < a < |w.calls| && w.calls[a].owner.ForAuthorize?
  }

  /** ... which came back true. */
  ghost predicate Welcomed(w: World, s: nat, a: nat) {
    Subscribed(w, s, a) && w.calls[a].phase.Returned? && w.calls[a].phase.reply.truthy
  }

  ghost predicate LetIn(w: World) {
    exists s: nat, a: nat :: Welcomed(w, s, a)
  }

  predicate IsOther(w: World, t: nat) {
    t in w.tasks && !w.tasks[t].Reader?
  }

  ghost predicate HandOk(w: World) {
    && (w.phase.Subscribing? ==> IsSubscribe(w, w.phase.call))
    && (w.phase.Authorizing? ==> exists s: nat :: Subscribed(w, s, w.phase.call))
    && (w.phase.Serving? ==> LetIn(w))
    && (forall t <- w.tasks :: IsOther(w, t) ==> LetIn(w))
  }

  /** Calls are added, none of them a subscribe; what has returned stays. */
  ghost predicate CallsGrow(w: World, r: World) {
    && |w.calls| <= |r.calls|
    && (forall c :: 0 <= c < |w.calls| ==>
          && r.calls[c].owner == w.calls[c].owner
          && (w.calls[c].phase.Returned? ==> r.calls[c].phase == w.calls[c].phase))
    && (forall c :: |w.calls| <= c < |r.calls| ==> !r.calls[c].owner.ForSubscribe?)
  }

  /** ... and no task starts, nor does the handshake go on. */
  ghost predicate NoStart(w: World, r: World) {
    && CallsGrow(w, r)
    && (r.phase == w.phase || r.phase.Closing? || r.phase.Sleeping? || r.phase.Connecting?)
    && forall t <- r.tasks :: IsOther(r, t) ==> IsOther(w, t)
  }

  lemma SubscribedStays(w: World, r: World, s: nat, a: nat)
    requires CallsGrow(w, r) && Subscribed(w, s, a)
    ensures Subscribed(r, s, a)
    ensures Welcomed(w, s, a) ==> Welcomed(r, s, a)
  {
  }

  lemma LetInStays(w: World, r: World)
    requires CallsGrow(w, r) && LetIn(w)
    ensures LetIn(r)
  {
    var s: nat, a: nat :| Welcomed(w, s, a);
    SubscribedStays(w, r, s, a);
  }

  lemma NoStartPiece(w: World, r: World)
    requires HandOk(w) && NoStart(w, r)
    ensures HandOk(r)
  {
    hide LetIn;
    if LetIn(w) {
      LetInStays(w, r);
    }
    if r.phase.Authorizing? {
      var s: nat :| Subscribed(w, s, w.phase.call);
      SubscribedStays(w, r, s, w.phase.call);
    }
    forall t <- r.tasks | IsOther(r, t) ensures LetIn(r) {
      assert IsOther(w, t);
    }
  }

  // ---- Steps ----

  lemma TurnStarts(w: World, t: nat, job: Job, next: int)
    requires t in w.tasks && !w.tasks[t].Reader?
    ensures NoStart(w, Turn(w, t, job, next))
  {
  }

  lemma ShareEnds(w: World, k: nat, reply: Option<Reply>)
    requires k < |w.shares|
    ensures NoStart(w, EndShare(w, k, reply))
  {
    hide Turn, Settle;
    var u := w.shares[k].awaiter;
    if u.Some? && Awaits(w, u.value, k) {
      TurnStarts(Settled(w, k, reply), u.value, w.tasks[u.value].pc.job, w.tasks[u.value].pc.next);
    }
  }

  lemma CallEnds(cfg: Config, w: World, w1: World, c: nat, reply: Option<Reply>)
    requires HandOk(w) && NoStart(w, w1) && w1.phase == w.phase && |w1.calls| == |w.calls| && c < |w.calls|
    requires w1.calls[c].phase == if reply.Some? then Returned(reply.value) else Raised
    ensures HandOk(EndCall(cfg, w1, c, reply))
  {
    hide EndShare, HandOk, LetIn;
    var r := EndCall(cfg, w1, c, reply);
    NoStartPiece(w, w1);
    match w1.calls[c].owner
    case ForShare(k) =>
      if k < |w1.shares| {
        ShareEnds(w1, k, reply);
        NoStartPiece(w1, EndShare(w1, k, reply));
      }
    case ForSubscribe =>
      if w1.phase == Subscribing(c) && reply.Some? && reply.value.shaped {
        SubscribeEnds(cfg, w1, c, reply);
      } else {
        NoStartPiece(w1, r);
      }
    case ForAuthorize =>
      if w1.phase == Authorizing(c) && reply.Some? && reply.value.truthy {
        AuthorizeEnds(cfg, w1, c, reply);
      } else {
        NoStartPiece(w1, r);
      }
  }

  lemma SubscribeEnds(cfg: Config, w: World, c: nat, reply: Option<Reply>)
    requires HandOk(w) && c < |w.calls| && w.calls[c].owner.ForSubscribe? && w.phase == Subscribing(c)
    requires reply.Some? && reply.value.shaped && w.calls[c].phase == Returned(reply.value)
    ensures HandOk(EndCall(cfg, w, c, reply))
  {
    var b := BeginCall(w, ForAuthorize).w;
    assert Subscribed(b, c, |w.calls|);
    var r := EndCall(cfg, w, c, reply);
    assert CallsGrow(w, r);
    if LetIn(w) {
      LetInStays(w, r);
    }
    assert r.phase.Authorizing? ==> Subscribed(r, c, r.phase.call);
    forall t <- r.tasks | IsOther(r, t) ensures LetIn(r) {
      assert IsOther(w, t);
    }
  }

  lemma AuthorizeEnds(cfg: Config, w: World, c: nat, reply: Option<Reply>)
    requires HandOk(w) && c < |w.calls| && w.calls[c].owner.ForAuthorize? && w.phase == Authorizing(c)
    requires reply.Some? && reply.value.truthy && w.calls[c].phase == Returned(reply.value)
    ensures HandOk(EndCall(cfg, w, c, reply))
  {
    var s: nat :| Subscribed(w, s, c);
    assert Welcomed(EndCall(cfg, w, c, reply), s, c);
  }

  lemma OnCallHands(cfg: Config, w: World, c: nat, move: CallMove)
    requires HandOk(w) && c < |w.calls|
    ensures HandOk(OnCall(cfg, w, c, move))
  {
    hide HandOk, EndCall;
    var call := w.calls[c];
    match move
    case Drained => NoStartPiece(w, OnCall(cfg, w, c, move));
    case DrainFails => if call.phase.Sending? { CallEnds(cfg, w, SetCall(w, c, call.future, Raised), c, None); }
    case Returns =>
      if call.phase.Waiting? && call.future.Value? {
        CallEnds(cfg, w, SetCall(w, c, call.future, Returned(call.future.reply)), c, Some(call.future.reply));
      } else if call.phase.Waiting? && call.future.Error? {
        CallEnds(cfg, w, SetCall(w, c, Error, Raised), c, None);
      }
    case TimesOut =>
      if call.phase.Waiting? && call.future.Unset? {
        CallEnds(cfg, w, SetCall(w, c, Dropped, Raised).(f := Forget(w.f, call.id)), c, None);
      }
  }

  lemma SubmitHands(w: World, k: nat)
    requires k < |w.shares|
    ensures NoStart(w, StartSubmit(w, k))
  {
    hide EndShare;
    var b := BeginCall(w, ForShare(k)).w;
    ShareEnds(b, k, None);
  }

  lemma InlineHands(w: World, t: nat, job: Job, res: SliceResult, next: int)
    requires t in w.tasks && !w.tasks[t].Reader?
    ensures NoStart(w, SubmitInline(w, t, job, res, next))
  {
    hide Turn, Settle;
    TurnStarts(WithShare(w, t, job, res, Skipped), t, job, next);
    TurnStarts(Unsent(w, t, job, res), t, job, next);
  }

  lemma ResultHands(cfg: Config, w: World, t: nat, job: Job, start: int, res: SliceResult, scanned: int)
    requires t in w.tasks && !w.tasks[t].Reader?
    ensures NoStart(w, OnResult(cfg, w, t, job, start, res, scanned))
  {
    hide Turn, SubmitInline;
    var next := NextStart(cfg, start, res.nonceEnd);
    var w1 := Took(w, job, res, scanned);
    TurnStarts(w1, t, job, next);
    InlineHands(w1, t, job, res, next);
    TurnStarts(WithQueue(w1, job, res.items), t, job, next);
  }

  lemma SolverHands(cfg: Config, w: World, t: nat, move: SolverMove)
    requires t in w.tasks && w.tasks[t].Solver?
    ensures NoStart(w, OnSolver(cfg, w, t, w.tasks[t].pc, move))
  {
    hide OnResult, Turn;
    var pc := w.tasks[t].pc;
    match move
    case Answers(res, scanned) => if pc.Solving? { ResultHands(cfg, w, t, pc.job, pc.start, res, scanned); }
    case CoolsDown => if pc.Cooling? { TurnStarts(w, t, pc.job, pc.start + cfg.noncesPerSlice); }
    case _ =>
  }

  lemma CloseHands(cfg: Config, w: World, stage: nat)
    requires HandOk(w) && ShareVerdicts.Agree(w)
    ensures HandOk(OnClose(cfg, w, stage))
  {
    hide HandOk, ClearJob, ShareVerdicts.Agree;
    if stage == 1 && w.solver.Some? {
      CancelCalls(w, w.solver.value);
    }
    NoStartPiece(w, OnClose(cfg, w, stage));
  }

  lemma CancelCalls(w: World, t: nat)
    requires ShareVerdicts.Agree(w)
    ensures NoStart(w, CancelSolver(w, t))
  {
    hide ShareVerdicts.Agree;
    if t in w.tasks && w.tasks[t].Solver? && w.tasks[t].pc.Submitting? && w.tasks[t].pc.k < |w.shares|
       && w.shares[w.tasks[t].pc.k].st.Calling?
    {
      ShareVerdicts.CallingIsOpen(w, w.tasks[t].pc.k);
    }
  }

  lemma LineHands(w: World, t: nat, read: Read)
    ensures NoStart(w, OnLine(w, t, read)) && OnLine(w, t, read).phase == w.phase
  {
    hide OnNotify, Forget;
  }

  lemma ConnectHands(cfg: Config, w: World, ok: bool)
    requires HandOk(w) && SessionStructure.Structured(w) && w.phase.Connecting?
    ensures HandOk(OnConnect(cfg, w, ok))
  {
    var r := OnConnect(cfg, w, ok);
    forall t <- r.tasks | IsOther(r, t) ensures LetIn(r) {
      assert SessionStructure.TaskOk(w, t);
    }
  }

  lemma HealHands(cfg: Config, w: World, t: nat, pc: HealPc, move: HealMove)
    requires t in w.tasks && w.tasks[t].Heal?
    ensures NoStart(w, OnHeal(cfg, w, t, pc, move))
  {
  }

  /** Of all steps only these may start a task or take the handshake further. */
  lemma OthersStartNothing(cfg: Config, w: World, e: Event)
    requires !e.Calls? && !e.Connect? && !e.CloseStep?
    ensures NoStart(w, Step(cfg, w, e))
  {
    hide StartSubmit, OnSolver, OnLine, OnHeal;
    match e
    case SubmitStarts(k) => if k < |w.shares| { SubmitHands(w, k); }
    case Solves(t, move) => if t in w.tasks && w.tasks[t].Solver? { SolverHands(cfg, w, t, move); }
    case Line(t, read) => LineHands(w, t, read);
    case Heals(t, move) => if t in w.tasks && w.tasks[t].Heal? { HealHands(cfg, w, t, w.tasks[t].hpc, move); }
    case _ =>
  }

  lemma StepHands(cfg: Config, w: World, e: Event)
    requires HandOk(w) && SessionStructure.Structured(w) && ShareVerdicts.Agree(w)
    ensures HandOk(Step(cfg, w, e))
  {
    hide HandOk, NoStart, OnCall, OnClose, OnConnect, SessionStructure.Structured, ShareVerdicts.Agree;
    match e
    case Calls(c, move) => if c < |w.calls| { OnCallHands(cfg, w, c, move); }
    case CloseStep => if w.phase.Closing? { CloseHands(cfg, w, w.phase.stage); }
    case Connect(ok) => if w.phase.Connecting? { ConnectHands(cfg, w, ok); }
    case _ =>
      OthersStartNothing(cfg, w, e);
      NoStartPiece(w, Step(cfg, w, e));
  }

  lemma {:induction false} Along(cfg: Config, t0: real, ws: seq<World>, es: seq<Event>, i: nat)
    requires Trace(cfg, t0, ws, es) && i < |ws|
    ensures HandOk(ws[i])
  {
    hide Step;
    if i > 0 {
      Along(cfg, t0, ws, es, i - 1);
      SessionStructure.Along(cfg, t0, ws, es, i - 1);
      ShareVerdicts.Along(cfg, t0, ws, es, i - 1);
      StepHands(cfg, ws[i - 1], es[i - 1]);
    }
  }

  // ---- Main results ----

  /** In every state of every run: while the session serves, and whenever a solver, a
      metrics or a heal task is alive, the session's subscribe call has come back
      well-formed and the authorize call made after it has come back true. */
  lemma TasksNeedHandshake(cfg: Config, t0: real, w: World)
    requires Reached(cfg, t0, w)
    requires w.phase.Serving? || exists t :: IsOther(w, t)
    ensures exists s: nat, a: nat :: Welcomed(w, s, a)
  {
    hide Trace;
    var ws, es, i :| Trace(cfg, t0, ws, es) && 0 <= i < |ws| && ws[i] == w;
    Along(cfg, t0, ws, es, i);
  }

  /** The call that a future value or error is taken from now. */
  predicate ComesBack(w: World, e: Event, c: nat) {
    e == Calls(c, CallMove.Returns) && c < |w.calls| && w.calls[c].phase.Waiting? && w.calls[c].future.Value?
  }

  /** The step that starts the tasks is the return of a true answer to authorize. */
  lemma ServesExactly(cfg: Config, w: World, e: Event)
    requires !w.phase.Serving?
    ensures var r := Step(cfg, w, e);
            r.phase.Serving? <==>
              && w.phase.Authorizing? && ComesBack(w, e, w.phase.call)
              && w.calls[w.phase.call].owner.ForAuthorize? && w.calls[w.phase.call].future.reply.truthy
  {
    hide EndShare, NoStart;
    if e.Calls? {
      if e.c < |w.calls| && w.calls[e.c].owner.ForShare? && w.calls[e.c].owner.k < |w.shares| {
        SharePhase(cfg, w, e.c, e.call);
      }
    } else if !e.Connect? && !e.CloseStep? {
      hide Step;
      OthersStartNothing(cfg, w, e);
      PhaseStays(w, Step(cfg, w, e));
    }
  }

  /** It starts one solver and one metrics task, and a watchdog if it is enabled, and
      opens a new window for the watchdog. */
  lemma ServeStarts(cfg: Config, w: World, e: Event)
    requires !w.phase.Serving? && Step(cfg, w, e).phase.Serving?
    ensures var r, n := Step(cfg, w, e), w.nextTask;
            && r.tasks == (if cfg.healEnabled then w.tasks[n := Solver(Fresh)][n + 1 := Metrics][n + 2 := Heal(Napping)]
                           else w.tasks[n := Solver(Fresh)][n + 1 := Metrics])
            && r.solver == Some(n) && r.metrics == Some(n + 1) && (cfg.healEnabled ==> r.heal == Some(n + 2))
            && r.f.sessionStartedAt == w.now && r.f.lastSolverResultAt == w.now && r.f.consecRejects == 0
  {
    hide EndShare, StartSubmit, OnSolver, OnLine, OnHeal, OnConnect, OnClose;
    ServesExactly(cfg, w, e);
  }

  lemma PhaseStays(w: World, r: World)
    requires NoStart(w, r)
    ensures r.phase.Serving? ==> w.phase.Serving?
  {
  }

  lemma SharePhase(cfg: Config, w: World, c: nat, move: CallMove)
    requires c < |w.calls| && w.calls[c].owner.ForShare? && w.calls[c].owner.k < |w.shares|
    ensures OnCall(cfg, w, c, move).phase == w.phase
  {
    hide Turn, Settle;
    TurnPhases(w);
  }

  lemma TurnPhases(w: World)
    ensures forall v: World, t, job, next :: v.phase == w.phase ==> Turn(v, t, job, next).phase == w.phase
  {
    hide Conclude;
  }
}
