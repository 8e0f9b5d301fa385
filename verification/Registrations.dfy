/**
 A call of the present session that still waits is registered under its id, so a
 response with that id completes it.
 */
module Registrations {
  import opened Prelude
  import opened Client
  import opened Session
  import opened CallCorrelation

  /** The call still waits for its answer, and no later session has begun. */
  ghost predicate Awaited(w: World, c: nat) {
    && c < |w.calls| && w.calls[c].future.Unset? && (w.calls[c].phase.Sending? || w.calls[c].phase.Waiting?)
    && forall d :: c < d < |w.calls| ==> !w.calls[d].owner.ForSubscribe?
  }

  predicate InSession(w: World) {
    !w.phase.Connecting? && !w.phase.Sleeping?
  }

  predicate IsRegistered(w: World, c: nat) {
    c + 1 in w.f.pending && w.f.pending[c + 1] == c
  }

  ghost predicate Registered(w: World) {
    InSession(w) ==> forall c: nat {:trigger Awaited(w, c)} :: Awaited(w, c) ==> IsRegistered(w, c)
  }

  /** A piece that registers what it begins and forgets only what has ended. */
  ghost predicate Keeps(w: World, r: World) {
    && |w.calls| <= |r.calls|
    && (InSession(r) ==> InSession(w))
    && (forall c :: 0 <= c < |w.calls| ==>
          && r.calls[c].owner == w.calls[c].owner
          && (r.calls[c].future.Unset? ==> w.calls[c].future.Unset?)
          && (r.calls[c].phase.Sending? || r.calls[c].phase.Waiting? ==>
                w.calls[c].phase.Sending? || w.calls[c].phase.Waiting?)
          && (Awaited(r, c) && IsRegistered(w, c) ==> IsRegistered(r, c)))
    && (forall c :: |w.calls| <= c < |r.calls| ==>
          !r.calls[c].owner.ForSubscribe? && (Awaited(r, c) ==> IsRegistered(r, c)))
  }

  lemma KeepsPiece(w: World, r: World)
    requires Registered(w) && Keeps(w, r)
    ensures Registered(r)
  {
    if InSession(r) {
      forall c: nat {:trigger Awaited(r, c)} | Awaited(r, c) ensures IsRegistered(r, c) {
        if c < |w.calls| {
          AwaitedBefore(w, r, c);
        }
      }
    }
  }

  lemma AwaitedBefore(w: World, r: World, c: nat)
    requires Keeps(w, r) && Awaited(r, c) && c < |w.calls|
    ensures Awaited(w, c)
  {
    forall d | c < d < |w.calls| ensures !w.calls[d].owner.ForSubscribe? {
      assert r.calls[d].owner == w.calls[d].owner;
    }
  }

  /** The requests are as they were, or one is forgotten whose call has ended. */
  lemma QuietKeeps(w: World, r: World)
    requires r.calls == w.calls && r.f.pending == w.f.pending && (InSession(r) ==> InSession(w))
    ensures Keeps(w, r)
  {
  }

  lemma BeginKeeps(w: World, owner: Owner)
    requires Correlated(w) && !owner.ForSubscribe?
    ensures Keeps(w, BeginCall(w, owner).w)
  {
    var r := BeginCall(w, owner).w;
    assert r.f.pending[|w.calls| + 1] == |w.calls|;
  }

  lemma SetKeeps(w: World, c: nat, future: Future, phase: CallPhase)
    requires c < |w.calls| && (future.Unset? ==> w.calls[c].future.Unset?)
    requires phase.Sending? || phase.Waiting? ==> w.calls[c].phase.Sending? || w.calls[c].phase.Waiting?
    ensures Keeps(w, SetCall(w, c, future, phase))
  {
  }

  lemma Chain(w: World, m: World, r: World)
    requires Registered(w) && Keeps(w, m) && Keeps(m, r)
    ensures Registered(r)
  {
    KeepsPiece(w, m);
    KeepsPiece(m, r);
  }

  // ---- Steps ----

  lemma TurnQuiet(w: World, t: nat, job: Job, next: int)
    ensures var r := Turn(w, t, job, next); r.calls == w.calls && r.f.pending == w.f.pending && r.phase == w.phase
  {
  }

  lemma ShareQuiet(w: World, k: nat, reply: Option<Reply>)
    requires k < |w.shares|
    ensures var r := EndShare(w, k, reply); r.calls == w.calls && r.f.pending == w.f.pending && r.phase == w.phase
  {
    hide Turn;
    var u := w.shares[k].awaiter;
    if u.Some? && Awaits(w, u.value, k) {
      TurnQuiet(Settled(w, k, reply), u.value, w.tasks[u.value].pc.job, w.tasks[u.value].pc.next);
    }
  }

  lemma EndCallKeeps(cfg: Config, w: World, c: nat, reply: Option<Reply>)
    requires Correlated(w) && c < |w.calls|
    ensures Keeps(w, EndCall(cfg, w, c, reply))
  {
    hide EndShare, Keeps, Correlated;
    var r := EndCall(cfg, w, c, reply);
    match w.calls[c].owner
    case ForShare(k) =>
      if k < |w.shares| {
        ShareQuiet(w, k, reply);
      }
      QuietKeeps(w, r);
    case ForSubscribe =>
      if w.phase == Subscribing(c) && reply.Some? && reply.value.shaped {
        BeginKeeps(w, ForAuthorize);
        PhaseKeeps(w, BeginCall(w, ForAuthorize).w, r);
      } else {
        QuietKeeps(w, r);
      }
    case ForAuthorize => QuietKeeps(w, r);
  }

  /** A change of phase inside a session changes nothing here. */
  lemma PhaseKeeps(w: World, m: World, r: World)
    requires Keeps(w, m) && r.calls == m.calls && r.f.pending == m.f.pending && InSession(w)
    ensures Keeps(w, r)
  {
    forall c | 0 <= c < |w.calls| && Awaited(r, c) && IsRegistered(w, c) ensures IsRegistered(r, c) {
      assert Awaited(m, c);
    }
    forall c | |w.calls| <= c < |r.calls| && Awaited(r, c) ensures IsRegistered(r, c) {
      assert Awaited(m, c);
    }
  }

  lemma OnCallRegisters(cfg: Config, w: World, c: nat, move: CallMove)
    requires Registered(w) && Correlated(w) && c < |w.calls|
    ensures Registered(OnCall(cfg, w, c, move))
  {
    hide EndCall, Keeps, Registered, Correlated;
    var call := w.calls[c];
    match move
    case Drained =>
      if call.phase.Sending? {
        SetKeeps(w, c, call.future, Waiting);
        KeepsPiece(w, SetCall(w, c, call.future, Waiting));
      }
    case DrainFails => if call.phase.Sending? { CallEnds(cfg, w, c, call.future, Raised, None); }
    case Returns =>
      if call.phase.Waiting? && call.future.Value? {
        CallEnds(cfg, w, c, call.future, Returned(call.future.reply), Some(call.future.reply));
      } else if call.phase.Waiting? && call.future.Error? {
        CallEnds(cfg, w, c, Error, Raised, None);
      }
    case TimesOut =>
      if call.phase.Waiting? && call.future.Unset? {
        TimesOutKeeps(cfg, w, c);
      }
  }

  lemma CallEnds(cfg: Config, w: World, c: nat, future: Future, phase: CallPhase, reply: Option<Reply>)
    requires Registered(w) && Correlated(w) && c < |w.calls| && !phase.Sending? && !phase.Waiting?
    requires future == w.calls[c].future
    requires phase.Returned? ==> future.Value? && future.reply == phase.reply
    ensures Registered(EndCall(cfg, SetCall(w, c, future, phase), c, reply))
  {
    hide EndCall, Keeps, Registered, Correlated, SetCall;
    var m := SetCall(w, c, future, phase);
    SetKeeps(w, c, future, phase);
    SetPiece(w, c, future, phase);
    SetCalls(w, c, future, phase);
    EndCallKeeps(cfg, m, c, reply);
    Chain(w, m, EndCall(cfg, m, c, reply));
  }

  lemma TimesOutKeeps(cfg: Config, w: World, c: nat)
    requires Registered(w) && Correlated(w) && c < |w.calls|
    ensures Registered(EndCall(cfg, SetCall(w, c, Dropped, Raised).(f := Forget(w.f, w.calls[c].id)), c, None))
  {
    hide EndCall, Registered;
    var m := SetCall(w, c, Dropped, Raised).(f := Forget(w.f, w.calls[c].id));
    TimedOut(w, c);
    hide Correlated, Keeps;
    EndCallKeeps(cfg, m, c, None);
    Chain(w, m, EndCall(cfg, m, c, None));
  }

  lemma TimedOut(w: World, c: nat)
    requires Correlated(w) && c < |w.calls|
    ensures var m := SetCall(w, c, Dropped, Raised).(f := Forget(w.f, w.calls[c].id)); Keeps(w, m) && Correlated(m)
  {
    assert CallOk(w, c);
    SetPiece(w, c, Dropped, Raised);
    ForgetPiece(SetCall(w, c, Dropped, Raised), w.calls[c].id);
  }

  lemma SubmitRegisters(w: World, k: nat)
    requires Registered(w) && Correlated(w) && k < |w.shares|
    ensures Registered(StartSubmit(w, k))
  {
    hide EndShare, Keeps, Registered, Correlated;
    if w.shares[k].st.Queued? {
      var b := BeginCall(w, ForShare(k)).w;
      BeginKeeps(w, ForShare(k));
      ShareQuiet(b, k, None);
      QuietKeeps(b, StartSubmit(w, k));
      Chain(w, b, StartSubmit(w, k));
    }
  }

  lemma InlineRegisters(w: World, t: nat, job: Job, res: SliceResult, next: int)
    requires Registered(w) && Correlated(w)
    ensures Registered(SubmitInline(w, t, job, res, next))
  {
    hide Turn, Keeps, Registered, Correlated;
    var r := SubmitInline(w, t, job, res, next);
    TurnQuiet(WithShare(w, t, job, res, Skipped), t, job, next);
    TurnQuiet(Unsent(w, t, job, res), t, job, next);
    if res.nonce.None? {
      QuietKeeps(w, r);
      KeepsPiece(w, r);
    } else {
      var b := BeginCall(w, ForShare(|w.shares|)).w;
      BeginKeeps(w, ForShare(|w.shares|));
      QuietKeeps(b, r);
      Chain(w, b, r);
    }
  }

  lemma ResultRegisters(cfg: Config, w: World, t: nat, job: Job, start: int, res: SliceResult, scanned: int)
    requires Registered(w) && Correlated(w)
    ensures Registered(OnResult(cfg, w, t, job, start, res, scanned))
  {
    hide Turn, SubmitInline, Keeps, Registered, Correlated;
    var next := NextStart(cfg, start, res.nonceEnd);
    var w1 := Took(w, job, res, scanned);
    var r := OnResult(cfg, w, t, job, start, res, scanned);
    TurnQuiet(w1, t, job, next);
    TurnQuiet(WithQueue(w1, job, res.items), t, job, next);
    if res.found && !Stale(w.f, job) && res.items == [] {
      QuietKeeps(w, w1);
      KeepsPiece(w, w1);
      NoCallPiece(w, w1);
      InlineRegisters(w1, t, job, res, next);
    } else {
      QuietKeeps(w, r);
      KeepsPiece(w, r);
    }
  }

  lemma SolverRegisters(cfg: Config, w: World, t: nat, pc: SolverPc, move: SolverMove)
    requires Registered(w) && Correlated(w)
    ensures Registered(OnSolver(cfg, w, t, pc, move))
  {
    hide OnResult, Turn, Keeps, Registered, Correlated;
    var r := OnSolver(cfg, w, t, pc, move);
    if move.Answers? && pc.Solving? {
      ResultRegisters(cfg, w, t, pc.job, pc.start, move.res, move.scanned);
    } else {
      TurnQuiet(w, t, if pc.Cooling? then pc.job else Job("", "", None, false, None, None, None, None),
                if pc.Cooling? then pc.start + cfg.noncesPerSlice else 0);
      QuietKeeps(w, r);
      KeepsPiece(w, r);
    }
  }

  lemma ResponseRegisters(w: World, id: nat, outcome: Option<Reply>)
    requires Registered(w) && Correlated(w)
    ensures Registered(HandleResponse(w, id, outcome))
  {
    hide Registered;
    var r := HandleResponse(w, id, outcome);
    assert Keeps(w, r);
    KeepsPiece(w, r);
  }

  lemma LineRegisters(w: World, t: nat, read: Read)
    requires Registered(w) && Correlated(w)
    ensures Registered(OnLine(w, t, read))
  {
    hide Registered, Correlated, HandleResponse, Keeps;
    if read.Msg? && read.m.Response? {
      ResponseRegisters(w, read.m.id, read.m.outcome);
    } else {
      QuietKeeps(w, OnLine(w, t, read));
      KeepsPiece(w, OnLine(w, t, read));
    }
  }

  lemma CloseRegisters(cfg: Config, w: World, stage: nat)
    requires Registered(w) && w.phase.Closing?
    ensures Registered(OnClose(cfg, w, stage))
  {
    hide Registered, Keeps;
    var r := OnClose(cfg, w, stage);
    if stage >= 4 {
      LeavesSession(cfg, w, stage);
    } else {
      if stage == 1 && w.solver.Some? {
        CancelKeeps(w, w.solver.value);
        PhaseKeeps(w, CancelSolver(w, w.solver.value), r);
      } else {
        QuietKeeps(w, r);
      }
      KeepsPiece(w, r);
    }
  }

  lemma LeavesSession(cfg: Config, w: World, stage: nat)
    requires stage >= 4
    ensures Registered(OnClose(cfg, w, stage))
  {
  }

  lemma CancelKeeps(w: World, t: nat)
    ensures Keeps(w, CancelSolver(w, t))
  {
  }

  lemma ConnectRegisters(cfg: Config, w: World, ok: bool)
    requires Correlated(w)
    ensures Registered(OnConnect(cfg, w, ok))
  {
    var r := OnConnect(cfg, w, ok);
    if ok {
      assert r.calls[|w.calls|].owner.ForSubscribe?;
      assert r.f.pending[|w.calls| + 1] == |w.calls|;
    }
  }

  lemma StepRegisters(cfg: Config, w: World, e: Event)
    requires Registered(w) && Correlated(w)
    ensures Registered(Step(cfg, w, e))
  {
    hide Registered, Correlated, Keeps, OnCall, StartSubmit, OnSolver, OnClose, OnLine, OnConnect;
    match e
    case Calls(c, move) => if c < |w.calls| { OnCallRegisters(cfg, w, c, move); }
    case SubmitStarts(k) => if k < |w.shares| { SubmitRegisters(w, k); }
    case Solves(t, move) => if t in w.tasks && w.tasks[t].Solver? { SolverRegisters(cfg, w, t, w.tasks[t].pc, move); }
    case Line(t, read) => LineRegisters(w, t, read);
    case CloseStep => if w.phase.Closing? { CloseRegisters(cfg, w, w.phase.stage); }
    case Connect(ok) => if w.phase.Connecting? { ConnectRegisters(cfg, w, ok); }
    case SleepOver => OutOfSession(Step(cfg, w, e), w);
    case _ =>
      QuietKeeps(w, Step(cfg, w, e));
      KeepsPiece(w, Step(cfg, w, e));
  }

  lemma OutOfSession(r: World, w: World)
    ensures !InSession(r) ==> Registered(r)
    ensures r == w && Registered(w) ==> Registered(r)
  {
  }

  lemma {:induction false} RegisteredAlong(cfg: Config, t0: real, ws: seq<World>, es: seq<Event>, i: nat)
    requires Trace(cfg, t0, ws, es) && i < |ws|
    ensures Registered(ws[i]) && Correlated(ws[i])
  {
    hide Step;
    Along(cfg, t0, ws, es, i);
    if i > 0 {
      RegisteredAlong(cfg, t0, ws, es, i - 1);
      StepRegisters(cfg, ws[i - 1], es[i - 1]);
    }
  }

  // ---- Main result ----

  /** In every state of every run inside a session: when the reader handles a
      response with the id of a call of this session that still waits, that call's
      future gets the outcome, every other call stays as it is, and a second response
      with this id will find nothing. */
  lemma ResponseCompletes(cfg: Config, t0: real, w: World, t: nat, c: nat, outcome: Option<Reply>)
    requires Reached(cfg, t0, w) && InSession(w) && Awaited(w, c)
    requires t in w.tasks && w.tasks[t].Reader?
    ensures var r := Step(cfg, w, Line(t, Msg(Response(w.calls[c].id, outcome))));
            && |r.calls| == |w.calls|
            && r.calls[c] == w.calls[c].(future := if outcome.Some? then Value(outcome.value, |w.handled|) else Error)
            && (forall d :: 0 <= d < |w.calls| && d != c ==> r.calls[d] == w.calls[d])
            && r.f.pending == w.f.pending - {w.calls[c].id}
  {
    hide Trace;
    var ws, es, i :| Trace(cfg, t0, ws, es) && 0 <= i < |ws| && ws[i] == w;
    RegisteredAlong(cfg, t0, ws, es, i);
    assert CallOk(w, c);
  }

  /** A response with any other id changes no call. */
  lemma StrayChangesNothing(cfg: Config, t0: real, w: World, t: nat, id: nat, outcome: Option<Reply>)
    requires Reached(cfg, t0, w) && t in w.tasks && w.tasks[t].Reader?
    requires forall c :: 0 <= c < |w.calls| && w.calls[c].future.Unset? ==> w.calls[c].id != id
    ensures Step(cfg, w, Line(t, Msg(Response(id, outcome)))).calls == w.calls
  {
    hide Reached;
    CallCorrelation.Reachable(cfg, t0, w);
    if id in w.f.pending {
      assert CallOk(w, w.f.pending[id]);
    }
  }
}
