/**
 Requests and responses over the whole life of the process. The pool may send
 any response at any time, with any id, as often as it likes.
 */
module CallCorrelation {
  import opened Prelude
  import opened Client
  import opened Session

  ghost predicate CallOk(w: World, c: nat)
    requires c < |w.calls|
  {
    var call := w.calls[c];
    && call.id == c + 1
    && call.born <= |w.handled|
    && (call.future.Value? ==>
          && call.born <= call.future.at < |w.handled|
          && w.handled[call.future.at] == Handled(call.id, Some(call.future.reply), Some(c)))
    && (call.phase.Returned? ==> call.future.Value? && call.future.reply == call.phase.reply)
  }

  ghost predicate HandledOk(w: World, h: nat)
    requires h < |w.handled|
  {
    w.handled[h].call.Some? ==>
      var c := w.handled[h].call.value;
      c < |w.calls| && w.handled[h].id == w.calls[c].id && !w.calls[c].future.Unset? && w.calls[c].born <= h
  }

  /** A future is completed by one response at most. */
  ghost predicate Once(handled: seq<Handled>) {
    forall g, h :: 0 <= g < h < |handled| && handled[g].call.Some? ==> handled[h].call != handled[g].call
  }

  ghost predicate PendingOk(w: World) {
    forall id <- w.f.pending :: id == w.f.pending[id] + 1 && w.f.pending[id] < |w.calls|
  }

  ghost predicate Correlated(w: World) {
    && w.f.msgIdSeq == |w.calls| + 1
    && (forall c :: 0 <= c < |w.calls| ==> CallOk(w, c))
    && (forall h :: 0 <= h < |w.handled| ==> HandledOk(w, h))
    && Once(w.handled)
    && PendingOk(w)
  }

  /** A piece of a step that leaves requests and responses alone. */
  ghost predicate NoCall(w: World, r: World) {
    && r.calls == w.calls && r.handled == w.handled
    && r.f.pending == w.f.pending && r.f.msgIdSeq == w.f.msgIdSeq
  }

  lemma NoCallPiece(w: World, r: World)
    requires Correlated(w) && NoCall(w, r)
    ensures Correlated(r)
  {
    forall c | 0 <= c < |w.calls| ensures CallOk(r, c) {
      assert CallOk(w, c);
    }
    forall h | 0 <= h < |w.handled| ensures HandledOk(r, h) {
      assert HandledOk(w, h);
    }
  }

  lemma BeginPiece(w: World, owner: Owner)
    requires Correlated(w)
    ensures Correlated(BeginCall(w, owner).w)
  {
    var r := BeginCall(w, owner).w;
    forall c | 0 <= c < |r.calls| ensures CallOk(r, c) {
      if c < |w.calls| {
        assert CallOk(w, c);
      }
    }
    forall h | 0 <= h < |r.handled| ensures HandledOk(r, h) {
      assert HandledOk(w, h);
    }
  }

  /** A call may move on as long as its future stays settled and what it
      returns is what its future holds. */
  lemma SetPiece(w: World, c: nat, future: Future, phase: CallPhase)
    requires Correlated(w) && c < |w.calls|
    requires future == w.calls[c].future || (!future.Unset? && !future.Value?)
    requires phase.Returned? ==> future.Value? && future.reply == phase.reply
    ensures Correlated(SetCall(w, c, future, phase))
  {
    var r := SetCall(w, c, future, phase);
    forall k | 0 <= k < |r.calls| ensures CallOk(r, k) {
      assert CallOk(w, k);
    }
    forall h | 0 <= h < |r.handled| ensures HandledOk(r, h) {
      assert HandledOk(w, h);
    }
  }

  lemma ForgetPiece(w: World, id: nat)
    requires Correlated(w)
    ensures Correlated(w.(f := Forget(w.f, id)))
  {
    var r := w.(f := Forget(w.f, id));
    forall c | 0 <= c < |w.calls| ensures CallOk(r, c) {
      assert CallOk(w, c);
    }
    forall h | 0 <= h < |w.handled| ensures HandledOk(r, h) {
      assert HandledOk(w, h);
    }
  }

  /** A response nobody waits for. */
  lemma StrayPiece(w: World, r: World, entry: Handled)
    requires Correlated(w) && entry.call.None?
    requires r == w.(handled := w.handled + [entry])
    ensures Correlated(r)
  {
    forall c | 0 <= c < |w.calls| ensures CallOk(r, c) {
      assert CallOk(w, c);
    }
    forall h | 0 <= h < |r.handled| ensures HandledOk(r, h) {
      if h < |w.handled| {
        assert HandledOk(w, h);
      }
    }
  }

  /** The first response to an unset future. */
  lemma MatchPiece(w: World, r: World, c: nat, outcome: Option<Reply>)
    requires Correlated(w) && c < |w.calls| && w.calls[c].future.Unset?
    requires r == w.(handled := w.handled + [Handled(c + 1, outcome, Some(c))],
                     calls := w.calls[c := w.calls[c].(future :=
                       if outcome.Some? then Value(outcome.value, |w.handled|) else Error)])
    ensures Correlated(r)
  {
    forall k | 0 <= k < |r.calls| ensures CallOk(r, k) {
      assert CallOk(w, k);
    }
    assert CallOk(w, c);
    forall h | 0 <= h < |r.handled| ensures HandledOk(r, h) {
      if h < |w.handled| {
        assert HandledOk(w, h);
      }
    }
    forall g, h | 0 <= g < h < |r.handled| && r.handled[g].call.Some? ensures r.handled[h].call != r.handled[g].call {
      assert HandledOk(w, g);
    }
  }

  lemma ResponsePiece(w: World, id: nat, outcome: Option<Reply>)
    requires Correlated(w)
    ensures Correlated(HandleResponse(w, id, outcome))
  {
    hide Correlated, SetCall;
    var r := HandleResponse(w, id, outcome);
    var stray := Handled(id, outcome, None);
    if id !in w.f.pending {
      StrayPiece(w, r, stray);
    } else {
      var c := w.f.pending[id];
      var w1 := w.(f := Forget(w.f, id));
      ForgetPiece(w, id);
      assert id == c + 1 by { PendingFact(w, id); }
      if c < |w.calls| && w.calls[c].future.Unset? {
        SetCallIs(w1.(handled := w.handled + [Handled(id, outcome, Some(c))]), c,
                  if outcome.Some? then Value(outcome.value, |w.handled|) else Error, w.calls[c].phase);
        MatchPiece(w1, r, c, outcome);
      } else {
        StrayPiece(w1, r, stray);
      }
    }
  }

  lemma PendingFact(w: World, id: nat)
    requires Correlated(w) && id in w.f.pending
    ensures id == w.f.pending[id] + 1 && w.f.pending[id] < |w.calls|
  {
  }

  lemma SetCallIs(w: World, c: nat, future: Future, phase: CallPhase)
    requires c < |w.calls|
    ensures SetCall(w, c, future, phase) == w.(calls := w.calls[c := w.calls[c].(future := future, phase := phase)])
  {
  }

  lemma LoopTopPiece(w: World, t: nat)
    ensures NoCall(w, LoopTop(w, t))
  {
  }

  lemma TurnPiece(w: World, t: nat, job: Job, next: int)
    ensures NoCall(w, Turn(w, t, job, next))
  {
  }

  lemma OnResultPiece(cfg: Config, w: World, t: nat, job: Job, start: int, res: SliceResult, scanned: int)
    requires Correlated(w)
    ensures Correlated(OnResult(cfg, w, t, job, start, res, scanned))
  {
    hide Turn, LoopTop, BeginCall;
    var r := OnResult(cfg, w, t, job, start, res, scanned);
    var next := NextStart(cfg, start, res.nonceEnd);
    var w1 := Took(w, job, res, scanned);
    NoCallPiece(w, w1);
    TurnPiece(w1, t, job, next);
    if res.found && !Stale(w.f, job) && res.items == [] {
      SubmitInlinePiece(w1, t, job, res, next);
    } else {
      TurnPiece(WithQueue(w1, job, res.items), t, job, next);
      NoCallPiece(w1, r);
    }
  }

  lemma SubmitInlinePiece(w: World, t: nat, job: Job, res: SliceResult, next: int)
    requires Correlated(w)
    ensures Correlated(SubmitInline(w, t, job, res, next))
  {
    hide Turn, LoopTop, BeginCall;
    var r := SubmitInline(w, t, job, res, next);
    TurnPiece(WithShare(w, t, job, res, Skipped), t, job, next);
    TurnPiece(Unsent(w, t, job, res), t, job, next);
    if res.nonce.None? {
      NoCallPiece(w, r);
    } else {
      BeginPiece(w, ForShare(|w.shares|));
      NoCallPiece(BeginCall(w, ForShare(|w.shares|)).w, r);
    }
  }

  lemma EndSharePiece(w: World, k: nat, reply: Option<Reply>)
    requires Correlated(w) && k < |w.shares|
    ensures Correlated(EndShare(w, k, reply))
  {
    hide LoopTop, Turn;
    var w1 := Settled(w, k, reply);
    var u := w.shares[k].awaiter;
    if u.Some? && Awaits(w, u.value, k) {
      var pc := w.tasks[u.value].pc;
      TurnPiece(w1, u.value, pc.job, pc.next);
    }
    NoCallPiece(w, EndShare(w, k, reply));
  }

  lemma EndCallPiece(cfg: Config, w: World, c: nat, reply: Option<Reply>)
    requires Correlated(w) && c < |w.calls|
    ensures Correlated(EndCall(cfg, w, c, reply))
  {
    hide EndShare, BeginCall;
    var r := EndCall(cfg, w, c, reply);
    match w.calls[c].owner
    case ForShare(k) => if k < |w.shares| { EndSharePiece(w, k, reply); }
    case ForAuthorize => NoCallPiece(w, r);
    case ForSubscribe =>
      BeginPiece(w, ForAuthorize);
      if w.phase == Subscribing(c) && reply.Some? && reply.value.shaped {
        NoCallPiece(BeginCall(w, ForAuthorize).w, r);
      } else {
        NoCallPiece(w, r);
      }
  }

  lemma OnCallPiece(cfg: Config, w: World, c: nat, move: CallMove)
    requires Correlated(w) && c < |w.calls|
    ensures Correlated(OnCall(cfg, w, c, move))
  {
    hide EndCall, SetCall;
    var call := w.calls[c];
    match move
    case Drained => SetPiece(w, c, call.future, Waiting);
    case DrainFails =>
      SetPiece(w, c, call.future, Raised);
      SetCalls(w, c, call.future, Raised);
      EndCallPiece(cfg, SetCall(w, c, call.future, Raised), c, None);
    case Returns =>
      if call.future.Value? {
        SetPiece(w, c, call.future, Returned(call.future.reply));
        SetCalls(w, c, call.future, Returned(call.future.reply));
        EndCallPiece(cfg, SetCall(w, c, call.future, Returned(call.future.reply)), c, Some(call.future.reply));
      } else if call.future.Error? {
        SetPiece(w, c, Error, Raised);
        SetCalls(w, c, Error, Raised);
        EndCallPiece(cfg, SetCall(w, c, Error, Raised), c, None);
      }
    case TimesOut =>
      SetPiece(w, c, Dropped, Raised);
      SetCalls(w, c, Dropped, Raised);
      ForgetPiece(SetCall(w, c, Dropped, Raised), call.id);
      EndCallPiece(cfg, SetCall(w, c, Dropped, Raised).(f := Forget(w.f, call.id)), c, None);
  }

  lemma SetCalls(w: World, c: nat, future: Future, phase: CallPhase)
    requires c < |w.calls|
    ensures var r := SetCall(w, c, future, phase); |r.calls| == |w.calls| && r.f == w.f
  {
  }

  lemma StartSubmitPiece(w: World, k: nat)
    requires Correlated(w) && k < |w.shares|
    ensures Correlated(StartSubmit(w, k))
  {
    hide EndShare;
    BeginPiece(w, ForShare(k));
    var b := BeginCall(w, ForShare(k));
    EndSharePiece(b.w, k, None);
    NoCallPiece(b.w, SetShare(b.w, k, Calling(|w.calls|)));
  }

  lemma OnConnectPiece(cfg: Config, w: World, ok: bool)
    requires Correlated(w)
    ensures Correlated(OnConnect(cfg, w, ok))
  {
    hide BeginCall;
    if ok {
      var n := w.nextTask;
      var w1 := w.(writer := true, tasks := w.tasks[n := Reader], nextTask := n + 1, reader := Some(n), ended := None);
      NoCallPiece(w, w1);
      BeginPiece(w1, ForSubscribe);
      NoCallPiece(BeginCall(w1, ForSubscribe).w, OnConnect(cfg, w, ok));
    } else {
      NoCallPiece(w, OnConnect(cfg, w, ok));
    }
  }

  lemma OnLinePiece(w: World, t: nat, read: Read)
    requires Correlated(w)
    ensures Correlated(OnLine(w, t, read))
  {
    hide HandleResponse;
    if read.Msg? && read.m.Response? {
      ResponsePiece(w, read.m.id, read.m.outcome);
    } else {
      NoCallPiece(w, OnLine(w, t, read));
    }
  }

  lemma CancelSolverPiece(w: World, t: nat)
    requires Correlated(w)
    ensures Correlated(CancelSolver(w, t))
  {
    hide SetCall;
    var w1 := w.(tasks := w.tasks - {t});
    NoCallPiece(w, w1);
    var r := CancelSolver(w, t);
    if t in w.tasks && w.tasks[t].Solver? && w.tasks[t].pc.Solving? {
      NoCallPiece(w1, r);
    } else if r != w1 {
      var k := w.tasks[t].pc.k;
      var c := w.shares[k].st.call;
      SetPiece(w1, c, Dropped, Abandoned);
      NoCallPiece(SetCall(w1, c, Dropped, Abandoned), r);
    }
  }

  lemma OnClosePiece(cfg: Config, w: World, stage: nat)
    requires Correlated(w)
    ensures Correlated(OnClose(cfg, w, stage))
  {
    hide CancelSolver;
    var r := OnClose(cfg, w, stage);
    if stage == 1 && w.solver.Some? {
      CancelSolverPiece(w, w.solver.value);
      NoCallPiece(CancelSolver(w, w.solver.value), r);
    } else if stage >= 4 {
      var w1 := w.(f := ClearJob(w.f));
      forall c | 0 <= c < |w.calls| ensures CallOk(w1, c) {
      assert CallOk(w, c);
    }
      forall h | 0 <= h < |w.handled| ensures HandledOk(w1, h) {
      assert HandledOk(w, h);
    }
      NoCallPiece(w1, r);
    } else {
      NoCallPiece(w, r);
    }
  }

  lemma OnSolverPiece(cfg: Config, w: World, t: nat, pc: SolverPc, move: SolverMove)
    requires Correlated(w)
    ensures Correlated(OnSolver(cfg, w, t, pc, move))
  {
    hide LoopTop, Turn, OnResult;
    var r := OnSolver(cfg, w, t, pc, move);
    match move
    case Continues => LoopTopPiece(w, t); NoCallPiece(w, r);
    case Answers(res, scanned) => if pc.Solving? { OnResultPiece(cfg, w, t, pc.job, pc.start, res, scanned); }
    case Fails(_) => NoCallPiece(w, r);
    case CoolsDown =>
      if pc.Cooling? {
        TurnPiece(w, t, pc.job, pc.start + cfg.noncesPerSlice);
      }
      NoCallPiece(w, r);
  }

  lemma StepKeeps(cfg: Config, w: World, e: Event)
    requires Correlated(w)
    ensures Correlated(Step(cfg, w, e))
  {
    hide OnConnect, OnLine, OnCall, StartSubmit, OnSolver, OnClose;
    match e
    case Connect(ok) => OnConnectPiece(cfg, w, ok);
    case Line(t, read) => OnLinePiece(w, t, read);
    case Calls(c, move) => if c < |w.calls| { OnCallPiece(cfg, w, c, move); }
    case SubmitStarts(k) => if k < |w.shares| { StartSubmitPiece(w, k); }
    case Solves(t, move) => if t in w.tasks && w.tasks[t].Solver? { OnSolverPiece(cfg, w, t, w.tasks[t].pc, move); }
    case CloseStep => if w.phase.Closing? { OnClosePiece(cfg, w, w.phase.stage); }
    case _ => NoCallPiece(w, Step(cfg, w, e));
  }

  lemma {:induction false} Along(cfg: Config, t0: real, ws: seq<World>, es: seq<Event>, i: nat)
    requires Trace(cfg, t0, ws, es) && i < |ws|
    ensures Correlated(ws[i])
  {
    hide Step;
    if i > 0 {
      Along(cfg, t0, ws, es, i - 1);
      StepKeeps(cfg, ws[i - 1], es[i - 1]);
    }
  }

  lemma Reachable(cfg: Config, t0: real, w: World)
    requires Reached(cfg, t0, w)
    ensures Correlated(w)
  {
    hide Trace;
    var ws, es, i :| Trace(cfg, t0, ws, es) && 0 <= i < |ws| && ws[i] == w;
    Along(cfg, t0, ws, es, i);
  }

  // ---- Main results ----

  /** Request ids are never used twice, in this session or any other. */
  lemma IdsAreNeverReused(cfg: Config, t0: real, w: World, c: nat, d: nat)
    requires Reached(cfg, t0, w) && c < d < |w.calls|
    ensures w.calls[c].id < w.calls[d].id
  {
    hide Reached;
    Reachable(cfg, t0, w);
    assert CallOk(w, c) && CallOk(w, d);
  }

  /** A call that returned got the value of one response, with its own id, which
      was handled after the call was made and completed no other call; and no
      other response ever completed this one. */
  lemma ReturnedValueIsItsOwn(cfg: Config, t0: real, w: World, c: nat)
    requires Reached(cfg, t0, w) && c < |w.calls| && w.calls[c].phase.Returned?
    ensures exists h :: && w.calls[c].born <= h < |w.handled|
                        && w.handled[h] == Handled(w.calls[c].id, Some(w.calls[c].phase.reply), Some(c))
                        && forall g :: 0 <= g < |w.handled| && g != h ==> w.handled[g].call != Some(c)
  {
    hide Reached;
    Reachable(cfg, t0, w);
    assert CallOk(w, c);
    var h := w.calls[c].future.at;
    forall g | 0 <= g < |w.handled| && g != h ensures w.handled[g].call != Some(c) {
      assert Once(w.handled);
    }
  }
}
