/**
 Every call made for a share decides what becomes of it: the pool's answer, an
 exception, or the end of the session.
 */
module ShareVerdicts {
  import opened Prelude
  import opened Client
  import opened Session

  predicate IsOpen(phase: CallPhase) {
    phase.Sending? || phase.Waiting?
  }

  /** What a share has become, by how its call c stands. */
  predicate Fits(st: ShareState, c: nat, phase: CallPhase) {
    match phase
    case Sending => st == Calling(c)
    case Waiting => st == Calling(c)
    case Returned(reply) => st == if reply.truthy then AcceptedShare else RejectedShare
    case Raised => st == RejectedShare
    case Abandoned => st == CancelledShare
  }

  predicate CallOk(w: World, c: nat)
    requires c < |w.calls|
  {
    w.calls[c].owner.ForShare? ==>
      var k := w.calls[c].owner.k; k < |w.shares| && Fits(w.shares[k].st, c, w.calls[c].phase)
  }

  ghost predicate ShareOk(w: World, k: nat)
    requires k < |w.shares|
  {
    var st := w.shares[k].st;
    && (st.Calling? ==> st.call < |w.calls| && w.calls[st.call].owner == ForShare(k))
    && (st.AcceptedShare? || st.RejectedShare? || st.CancelledShare? ==>
          exists c :: 0 <= c < |w.calls| && w.calls[c].owner == ForShare(k))
  }

  /** Calls and shares agree. */
  ghost predicate Agree(w: World) {
    && (forall c :: 0 <= c < |w.calls| ==> CallOk(w, c))
    && (forall k :: 0 <= k < |w.shares| ==> ShareOk(w, k))
  }

  // ---- Pieces of steps ----

  /** No share changes, no call for one begins or ends. */
  ghost predicate NoVerdict(w: World, r: World) {
    && r.shares == w.shares && |w.calls| <= |r.calls|
    && (forall c :: 0 <= c < |w.calls| ==>
          && r.calls[c].owner == w.calls[c].owner
          && (w.calls[c].owner.ForShare? ==>
                r.calls[c].phase == w.calls[c].phase || (IsOpen(r.calls[c].phase) && IsOpen(w.calls[c].phase))))
    && (forall c :: |w.calls| <= c < |r.calls| ==> !r.calls[c].owner.ForShare?)
  }

  lemma NoVerdictPiece(w: World, r: World)
    requires Agree(w) && NoVerdict(w, r)
    ensures Agree(r)
  {
    forall c | 0 <= c < |r.calls| ensures CallOk(r, c) {
      if c < |w.calls| {
        assert CallOk(w, c);
      }
    }
    forall k | 0 <= k < |r.shares| ensures ShareOk(r, k) {
      assert ShareOk(w, k);
      if c :| 0 <= c < |w.calls| && w.calls[c].owner == ForShare(k) {
        assert r.calls[c].owner == ForShare(k);
      }
    }
  }

  lemma AppendPiece(w: World, r: World)
    requires Agree(w) && r.calls == w.calls && w.shares <= r.shares
    requires forall k :: |w.shares| <= k < |r.shares| ==> r.shares[k].st.Queued? || r.shares[k].st.Skipped?
    ensures Agree(r)
  {
    forall c | 0 <= c < |r.calls| ensures CallOk(r, c) {
      assert CallOk(w, c);
    }
    forall k | 0 <= k < |r.shares| ensures ShareOk(r, k) {
      if k < |w.shares| {
        assert ShareOk(w, k);
      }
    }
  }

  /** Call c, of share k, comes to phase p, and the share to the state that fits. */
  lemma EndPiece(w: World, r: World, c: nat, k: nat)
    requires Agree(w) && c < |w.calls| && IsOpen(w.calls[c].phase) && w.calls[c].owner == ForShare(k)
    requires k < |w.shares| && |r.calls| == |w.calls| && |r.shares| == |w.shares|
    requires forall d :: 0 <= d < |w.calls| ==>
               r.calls[d].owner == w.calls[d].owner && (d != c ==> r.calls[d].phase == w.calls[d].phase)
    requires forall j :: 0 <= j < |w.shares| && j != k ==> r.shares[j] == w.shares[j]
    requires Fits(r.shares[k].st, c, r.calls[c].phase)
    ensures Agree(r)
  {
    assert CallOk(w, c);
    forall d | 0 <= d < |r.calls| ensures CallOk(r, d) {
      assert CallOk(w, d);
    }
    forall j | 0 <= j < |r.shares| ensures ShareOk(r, j) {
      assert ShareOk(w, j);
      if j == k {
        assert r.calls[c].owner == ForShare(k);
      } else if d :| 0 <= d < |w.calls| && w.calls[d].owner == ForShare(j) {
        assert r.calls[d].owner == ForShare(j);
      }
    }
  }

  /** A call is begun for share k, which had none. */
  lemma StartPiece(w: World, r: World, k: nat)
    requires Agree(w) && k < |r.shares| && |w.shares| <= |r.shares| <= |w.shares| + 1
    requires if k < |w.shares| then w.shares[k].st.Queued? && |r.shares| == |w.shares| else k == |w.shares|
    requires forall j :: 0 <= j < |w.shares| && j != k ==> r.shares[j] == w.shares[j]
    requires |r.calls| == |w.calls| + 1 && w.calls <= r.calls && r.calls[|w.calls|].owner == ForShare(k)
    requires Fits(r.shares[k].st, |w.calls|, r.calls[|w.calls|].phase)
    ensures Agree(r)
  {
    forall d | 0 <= d < |r.calls| ensures CallOk(r, d) {
      if d < |w.calls| {
        assert CallOk(w, d);
      }
    }
    forall j | 0 <= j < |r.shares| ensures ShareOk(r, j) {
      if j == k {
        assert r.calls[|w.calls|].owner == ForShare(k);
      } else {
        assert ShareOk(w, j);
        if d :| 0 <= d < |w.calls| && w.calls[d].owner == ForShare(j) {
          assert r.calls[d].owner == ForShare(j);
        }
      }
    }
  }

  // ---- Steps ----

  lemma TurnPiece(w: World, t: nat, job: Job, next: int)
    ensures var r := Turn(w, t, job, next); r.shares == w.shares && r.calls == w.calls
  {
  }

  lemma InlineAgrees(w: World, t: nat, job: Job, res: SliceResult, next: int)
    requires Agree(w)
    ensures Agree(SubmitInline(w, t, job, res, next))
  {
    hide Turn, Agree, Settle;
    var r := SubmitInline(w, t, job, res, next);
    TurnPiece(WithShare(w, t, job, res, Skipped), t, job, next);
    TurnPiece(Unsent(w, t, job, res), t, job, next);
    if res.nonce.None? {
      AppendPiece(w, r);
    } else {
      StartPiece(w, r, |w.shares|);
    }
  }

  lemma ResultAgrees(cfg: Config, w: World, t: nat, job: Job, start: int, res: SliceResult, scanned: int)
    requires Agree(w)
    ensures Agree(OnResult(cfg, w, t, job, start, res, scanned))
  {
    hide Turn, Agree, SubmitInline;
    var next := NextStart(cfg, start, res.nonceEnd);
    var w1 := Took(w, job, res, scanned);
    NoVerdictPiece(w, w1);
    InlineAgrees(w1, t, job, res, next);
    TurnPiece(w1, t, job, next);
    TurnPiece(WithQueue(w1, job, res.items), t, job, next);
    AppendPiece(w, WithQueue(w1, job, res.items));
    AgreeOn(WithQueue(w1, job, res.items), OnResult(cfg, w, t, job, start, res, scanned));
    AgreeOn(w, OnResult(cfg, w, t, job, start, res, scanned));
  }

  /** Only calls and shares matter. */
  lemma AgreeOn(w: World, r: World)
    ensures Agree(w) && r.calls == w.calls && r.shares == w.shares ==> Agree(r)
  {
    if Agree(w) && r.calls == w.calls && r.shares == w.shares {
      NoVerdictPiece(w, r);
    }
  }

  /** A call ends: its own share, if it is one's, is settled by the reply. */
  lemma EndCallAgrees(cfg: Config, w: World, w1: World, c: nat, reply: Option<Reply>)
    requires Agree(w) && c < |w.calls| && IsOpen(w.calls[c].phase)
    requires |w1.calls| == |w.calls| && w1.shares == w.shares && w1.calls[c].owner == w.calls[c].owner
    requires forall d :: 0 <= d < |w.calls| && d != c ==> w1.calls[d] == w.calls[d]
    requires w1.calls[c].phase == if reply.Some? then Returned(reply.value) else Raised
    ensures Agree(EndCall(cfg, w1, c, reply))
  {
    hide Agree, Turn, Serve, Settle;
    var r := EndCall(cfg, w1, c, reply);
    assert CallOk(w, c) by { OpenCallOk(w, c); }
    match w.calls[c].owner
    case ForShare(k) =>
      var w2 := Settled(w1, k, reply);
      var u := w1.shares[k].awaiter;
      if u.Some? && Awaits(w1, u.value, k) {
        TurnPiece(w2, u.value, w1.tasks[u.value].pc.job, w1.tasks[u.value].pc.next);
      }
      EndPiece(w, r, c, k);
    case _ =>
      NotShareAgrees(cfg, w, w1, c, reply);
  }

  lemma OpenCallOk(w: World, c: nat)
    requires Agree(w) && c < |w.calls|
    ensures CallOk(w, c)
  {
  }

  lemma NotShareAgrees(cfg: Config, w: World, w1: World, c: nat, reply: Option<Reply>)
    requires Agree(w) && c < |w.calls| && !w.calls[c].owner.ForShare?
    requires |w1.calls| == |w.calls| && w1.shares == w.shares && w1.calls[c].owner == w.calls[c].owner
    requires forall d :: 0 <= d < |w.calls| && d != c ==> w1.calls[d] == w.calls[d]
    ensures Agree(EndCall(cfg, w1, c, reply))
  {
    hide Agree;
    NoVerdictPiece(w, EndCall(cfg, w1, c, reply));
  }

  lemma OnCallAgrees(cfg: Config, w: World, c: nat, move: CallMove)
    requires Agree(w) && c < |w.calls|
    ensures Agree(OnCall(cfg, w, c, move))
  {
    hide Agree, EndCall;
    var call := w.calls[c];
    match move
    case Drained => NoVerdictPiece(w, OnCall(cfg, w, c, move));
    case DrainFails =>
      if call.phase.Sending? { EndCallAgrees(cfg, w, SetCall(w, c, call.future, Raised), c, None); }
    case Returns =>
      if call.phase.Waiting? && call.future.Value? {
        EndCallAgrees(cfg, w, SetCall(w, c, call.future, Returned(call.future.reply)), c, Some(call.future.reply));
      } else if call.phase.Waiting? && call.future.Error? {
        EndCallAgrees(cfg, w, SetCall(w, c, Error, Raised), c, None);
      }
    case TimesOut =>
      if call.phase.Waiting? && call.future.Unset? {
        EndCallAgrees(cfg, w, SetCall(w, c, Dropped, Raised).(f := Forget(w.f, call.id)), c, None);
      }
  }

  lemma StartSubmitAgrees(w: World, k: nat)
    requires Agree(w) && k < |w.shares|
    ensures Agree(StartSubmit(w, k))
  {
    hide Agree, Turn, Settle;
    if w.shares[k].st.Queued? {
      var b := BeginCall(w, ForShare(k)).w;
      var u := w.shares[k].awaiter;
      if u.Some? && Awaits(b, u.value, k) {
        TurnPiece(Settled(b, k, None), u.value, b.tasks[u.value].pc.job, b.tasks[u.value].pc.next);
      }
      StartPiece(w, StartSubmit(w, k), k);
    }
  }

  lemma CancelAgrees(w: World, t: nat)
    requires Agree(w)
    ensures Agree(CancelSolver(w, t))
  {
    hide Agree;
    var r := CancelSolver(w, t);
    if t in w.tasks && w.tasks[t].Solver? && w.tasks[t].pc.Submitting? && w.tasks[t].pc.k < |w.shares|
       && w.shares[w.tasks[t].pc.k].st.Calling? && w.shares[w.tasks[t].pc.k].st.call < |w.calls|
    {
      var k := w.tasks[t].pc.k;
      CallingIsOpen(w, k);
      EndPiece(w, r, w.shares[k].st.call, k);
    } else {
      NoVerdictPiece(w, r);
    }
  }

  lemma CallingIsOpen(w: World, k: nat)
    requires Agree(w) && k < |w.shares| && w.shares[k].st.Calling?
    ensures var c := w.shares[k].st.call; c < |w.calls| && w.calls[c].owner == ForShare(k) && IsOpen(w.calls[c].phase)
  {
    assert ShareOk(w, k);
    assert CallOk(w, w.shares[k].st.call);
  }

  lemma CloseAgrees(cfg: Config, w: World, stage: nat)
    requires Agree(w)
    ensures Agree(OnClose(cfg, w, stage))
  {
    hide Agree, CancelSolver, ClearJob;
    if stage == 1 && w.solver.Some? {
      CancelAgrees(w, w.solver.value);
      NoVerdictPiece(CancelSolver(w, w.solver.value), OnClose(cfg, w, stage));
    } else {
      NoVerdictPiece(w, OnClose(cfg, w, stage));
    }
  }

  lemma LineAgrees(w: World, t: nat, read: Read)
    requires Agree(w)
    ensures Agree(OnLine(w, t, read))
  {
    hide Agree, OnNotify, Forget;
    NoVerdictPiece(w, OnLine(w, t, read));
  }

  lemma SolverAgrees(cfg: Config, w: World, t: nat, pc: SolverPc, move: SolverMove)
    requires Agree(w)
    ensures Agree(OnSolver(cfg, w, t, pc, move))
  {
    hide Agree, OnResult, Turn, BeginSlice;
    match move
    case Answers(res, scanned) => if pc.Solving? { ResultAgrees(cfg, w, t, pc.job, pc.start, res, scanned); }
    case CoolsDown =>
      if pc.Cooling? {
        TurnPiece(w, t, pc.job, pc.start + cfg.noncesPerSlice);
        AgreeOn(w, OnSolver(cfg, w, t, pc, move));
      }
    case _ => AgreeOn(w, OnSolver(cfg, w, t, pc, move));
  }

  lemma StepAgrees(cfg: Config, w: World, e: Event)
    requires Agree(w)
    ensures Agree(Step(cfg, w, e))
  {
    hide Agree, OnCall, StartSubmit, OnSolver, OnClose, OnLine, OnHeal, OnConnect;
    match e
    case Calls(c, move) => if c < |w.calls| { OnCallAgrees(cfg, w, c, move); }
    case SubmitStarts(k) => if k < |w.shares| { StartSubmitAgrees(w, k); }
    case Solves(t, move) => if t in w.tasks && w.tasks[t].Solver? { SolverAgrees(cfg, w, t, w.tasks[t].pc, move); }
    case Line(t, read) => LineAgrees(w, t, read);
    case CloseStep => if w.phase.Closing? { CloseAgrees(cfg, w, w.phase.stage); }
    case Connect(ok) => ConnectAgrees(cfg, w, ok);
    case Heals(t, move) => if t in w.tasks && w.tasks[t].Heal? { HealAgrees(cfg, w, t, w.tasks[t].hpc, move); }
    case _ => AgreeOn(w, Step(cfg, w, e));
  }

  lemma ConnectAgrees(cfg: Config, w: World, ok: bool)
    requires Agree(w)
    ensures Agree(OnConnect(cfg, w, ok))
  {
    hide Agree;
    NoVerdictPiece(w, OnConnect(cfg, w, ok));
  }

  lemma HealAgrees(cfg: Config, w: World, t: nat, pc: HealPc, move: HealMove)
    requires Agree(w)
    ensures Agree(OnHeal(cfg, w, t, pc, move))
  {
    hide Agree;
    AgreeOn(w, OnHeal(cfg, w, t, pc, move));
  }

  lemma {:induction false} Along(cfg: Config, t0: real, ws: seq<World>, es: seq<Event>, i: nat)
    requires Trace(cfg, t0, ws, es) && i < |ws|
    ensures Agree(ws[i])
  {
    hide Step;
    if i > 0 {
      Along(cfg, t0, ws, es, i - 1);
      StepAgrees(cfg, ws[i - 1], es[i - 1]);
    }
  }

  lemma Reachable(cfg: Config, t0: real, w: World)
    requires Reached(cfg, t0, w)
    ensures Agree(w)
  {
    hide Trace;
    var ws, es, i :| Trace(cfg, t0, ws, es) && 0 <= i < |ws| && ws[i] == w;
    Along(cfg, t0, ws, es, i);
  }

  // ---- Main results ----

  /** In every state of every run, what has become of a share is what its call says:
      accepted if the pool's answer was true, rejected if it was not or the call
      raised, cancelled if the solver was cancelled while it waited, and otherwise
      still on its way with that call. */
  lemma CallsDecide(cfg: Config, t0: real, w: World, c: nat)
    requires Reached(cfg, t0, w) && c < |w.calls| && w.calls[c].owner.ForShare?
    ensures var k, phase := w.calls[c].owner.k, w.calls[c].phase;
            && k < |w.shares|
            && (phase.Sending? || phase.Waiting? ==> w.shares[k].st == Calling(c))
            && (phase.Returned? ==> w.shares[k].st == if phase.reply.truthy then AcceptedShare else RejectedShare)
            && (phase.Raised? ==> w.shares[k].st == RejectedShare)
            && (phase.Abandoned? ==> w.shares[k].st == CancelledShare)
  {
    hide Reached;
    Reachable(cfg, t0, w);
    assert CallOk(w, c);
  }

  /** A share is accepted exactly if a call made for it came back with a true
      answer; none is accepted, rejected or cancelled without a call. */
  lemma AcceptedExactly(cfg: Config, t0: real, w: World, k: nat)
    requires Reached(cfg, t0, w) && k < |w.shares|
    ensures w.shares[k].st.AcceptedShare? <==>
              exists c :: 0 <= c < |w.calls| && w.calls[c].owner == ForShare(k)
                          && w.calls[c].phase.Returned? && w.calls[c].phase.reply.truthy
    ensures w.shares[k].st.RejectedShare? || w.shares[k].st.CancelledShare? ==>
              exists c :: 0 <= c < |w.calls| && w.calls[c].owner == ForShare(k)
  {
    hide Reached;
    Reachable(cfg, t0, w);
    assert ShareOk(w, k);
    forall c | 0 <= c < |w.calls| && w.calls[c].owner == ForShare(k) ensures CallOk(w, c) {
    }
  }

  /** How a call can end. A write that fails, an error response and a time-out raise; a
      value is returned as it came; a time-out forgets the request. Nothing else ends
      it, and no other call is touched. */
  lemma CallMovesExactly(cfg: Config, w: World, c: nat, move: CallMove)
    requires c < |w.calls|
    ensures var r, call := Step(cfg, w, Calls(c, move)), w.calls[c];
            && |w.calls| <= |r.calls|
            && (forall d :: 0 <= d < |w.calls| && d != c ==> r.calls[d] == w.calls[d])
            && r.calls[c].phase ==
                 if move.Drained? && call.phase.Sending? then Waiting
                 else if move.DrainFails? && call.phase.Sending? then Raised
                 else if move.Returns? && call.phase.Waiting? && call.future.Value? then Returned(call.future.reply)
                 else if move.Returns? && call.phase.Waiting? && call.future.Error? then Raised
                 else if move.TimesOut? && call.phase.Waiting? && call.future.Unset? then Raised
                 else call.phase
    ensures var r, call := Step(cfg, w, Calls(c, move)), w.calls[c];
            move.TimesOut? && call.phase.Waiting? && call.future.Unset? ==>
              r.calls[c].future.Dropped? && (call.id != w.f.msgIdSeq ==> call.id !in r.f.pending)
  {
    hide EndCall;
    var call := w.calls[c];
    EndKeepsCalls(cfg, SetCall(w, c, call.future, Raised), c, None);
    EndKeepsCalls(cfg, SetCall(w, c, Error, Raised), c, None);
    EndKeepsCalls(cfg, SetCall(w, c, Dropped, Raised).(f := Forget(w.f, call.id)), c, None);
    if call.future.Value? {
      EndKeepsCalls(cfg, SetCall(w, c, call.future, Returned(call.future.reply)), c, Some(call.future.reply));
    }
  }

  /** The end of a call may begin another one, and no more. */
  lemma EndKeepsCalls(cfg: Config, w: World, c: nat, reply: Option<Reply>)
    requires c < |w.calls|
    ensures var r := EndCall(cfg, w, c, reply);
            && w.calls <= r.calls
            && forall id :: id in r.f.pending && id != w.f.msgIdSeq ==> id in w.f.pending
  {
    hide Turn, Serve, Settle;
    var u := if w.calls[c].owner.ForShare? && w.calls[c].owner.k < |w.shares|
             then w.shares[w.calls[c].owner.k].awaiter else None;
    if u.Some? && Awaits(w, u.value, w.calls[c].owner.k) {
      var k := w.calls[c].owner.k;
      TurnKeepsPending(Settled(w, k, reply), u.value, w.tasks[u.value].pc.job, w.tasks[u.value].pc.next);
    }
    SettleKeepsPending(w, reply);
    ServeKeepsPending(cfg, w);
  }

  lemma TurnKeepsPending(w: World, t: nat, job: Job, next: int)
    ensures var r := Turn(w, t, job, next); r.calls == w.calls && r.f.pending == w.f.pending
  {
  }

  lemma SettleKeepsPending(w: World, reply: Option<Reply>)
    ensures forall isBlock :: Settle(w.f, Verdict(reply), isBlock).pending == w.f.pending
  {
  }

  lemma ServeKeepsPending(cfg: Config, w: World)
    ensures var r := Serve(cfg, w); r.calls == w.calls && r.f.pending == w.f.pending
  {
  }

  /** A queued share is sent at its first turn if there is a connection, and counts as
      rejected at once if there is none. */
  lemma SubmitsExactly(cfg: Config, w: World, k: nat)
    requires k < |w.shares| && w.shares[k].st.Queued? && w.shares[k].awaiter.None?
    ensures var r, c := Step(cfg, w, SubmitStarts(k)), |w.calls|;
            && |r.calls| == c + 1 && r.calls[c].owner == ForShare(k) && r.calls[c].id == w.f.msgIdSeq
            && r.shares == w.shares[k := w.shares[k].(st := if w.writer then Calling(c) else RejectedShare)]
            && (w.writer ==> r.calls[c].phase.Sending? && r.f.sharesRejected == w.f.sharesRejected)
            && (!w.writer ==> r.calls[c].phase.Raised? && r.f.sharesRejected == w.f.sharesRejected + 1
                              && r.f.consecRejects == w.f.consecRejects + 1)
  {
  }

  /** The end of a session takes the solver down, and with it the call and the share it
      waits for; it touches no other share. */
  lemma TeardownCancels(cfg: Config, w: World, t: nat)
    requires Agree(w) && w.phase == Closing(1) && w.solver == Some(t) && t in w.tasks && w.tasks[t].Solver?
    ensures var r, pc := Step(cfg, w, CloseStep), w.tasks[t].pc;
            && t !in r.tasks && r.solver.None? && r.phase == Closing(2) && |r.shares| == |w.shares|
            && (forall k :: 0 <= k < |w.shares| && !(pc.Submitting? && pc.k == k) ==> r.shares[k] == w.shares[k])
            && (pc.Submitting? && pc.k < |w.shares| && w.shares[pc.k].st.Calling? ==>
                  && r.shares[pc.k].st == CancelledShare
                  && var c := w.shares[pc.k].st.call; c < |r.calls| && r.calls[c].phase == Abandoned)
  {
    hide Agree;
    var pc := w.tasks[t].pc;
    if pc.Submitting? && pc.k < |w.shares| && w.shares[pc.k].st.Calling? {
      CallingIsOpen(w, pc.k);
    }
  }
}
