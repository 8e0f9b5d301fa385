/**
 The delays between sessions over the whole life of the process.
 */
module Reconnect {
  import opened Prelude
  import opened Client
  import opened Session

  function Pow2(k: nat): nat {
    if k == 0 then 1 else 2 * Pow2(k - 1)
  }

  /** The base delay after the k-th failure, counted from 0. */
  function Base(cfg: Config, k: nat): real {
    MinReal(cfg.reconnectInitial * Pow2(k) as real, cfg.reconnectMax)
  }

  predicate Sane(cfg: Config) {
    0.0 <= cfg.reconnectInitial <= cfg.reconnectMax
  }

  // ---- run_forever ----

  /** The delay in force after these sessions. */
  function Backoff(cfg: Config, sessions: seq<Exit>): real {
    if sessions == [] || sessions[|sessions| - 1].ByReturn? then cfg.reconnectInitial
    else MinReal(Backoff(cfg, sessions[..|sessions| - 1]) * 2.0, cfg.reconnectMax)
  }

  /** The base delays slept for, one after each session that raised. */
  function Delays(cfg: Config, sessions: seq<Exit>): seq<real> {
    if sessions == [] then []
    else
      var past := sessions[..|sessions| - 1];
      Delays(cfg, past) + (if sessions[|sessions| - 1].ByReturn? then [] else [Backoff(cfg, past)])
  }

  /** The loop of `run_forever` over any number of sessions. */
  method RunForever(cfg: Config, sessions: seq<Exit>) returns (delays: seq<real>)
    ensures delays == Delays(cfg, sessions)
  {
    delays := [];
    var backoff := cfg.reconnectInitial;
    for k := 0 to |sessions|
      invariant delays == Delays(cfg, sessions[..k]) && backoff == Backoff(cfg, sessions[..k])
    {
      assert sessions[..k + 1][..k] == sessions[..k];
      if sessions[k].ByReturn? {
        backoff := cfg.reconnectInitial;
      } else {
        delays := delays + [backoff];
        backoff := MinReal(backoff * 2.0, cfg.reconnectMax);
      }
    }
    assert sessions[..|sessions|] == sessions;
  }

  predicate AllRaise(sessions: seq<Exit>) {
    forall k :: 0 <= k < |sessions| ==> sessions[k].ByException?
  }

  /** Over sessions that all raise, the delays double up to the maximum. */
  lemma {:induction false} RaisingSessionsDouble(cfg: Config, sessions: seq<Exit>)
    requires Sane(cfg) && AllRaise(sessions)
    ensures Backoff(cfg, sessions) == Base(cfg, |sessions|)
    ensures |Delays(cfg, sessions)| == |sessions|
    ensures forall k :: 0 <= k < |sessions| ==> Delays(cfg, sessions)[k] == Base(cfg, k)
  {
    if sessions != [] {
      RaisingSessionsDouble(cfg, sessions[..|sessions| - 1]);
      Doubles(cfg, |sessions| - 1);
      hide Base;
    }
  }

  // ---- The sessions of a run ----

  /** No session has been left by a return, nor is one about to be. */
  ghost predicate Raising(w: World) {
    && w.exit.ByException? && AllRaise(w.exits)
    && (w.ended.Some? ==> w.ended.value.ByException?)
  }

  /** Delays and delay in force are those of `run_forever` over the sessions so far. */
  ghost predicate Timed(cfg: Config, w: World) {
    && w.delays == Delays(cfg, w.exits)
    && if w.phase.Sleeping? then
         && w.exits != [] && w.exits[|w.exits| - 1].ByException?
         && w.backoff == Backoff(cfg, w.exits[..|w.exits| - 1])
       else w.backoff == Backoff(cfg, w.exits)
  }

  ghost predicate Paced(cfg: Config, w: World) {
    Raising(w) && Timed(cfg, w)
  }

  lemma SessionLeft(cfg: Config, sessions: seq<Exit>, exit: Exit)
    ensures var more := sessions + [exit];
            && Delays(cfg, more) == Delays(cfg, sessions) + (if exit.ByReturn? then [] else [Backoff(cfg, sessions)])
            && (exit.ByReturn? ==> Backoff(cfg, more) == cfg.reconnectInitial)
            && more[..|more| - 1] == sessions
  {
    assert (sessions + [exit])[..|sessions|] == sessions;
  }

  lemma Doubles(cfg: Config, k: nat)
    requires Sane(cfg)
    ensures Base(cfg, k + 1) == MinReal(Base(cfg, k) * 2.0, cfg.reconnectMax)
  {
    var x := cfg.reconnectInitial * Pow2(k) as real;
    assert Pow2(k + 1) as real == 2.0 * Pow2(k) as real;
    assert cfg.reconnectInitial * Pow2(k + 1) as real == x * 2.0;
  }

  lemma {:induction false} NonNegative(cfg: Config, k: nat)
    requires Sane(cfg)
    ensures 0.0 <= Base(cfg, k)
  {
    if k > 0 {
      NonNegative(cfg, k - 1);
      Doubles(cfg, k - 1);
    }
  }

  lemma Rises(cfg: Config, k: nat)
    requires Sane(cfg)
    ensures Base(cfg, k) <= Base(cfg, k + 1)
  {
    Doubles(cfg, k);
    NonNegative(cfg, k);
    hide Pow2;
    var b := Base(cfg, k);
    assert b <= cfg.reconnectMax && b <= b * 2.0;
  }

  /** A piece of a step that works on calls, shares, slices, tasks and fields. */
  ghost predicate Inside(w: World, r: World) {
    r == w.(f := r.f, tasks := r.tasks, calls := r.calls, shares := r.shares, slices := r.slices, handled := r.handled)
  }

  lemma TurnInside(w: World, t: nat, job: Job, next: int)
    ensures Inside(w, LoopTop(w, t)) && Inside(w, Turn(w, t, job, next))
  {
  }

  lemma OnResultInside(cfg: Config, w: World, t: nat, job: Job, start: int, res: SliceResult, scanned: int)
    ensures Inside(w, OnResult(cfg, w, t, job, start, res, scanned))
  {
    hide Turn, LoopTop, SubmitInline;
    var next := NextStart(cfg, start, res.nonceEnd);
    var w1 := Took(w, job, res, scanned);
    TurnInside(w1, t, job, next);
    InlineInside(w1, t, job, res, next);
    TurnInside(WithQueue(w1, job, res.items), t, job, next);
  }

  lemma InlineInside(w: World, t: nat, job: Job, res: SliceResult, next: int)
    ensures Inside(w, SubmitInline(w, t, job, res, next))
  {
    hide Turn, LoopTop;
    TurnInside(WithShare(w, t, job, res, Skipped), t, job, next);
    TurnInside(Unsent(w, t, job, res), t, job, next);
  }

  lemma EndShareInside(w: World, k: nat, reply: Option<Reply>)
    requires k < |w.shares|
    ensures Inside(w, EndShare(w, k, reply))
  {
    hide Turn, LoopTop;
    var w1 := Settled(w, k, reply);
    var u := w.shares[k].awaiter;
    if u.Some? && Awaits(w, u.value, k) {
      var pc := w.tasks[u.value].pc;
      TurnInside(w1, u.value, pc.job, pc.next);
    }
  }

  lemma StartSubmitInside(w: World, k: nat)
    requires k < |w.shares|
    ensures Inside(w, StartSubmit(w, k))
  {
    hide EndShare;
    EndShareInside(BeginCall(w, ForShare(k)).w, k, None);
  }

  lemma OnSolverInside(cfg: Config, w: World, t: nat, pc: SolverPc, move: SolverMove)
    ensures Inside(w, OnSolver(cfg, w, t, pc, move))
  {
    hide OnResult, Turn, LoopTop;
    match move
    case Continues => TurnInside(w, t, Job("", "", None, false, None, None, None, None), 0);
    case Answers(res, scanned) => if pc.Solving? { OnResultInside(cfg, w, t, pc.job, pc.start, res, scanned); }
    case CoolsDown => if pc.Cooling? { TurnInside(w, t, pc.job, pc.start + cfg.noncesPerSlice); }
    case Fails(_) =>
  }

  lemma OnClosePaced(cfg: Config, w: World, stage: nat)
    requires Paced(cfg, w) && w.phase.Closing?
    ensures Paced(cfg, OnClose(cfg, w, stage))
  {
    hide Delays, Backoff, CancelSolver;
    if stage == 1 && w.solver.Some? {
      CancelInside(w, w.solver.value);
    } else if stage >= 4 {
      SessionLeft(cfg, w.exits, w.exit);
    }
  }

  lemma CancelInside(w: World, t: nat)
    ensures Inside(w, CancelSolver(w, t))
  {
  }

  lemma OnConnectPaced(cfg: Config, w: World, ok: bool)
    requires Paced(cfg, w) && w.phase.Connecting?
    ensures Paced(cfg, OnConnect(cfg, w, ok))
  {
    hide Delays, Backoff;
    SessionLeft(cfg, w.exits, ByException);
  }

  /** A round of the reader ends the task by an exception or not at all. */
  lemma OnLinePaced(cfg: Config, w: World, t: nat, read: Read)
    requires Paced(cfg, w)
    ensures Paced(cfg, OnLine(w, t, read))
  {
    hide Delays, Backoff;
  }

  lemma EndCallPaced(cfg: Config, w: World, c: nat, reply: Option<Reply>)
    requires Paced(cfg, w) && c < |w.calls|
    ensures Paced(cfg, EndCall(cfg, w, c, reply))
  {
    hide EndShare, Delays, Backoff;
    match w.calls[c].owner
    case ForShare(k) => if k < |w.shares| { EndShareInside(w, k, reply); }
    case _ =>
  }

  lemma OnCallPaced(cfg: Config, w: World, c: nat, move: CallMove)
    requires Paced(cfg, w) && c < |w.calls|
    ensures Paced(cfg, OnCall(cfg, w, c, move))
  {
    hide EndCall, Delays, Backoff;
    var call := w.calls[c];
    EndCallPaced(cfg, SetCall(w, c, call.future, Raised), c, None);
    EndCallPaced(cfg, SetCall(w, c, Error, Raised), c, None);
    EndCallPaced(cfg, SetCall(w, c, Dropped, Raised).(f := Forget(w.f, call.id)), c, None);
    if call.future.Value? {
      EndCallPaced(cfg, SetCall(w, c, call.future, Returned(call.future.reply)), c, Some(call.future.reply));
    }
  }

  lemma StepPaced(cfg: Config, w: World, e: Event)
    requires Paced(cfg, w)
    ensures Paced(cfg, Step(cfg, w, e))
  {
    hide OnCall, OnSolver, StartSubmit, OnClose, OnConnect, OnLine, Delays;
    match e
    case Calls(c, move) => if c < |w.calls| { OnCallPaced(cfg, w, c, move); }
    case SubmitStarts(k) => if k < |w.shares| { StartSubmitInside(w, k); }
    case Solves(t, move) => if t in w.tasks && w.tasks[t].Solver? { OnSolverInside(cfg, w, t, w.tasks[t].pc, move); }
    case Connect(ok) => if w.phase.Connecting? { OnConnectPaced(cfg, w, ok); }
    case Line(t, read) => OnLinePaced(cfg, w, t, read);
    case CloseStep => if w.phase.Closing? { OnClosePaced(cfg, w, w.phase.stage); }
    case _ =>
  }

  lemma {:induction false} Along(cfg: Config, t0: real, ws: seq<World>, es: seq<Event>, i: nat)
    requires Trace(cfg, t0, ws, es) && i < |ws|
    ensures Paced(cfg, ws[i])
  {
    hide Step;
    if i > 0 {
      Along(cfg, t0, ws, es, i - 1);
      StepPaced(cfg, ws[i - 1], es[i - 1]);
    }
  }

  lemma Reachable(cfg: Config, t0: real, w: World)
    requires Reached(cfg, t0, w)
    ensures Paced(cfg, w)
  {
    hide Trace;
    var ws, es, i :| Trace(cfg, t0, ws, es) && 0 <= i < |ws| && ws[i] == w;
    Along(cfg, t0, ws, es, i);
  }

  /** Every session of a run is left by an exception, because the reader's loop
      ends by one only, and the delays of the run are those of `run_forever`
      over its sessions. */
  lemma EverySessionRaises(cfg: Config, t0: real, w: World)
    requires Reached(cfg, t0, w)
    ensures AllRaise(w.exits) && w.delays == Delays(cfg, w.exits)
  {
    hide Reached, Delays, Backoff;
    Reachable(cfg, t0, w);
  }

  /** So the delay is never reset: the base delay after the k-th failure is
      min(initial * 2^k, max) for the whole life of the process, and never falls. */
  lemma DelaysNeverReset(cfg: Config, t0: real, w: World, k: nat)
    requires Reached(cfg, t0, w) && Sane(cfg) && k < |w.delays|
    ensures |w.delays| == |w.exits|
    ensures w.delays[k] == Base(cfg, k)
    ensures k > 0 ==> w.delays[k - 1] <= w.delays[k]
  {
    hide Reached, Pow2, Delays, Backoff;
    EverySessionRaises(cfg, t0, w);
    RaisingSessionsDouble(cfg, w.exits);
    if k > 0 {
      assert w.delays[k - 1] == Base(cfg, k - 1);
      Rises(cfg, k - 1);
    }
  }

  /** Were one session to return, the delay would start again. */
  lemma AReturnWouldReset(cfg: Config, sessions: seq<Exit>, more: seq<Exit>)
    requires Sane(cfg) && AllRaise(more)
    ensures Backoff(cfg, sessions + [ByReturn] + more) == Base(cfg, |more|)
    decreases |more|
  {
    var all := sessions + [ByReturn] + more;
    if more == [] {
      assert all[|all| - 1] == ByReturn;
    } else {
      var init := more[..|more| - 1];
      assert all[..|all| - 1] == sessions + [ByReturn] + init;
      AReturnWouldReset(cfg, sessions, init);
      Doubles(cfg, |init|);
    }
  }
}
