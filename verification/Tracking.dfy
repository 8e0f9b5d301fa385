/**
 In every state of every run the attributes of the client are what its history
 says: the cursor, the reject streak, the heal count and the three timestamps.
 */
module Tracking {
  import opened Prelude
  import opened Client
  import opened Session
  import SessionStructure

  /** No heal is begun or recorded. */
  ghost predicate Quiet(w: World, r: World) {
    && Calm(w.f, r.f)
    && forall t <- r.tasks :: r.tasks[t].Heal? && r.tasks[t].hpc.Restarting? ==> t in w.tasks && w.tasks[t] == r.tasks[t]
  }

  // ---- The attributes follow their history ----

  lemma TurnTracks(w: World, t: nat, job: Job, next: int)
    requires Tracks(w.f)
    ensures var r := Turn(w, t, job, next); Tracks(r.f) && Quiet(w, r)
  {
    var w1 := w.(f := WriteBack(w.f, job, next), slices := Conclude(w.slices, next));
    LoopTopTracks(w1, t);
  }

  lemma LoopTopTracks(w: World, t: nat)
    requires Tracks(w.f)
    ensures var r := LoopTop(w, t); Tracks(r.f) && Quiet(w, r)
  {
  }

  lemma OnResultTracks(cfg: Config, w: World, t: nat, job: Job, start: int, res: SliceResult, scanned: int)
    requires Tracks(w.f)
    ensures var r := OnResult(cfg, w, t, job, start, res, scanned); Tracks(r.f) && Quiet(w, r)
  {
    hide Turn, LoopTop, SubmitInline, Tracks;
    var next := NextStart(cfg, start, res.nonceEnd);
    var w1 := Took(w, job, res, scanned);
    TurnTracks(w1, t, job, next);
    InlineTracks(w1, t, job, res, next);
    TurnTracks(WithQueue(w1, job, res.items), t, job, next);
  }

  lemma InlineTracks(w: World, t: nat, job: Job, res: SliceResult, next: int)
    requires Tracks(w.f)
    ensures var r := SubmitInline(w, t, job, res, next); Tracks(r.f) && Quiet(w, r)
  {
    hide Turn, LoopTop, Tracks;
    TurnTracks(WithShare(w, t, job, res, Skipped), t, job, next);
    TurnTracks(Unsent(w, t, job, res), t, job, next);
  }

  lemma EndShareTracks(w: World, k: nat, reply: Option<Reply>)
    requires Tracks(w.f) && k < |w.shares|
    ensures var r := EndShare(w, k, reply); Tracks(r.f) && Quiet(w, r)
  {
    hide Turn, LoopTop, Tracks;
    var w1 := Settled(w, k, reply);
    var u := w.shares[k].awaiter;
    if u.Some? && Awaits(w, u.value, k) {
      var pc := w.tasks[u.value].pc;
      TurnTracks(w1, u.value, pc.job, pc.next);
    }
  }

  lemma EndCallTracks(cfg: Config, w: World, c: nat, reply: Option<Reply>)
    requires Tracks(w.f) && c < |w.calls|
    ensures var r := EndCall(cfg, w, c, reply); Tracks(r.f) && Quiet(w, r)
  {
    hide EndShare, Tracks;
    match w.calls[c].owner
    case ForShare(k) => if k < |w.shares| { EndShareTracks(w, k, reply); }
    case _ =>
  }

  lemma OnCallTracks(cfg: Config, w: World, c: nat, move: CallMove)
    requires Tracks(w.f) && c < |w.calls|
    ensures var r := OnCall(cfg, w, c, move); Tracks(r.f) && Quiet(w, r)
  {
    hide EndCall, Tracks;
    var call := w.calls[c];
    EndCallTracks(cfg, SetCall(w, c, call.future, Raised), c, None);
    EndCallTracks(cfg, SetCall(w, c, Error, Raised), c, None);
    EndCallTracks(cfg, SetCall(w, c, Dropped, Raised).(f := Forget(w.f, call.id)), c, None);
    if call.future.Value? {
      EndCallTracks(cfg, SetCall(w, c, call.future, Returned(call.future.reply)), c, Some(call.future.reply));
    }
  }

  lemma OnSolverTracks(cfg: Config, w: World, t: nat, pc: SolverPc, move: SolverMove)
    requires Tracks(w.f)
    ensures var r := OnSolver(cfg, w, t, pc, move); Tracks(r.f) && Quiet(w, r)
  {
    hide Tracks, Turn, LoopTop, OnResult;
    match move
    case Continues => LoopTopTracks(w, t);
    case Answers(res, scanned) => if pc.Solving? { OnResultTracks(cfg, w, t, pc.job, pc.start, res, scanned); }
    case CoolsDown => if pc.Cooling? { TurnTracks(w, t, pc.job, pc.start + cfg.noncesPerSlice); }
    case Fails(_) =>
  }

  lemma StartSubmitTracks(w: World, k: nat)
    requires Tracks(w.f) && k < |w.shares|
    ensures var r := StartSubmit(w, k); Tracks(r.f) && Quiet(w, r)
  {
    hide Tracks, EndShare;
    EndShareTracks(BeginCall(w, ForShare(k)).w, k, None);
  }

  lemma OnHealTracks(cfg: Config, w: World, t: nat, pc: HealPc, move: HealMove)
    requires Tracks(w.f)
    ensures Tracks(OnHeal(cfg, w, t, pc, move).f)
  {
    hide Tracks;
  }

  lemma OnConnectTracks(cfg: Config, w: World, ok: bool)
    requires Tracks(w.f)
    ensures var r := OnConnect(cfg, w, ok); Tracks(r.f) && Quiet(w, r)
  {
    hide Tracks;
  }

  lemma OnLineTracks(w: World, t: nat, read: Read)
    requires Tracks(w.f)
    ensures var r := OnLine(w, t, read); Tracks(r.f) && Quiet(w, r)
  {
    hide Tracks;
  }

  lemma OnCloseTracks(cfg: Config, w: World, stage: nat)
    requires Tracks(w.f)
    ensures var r := OnClose(cfg, w, stage); Tracks(r.f) && Quiet(w, r)
  {
    hide Tracks, CancelSolver;
    if stage == 1 && w.solver.Some? {
      CancelTracks(w, w.solver.value);
    }
  }

  lemma CancelTracks(w: World, t: nat)
    requires Tracks(w.f)
    ensures var r := CancelSolver(w, t); Tracks(r.f) && Quiet(w, r)
  {
    hide Tracks;
  }

  lemma StepTracks(cfg: Config, w: World, e: Event)
    requires Tracks(w.f)
    ensures var r := Step(cfg, w, e); Tracks(r.f) && (!e.Heals? ==> Quiet(w, r))
  {
    hide Tracks, OnSolver, StartSubmit, OnCall, OnClose, OnConnect, OnLine, OnHeal;
    match e
    case Calls(c, move) => if c < |w.calls| { OnCallTracks(cfg, w, c, move); }
    case SubmitStarts(k) => if k < |w.shares| { StartSubmitTracks(w, k); }
    case Solves(t, move) => if t in w.tasks && w.tasks[t].Solver? { OnSolverTracks(cfg, w, t, w.tasks[t].pc, move); }
    case Heals(t, move) => if t in w.tasks && w.tasks[t].Heal? { OnHealTracks(cfg, w, t, w.tasks[t].hpc, move); }
    case Connect(ok) => OnConnectTracks(cfg, w, ok);
    case Line(t, read) => OnLineTracks(w, t, read);
    case CloseStep => if w.phase.Closing? { OnCloseTracks(cfg, w, w.phase.stage); }
    case _ =>
  }

  lemma {:induction false} Along(cfg: Config, t0: real, ws: seq<World>, es: seq<Event>, i: nat)
    requires Trace(cfg, t0, ws, es) && i < |ws|
    ensures Tracks(ws[i].f)
  {
    hide Step;
    if i > 0 {
      Along(cfg, t0, ws, es, i - 1);
      StepTracks(cfg, ws[i - 1], es[i - 1]);
    }
  }

  lemma Reachable(cfg: Config, t0: real, w: World)
    requires Reached(cfg, t0, w)
    ensures Tracks(w.f)
  {
    hide Trace;
    var ws, es, i :| Trace(cfg, t0, ws, es) && 0 <= i < |ws| && ws[i] == w;
    Along(cfg, t0, ws, es, i);
  }

  // ---- Main results ----

  /** Cursor refinement: the current job's parent and start are the abstract
      cursor, and every slice ever begun started at it. */
  lemma CursorRefines(cfg: Config, t0: real, w: World)
    requires Reached(cfg, t0, w)
    ensures CursorView(w.f) == CursorOf(w.f.history) && StartsFollow(w.f.history)
  {
    hide Reached;
    Reachable(cfg, t0, w);
  }

  /** The reject count is the number of rejects since the latest accept, heal or
      handshake, the heal count the number of heals since the latest accept. */
  lemma CountsAreExact(cfg: Config, t0: real, w: World)
    requires Reached(cfg, t0, w)
    ensures w.f.consecRejects == Streak(w.f.history) && w.f.healsWithoutAccept == Unhelped(w.f.history)
  {
    hide Reached;
    Reachable(cfg, t0, w);
  }

  /** There is a current job exactly if a notify has come since the job was last
      cleared, and it is the latest notify's in everything but where to start. */
  lemma JobIsTheLatest(cfg: Config, t0: real, w: World)
    requires Reached(cfg, t0, w)
    ensures w.f.currentJob.Some? <==> LatestJob(w.f.history).Some?
    ensures w.f.currentJob.Some? ==> SameWork(w.f.currentJob.value, LatestJob(w.f.history).value)
  {
    hide Reached;
    Reachable(cfg, t0, w);
  }

  /** A notify adopts the job it brings; only where to start may come from before. */
  lemma NotifyAdopts(f: Fields, job: Job, clean: bool)
    ensures var r := OnNotify(f, job, clean);
            && r.jobChanged && r.currentJob.Some? && SameWork(r.currentJob.value, job)
            && r.currentJob.value.start in {job.start, if f.currentJob.Some? then f.currentJob.value.start else None}
  {
  }

  /** A parent change resets the cursor to the pool's broadcast exactly when the
      notify is clean, or nothing was there to carry, or both agree anyway. */
  lemma BroadcastHonouredExactly(f: Fields, job: Job, clean: bool)
    ensures var r := OnNotify(f, job, clean);
            r.currentJob.Some? && r.currentJob.value.parent == job.parent
    ensures OnNotify(f, job, clean).currentJob.value.start == job.start <==>
            clean || f.currentJob.None? || f.currentJob.value.start.None? || f.currentJob.value.start == job.start
  {
  }

  // ---- Slices on an old parent ----

  lemma OldTurn(w: World, t: nat, job: Job, next: int)
    requires Stale(w.f, job)
    ensures Turn(w, t, job, next).f.currentJob == w.f.currentJob
  {
  }

  lemma OldResult(cfg: Config, w: World, t: nat, job: Job, start: int, res: SliceResult, scanned: int)
    requires Stale(w.f, job)
    ensures OnResult(cfg, w, t, job, start, res, scanned).f.currentJob == w.f.currentJob
  {
    hide Turn;
    var w1 := w.(f := SliceAnswered(w.f, w.now), slices := Scanned(w.slices, scanned, res.nonceEnd));
    OldTurn(w1, t, job, NextStart(cfg, start, res.nonceEnd));
  }

  /** The solver is on a slice of this job: inside it, cooling down after it, or
      waiting for the submission of what it found. */
  predicate SliceOf(pc: SolverPc, job: Job) {
    (pc.Solving? || pc.Cooling? || pc.Submitting?) && pc.job == job
  }

  lemma OldShare(w: World, t: nat, job: Job, k: nat, reply: Option<Reply>)
    requires SessionStructure.Structured(w) && k < |w.shares|
    requires t in w.tasks && w.tasks[t].Solver? && SliceOf(w.tasks[t].pc, job) && Stale(w.f, job)
    ensures EndShare(w, k, reply).f.currentJob == w.f.currentJob
  {
    hide Turn;
    var u := w.shares[k].awaiter;
    if u.Some? && Awaits(w, u.value, k) {
      assert SessionStructure.TaskOk(w, u.value) && SessionStructure.TaskOk(w, t);
      OldTurn(Settled(w, k, reply), t, job, w.tasks[t].pc.next);
    }
  }

  lemma OldCallEnds(cfg: Config, w: World, t: nat, job: Job, c: nat, reply: Option<Reply>)
    requires SessionStructure.Structured(w) && c < |w.calls|
    requires t in w.tasks && w.tasks[t].Solver? && SliceOf(w.tasks[t].pc, job) && Stale(w.f, job)
    ensures EndCall(cfg, w, c, reply).f.currentJob == w.f.currentJob
  {
    hide EndShare;
    if w.calls[c].owner.ForShare? && w.calls[c].owner.k < |w.shares| {
      OldShare(w, t, job, w.calls[c].owner.k, reply);
    }
  }

  lemma OldCall(cfg: Config, w: World, t: nat, job: Job, c: nat, move: CallMove)
    requires SessionStructure.Structured(w) && c < |w.calls|
    requires t in w.tasks && w.tasks[t].Solver? && SliceOf(w.tasks[t].pc, job) && Stale(w.f, job)
    ensures OnCall(cfg, w, c, move).f.currentJob == w.f.currentJob
  {
    var call := w.calls[c];
    var dropped := SetCall(w, c, Dropped, Raised).(f := Forget(w.f, call.id));
    hide EndCall, SessionStructure.Structured;
    SessionStructure.NoTaskPiece(w, dropped);
    SessionStructure.NoTaskPiece(w, SetCall(w, c, call.future, Raised));
    SessionStructure.NoTaskPiece(w, SetCall(w, c, Error, Raised));
    OldCallEnds(cfg, SetCall(w, c, call.future, Raised), t, job, c, None);
    OldCallEnds(cfg, SetCall(w, c, Error, Raised), t, job, c, None);
    OldCallEnds(cfg, dropped, t, job, c, None);
    if call.future.Value? {
      var returned := SetCall(w, c, call.future, Returned(call.future.reply));
      SessionStructure.NoTaskPiece(w, returned);
      OldCallEnds(cfg, returned, t, job, c, Some(call.future.reply));
    }
  }

  lemma OldSubmit(w: World, t: nat, job: Job, k: nat)
    requires SessionStructure.Structured(w) && k < |w.shares|
    requires t in w.tasks && w.tasks[t].Solver? && SliceOf(w.tasks[t].pc, job) && Stale(w.f, job)
    ensures StartSubmit(w, k).f.currentJob == w.f.currentJob
  {
    hide EndShare, SessionStructure.Structured;
    var b := BeginCall(w, ForShare(k)).w;
    SessionStructure.NoTaskPiece(w, b);
    OldShare(b, t, job, k, None);
  }

  lemma OldSolver(cfg: Config, w: World, t: nat, job: Job, u: nat, move: SolverMove)
    requires SessionStructure.Structured(w) && u in w.tasks && w.tasks[u].Solver?
    requires t in w.tasks && w.tasks[t].Solver? && SliceOf(w.tasks[t].pc, job) && Stale(w.f, job)
    ensures OnSolver(cfg, w, u, w.tasks[u].pc, move).f.currentJob == w.f.currentJob
  {
    assert SessionStructure.TaskOk(w, u) && SessionStructure.TaskOk(w, t);
    hide Turn, OnResult, SessionStructure.Structured;
    var pc := w.tasks[t].pc;
    match move
    case Continues =>
    case Answers(res, scanned) => if pc.Solving? { OldResult(cfg, w, t, job, pc.start, res, scanned); }
    case Fails(_) =>
    case CoolsDown => if pc.Cooling? { OldTurn(w, t, job, pc.start + cfg.noncesPerSlice); }
  }

  /** While the solver is on a slice whose parent is no longer the tip, nothing but
      a notify and the end of the session changes the current job: however the
      slice ends, by an answer, a find, the end of a submission it waits for, a
      failure or the end of its cool-down, the cursor stays as it is. */
  lemma OldParentNeverWrites(cfg: Config, t0: real, w: World, t: nat, job: Job, e: Event)
    requires Reached(cfg, t0, w) && !e.CloseStep? && !(e.Line? && e.read.Msg? && e.read.m.Notify?)
    requires t in w.tasks && w.tasks[t].Solver? && SliceOf(w.tasks[t].pc, job) && Stale(w.f, job)
    ensures Step(cfg, w, e).f.currentJob == w.f.currentJob
  {
    hide Reached;
    SessionStructure.Reachable(cfg, t0, w);
    hide SessionStructure.Structured, OnCall, StartSubmit, OnSolver, HandleResponse, OnHeal, OnConnect;
    match e
    case Calls(c, move) => if c < |w.calls| { OldCall(cfg, w, t, job, c, move); }
    case SubmitStarts(k) => if k < |w.shares| { OldSubmit(w, t, job, k); }
    case Solves(u, move) => if u in w.tasks && w.tasks[u].Solver? { OldSolver(cfg, w, t, job, u, move); }
    case Line(u, read) => if read.Msg? && read.m.Response? { ResponseKeepsJob(w, read.m.id, read.m.outcome); }
    case Heals(u, move) => if u in w.tasks && w.tasks[u].Heal? { HealKeepsJob(cfg, w, u, w.tasks[u].hpc, move); }
    case Connect(ok) => ConnectKeepsJob(cfg, w, ok);
    case _ =>
  }

  lemma HealKeepsJob(cfg: Config, w: World, t: nat, pc: HealPc, move: HealMove)
    ensures OnHeal(cfg, w, t, pc, move).f.currentJob == w.f.currentJob
  {
  }

  lemma ConnectKeepsJob(cfg: Config, w: World, ok: bool)
    ensures OnConnect(cfg, w, ok).f.currentJob == w.f.currentJob
  {
  }

  lemma ResponseKeepsJob(w: World, id: nat, outcome: Option<Reply>)
    ensures HandleResponse(w, id, outcome).f.currentJob == w.f.currentJob
  {
  }
}
