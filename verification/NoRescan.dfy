/**
 The nonce ranges of the slices. Whatever notifies land at whichever await,
 consecutive slices of a session on one parent go on where the last one ended.
 */
module NoRescan {
  import opened Prelude
  import opened Client
  import opened Session
  import opened SessionStructure

  /** Two neighbouring slices of one session: the first has been concluded, and
      on the same parent the second starts where it said. */
  predicate Linked(a: SliceRec, b: SliceRec) {
    && a.session <= b.session
    && (a.session == b.session ==> a.next.Some?)
    && (a.session == b.session && a.parent == b.parent ==> a.next == Some(b.start))
  }

  predicate Concluded(cfg: Config, s: SliceRec) {
    s.next.Some? ==> s.next.value == NextStart(cfg, s.start, s.used)
  }

  ghost predicate Links(cfg: Config, slices: seq<SliceRec>) {
    && (forall i :: 0 <= i < |slices| ==> Concluded(cfg, slices[i]))
    && (forall i :: 0 <= i < |slices| - 1 ==> Linked(slices[i], slices[i + 1]))
  }

  function LastSession(slices: seq<SliceRec>): int {
    if slices == [] then -1 else slices[|slices| - 1].session
  }

  /** The last record is the slice a busy solver is on. */
  predicate OnSlice(cfg: Config, w: World, pc: SolverPc) {
    && Busy(pc)
    && w.slices != []
    && var s := w.slices[|w.slices| - 1];
    && s.session == w.session && s.next.None? && s.parent == pc.job.parent
    && match pc
       case Solving(_, start) => s.start == start
       case Cooling(_, start) => s.start == start && s.used.None?
       case Submitting(_, next, _) => NextStart(cfg, s.start, s.used) == next
       case _ => false
  }

  ghost predicate SolverOk(cfg: Config, w: World, t: nat)
    requires t in w.tasks
  {
    w.tasks[t].Solver? ==>
      if Busy(w.tasks[t].pc) then OnSlice(cfg, w, w.tasks[t].pc) else LastSession(w.slices) < w.session
  }

  ghost predicate Chained(cfg: Config, w: World) {
    && Links(cfg, w.slices)
    && LastSession(w.slices) <= w.session
    && forall t <- w.tasks :: SolverOk(cfg, w, t)
  }

  /** A piece of a step that starts no slice and moves no solver. */
  ghost predicate NoSlice(w: World, r: World) {
    && r.slices == w.slices && r.session == w.session
    && forall t <- r.tasks :: r.tasks[t].Solver? ==> t in w.tasks && w.tasks[t] == r.tasks[t]
  }

  lemma NoSlicePiece(cfg: Config, w: World, r: World)
    requires Chained(cfg, w) && NoSlice(w, r)
    ensures Chained(cfg, r)
  {
    forall t <- r.tasks ensures SolverOk(cfg, r, t) {
      if r.tasks[t].Solver? {
        assert SolverOk(cfg, w, t);
      }
    }
  }

  /** A piece that moves the one solver, t. */
  lemma SolverPiece(cfg: Config, w: World, r: World, t: nat)
    requires Structured(w) && t in w.tasks && w.tasks[t].Solver? && OnlySolver(w, r, t)
    requires Links(cfg, r.slices) && LastSession(r.slices) <= r.session && SolverOk(cfg, r, t)
    ensures Chained(cfg, r)
  {
    forall u <- r.tasks ensures SolverOk(cfg, r, u) {
      assert TaskOk(w, u) && TaskOk(w, t);
    }
  }

  lemma SetLast(cfg: Config, slices: seq<SliceRec>, s: SliceRec)
    requires Links(cfg, slices) && slices != [] && Concluded(cfg, s)
    requires var l := slices[|slices| - 1]; s.session == l.session && s.parent == l.parent && s.start == l.start
    ensures Links(cfg, slices[|slices| - 1 := s])
  {
    var r := slices[|slices| - 1 := s];
    forall i | 0 <= i < |r| - 1 ensures Linked(r[i], r[i + 1]) {
      assert Linked(slices[i], slices[i + 1]);
    }
  }

  lemma Append(cfg: Config, slices: seq<SliceRec>, s: SliceRec)
    requires Links(cfg, slices) && s.next.None?
    requires slices != [] ==> Linked(slices[|slices| - 1], s)
    ensures Links(cfg, slices + [s])
  {
    var r := slices + [s];
    forall i | 0 <= i < |r| - 1 ensures Linked(r[i], r[i + 1]) {
      if i < |slices| - 1 {
        assert Linked(slices[i], slices[i + 1]);
      }
    }
  }

  /** A new slice of the session, after none or after a concluded one. */
  lemma LoopTopChains(cfg: Config, w: World, t: nat)
    requires Links(cfg, w.slices) && LastSession(w.slices) <= w.session
    requires LastSession(w.slices) == w.session ==>
             && w.f.currentJob.Some? && w.slices[|w.slices| - 1].next.Some?
             && (w.f.currentJob.value.parent == w.slices[|w.slices| - 1].parent ==>
                   w.slices[|w.slices| - 1].next == w.f.currentJob.value.start)
    ensures var r := LoopTop(w, t);
            && Links(cfg, r.slices) && LastSession(r.slices) <= r.session && r.session == w.session
            && t in r.tasks && SolverOk(cfg, r, t)
  {
    if w.f.currentJob.Some? {
      var job := w.f.currentJob.value;
      var start := GetOr(job.start, 0);
      Append(cfg, w.slices, SliceRec(w.session, job.parent, start, start - 1, None, None));
    }
  }

  lemma TurnChains(cfg: Config, w: World, t: nat, job: Job, next: int)
    requires Links(cfg, w.slices) && w.slices != [] && w.f.currentJob.Some?
    requires var s := w.slices[|w.slices| - 1];
             s.session == w.session && s.next.None? && s.parent == job.parent && NextStart(cfg, s.start, s.used) == next
    ensures var r := Turn(w, t, job, next);
            && Links(cfg, r.slices) && LastSession(r.slices) <= r.session && r.session == w.session
            && t in r.tasks && SolverOk(cfg, r, t)
  {
    hide LoopTop;
    var s := w.slices[|w.slices| - 1];
    SetLast(cfg, w.slices, s.(next := Some(next)));
    LoopTopChains(cfg, w.(f := WriteBack(w.f, job, next), slices := Conclude(w.slices, next)), t);
  }

  lemma OnResultChains(cfg: Config, w: World, t: nat, job: Job, start: int, res: SliceResult, scanned: int)
    requires Chained(cfg, w) && Runs(w, t, Solving(job, start)) && w.f.currentJob.Some?
    ensures var r := OnResult(cfg, w, t, job, start, res, scanned);
            && Links(cfg, r.slices) && LastSession(r.slices) <= r.session && r.session == w.session
            && t in r.tasks && SolverOk(cfg, r, t)
  {
    hide Turn, LoopTop, SubmitInline;
    assert SolverOk(cfg, w, t);
    var next := NextStart(cfg, start, res.nonceEnd);
    var used := if Lossy(w, job, res) then None else res.nonceEnd;
    var w1 := Took(w, job, res, scanned);
    var s := w.slices[|w.slices| - 1];
    SetLast(cfg, w.slices, s.(scanned := scanned, used := used));
    if !Lossy(w, job, res) {
      TurnChains(cfg, w1, t, job, next);
      InlineChains(cfg, w1, t, job, res, next);
      TurnChains(cfg, WithQueue(w1, job, res.items), t, job, next);
    }
  }

  lemma InlineChains(cfg: Config, w: World, t: nat, job: Job, res: SliceResult, next: int)
    requires Links(cfg, w.slices) && w.slices != [] && w.f.currentJob.Some?
    requires var s := w.slices[|w.slices| - 1];
             s.session == w.session && s.next.None? && s.parent == job.parent && NextStart(cfg, s.start, s.used) == next
    ensures var r := SubmitInline(w, t, job, res, next);
            && Links(cfg, r.slices) && LastSession(r.slices) <= r.session && r.session == w.session
            && t in r.tasks && SolverOk(cfg, r, t)
  {
    hide Turn, LoopTop;
    var k := |w.shares|;
    TurnChains(cfg, WithShare(w, t, job, res, Skipped), t, job, next);
    TurnChains(cfg, Unsent(w, t, job, res), t, job, next);
  }

  lemma EndShareChains(cfg: Config, w: World, k: nat, reply: Option<Reply>)
    requires Structured(w) && Chained(cfg, w) && k < |w.shares|
    ensures Chained(cfg, EndShare(w, k, reply))
  {
    hide Turn, LoopTop, Structured;
    var w1 := Settled(w, k, reply);
    var u := w.shares[k].awaiter;
    NoTaskPiece(w, w1);
    NoSlicePiece(cfg, w, w1);
    if u.Some? && Awaits(w, u.value, k) {
      var t := u.value;
      var pc := w.tasks[t].pc;
      BusyHasJob(w1, t);
      assert SolverOk(cfg, w1, t);
      TurnChains(cfg, w1, t, pc.job, pc.next);
      TurnPiece(w1, t, pc.job, pc.next);
      SolverPiece(cfg, w1, Turn(w1, t, pc.job, pc.next), t);
    }
  }

  lemma BusyHasJob(w: World, t: nat)
    requires Structured(w) && t in w.tasks && w.tasks[t].Solver? && Busy(w.tasks[t].pc)
    ensures w.f.currentJob.Some?
  {
    assert TaskOk(w, t);
  }

  lemma ServeChains(cfg: Config, w: World)
    requires Structured(w) && Chained(cfg, w) && w.solver.None?
    ensures Chained(cfg, Serve(cfg, w))
  {
    var r := Serve(cfg, w);
    forall t <- r.tasks ensures SolverOk(cfg, r, t) {
      if t in w.tasks {
        assert TaskOk(w, t) && SolverOk(cfg, w, t);
      }
    }
  }

  lemma EndCallChains(cfg: Config, w: World, c: nat, reply: Option<Reply>)
    requires Structured(w) && Chained(cfg, w) && c < |w.calls|
    ensures Chained(cfg, EndCall(cfg, w, c, reply))
  {
    hide EndShare, Serve;
    match w.calls[c].owner
    case ForShare(k) => if k < |w.shares| { EndShareChains(cfg, w, k, reply); }
    case ForAuthorize =>
      if w.phase == Authorizing(c) && reply.Some? && reply.value.truthy {
        ServeChains(cfg, w);
      } else {
        NoSlicePiece(cfg, w, EndCall(cfg, w, c, reply));
      }
    case ForSubscribe => NoSlicePiece(cfg, w, EndCall(cfg, w, c, reply));
  }

  lemma OnCallChains(cfg: Config, w: World, c: nat, move: CallMove)
    requires Structured(w) && Chained(cfg, w) && c < |w.calls|
    ensures Chained(cfg, OnCall(cfg, w, c, move))
  {
    hide EndCall, Structured, Chained;
    var call := w.calls[c];
    match move
    case Drained => CallEnds(cfg, w, w.(calls := SetCall(w, c, call.future, Waiting).calls), c, None);
    case DrainFails => CallEnds(cfg, w, SetCall(w, c, call.future, Raised), c, None);
    case Returns =>
      if call.future.Value? {
        CallEnds(cfg, w, SetCall(w, c, call.future, Returned(call.future.reply)), c, Some(call.future.reply));
      } else {
        CallEnds(cfg, w, SetCall(w, c, Error, Raised), c, None);
      }
    case TimesOut => CallEnds(cfg, w, SetCall(w, c, Dropped, Raised).(f := Forget(w.f, call.id)), c, None);
  }

  lemma CallEnds(cfg: Config, w: World, w1: World, c: nat, reply: Option<Reply>)
    requires Structured(w) && Chained(cfg, w) && c < |w1.calls|
    requires NoTask(w, w1) && NoSlice(w, w1)
    ensures Chained(cfg, w1) && Chained(cfg, EndCall(cfg, w1, c, reply))
  {
    hide EndCall;
    NoTaskPiece(w, w1);
    NoSlicePiece(cfg, w, w1);
    EndCallChains(cfg, w1, c, reply);
  }

  lemma StartSubmitChains(cfg: Config, w: World, k: nat)
    requires Structured(w) && Chained(cfg, w) && k < |w.shares|
    ensures Chained(cfg, StartSubmit(w, k))
  {
    hide EndShare;
    var b := BeginCall(w, ForShare(k));
    NoTaskPiece(w, b.w);
    NoSlicePiece(cfg, w, b.w);
    EndShareChains(cfg, b.w, k, None);
    NoSlicePiece(cfg, w, SetShare(b.w, k, Calling(|w.calls|)));
  }

  lemma OnSolverChains(cfg: Config, w: World, t: nat, move: SolverMove)
    requires Structured(w) && Chained(cfg, w) && t in w.tasks && w.tasks[t].Solver?
    ensures Chained(cfg, OnSolver(cfg, w, t, w.tasks[t].pc, move))
  {
    hide LoopTop, Turn, OnResult;
    assert TaskOk(w, t) && SolverOk(cfg, w, t);
    var pc := w.tasks[t].pc;
    var r := OnSolver(cfg, w, t, pc, move);
    if r != w {
      match move
      case Continues =>
        LoopTopChains(cfg, w, t);
        LoopTopPiece(w, t);
        SolverPiece(cfg, w, r, t);
      case Answers(res, scanned) =>
        OnResultChains(cfg, w, t, pc.job, pc.start, res, scanned);
        OnResultPiece(cfg, w, t, pc.job, pc.start, res, scanned);
        SolverPiece(cfg, w, r, t);
      case Fails(scanned) =>
        SetLast(cfg, w.slices, w.slices[|w.slices| - 1].(scanned := scanned, used := None));
        SolverPiece(cfg, w, r, t);
      case CoolsDown =>
        TurnChains(cfg, w, t, pc.job, pc.start + cfg.noncesPerSlice);
        TurnPiece(w, t, pc.job, pc.start + cfg.noncesPerSlice);
        SolverPiece(cfg, w, r, t);
    }
  }

  lemma OnLineChains(cfg: Config, w: World, t: nat, read: Read)
    requires Chained(cfg, w)
    ensures Chained(cfg, OnLine(w, t, read))
  {
    NoSlicePiece(cfg, w, OnLine(w, t, read));
  }

  lemma OnCloseChains(cfg: Config, w: World, stage: nat)
    requires Chained(cfg, w)
    ensures Chained(cfg, OnClose(cfg, w, stage))
  {
    hide CancelSolver;
    if stage == 1 && w.solver.Some? {
      CancelSolverPiece(w, w.solver.value);
    }
    NoSlicePiece(cfg, w, OnClose(cfg, w, stage));
  }

  lemma StepChains(cfg: Config, w: World, e: Event)
    requires Structured(w) && Chained(cfg, w)
    ensures Chained(cfg, Step(cfg, w, e))
  {
    hide OnLine, OnCall, StartSubmit, OnSolver, OnClose, Structured, Chained;
    match e
    case Line(t, read) => OnLineChains(cfg, w, t, read);
    case Calls(c, move) => if c < |w.calls| { OnCallChains(cfg, w, c, move); }
    case SubmitStarts(k) => if k < |w.shares| { StartSubmitChains(cfg, w, k); }
    case Solves(t, move) => if t in w.tasks && w.tasks[t].Solver? { OnSolverChains(cfg, w, t, move); }
    case CloseStep => if w.phase.Closing? { OnCloseChains(cfg, w, w.phase.stage); }
    case _ => NoSlicePiece(cfg, w, Step(cfg, w, e));
  }

  lemma {:induction false} ChainAlong(cfg: Config, t0: real, ws: seq<World>, es: seq<Event>, i: nat)
    requires Trace(cfg, t0, ws, es) && i < |ws|
    ensures Chained(cfg, ws[i])
  {
    hide Step;
    if i > 0 {
      ChainAlong(cfg, t0, ws, es, i - 1);
      Along(cfg, t0, ws, es, i - 1);
      StepChains(cfg, ws[i - 1], es[i - 1]);
    }
  }

  lemma ChainReachable(cfg: Config, t0: real, w: World)
    requires Reached(cfg, t0, w)
    ensures Chained(cfg, w)
  {
    hide Trace;
    var ws, es, i :| Trace(cfg, t0, ws, es) && 0 <= i < |ws| && ws[i] == w;
    ChainAlong(cfg, t0, ws, es, i);
  }

  // ---- Main results ----

  /** The solver tries no nonce beyond the end it reports, or beyond its budget
      when no reported end is used. */
  predicate Honest(cfg: Config, s: SliceRec) {
    if s.used.Some? && s.used.value > s.start then s.scanned <= s.used.value
    else s.scanned < s.start + cfg.noncesPerSlice
  }

  /** Slices i to j of a run are on one parent, in one session, one after the other. */
  predicate OneRun(slices: seq<SliceRec>, i: nat, j: nat)
    requires i <= j < |slices|
  {
    forall k :: i <= k <= j ==> slices[k].session == slices[i].session && slices[k].parent == slices[i].parent
  }

  lemma {:induction false} RunStarts(cfg: Config, slices: seq<SliceRec>, i: nat, j: nat)
    requires Links(cfg, slices) && i < j < |slices| && OneRun(slices, i, j) && cfg.noncesPerSlice > 0
    ensures slices[i].next.Some? && NextStart(cfg, slices[i].start, slices[i].used) <= slices[j].start
    decreases j
  {
    assert Linked(slices[i], slices[i + 1]) && Concluded(cfg, slices[i]);
    if i + 1 < j {
      RunStarts(cfg, slices, i, j - 1);
      assert Linked(slices[j - 1], slices[j]) && Concluded(cfg, slices[j - 1]);
    }
  }

  /** No re-scan: with a positive budget and an honest solver, everything the
      earlier slice tried lies below where a later slice of its run starts. So
      the ranges of a run are disjoint and strictly increasing, whatever clean
      or other notifies, failures and stale results fell in between. */
  lemma RangesNeverOverlap(cfg: Config, t0: real, w: World, i: nat, j: nat)
    requires Reached(cfg, t0, w) && cfg.noncesPerSlice > 0
    requires i < j < |w.slices| && OneRun(w.slices, i, j) && Honest(cfg, w.slices[i])
    ensures w.slices[i].scanned < w.slices[j].start && w.slices[i].start < w.slices[j].start
  {
    hide Reached;
    ChainReachable(cfg, t0, w);
    RunStarts(cfg, w.slices, i, j);
  }

  /** A reported end stays within the slice budget. */
  predicate WithinBudget(cfg: Config, s: SliceRec) {
    s.used.Some? ==> s.used.value < s.start + cfg.noncesPerSlice
  }

  /** After k consecutive slices on one parent that started at s, the next one
      starts between s + k and s + k * noncesPerSlice. */
  lemma {:induction false} CursorBounds(cfg: Config, t0: real, w: World, i: nat, k: nat)
    requires Reached(cfg, t0, w) && cfg.noncesPerSlice > 0
    requires i + k < |w.slices| && OneRun(w.slices, i, i + k)
    requires forall m :: i <= m < i + k ==> WithinBudget(cfg, w.slices[m])
    ensures w.slices[i].start + k <= w.slices[i + k].start <= w.slices[i].start + k * cfg.noncesPerSlice
    decreases k
  {
    hide Reached;
    ChainReachable(cfg, t0, w);
    if k > 0 {
      var s := w.slices[i + k - 1];
      CursorBounds(cfg, t0, w, i, k - 1);
      assert Linked(s, w.slices[i + k]) && Concluded(cfg, s);
      assert WithinBudget(cfg, s);
    }
  }

  // ---- Who writes what a slice tried into its record ----

  predicate SameScan(a: SliceRec, b: SliceRec) {
    b.session == a.session && b.parent == a.parent && b.start == a.start && b.scanned == a.scanned && b.used == a.used
  }

  /** The record of a slice that has tried nothing yet. */
  predicate Untried(s: SliceRec) {
    s.scanned == s.start - 1 && s.used.None?
  }

  /** The first n records keep what they say was tried; the new ones say nothing was. */
  ghost predicate Kept(a: seq<SliceRec>, b: seq<SliceRec>, n: nat) {
    && n <= |a| <= |b|
    && (forall k :: 0 <= k < n ==> SameScan(a[k], b[k]))
    && (forall k :: |a| <= k < |b| ==> Untried(b[k]))
  }

  lemma TurnKeepsScans(w: World, t: nat, job: Job, next: int)
    ensures Kept(w.slices, Turn(w, t, job, next).slices, |w.slices|)
  {
  }

  lemma EndShareKeepsScans(w: World, k: nat, reply: Option<Reply>)
    requires k < |w.shares|
    ensures Kept(w.slices, EndShare(w, k, reply).slices, |w.slices|)
  {
    hide Turn;
    var u := w.shares[k].awaiter;
    if u.Some? && Awaits(w, u.value, k) {
      TurnKeepsScans(Settled(w, k, reply), u.value, w.tasks[u.value].pc.job, w.tasks[u.value].pc.next);
    }
  }

  lemma EndCallKeepsScans(cfg: Config, w: World, c: nat, reply: Option<Reply>)
    requires c < |w.calls|
    ensures Kept(w.slices, EndCall(cfg, w, c, reply).slices, |w.slices|)
  {
    hide EndShare;
    if w.calls[c].owner.ForShare? && w.calls[c].owner.k < |w.shares| {
      EndShareKeepsScans(w, w.calls[c].owner.k, reply);
    }
  }

  lemma OnCallKeepsScans(cfg: Config, w: World, c: nat, move: CallMove)
    requires c < |w.calls|
    ensures Kept(w.slices, OnCall(cfg, w, c, move).slices, |w.slices|)
  {
    hide EndCall;
    var call := w.calls[c];
    EndCallKeepsScans(cfg, SetCall(w, c, call.future, Raised), c, None);
    EndCallKeepsScans(cfg, SetCall(w, c, Error, Raised), c, None);
    EndCallKeepsScans(cfg, SetCall(w, c, Dropped, Raised).(f := Forget(w.f, call.id)), c, None);
    if call.future.Value? {
      EndCallKeepsScans(cfg, SetCall(w, c, call.future, Returned(call.future.reply)), c, Some(call.future.reply));
    }
  }

  lemma OnSolverKeepsScans(cfg: Config, w: World, t: nat, pc: SolverPc, move: SolverMove)
    requires !move.Answers? && !move.Fails?
    ensures Kept(w.slices, OnSolver(cfg, w, t, pc, move).slices, |w.slices|)
  {
    hide Turn;
    if move.CoolsDown? && pc.Cooling? {
      TurnKeepsScans(w, t, pc.job, pc.start + cfg.noncesPerSlice);
    }
  }

  /** Nothing but the end of a slice writes down what it tried. */
  lemma OnlyEndsScan(cfg: Config, w: World, e: Event)
    requires !(e.Solves? && (e.move.Answers? || e.move.Fails?))
    ensures Kept(w.slices, Step(cfg, w, e).slices, |w.slices|)
  {
    hide OnCall, EndShare, OnSolver;
    match e
    case Calls(c, move) => if c < |w.calls| { OnCallKeepsScans(cfg, w, c, move); }
    case SubmitStarts(k) => if k < |w.shares| { EndShareKeepsScans(BeginCall(w, ForShare(k)).w, k, None); }
    case Solves(t, move) => if t in w.tasks && w.tasks[t].Solver? { OnSolverKeepsScans(cfg, w, t, w.tasks[t].pc, move); }
    case _ =>
  }

  /** The record of the slice that ends: what was tried, and the end it goes on from. */
  lemma EndsScan(cfg: Config, w: World, t: nat, move: SolverMove)
    requires t in w.tasks && w.tasks[t].Solver? && w.tasks[t].pc.Solving? && w.slices != []
    requires move.Answers? || move.Fails?
    ensures var r := Step(cfg, w, Solves(t, move)); var n := |w.slices| - 1;
            && Kept(w.slices, r.slices, n)
            && r.slices[n].start == w.slices[n].start && r.slices[n].scanned == move.scanned
            && (r.slices[n].used.None? || (move.Answers? && r.slices[n].used == move.res.nonceEnd))
  {
    hide Turn, SubmitInline;
    var pc := w.tasks[t].pc;
    match move
    case Answers(res, scanned) =>
      var next := NextStart(cfg, pc.start, res.nonceEnd);
      var w1 := Took(w, pc.job, res, scanned);
      TurnKeepsScans(w1, t, pc.job, next);
      TurnKeepsScans(WithQueue(w1, pc.job, res.items), t, pc.job, next);
      InlineKeepsScans(w1, t, pc.job, res, next);
    case _ =>
  }

  lemma InlineKeepsScans(w: World, t: nat, job: Job, res: SliceResult, next: int)
    ensures Kept(w.slices, SubmitInline(w, t, job, res, next).slices, |w.slices|)
  {
    hide Turn;
    TurnKeepsScans(WithShare(w, t, job, res, Skipped), t, job, next);
    TurnKeepsScans(Unsent(w, t, job, res), t, job, next);
  }
}
