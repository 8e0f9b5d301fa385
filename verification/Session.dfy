/**
 The client under asyncio: `run_forever`, `_session_once`, the reader, solver,
 metrics and heal tasks, background submit tasks and every `_call`, as a machine
 whose steps are the code between two awaits. Tasks live in one map, so nothing
 in the state forbids two of a kind. The pool, the solver and the clock are the
 environment.
 */
module Session {
  import opened Prelude
  import opened Client

  /** `at` is the place of the response in the history of responses. */
  datatype Future = Unset | Value(reply: Reply, at: nat) | Error | Dropped
  datatype CallPhase = Sending | Waiting | Returned(reply: Reply) | Raised | Abandoned
  datatype Owner = ForSubscribe | ForAuthorize | ForShare(k: nat)

  /** `born` is the number of responses handled before the call was made. */
  datatype Call = Call(id: nat, owner: Owner, future: Future, phase: CallPhase, born: nat)
  datatype Handled = Handled(id: nat, outcome: Option<Reply>, call: Option<nat>)

  datatype ShareState = Queued | Calling(call: nat) | AcceptedShare | RejectedShare | CancelledShare | Skipped

  /** `awaiter` is the solver task that awaits the submission, if one does. */
  datatype Share = Share(job: Job, nonce: Option<int>, isBlock: bool, awaiter: Option<nat>, st: ShareState)

  datatype SolverPc =
    | Fresh
    | AwaitingJob
    | Solving(job: Job, start: int)
    | Submitting(job: Job, next: int, k: nat)
    | Cooling(job: Job, start: int)
  datatype HealPc = Napping | Restarting(decided: real)
  datatype Task = Reader | Solver(pc: SolverPc) | Metrics | Heal(hpc: HealPc)

  datatype Phase =
    | Connecting
    | Subscribing(call: nat)
    | Authorizing(call: nat)
    | Serving
    | Closing(stage: nat)
    | Sleeping

  /** How the body of `_session_once` was left. */
  datatype Exit = ByException | ByReturn

  /** One slice: the nonces from `start` to `scanned` were tried; `used` is the
      reported end if it decided where to go on, `next` where to go on. */
  datatype SliceRec = SliceRec(
    session: nat, parent: string, start: int, scanned: int, used: Option<int>, next: Option<int>)

  datatype World = World(
    now: real,
    f: Fields,
    phase: Phase,
    writer: bool,
    tasks: map<nat, Task>,
    nextTask: nat,
    reader: Option<nat>,
    solver: Option<nat>,
    metrics: Option<nat>,
    heal: Option<nat>,
    calls: seq<Call>,
    handled: seq<Handled>,
    shares: seq<Share>,
    session: nat,
    slices: seq<SliceRec>,
    ended: Option<Exit>,     // how the reader task ended, once it has
    exit: Exit,              // how the body of the session is being left
    exits: seq<Exit>,        // history: how every session so far was left
    backoff: real,
    delays: seq<real>)

  datatype CallMove = Drained | DrainFails | Returns | TimesOut
  datatype SolverMove =
    | Continues
    | Answers(res: SliceResult, scanned: int)
    | Fails(scanned: int)
    | CoolsDown
  datatype HealMove = Wakes | Completes

  datatype Event =
    | Tick(d: real)
    | Connect(ok: bool)
    | Line(t: nat, read: Read)
    | Calls(c: nat, call: CallMove)
    | SubmitStarts(k: nat)
    | Solves(t: nat, move: SolverMove)
    | Heals(t: nat, watch: HealMove)
    | SessionNotices | CloseStep | SleepOver

  function Start(cfg: Config, now: real): World {
    World(now, Initial(now), Connecting, false, map[], 0, None, None, None, None, [], [], [], 0, [],
          None, ByException, [], cfg.reconnectInitial, [])
  }

  // ---- _call ----

  datatype Begun = Begun(w: World, sent: bool)

  /** `_call` up to its first await. Without a writer it raises at once, and
      the request stays registered. */
  function BeginCall(w: World, owner: Owner): Begun {
    var c := Call(w.f.msgIdSeq, owner, Unset, if w.writer then Sending else Raised, |w.handled|);
    Begun(w.(f := Register(w.f, |w.calls|), calls := w.calls + [c]), w.writer)
  }

  function SetCall(w: World, c: nat, future: Future, phase: CallPhase): World
    requires c < |w.calls|
  {
    w.(calls := w.calls[c := w.calls[c].(future := future, phase := phase)])
  }

  /** `_handle_message` on a response. */
  function HandleResponse(w: World, id: nat, outcome: Option<Reply>): World {
    if id !in w.f.pending then
      w.(handled := w.handled + [Handled(id, outcome, None)])
    else
      var c := w.f.pending[id];
      var w1 := w.(f := Forget(w.f, id));
      if c < |w.calls| && w.calls[c].future.Unset? then
        SetCall(w1.(handled := w.handled + [Handled(id, outcome, Some(c))]), c,
                if outcome.Some? then Value(outcome.value, |w.handled|) else Error, w.calls[c].phase)
      else
        w1.(handled := w.handled + [Handled(id, outcome, None)])
  }

  // ---- The solver task ----

  function SetTask(w: World, t: nat, task: Task): World {
    w.(tasks := w.tasks[t := task])
  }

  function SetShare(w: World, k: nat, st: ShareState): World
    requires k < |w.shares|
  {
    w.(shares := w.shares[k := w.shares[k].(st := st)])
  }

  /** Where the solver loop is after its top, up to the next await. */
  function LoopTop(w: World, t: nat): World {
    match w.f.currentJob
    case None => SetTask(w.(f := w.f.(jobChanged := false)), t, Solver(AwaitingJob))
    case Some(job) =>
      var start := GetOr(job.start, 0);
      var rec := SliceRec(w.session, job.parent, start, start - 1, None, None);
      SetTask(w.(f := BeginSlice(w.f, job), slices := w.slices + [rec]), t,
              Solver(if ToSolveChallenge(job).Some? then Solving(job, start) else Cooling(job, start)))
  }

  function Conclude(slices: seq<SliceRec>, next: int): seq<SliceRec> {
    if slices == [] then [] else slices[|slices| - 1 := slices[|slices| - 1].(next := Some(next))]
  }

  function Scanned(slices: seq<SliceRec>, scanned: int, used: Option<int>): seq<SliceRec> {
    if slices == [] then [] else slices[|slices| - 1 := slices[|slices| - 1].(scanned := scanned, used := used)]
  }

  /** From the write-back of one slice to the first await of the next. */
  function Turn(w: World, t: nat, job: Job, next: int): World {
    LoopTop(w.(f := WriteBack(w.f, job, next), slices := Conclude(w.slices, next)), t)
  }

  /** Background submissions, one per share found, in order. */
  function Queue(job: Job, found: seq<(int, bool)>): seq<Share> {
    seq(|found|, i requires 0 <= i < |found| => Share(job, Some(found[i].0), found[i].1, None, Queued))
  }

  function WithShare(w: World, t: nat, job: Job, res: SliceResult, st: ShareState): World {
    w.(shares := w.shares + [Share(job, res.nonce, res.isBlock, Some(t), st)])
  }

  /** The solver's own submission could not be sent. */
  function Unsent(w: World, t: nat, job: Job, res: SliceResult): World {
    var w1 := WithShare(BeginCall(w, ForShare(|w.shares|)).w, t, job, res, RejectedShare);
    w1.(f := Settle(w1.f, None, res.isBlock))
  }

  /** A result without a share list is submitted by the solver task itself. */
  function SubmitInline(w: World, t: nat, job: Job, res: SliceResult, next: int): World {
    var k := |w.shares|;
    var b := BeginCall(w, ForShare(k));
    if res.nonce.None? then Turn(WithShare(w, t, job, res, Skipped), t, job, next)
    else if b.sent then
      SetTask(WithShare(b.w, t, job, res, Calling(|w.calls|)), t, Solver(Submitting(job, next, k)))
    else Turn(Unsent(w, t, job, res), t, job, next)
  }

  /** The share list of this result raises before its end. */
  predicate Lossy(w: World, job: Job, res: SliceResult) {
    res.found && !Stale(w.f, job) && SomeRaises(res.items)
  }

  /** The answer is in: attributes and slice record know it. */
  function Took(w: World, job: Job, res: SliceResult, scanned: int): World {
    w.(f := SliceAnswered(w.f, w.now),
       slices := Scanned(w.slices, scanned, if Lossy(w, job, res) then None else res.nonceEnd))
  }

  function WithQueue(w: World, job: Job, items: seq<Item>): World {
    w.(shares := w.shares + Queue(job, HandOver(items)))
  }

  function OnResult(cfg: Config, w: World, t: nat, job: Job, start: int, res: SliceResult, scanned: int): World {
    var next := NextStart(cfg, start, res.nonceEnd);
    var w1 := Took(w, job, res, scanned);
    if !res.found || Stale(w.f, job) then Turn(w1, t, job, next)
    else if res.items == [] then SubmitInline(w1, t, job, res, next)
    else if Lossy(w, job, res) then SetTask(WithQueue(w1, job, res.items), t, Solver(Cooling(job, start)))
    else Turn(WithQueue(w1, job, res.items), t, job, next)
  }

  // ---- The end of a call ----

  function Verdict(reply: Option<Reply>): Option<bool> {
    if reply.Some? then Some(reply.value.truthy) else None
  }

  /** The outcome of share k is counted. */
  function Settled(w: World, k: nat, reply: Option<Reply>): World
    requires k < |w.shares|
  {
    SetShare(w.(f := Settle(w.f, Verdict(reply), w.shares[k].isBlock)), k,
             if Verdict(reply) == Some(true) then AcceptedShare else RejectedShare)
  }

  /** Solver task t awaits the submission of share k. */
  predicate Awaits(w: World, t: nat, k: nat) {
    t in w.tasks && w.tasks[t].Solver? && w.tasks[t].pc.Submitting? && w.tasks[t].pc.k == k
  }

  /** `_submit_share` after its call: None is an exception. */
  function EndShare(w: World, k: nat, reply: Option<Reply>): World
    requires k < |w.shares|
  {
    var u := w.shares[k].awaiter;
    if u.Some? && Awaits(w, u.value, k)
    then Turn(Settled(w, k, reply), u.value, w.tasks[u.value].pc.job, w.tasks[u.value].pc.next)
    else Settled(w, k, reply)
  }

  /** The handshake is done: a fresh window and fresh tasks. */
  function Serve(cfg: Config, w: World): World {
    var n := w.nextTask;
    var tasks := w.tasks[n := Solver(Fresh)][n + 1 := Metrics];
    w.(f := OpenWindow(w.f, w.now), phase := Serving, session := w.session + 1,
       tasks := if cfg.healEnabled then tasks[n + 2 := Heal(Napping)] else tasks, nextTask := n + 3,
       solver := Some(n), metrics := Some(n + 1), heal := if cfg.healEnabled then Some(n + 2) else w.heal)
  }

  function FailHandshake(w: World): World {
    w.(phase := Closing(0), exit := ByException)
  }

  function EndCall(cfg: Config, w: World, c: nat, reply: Option<Reply>): World
    requires c < |w.calls|
  {
    match w.calls[c].owner
    case ForShare(k) =>
      if k < |w.shares| && w.shares[k].st == Calling(c) then EndShare(w, k, reply) else w
    case ForSubscribe =>
      if w.phase != Subscribing(c) then w
      else if reply.None? || !reply.value.shaped then FailHandshake(w)
      else
        var b := BeginCall(w, ForAuthorize);
        if b.sent then b.w.(phase := Authorizing(|w.calls|)) else FailHandshake(b.w)
    case ForAuthorize =>
      if w.phase != Authorizing(c) then w
      else if reply.None? || !reply.value.truthy then FailHandshake(w)
      else Serve(cfg, w)
  }

  function OnCall(cfg: Config, w: World, c: nat, move: CallMove): World
    requires c < |w.calls|
  {
    var call := w.calls[c];
    match move
    case Drained => if call.phase.Sending? then SetCall(w, c, call.future, Waiting) else w
    case DrainFails =>
      if call.phase.Sending? then EndCall(cfg, SetCall(w, c, call.future, Raised), c, None) else w
    case Returns =>
      if !call.phase.Waiting? then w
      else if call.future.Value? then
        EndCall(cfg, SetCall(w, c, call.future, Returned(call.future.reply)), c, Some(call.future.reply))
      else if call.future.Error? then EndCall(cfg, SetCall(w, c, Error, Raised), c, None)
      else w
    case TimesOut =>
      if call.phase.Waiting? && call.future.Unset? then
        EndCall(cfg, SetCall(w, c, Dropped, Raised).(f := Forget(w.f, call.id)), c, None)
      else w
  }

  /** A background submit task gets its first turn. */
  function StartSubmit(w: World, k: nat): World
    requires k < |w.shares|
  {
    if !w.shares[k].st.Queued? then w
    else
      var b := BeginCall(w, ForShare(k));
      if b.sent then SetShare(b.w, k, Calling(|w.calls|)) else EndShare(b.w, k, None)
  }

  // ---- The session ----

  function OnConnect(cfg: Config, w: World, ok: bool): World {
    if !ok then w.(delays := w.delays + [w.backoff], exits := w.exits + [ByException], phase := Sleeping)
    else
      var n := w.nextTask;
      var w1 := w.(writer := true, tasks := w.tasks[n := Reader], nextTask := n + 1, reader := Some(n), ended := None);
      BeginCall(w1, ForSubscribe).w.(phase := Subscribing(|w.calls|))
  }

  function OnMessage(w: World, m: Message): World {
    match m
    case Response(id, outcome) => HandleResponse(w, id, outcome)
    case Notify(job, clean) => w.(f := OnNotify(w.f, job, clean))
    case _ => w
  }

  /** A round of the reader: it goes on, or the task ends the way the round did. */
  function OnLine(w: World, t: nat, read: Read): World {
    match ReaderRound(read)
    case GoesOn => if read.Msg? then OnMessage(w, read.m) else w
    case Raises => w.(tasks := w.tasks - {t}, ended := Some(ByException))
    case Returns => w.(tasks := w.tasks - {t}, ended := Some(ByReturn))
  }

  /** The solver task is cancelled, and a slice it runs or a submission it awaits
      with it. */
  function CancelSolver(w: World, t: nat): World {
    var w1 := w.(tasks := w.tasks - {t});
    if t in w.tasks && w.tasks[t].Solver? && w.tasks[t].pc.Solving? then w1.(f := SliceCancels(w.f))
    else if t in w.tasks && w.tasks[t].Solver? && w.tasks[t].pc.Submitting? then
      var k := w.tasks[t].pc.k;
      if k < |w.shares| && w.shares[k].st.Calling? && w.shares[k].st.call < |w.calls| then
        SetShare(SetCall(w1, w.shares[k].st.call, Dropped, Abandoned), k, CancelledShare)
      else w1
    else w1
  }

  function DropTask(w: World, t: Option<nat>): World {
    if t.Some? then w.(tasks := w.tasks - {t.value}) else w
  }

  /** `run_forever` after a session, with the job already cleared: a normal return
      resets the delay, an exception sleeps for it. */
  function LeaveSession(cfg: Config, w: World): World {
    var w1 := w.(exits := w.exits + [w.exit]);
    if w.exit.ByReturn? then w1.(backoff := cfg.reconnectInitial, phase := Connecting)
    else w1.(delays := w.delays + [w.backoff], phase := Sleeping)
  }

  /** The `finally` block, one awaited cancellation after another. */
  function OnClose(cfg: Config, w: World, stage: nat): World {
    match stage
    case 0 => DropTask(w, w.reader).(reader := None, phase := Closing(1))
    case 1 => (if w.solver.Some? then CancelSolver(w, w.solver.value) else w).(solver := None, phase := Closing(2))
    case 2 => DropTask(w, w.metrics).(metrics := None, phase := Closing(3))
    case 3 => DropTask(w, w.heal).(heal := None, phase := Closing(4))
    case _ => LeaveSession(cfg, w.(f := ClearJob(w.f), writer := false))
  }

  function MinReal(a: real, b: real): real {
    if a <= b then a else b
  }

  predicate Runs(w: World, t: nat, pc: SolverPc) {
    t in w.tasks && w.tasks[t] == Solver(pc)
  }

  function OnSolver(cfg: Config, w: World, t: nat, pc: SolverPc, move: SolverMove): World {
    match move
    case Continues => if pc.Fresh? || (pc.AwaitingJob? && w.f.jobChanged) then LoopTop(w, t) else w
    case Answers(res, scanned) => if pc.Solving? then OnResult(cfg, w, t, pc.job, pc.start, res, scanned) else w
    case Fails(scanned) =>
      if pc.Solving?
      then SetTask(w.(f := SliceFails(w.f), slices := Scanned(w.slices, scanned, None)), t,
                   Solver(Cooling(pc.job, pc.start)))
      else w
    case CoolsDown => if pc.Cooling? then Turn(w, t, pc.job, pc.start + cfg.noncesPerSlice) else w
  }

  function OnHeal(cfg: Config, w: World, t: nat, pc: HealPc, move: HealMove): World {
    match move
    case Wakes =>
      if pc.Napping? && HealDue(cfg, w.f, w.now) then SetTask(w, t, Heal(Restarting(w.now))) else w
    case Completes =>
      if pc.Restarting? then SetTask(w.(f := RecordHeal(w.f, pc.decided)), t, Heal(Napping)) else w
  }

  /** One atomic step; an event that cannot happen in w leaves w alone. */
  function Step(cfg: Config, w: World, e: Event): World {
    match e
    case Tick(d) => if d >= 0.0 then w.(now := w.now + d) else w
    case Connect(ok) => if w.phase.Connecting? then OnConnect(cfg, w, ok) else w
    case Line(t, read) => if t in w.tasks && w.tasks[t].Reader? then OnLine(w, t, read) else w
    case Calls(c, move) => if c < |w.calls| then OnCall(cfg, w, c, move) else w
    case SubmitStarts(k) => if k < |w.shares| then StartSubmit(w, k) else w
    case Solves(t, move) => if t in w.tasks && w.tasks[t].Solver? then OnSolver(cfg, w, t, w.tasks[t].pc, move) else w
    case Heals(t, move) => if t in w.tasks && w.tasks[t].Heal? then OnHeal(cfg, w, t, w.tasks[t].hpc, move) else w
    case SessionNotices =>
      if w.phase.Serving? && w.reader.Some? && w.reader.value !in w.tasks && w.ended.Some?
      then w.(phase := Closing(0), exit := w.ended.value) else w
    case CloseStep => if w.phase.Closing? then OnClose(cfg, w, w.phase.stage) else w
    case SleepOver =>
      if w.phase.Sleeping?
      then w.(backoff := MinReal(w.backoff * 2.0, cfg.reconnectMax), phase := Connecting) else w
  }

  // ---- Runs ----

  /** A run: any finite sequence of events, and the states it leads through. */
  ghost predicate Trace(cfg: Config, t0: real, ws: seq<World>, es: seq<Event>) {
    && |ws| == |es| + 1 && ws[0] == Start(cfg, t0)
    && forall i {:trigger es[i]} :: 0 <= i < |es| ==> ws[i + 1] == Step(cfg, ws[i], es[i])
  }

  /** A state of some run. */
  ghost predicate Reached(cfg: Config, t0: real, w: World) {
    exists ws, es, i :: Trace(cfg, t0, ws, es) && 0 <= i < |ws| && ws[i] == w
  }

  /** Whatever happens next in a state of some run leads to a state of some run. */
  lemma ReachedIsClosed(cfg: Config, t0: real, w: World, e: Event)
    requires Reached(cfg, t0, w)
    ensures Reached(cfg, t0, Step(cfg, w, e))
  {
    hide Step;
    var ws, es, i :| Trace(cfg, t0, ws, es) && 0 <= i < |ws| && ws[i] == w;
    var more, after := es[..i] + [e], ws[..i + 1] + [Step(cfg, w, e)];
    forall k | 0 <= k < |more| ensures after[k + 1] == Step(cfg, after[k], more[k]) {
      assert k < i ==> more[k] == es[k];
    }
    assert Trace(cfg, t0, after, more) && after[i + 1] == Step(cfg, w, e);
  }

  lemma StartIsReached(cfg: Config, t0: real)
    ensures Reached(cfg, t0, Start(cfg, t0))
  {
    var es: seq<Event> := [];
    assert Trace(cfg, t0, [Start(cfg, t0)], es) && [Start(cfg, t0)][0] == Start(cfg, t0);
  }

  /** Every sequence of events is a run. */
  lemma {:induction false} EveryRunExists(cfg: Config, t0: real, es: seq<Event>) returns (ws: seq<World>)
    ensures Trace(cfg, t0, ws, es)
  {
    hide Step;
    if es == [] {
      ws := [Start(cfg, t0)];
    } else {
      var init := EveryRunExists(cfg, t0, es[..|es| - 1]);
      ws := init + [Step(cfg, init[|es| - 1], es[|es| - 1])];
      forall i | 0 <= i < |es| ensures ws[i + 1] == Step(cfg, ws[i], es[i]) {
        assert i < |es| - 1 ==> es[..|es| - 1][i] == es[i];
      }
    }
  }
}
