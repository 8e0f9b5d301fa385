/**
 Every step of a run of the session machine is, for the attributes of the client,
 a sequence of stretches of the class, so the class follows every run.
 */
module ClientRuns {
  import opened Prelude
  import opened Client
  import opened Session
  import StratumClient

  type Act = StratumClient.Act

  /** r is f after some stretches. */
  ghost predicate Follows(f: Fields, r: Fields) {
    exists acts: seq<Act> :: StratumClient.PerformAll(f, acts) == r
  }

  lemma Stays(f: Fields)
    ensures Follows(f, f)
  {
    var none: seq<Act> := [];
    assert StratumClient.PerformAll(f, none) == f;
  }

  lemma Then(f: Fields, g: Fields, a: Act)
    requires Follows(f, g)
    ensures Follows(f, StratumClient.Perform(g, a))
  {
    var acts: seq<Act> :| StratumClient.PerformAll(f, acts) == g;
    var more := acts + [a];
    assert more[..|more| - 1] == acts;
    assert StratumClient.PerformAll(f, more) == StratumClient.Perform(g, a);
  }

  lemma LoopTopFollows(f: Fields, w: World, t: nat)
    requires Follows(f, w.f)
    ensures Follows(f, LoopTop(w, t).f)
  {
    hide Follows;
    Then(f, w.f, StratumClient.Tops);
  }

  lemma TurnFollows(f: Fields, w: World, t: nat, job: Job, next: int)
    requires Follows(f, w.f)
    ensures Follows(f, Turn(w, t, job, next).f)
  {
    hide Follows, LoopTop;
    var w1 := w.(f := WriteBack(w.f, job, next), slices := Conclude(w.slices, next));
    Then(f, w.f, StratumClient.Writes(job, next));
    LoopTopFollows(f, w1, t);
  }

  lemma InlineFollows(f: Fields, w: World, t: nat, job: Job, res: SliceResult, next: int)
    requires Follows(f, w.f)
    ensures Follows(f, SubmitInline(w, t, job, res, next).f)
  {
    hide Follows, Turn;
    TurnFollows(f, WithShare(w, t, job, res, Skipped), t, job, next);
    Then(f, w.f, StratumClient.Registers(|w.calls|));
    var b := BeginCall(w, ForShare(|w.shares|)).w;
    Then(f, b.f, StratumClient.Settles(None, res.isBlock));
    TurnFollows(f, Unsent(w, t, job, res), t, job, next);
  }

  lemma ResultFollows(cfg: Config, f: Fields, w: World, t: nat, job: Job, start: int, res: SliceResult, scanned: int)
    requires Follows(f, w.f)
    ensures Follows(f, OnResult(cfg, w, t, job, start, res, scanned).f)
  {
    hide Follows, Turn, SubmitInline;
    var next := NextStart(cfg, start, res.nonceEnd);
    var w1 := Took(w, job, res, scanned);
    Then(f, w.f, StratumClient.Answers(w.now));
    TurnFollows(f, w1, t, job, next);
    InlineFollows(f, w1, t, job, res, next);
    TurnFollows(f, WithQueue(w1, job, res.items), t, job, next);
  }

  lemma ShareFollows(f: Fields, w: World, k: nat, reply: Option<Reply>)
    requires Follows(f, w.f) && k < |w.shares|
    ensures Follows(f, EndShare(w, k, reply).f)
  {
    hide Follows, Turn;
    Then(f, w.f, StratumClient.Settles(Verdict(reply), w.shares[k].isBlock));
    var u := w.shares[k].awaiter;
    if u.Some? && Awaits(w, u.value, k) {
      TurnFollows(f, Settled(w, k, reply), u.value, w.tasks[u.value].pc.job, w.tasks[u.value].pc.next);
    }
  }

  lemma EndCallFollows(cfg: Config, f: Fields, w: World, c: nat, reply: Option<Reply>)
    requires Follows(f, w.f) && c < |w.calls|
    ensures Follows(f, EndCall(cfg, w, c, reply).f)
  {
    hide Follows, EndShare;
    Then(f, w.f, StratumClient.Registers(|w.calls|));
    Then(f, w.f, StratumClient.Opens(w.now));
    match w.calls[c].owner
    case ForShare(k) => if k < |w.shares| { ShareFollows(f, w, k, reply); }
    case _ =>
  }

  lemma OnCallFollows(cfg: Config, f: Fields, w: World, c: nat, move: CallMove)
    requires Follows(f, w.f) && c < |w.calls|
    ensures Follows(f, OnCall(cfg, w, c, move).f)
  {
    hide Follows, EndCall;
    var call := w.calls[c];
    Then(f, w.f, StratumClient.Forgets(call.id));
    EndCallFollows(cfg, f, SetCall(w, c, call.future, Raised), c, None);
    EndCallFollows(cfg, f, SetCall(w, c, Error, Raised), c, None);
    EndCallFollows(cfg, f, SetCall(w, c, Dropped, Raised).(f := Forget(w.f, call.id)), c, None);
    if call.future.Value? {
      EndCallFollows(cfg, f, SetCall(w, c, call.future, Returned(call.future.reply)), c, Some(call.future.reply));
    }
  }

  lemma StartSubmitFollows(f: Fields, w: World, k: nat)
    requires Follows(f, w.f) && k < |w.shares|
    ensures Follows(f, StartSubmit(w, k).f)
  {
    hide Follows, EndShare;
    Then(f, w.f, StratumClient.Registers(|w.calls|));
    ShareFollows(f, BeginCall(w, ForShare(k)).w, k, None);
  }

  lemma OnSolverFollows(cfg: Config, f: Fields, w: World, t: nat, pc: SolverPc, move: SolverMove)
    requires Follows(f, w.f)
    ensures Follows(f, OnSolver(cfg, w, t, pc, move).f)
  {
    hide Follows, LoopTop, Turn, OnResult;
    match move
    case Continues => LoopTopFollows(f, w, t);
    case Answers(res, scanned) => if pc.Solving? { ResultFollows(cfg, f, w, t, pc.job, pc.start, res, scanned); }
    case Fails(_) => Then(f, w.f, StratumClient.Fails);
    case CoolsDown => if pc.Cooling? { TurnFollows(f, w, t, pc.job, pc.start + cfg.noncesPerSlice); }
  }

  lemma OnLineFollows(f: Fields, w: World, t: nat, read: Read)
    requires Follows(f, w.f)
    ensures Follows(f, OnLine(w, t, read).f)
  {
    hide Follows, HandleResponse;
    if read.Msg? {
      Then(f, w.f, StratumClient.Hears(read.m));
      if read.m.Response? {
        ResponseForgets(w, read.m.id, read.m.outcome);
      }
    }
  }

  lemma ResponseForgets(w: World, id: nat, outcome: Option<Reply>)
    ensures HandleResponse(w, id, outcome).f == Client.OnMessage(w.f, Response(id, outcome))
  {
  }

  lemma OnCloseFollows(cfg: Config, f: Fields, w: World, stage: nat)
    requires Follows(f, w.f)
    ensures Follows(f, OnClose(cfg, w, stage).f)
  {
    hide Follows;
    Then(f, w.f, StratumClient.Clears);
    Then(f, w.f, StratumClient.Cancels);
  }

  lemma StepFollows(cfg: Config, f: Fields, w: World, e: Event)
    requires Follows(f, w.f)
    ensures Follows(f, Step(cfg, w, e).f)
  {
    hide Follows, OnCall, StartSubmit, OnSolver, OnLine, OnClose;
    match e
    case Calls(c, move) => if c < |w.calls| { OnCallFollows(cfg, f, w, c, move); }
    case SubmitStarts(k) => if k < |w.shares| { StartSubmitFollows(f, w, k); }
    case Solves(t, move) => if t in w.tasks && w.tasks[t].Solver? { OnSolverFollows(cfg, f, w, t, w.tasks[t].pc, move); }
    case Line(t, read) => OnLineFollows(f, w, t, read);
    case CloseStep => if w.phase.Closing? { OnCloseFollows(cfg, f, w, w.phase.stage); }
    case Heals(t, move) =>
      if t in w.tasks && w.tasks[t].Heal? && w.tasks[t].hpc.Restarting? {
        Then(f, w.f, StratumClient.Heals(w.tasks[t].hpc.decided));
      }
    case Connect(_) => Then(f, w.f, StratumClient.Registers(|w.calls|));
    case _ =>
  }

  lemma {:induction false} FollowsAlong(cfg: Config, t0: real, ws: seq<World>, es: seq<Event>, i: nat)
    requires Trace(cfg, t0, ws, es) && i < |ws|
    ensures Follows(Initial(t0), ws[i].f)
  {
    hide Step, Follows;
    if i == 0 {
      Stays(Initial(t0));
    } else {
      FollowsAlong(cfg, t0, ws, es, i - 1);
      StepFollows(cfg, Initial(t0), ws[i - 1], es[i - 1]);
    }
  }

  /** In every state of every run the attributes are those of a new client after
      some sequence of stretches. */
  lemma RunsAreStretches(cfg: Config, t0: real, w: World)
    requires Reached(cfg, t0, w)
    ensures exists acts: seq<Act> :: w.f == StratumClient.PerformAll(Initial(t0), acts)
  {
    hide Trace;
    var ws, es, i :| Trace(cfg, t0, ws, es) && 0 <= i < |ws| && ws[i] == w;
    FollowsAlong(cfg, t0, ws, es, i);
    var acts: seq<Act> :| StratumClient.PerformAll(Initial(t0), acts) == w.f;
  }
}
