/**
 Client and daemon together: the solver task's slices are the daemon driver's, and
 the results it gets are read off the daemon's pipe. The theorems say when a share
 that was submitted under a job was found for that job, and which slices of an
 honest solver never try a nonce again.
 */
module EndToEnd {
  import opened Prelude
  import Client
  import Daemon
  import Session
  import AnswerPairing
  import ShareLedger
  import NoRescan

  /** Where a share comes from: the daemon job its slice asked, the one whose answer
      the slice got, and whether the pipe was open and empty when it asked. */
  datatype Origin = Origin(asked: nat, answered: nat, pristine: bool)

  /** What a daemon job asks for: nonces for a job of the pool, from `start` on. */
  datatype Order = Order(job: Client.Job, start: int)

  datatype Miner = Miner(
    d: Daemon.State,
    w: Session.World,
    asked: Option<nat>,         // the daemon job of the slice in flight
    orders: seq<Order>,         // what every daemon job asks for
    origins: seq<Origin>,       // for every share handed over
    answers: map<int, Origin>)  // for every slice that got an answer, by its record

  /** Everything the daemon's answer may say, and how a slice without one ends. */
  datatype Outcome = Outcome(res: Client.SliceResult, scanned: int, raises: bool)

  datatype Event =
    | Begin                                     // the solver enters the wrapper
    | Drives(de: Daemon.Event, out: Outcome)    // a step of the driver or its process
    | Rest(se: Session.Event)                   // any other step of the client

  const NOTHING := Client.SliceResult(false, [], None, false, None)

  function Start(cfg: Client.Config, t0: real): Miner {
    Miner(Daemon.INIT, Session.Start(cfg, t0), None, [], [], map[])
  }

  /** The solver is inside `solve_slice`. */
  predicate Solving(w: Session.World) {
    && w.solver.Some? && w.solver.value in w.tasks
    && w.tasks[w.solver.value].Solver? && w.tasks[w.solver.value].pc.Solving?
  }

  function OrderOf(w: Session.World): Order
    requires Solving(w)
  {
    var pc := w.tasks[w.solver.value].pc;
    Order(pc.job, pc.start)
  }

  function ChallengeOf(w: Session.World): Option<Daemon.Shape>
    requires Solving(w)
  {
    Client.ToSolveChallenge(OrderOf(w).job)
  }

  /** The slice goes on over a step of the client. */
  predicate GoesOn(w: Session.World, r: Session.World) {
    Solving(w) && Solving(r) && r.solver == w.solver && r.tasks[w.solver.value] == w.tasks[w.solver.value]
  }

  function OnBegin(m: Miner): Miner
    requires Daemon.Wf(m.d)
  {
    if m.asked.None? && m.d.slice.pc.Idle? && Solving(m.w) && ChallengeOf(m.w).Some? then
      m.(d := Daemon.Step(m.d, Daemon.Start(ChallengeOf(m.w).value)),
         asked := Some(m.d.nextJob), orders := m.orders + [OrderOf(m.w)])
    else m
  }

  /** The line just read, if one was. */
  function LineRead(d: Daemon.State, r: Daemon.State): Option<Daemon.Got> {
    if |r.got| > |d.got| then Some(r.got[|d.got|]) else None
  }

  /** The line about to be read is an answer. */
  predicate Answering(d: Daemon.State)
    requires Daemon.Wf(d)
  {
    && d.slice.pc.Reading?
    && var q := d.procs[d.slice.pc.pid];
    q.read < |q.lines| && q.lines[q.read].Answer?
  }

  /** What `solve_slice` ends with: the record, nothing, or an exception. */
  function SliceEnds(d: Daemon.State, r: Daemon.State, out: Outcome): Session.SolverMove
    requires Daemon.Wf(d)
  {
    if LineRead(d, r).Some? && Answering(d) then Session.Answers(out.res, out.scanned)
    else if out.raises then Session.Fails(out.scanned)
    else Session.Answers(NOTHING, out.scanned)
  }

  function Repeat(o: Origin, n: int): seq<Origin> {
    seq(if n < 0 then 0 else n, _ => o)
  }

  function OnDrives(cfg: Client.Config, m: Miner, e: Daemon.Event, out: Outcome): Miner
    requires Daemon.Wf(m.d)
  {
    var d := Daemon.Step(m.d, e);
    if e.Start? || e.Cancel? then m
    else if m.asked.None? || !d.slice.pc.Idle? || !Solving(m.w) then m.(d := d)
    else
      var w := Session.Step(cfg, m.w, Session.Solves(m.w.solver.value, SliceEnds(m.d, d, out)));
      var line := LineRead(m.d, d);
      if line.None? then m.(d := d, w := w, asked := None)
      else
        var origin := Origin(m.asked.value, line.value.answers, line.value.pristine);
        Miner(d, w, None, m.orders, m.origins + Repeat(origin, |w.shares| - |m.w.shares|),
              if Answering(m.d) then m.answers[|m.w.slices| - 1 := origin] else m.answers)
  }

  /** A step of the client that ends no slice by itself; if the slice is gone
      afterwards, it was cancelled. */
  function OnRest(cfg: Client.Config, m: Miner, e: Session.Event): Miner
    requires Daemon.Wf(m.d)
  {
    if e.Solves? && (e.move.Answers? || e.move.Fails?) then m
    else
      var w := Session.Step(cfg, m.w, e);
      if m.asked.Some? && !GoesOn(m.w, w) then m.(d := Daemon.Step(m.d, Daemon.Cancel), w := w, asked := None)
      else m.(w := w)
  }

  function Step(cfg: Client.Config, m: Miner, e: Event): Miner
    requires Daemon.Wf(m.d)
  {
    match e
    case Begin => OnBegin(m)
    case Drives(de, out) => OnDrives(cfg, m, de, out)
    case Rest(se) => OnRest(cfg, m, se)
  }

  ghost predicate Trace(cfg: Client.Config, t0: real, ms: seq<Miner>, es: seq<Event>) {
    && |ms| == |es| + 1 && ms[0] == Start(cfg, t0)
    && (forall i :: 0 <= i < |ms| ==> Daemon.Wf(ms[i].d))
    && (forall i {:trigger es[i]} :: 0 <= i < |es| ==> ms[i + 1] == Step(cfg, ms[i], es[i]))
  }

  /** Every sequence of events is a run. */
  lemma {:induction false} EveryRunExists(cfg: Client.Config, t0: real, es: seq<Event>) returns (ms: seq<Miner>)
    ensures Trace(cfg, t0, ms, es)
  {
    hide OnBegin, OnDrives, OnRest;
    if es == [] {
      ms := [Start(cfg, t0)];
    } else {
      var init := EveryRunExists(cfg, t0, es[..|es| - 1]);
      var last := init[|es| - 1];
      StaysWf(cfg, last, es[|es| - 1]);
      ms := init + [Step(cfg, last, es[|es| - 1])];
      forall i | 0 <= i < |es| ensures ms[i + 1] == Step(cfg, ms[i], es[i]) {
        assert i < |es| - 1 ==> es[..|es| - 1][i] == es[i];
      }
    }
  }

  lemma StaysWf(cfg: Client.Config, m: Miner, e: Event)
    requires Daemon.Wf(m.d)
    ensures Daemon.Wf(Step(cfg, m, e).d)
  {
    hide Daemon.Step, Session.Step;
  }

  // ---- The invariant ----

  ghost predicate Exact(o: Origin) {
    o.answered == o.asked <==> o.pristine
  }

  /** Every share is for the job its slice asked, and was found for just that job
      exactly when the slice was pristine. */
  ghost predicate Attributed(m: Miner) {
    && |m.origins| == |m.w.shares|
    && (forall k :: 0 <= k < |m.origins| ==>
          var o := m.origins[k];
          o.asked < |m.orders| && m.w.shares[k].job == m.orders[o.asked].job && Exact(o))
    && (forall x <- m.answers :: Exact(m.answers[x]))
  }

  /** The two machines are in step. */
  ghost predicate InStep(cfg: Client.Config, t0: real, m: Miner) {
    && Daemon.Reached(m.d) && Session.Reached(cfg, t0, m.w)
    && |m.orders| == m.d.nextJob
    && (m.asked.None? <==> m.d.slice.pc.Idle?)
    && (m.asked.Some? ==>
          && m.asked.value == m.d.slice.job && m.asked.value < |m.orders|
          && Solving(m.w) && OrderOf(m.w) == m.orders[m.asked.value])
  }

  // ---- What steps of the driver do to the slice ----

  /** A step keeps the number of the slice's job; a line it reads is recorded under
      that number, with what the slice knew when it wrote. */
  ghost predicate KeepsJob(s: Daemon.State, r: Daemon.State) {
    && r.slice.job == s.slice.job && r.nextJob == s.nextJob
    && (r.got == s.got
        || (&& |r.got| == |s.got| + 1 && s.slice.pc.Reading?
            && r.got[|s.got|].job == s.slice.job && r.got[|s.got|].pristine == s.slice.pristine))
  }

  lemma WaitKeepsJob(s: Daemon.State)
    requires Daemon.Wf(s) && Daemon.SliceWaits(s)
    ensures Daemon.OnWake(s).slice.job == s.slice.job && Daemon.OnWaitTimeout(s).slice.job == s.slice.job
    ensures Daemon.OnWake(s).got == s.got && Daemon.OnWaitTimeout(s).got == s.got
    ensures Daemon.OnWake(s).nextJob == s.nextJob && Daemon.OnWaitTimeout(s).nextJob == s.nextJob
  {
    hide Daemon.ResumeSlice, Daemon.FinishShutdown, Daemon.EscalateShutdown, Daemon.Grows;
  }

  lemma LeaveKeepsJob(s: Daemon.State)
    requires Daemon.Wf(s)
    ensures Daemon.EndSlice(s).slice.job == s.slice.job && Daemon.Fail(s).slice.job == s.slice.job
    ensures Daemon.AbortHandshake(s).slice.job == s.slice.job && Daemon.CancelSlice(s).slice.job == s.slice.job
  {
  }

  lemma GoOnKeepsJob(s: Daemon.State)
    requires Daemon.Wf(s)
    ensures var r := Daemon.EnsureDaemon(s); r.slice.job == s.slice.job && r.got == s.got && r.nextJob == s.nextJob
    ensures var r := Daemon.BecomeReady(s); r.slice.job == s.slice.job && r.got == s.got && r.nextJob == s.nextJob
    ensures var r := Daemon.Spawn(s); r.slice.job == s.slice.job && r.got == s.got && r.nextJob == s.nextJob
  {
  }

  lemma ReadKeepsJob(s: Daemon.State, p: nat)
    requires Daemon.Wf(s) && s.slice.pc == Daemon.Reading(p)
    ensures KeepsJob(s, Daemon.OnReadLine(s, p))
  {
    if s.procs[p].read < |s.procs[p].lines| {
      var c := Daemon.Consume(s, p);
      assert KeepsJob(s, c);
      hide Daemon.Consume, Daemon.Fail, Daemon.EndSlice;
      LeaveKeepsJob(c);
    }
  }

  lemma SliceKeepsJob(s: Daemon.State, e: Daemon.Event)
    requires Daemon.Wf(s) && !e.Start?
    ensures KeepsJob(s, Daemon.SliceStep(s, e))
  {
    hide Daemon.EndSlice, Daemon.Fail, Daemon.AbortHandshake, Daemon.CancelSlice, Daemon.EnsureDaemon;
    hide Daemon.BecomeReady, Daemon.Spawn, Daemon.OnReadLine, Daemon.OnWake, Daemon.OnWaitTimeout;
    LeaveKeepsJob(s);
    GoOnKeepsJob(s);
    match e
    case BackoffOver => GoOnKeepsJob(s.(slice := s.slice.(attempt := 2)));
    case ReadLine => if s.slice.pc.Reading? { ReadKeepsJob(s, s.slice.pc.pid); }
    case SliceWake => if Daemon.SliceWaits(s) { WaitKeepsJob(s); }
    case SliceWaitTimeout => if Daemon.SliceWaits(s) { WaitKeepsJob(s); }
    case _ =>
  }

  lemma StepKeepsJob(s: Daemon.State, e: Daemon.Event)
    requires Daemon.Wf(s) && !e.Start?
    ensures KeepsJob(s, Daemon.Step(s, e))
  {
    hide Daemon.SliceStep, Daemon.HealStep;
    SliceKeepsJob(s, e);
  }

  lemma StartTakesJob(s: Daemon.State, shape: Daemon.Shape)
    requires Daemon.Wf(s) && s.slice.pc.Idle?
    ensures var r := Daemon.Step(s, Daemon.Start(shape));
            r.slice.job == s.nextJob && r.nextJob == s.nextJob + 1 && !r.slice.pc.Idle?
  {
  }

  /** Only `solve_slice` takes the driver out of idleness. */
  lemma IdleStaysIdle(s: Daemon.State, e: Daemon.Event)
    requires Daemon.Wf(s) && !e.Start? && s.slice.pc.Idle?
    ensures Daemon.Step(s, e).slice.pc.Idle?
  {
  }

  lemma CancelIdles(s: Daemon.State)
    requires Daemon.Wf(s) && !s.slice.pc.Idle?
    ensures Daemon.Step(s, Daemon.Cancel).slice.pc.Idle?
  {
  }

  // ---- Every step keeps the invariant ----

  lemma BeginKeeps(cfg: Client.Config, t0: real, m: Miner)
    requires Daemon.Wf(m.d) && InStep(cfg, t0, m) && Attributed(m)
    ensures InStep(cfg, t0, OnBegin(m)) && Attributed(OnBegin(m))
  {
    hide Daemon.Step, Daemon.Reached, Session.Reached;
    if m.asked.None? && Solving(m.w) && ChallengeOf(m.w).Some? {
      var shape := ChallengeOf(m.w).value;
      StartTakesJob(m.d, shape);
      Daemon.ReachedIsClosed(m.d, Daemon.Start(shape));
    }
  }

  lemma RestKeeps(cfg: Client.Config, t0: real, m: Miner, e: Session.Event)
    requires Daemon.Wf(m.d) && InStep(cfg, t0, m) && Attributed(m)
    ensures InStep(cfg, t0, OnRest(cfg, m, e)) && Attributed(OnRest(cfg, m, e))
  {
    hide Daemon.Step, Daemon.Reached, Session.Step, Session.Reached;
    if !(e.Solves? && (e.move.Answers? || e.move.Fails?)) {
      ShareLedger.OnlyResultsHandOver(cfg, m.w, e);
      Session.ReachedIsClosed(cfg, t0, m.w, e);
      if m.asked.Some? {
        CancelIdles(m.d);
        StepKeepsJob(m.d, Daemon.Cancel);
        Daemon.ReachedIsClosed(m.d, Daemon.Cancel);
      }
    }
  }

  lemma DriveKeeps(cfg: Client.Config, t0: real, m: Miner, e: Daemon.Event, out: Outcome)
    requires Daemon.Wf(m.d) && InStep(cfg, t0, m) && Attributed(m)
    ensures InStep(cfg, t0, OnDrives(cfg, m, e, out)) && Attributed(OnDrives(cfg, m, e, out))
  {
    hide Daemon.Step, Daemon.Reached, Session.Step, Session.Reached, SliceEnds, Answering;
    if !e.Start? && !e.Cancel? {
      var d := Daemon.Step(m.d, e);
      StepKeepsJob(m.d, e);
      Daemon.ReachedIsClosed(m.d, e);
      if m.asked.None? {
        IdleStaysIdle(m.d, e);
      } else if d.slice.pc.Idle? {
        SharesOfResult(cfg, t0, m, d, out);
        Session.ReachedIsClosed(cfg, t0, m.w, Session.Solves(m.w.solver.value, SliceEnds(m.d, d, out)));
        assert KeepsJob(m.d, d);
        EndKeepsOrigins(m, d, OnDrives(cfg, m, e, out));
      }
    }
  }

  /** The books on the shares, once the new ones are known to be the slice's. */
  lemma EndKeepsOrigins(m: Miner, d: Daemon.State, r: Miner)
    requires Attributed(m) && m.asked.Some? && m.asked.value < |m.orders| && r.orders == m.orders
    requires Solving(m.w) && OrderOf(m.w) == m.orders[m.asked.value]
    requires |m.w.shares| <= |r.w.shares|
    requires forall k :: 0 <= k < |m.w.shares| ==> r.w.shares[k].job == m.w.shares[k].job
    requires forall k :: |m.w.shares| <= k < |r.w.shares| ==> r.w.shares[k].job == OrderOf(m.w).job
    requires match LineRead(m.d, d)
             case None => |r.w.shares| == |m.w.shares| && r.origins == m.origins && r.answers == m.answers
             case Some(g) =>
               var o := Origin(m.asked.value, g.answers, g.pristine);
               && Exact(o) && r.origins == m.origins + Repeat(o, |r.w.shares| - |m.w.shares|)
               && (r.answers == m.answers || r.answers == m.answers[|m.w.slices| - 1 := o])
    ensures Attributed(r)
  {
  }

  /** The shares that the end of a slice hands over. */
  lemma SharesOfResult(cfg: Client.Config, t0: real, m: Miner, d: Daemon.State, out: Outcome)
    requires Daemon.Wf(m.d) && InStep(cfg, t0, m) && m.asked.Some? && KeepsJob(m.d, d) && Daemon.Reached(d)
    ensures var w := Session.Step(cfg, m.w, Session.Solves(m.w.solver.value, SliceEnds(m.d, d, out)));
            && |m.w.shares| <= |w.shares|
            && (forall k :: 0 <= k < |m.w.shares| ==> w.shares[k].job == m.w.shares[k].job)
            && (forall k :: |m.w.shares| <= k < |w.shares| ==> w.shares[k].job == OrderOf(m.w).job)
            && (|w.shares| > |m.w.shares| ==> LineRead(m.d, d).Some?)
    ensures LineRead(m.d, d).Some? ==>
              var g := LineRead(m.d, d).value; g.answers == m.asked.value <==> g.pristine
  {
    hide Daemon.Reached, Session.Step, Session.OnResult, Session.Reached;
    var t := m.w.solver.value;
    var pc := m.w.tasks[t].pc;
    var move := SliceEnds(m.d, d, out);
    if LineRead(m.d, d).Some? {
      AnswerPairing.OwnAnswerExactly(d, |m.d.got|);
    }
    match move
    case Answers(res, scanned) =>
      ShareLedger.ResultHandsOver(cfg, m.w, t, pc.job, pc.start, res, scanned);
      StepIsResult(cfg, m.w, t, res, scanned);
    case Fails(_) => ShareLedger.OnlyResultsHandOver(cfg, m.w, Session.Solves(t, move));
    case _ =>
  }

  lemma StepIsResult(cfg: Client.Config, w: Session.World, t: nat, res: Client.SliceResult, scanned: int)
    requires t in w.tasks && w.tasks[t].Solver? && w.tasks[t].pc.Solving?
    ensures Session.Step(cfg, w, Session.Solves(t, Session.Answers(res, scanned))) ==
            Session.OnResult(cfg, w, t, w.tasks[t].pc.job, w.tasks[t].pc.start, res, scanned)
  {
    hide Session.OnResult;
  }

  lemma {:induction false} Along(cfg: Client.Config, t0: real, ms: seq<Miner>, es: seq<Event>, i: nat)
    requires Trace(cfg, t0, ms, es) && i < |ms|
    ensures InStep(cfg, t0, ms[i]) && Attributed(ms[i])
  {
    hide InStep, Attributed, OnBegin, OnDrives, OnRest;
    if i == 0 {
      StartsInStep(cfg, t0);
    } else {
      Along(cfg, t0, ms, es, i - 1);
      match es[i - 1]
      case Begin => BeginKeeps(cfg, t0, ms[i - 1]);
      case Drives(e, out) => DriveKeeps(cfg, t0, ms[i - 1], e, out);
      case Rest(e) => RestKeeps(cfg, t0, ms[i - 1], e);
    }
  }

  lemma StartsInStep(cfg: Client.Config, t0: real)
    ensures InStep(cfg, t0, Start(cfg, t0)) && Attributed(Start(cfg, t0))
  {
    Daemon.InitIsReached();
    Session.StartIsReached(cfg, t0);
    hide Daemon.Reached, Session.Reached;
  }

  // ---- What a slice finds on the pipe when it writes ----

  /** The step hands a job over. */
  predicate Writes(m: Miner, r: Miner) {
    r.d.handed != m.d.handed
  }

  /** The daemon on record has its stdin open and nothing of an earlier job unread. */
  predicate PipeIsEmpty(m: Miner) {
    && m.d.daemon.Some? && m.d.daemon.value < |m.d.procs|
    && var p := m.d.procs[m.d.daemon.value];
    p.stdinOpen && AnswerPairing.Unread(p) == 0
  }

  /** Step j is the latest hand-over before state i, and it was of job a. */
  ghost predicate LastWrite(ms: seq<Miner>, j: nat, i: nat, a: nat) {
    && j < i < |ms| && Writes(ms[j], ms[j + 1]) && ms[i].d.handed == ms[j + 1].d.handed
    && ms[j + 1].d.slice.job == a
  }

  /** The driver's side of a step: one of its own, or none. */
  lemma DriverMoves(cfg: Client.Config, t0: real, m: Miner, e: Event) returns (moves: bool, de: Daemon.Event)
    requires Daemon.Wf(m.d) && InStep(cfg, t0, m)
    ensures Step(cfg, m, e).d == if moves then Daemon.Step(m.d, de) else m.d
  {
    hide Daemon.Step, Session.Step, InStep;
    moves, de := false, Daemon.Cancel;
    match e
    case Begin =>
      if m.asked.None? && m.d.slice.pc.Idle? && Solving(m.w) && ChallengeOf(m.w).Some? {
        moves, de := true, Daemon.Start(ChallengeOf(m.w).value);
      }
    case Drives(e, out) =>
      if !e.Start? && !e.Cancel? {
        moves, de := true, e;
      }
    case Rest(e) =>
      moves := Step(cfg, m, Rest(e)).d != m.d;
  }

  lemma DriverIsReached(cfg: Client.Config, t0: real, m: Miner)
    requires InStep(cfg, t0, m)
    ensures Daemon.Reached(m.d)
  {
  }

  /** A slice is at the pipe only after a hand-over of its own. */
  lemma StaysAtPipe(s: Daemon.State, e: Daemon.Event)
    requires Daemon.Wf(s)
    ensures var r := Daemon.Step(s, e);
            Daemon.AtPipe(r.slice.pc) && r.handed == s.handed ==>
              Daemon.AtPipe(s.slice.pc) && r.slice.job == s.slice.job && r.slice.pristine == s.slice.pristine
  {
    hide Daemon.Fail, Daemon.EndSlice, Daemon.AbortHandshake, Daemon.AfterFailure, Daemon.ResumeSlice, Daemon.HealStep;
    hide Daemon.CancelSlice, Daemon.Consume;
  }

  /** A slice at the pipe is pristine exactly if the pipe was open and empty when it
      wrote. */
  lemma {:induction false} AtPipeWrote(
      cfg: Client.Config, t0: real, ms: seq<Miner>, es: seq<Event>, i: nat) returns (j: nat)
    requires Trace(cfg, t0, ms, es) && i < |ms| && Daemon.AtPipe(ms[i].d.slice.pc)
    ensures LastWrite(ms, j, i, ms[i].d.slice.job)
    ensures ms[i].d.slice.pristine <==> PipeIsEmpty(ms[j])
  {
    hide Step, InStep, Attributed, Daemon.Step, Daemon.Reached;
    assert i > 0 by { assert Daemon.INIT.slice.pc.Idle?; }
    var m := ms[i - 1];
    Along(cfg, t0, ms, es, i - 1);
    var moves, de := DriverMoves(cfg, t0, m, es[i - 1]);
    if Writes(m, ms[i]) {
      j := i - 1;
      DriverIsReached(cfg, t0, m);
      AnswerPairing.Reachable(m.d);
      AnswerPairing.PristineAt(m.d, de);
    } else {
      if moves {
        StaysAtPipe(m.d, de);
      }
      j := AtPipeWrote(cfg, t0, ms, es, i - 1);
    }
  }

  // ---- Main results ----

  /** Share k was handed over at step m, by a slice that had last written at step j. */
  ghost predicate FoundAfter(ms: seq<Miner>, j: nat, m: nat, k: nat, asked: nat) {
    && m + 1 < |ms| && |ms[m].w.shares| <= k < |ms[m + 1].w.shares|
    && LastWrite(ms, j, m, asked)
  }

  lemma Repeats(os: seq<Origin>, o: Origin, n: int)
    ensures var all := os + Repeat(o, n); os <= all && forall k :: |os| <= k < |all| ==> all[k] == o
  {
  }

  /** A step adds origins for the shares it hands over, and no step changes one. */
  lemma OriginsGrow(cfg: Client.Config, t0: real, m: Miner, e: Event)
    requires Daemon.Wf(m.d) && InStep(cfg, t0, m) && Attributed(m)
    ensures var r := Step(cfg, m, e);
            && m.origins <= r.origins && |m.origins| == |m.w.shares|
            && forall k :: |m.origins| <= k < |r.origins| ==>
                 Daemon.AtPipe(m.d.slice.pc) && r.origins[k].asked == m.d.slice.job
                 && r.origins[k].pristine == m.d.slice.pristine
  {
    hide OnDrives, Daemon.Step, Session.Step, Daemon.Reached, Session.Reached, Solving, GoesOn, Exact;
    match e
    case Begin =>
    case Rest(_) =>
    case Drives(de, out) =>
      var r := OnDrives(cfg, m, de, out);
      DriveOrigins(cfg, m, de, out);
      if r.origins != m.origins {
        var d := Daemon.Step(m.d, de);
        StepKeepsJob(m.d, de);
        var g := LineRead(m.d, d).value;
        assert g.job == m.d.slice.job && g.pristine == m.d.slice.pristine && Daemon.AtPipe(m.d.slice.pc);
        Repeats(m.origins, Origin(m.asked.value, g.answers, g.pristine), |r.w.shares| - |m.w.shares|);
      }
  }

  lemma DriveOrigins(cfg: Client.Config, m: Miner, e: Daemon.Event, out: Outcome)
    requires Daemon.Wf(m.d)
    ensures var r := OnDrives(cfg, m, e, out); var line := LineRead(m.d, Daemon.Step(m.d, e));
            r.origins != m.origins ==>
              && !e.Start? && m.asked.Some? && line.Some?
              && r.origins == m.origins + Repeat(Origin(m.asked.value, line.value.answers, line.value.pristine),
                                                 |r.w.shares| - |m.w.shares|)
  {
    hide Daemon.Step, Session.Step, SliceEnds, Answering, OrderOf, Repeat, LineRead;
  }

  lemma OriginsPerShare(m: Miner)
    requires Attributed(m)
    ensures |m.origins| == |m.w.shares|
  {
  }

  lemma {:induction false} SharesAreFound(
      cfg: Client.Config, t0: real, ms: seq<Miner>, es: seq<Event>, i: nat, k: nat) returns (j: nat, m: nat)
    requires Trace(cfg, t0, ms, es) && i < |ms| && k < |ms[i].w.shares|
    ensures k < |ms[i].origins| && m < i && FoundAfter(ms, j, m, k, ms[i].origins[k].asked)
    ensures ms[i].origins[k].pristine <==> PipeIsEmpty(ms[j])
  {
    hide Step, InStep, Attributed, LastWrite, PipeIsEmpty, Daemon.AtPipe;
    Along(cfg, t0, ms, es, i);
    OriginsPerShare(ms[i]);
    if i > 0 {
      Along(cfg, t0, ms, es, i - 1);
      OriginsGrow(cfg, t0, ms[i - 1], es[i - 1]);
      if k < |ms[i - 1].w.shares| {
        j, m := SharesAreFound(cfg, t0, ms, es, i - 1, k);
        assert ms[i].origins[k] == ms[i - 1].origins[k];
      } else {
        m := i - 1;
        assert ms[i].origins[k].asked == ms[m].d.slice.job;
        j := AtPipeWrote(cfg, t0, ms, es, m);
      }
    }
  }

  /** In every state of every run of the two machines together, each share was
      handed over under the very job its slice was begun for; and it was found for
      that job exactly when the pipe was open and empty at the slice's last write. */
  lemma SharesAreForTheirJobs(cfg: Client.Config, t0: real, ms: seq<Miner>, es: seq<Event>, i: nat, k: nat)
    requires Trace(cfg, t0, ms, es) && i < |ms| && k < |ms[i].w.shares|
    ensures |ms[i].origins| == |ms[i].w.shares|
    ensures var o := ms[i].origins[k];
            && o.asked < |ms[i].orders| && ms[i].w.shares[k].job == ms[i].orders[o.asked].job
            && (o.answered == o.asked <==> o.pristine)
            && exists j: nat, m: nat :: m < i && FoundAfter(ms, j, m, k, o.asked) && (o.pristine <==> PipeIsEmpty(ms[j]))
  {
    hide Step, InStep, FoundAfter;
    Along(cfg, t0, ms, es, i);
    var j, m := SharesAreFound(cfg, t0, ms, es, i, k);
  }

  // ---- An honest solver never tries a nonce again ----

  /** What the solver does about one daemon job: the last nonce it tries, and the
      end its answer reports, if that reaches the client. */
  datatype Work = Work(scanned: int, reported: Option<int>)

  /** It stays within its budget and below the end it reports. */
  predicate HonestWork(cfg: Client.Config, o: Order, k: Work) {
    && k.scanned < o.start + cfg.noncesPerSlice
    && (k.reported.Some? && k.reported.value > o.start ==> k.scanned <= k.reported.value)
  }

  /** The step says of jobs what the solver does about them: what was tried is the
      asked job's, the end reported is that of the job whose answer was read. */
  ghost predicate HonestStep(cfg: Client.Config, m: Miner, e: Event, work: nat -> Work)
    requires Daemon.Wf(m.d)
  {
    e.Drives? && m.asked.Some? && m.asked.value < |m.orders| ==>
      && HonestWork(cfg, m.orders[m.asked.value], work(m.asked.value))
      && e.out.scanned == work(m.asked.value).scanned
      && var line := LineRead(m.d, Daemon.Step(m.d, e.de));
      line.Some? ==> e.out.res.nonceEnd == work(line.value.answers).reported
  }

  /** Why the answer has to be the slice's own: two honest pieces of work, and the
      end reported for the one sends the client back into what the other tried. */
  lemma AnotherAnswerRescans(cfg: Client.Config, job: Client.Job)
    requires cfg.noncesPerSlice > 800
    ensures var first, second := Work(500, Some(500)), Work(900, Some(900));
            && HonestWork(cfg, Order(job, 0), first) && HonestWork(cfg, Order(job, 101), second)
            && Client.NextStart(cfg, 101, second.reported) > second.scanned
            && Client.NextStart(cfg, 101, first.reported) <= second.scanned
  {
  }

  /** A slice whose record is not honest has read the answer to another job. */
  ghost predicate Tried(cfg: Client.Config, m: Miner) {
    forall x :: 0 <= x < |m.w.slices| ==>
      NoRescan.Honest(cfg, m.w.slices[x]) || (x in m.answers && !m.answers[x].pristine)
  }

  lemma KeptIsHonest(cfg: Client.Config, a: seq<Session.SliceRec>, b: seq<Session.SliceRec>, n: nat)
    requires NoRescan.Kept(a, b, n) && cfg.noncesPerSlice > 0
    ensures forall x :: 0 <= x < n && NoRescan.Honest(cfg, a[x]) ==> NoRescan.Honest(cfg, b[x])
    ensures forall x :: |a| <= x < |b| ==> NoRescan.Honest(cfg, b[x])
  {
    forall x | 0 <= x < n && NoRescan.Honest(cfg, a[x]) ensures NoRescan.Honest(cfg, b[x]) {
      assert NoRescan.SameScan(a[x], b[x]);
    }
    forall x | |a| <= x < |b| ensures NoRescan.Honest(cfg, b[x]) {
      assert NoRescan.Untried(b[x]);
    }
  }

  /** The record of the slice in flight is the last, and starts where its order does. */
  lemma InFlightIsLast(cfg: Client.Config, t0: real, w: Session.World)
    requires Session.Reached(cfg, t0, w) && Solving(w)
    ensures w.slices != [] && w.slices[|w.slices| - 1].start == OrderOf(w).start
  {
    hide Session.Reached;
    NoRescan.ChainReachable(cfg, t0, w);
    assert NoRescan.SolverOk(cfg, w, w.solver.value);
  }

  lemma DriveTries(cfg: Client.Config, t0: real, m: Miner, e: Daemon.Event, out: Outcome, work: nat -> Work)
    requires Daemon.Wf(m.d) && InStep(cfg, t0, m) && Tried(cfg, m) && cfg.noncesPerSlice > 0
    requires HonestStep(cfg, m, Drives(e, out), work)
    ensures Tried(cfg, OnDrives(cfg, m, e, out))
  {
    hide Daemon.Step, Session.Step, Daemon.Reached, Session.Reached, NoRescan.Kept;
    var d := Daemon.Step(m.d, e);
    if !e.Start? && !e.Cancel? && m.asked.Some? && d.slice.pc.Idle? {
      var move := SliceEnds(m.d, d, out);
      var w := Session.Step(cfg, m.w, Session.Solves(m.w.solver.value, move));
      var n := |m.w.slices| - 1;
      StepKeepsJob(m.d, e);
      Daemon.ReachedIsClosed(m.d, e);
      InFlightIsLast(cfg, t0, m.w);
      NoRescan.EndsScan(cfg, m.w, m.w.solver.value, move);
      KeptIsHonest(cfg, m.w.slices, w.slices, n);
      if LineRead(m.d, d).Some? {
        AnswerPairing.OwnAnswerExactly(d, |m.d.got|);
      }
    }
  }

  lemma RestTries(cfg: Client.Config, m: Miner, e: Session.Event)
    requires Daemon.Wf(m.d) && Tried(cfg, m) && cfg.noncesPerSlice > 0
    ensures Tried(cfg, OnRest(cfg, m, e))
  {
    hide Daemon.Step, Session.Step, NoRescan.Kept;
    if !(e.Solves? && (e.move.Answers? || e.move.Fails?)) {
      NoRescan.OnlyEndsScan(cfg, m.w, e);
      KeptIsHonest(cfg, m.w.slices, Session.Step(cfg, m.w, e).slices, |m.w.slices|);
    }
  }

  lemma {:induction false} TriedAlong(
      cfg: Client.Config, t0: real, ms: seq<Miner>, es: seq<Event>, i: nat, work: nat -> Work)
    requires Trace(cfg, t0, ms, es) && i < |ms| && cfg.noncesPerSlice > 0
    requires forall k {:trigger es[k]} :: 0 <= k < i ==> HonestStep(cfg, ms[k], es[k], work)
    ensures Tried(cfg, ms[i])
  {
    hide InStep, Attributed, Tried, HonestStep, OnBegin, OnDrives, OnRest;
    if i == 0 {
      StartsTried(cfg, t0);
    } else {
      TriedAlong(cfg, t0, ms, es, i - 1, work);
      Along(cfg, t0, ms, es, i - 1);
      match es[i - 1]
      case Begin => BeginTries(cfg, ms[i - 1]);
      case Drives(e, out) => DriveTries(cfg, t0, ms[i - 1], e, out, work);
      case Rest(e) => RestTries(cfg, ms[i - 1], e);
    }
  }

  lemma StartsTried(cfg: Client.Config, t0: real)
    ensures Tried(cfg, Start(cfg, t0))
  {
  }

  lemma BeginTries(cfg: Client.Config, m: Miner)
    requires Daemon.Wf(m.d) && Tried(cfg, m)
    ensures Tried(cfg, OnBegin(m))
  {
    hide Daemon.Step;
  }

  /** With an honest solver, what a slice tried lies below where every later slice
      of its run starts, unless it read the answer to another job: that is, in
      particular, if it wrote to an open and empty pipe, or read no answer at all. */
  lemma HonestSolverNeverRescans(
      cfg: Client.Config, t0: real, ms: seq<Miner>, es: seq<Event>, i: nat, work: nat -> Work, x: nat, y: nat)
    requires Trace(cfg, t0, ms, es) && i < |ms| && cfg.noncesPerSlice > 0
    requires forall k {:trigger es[k]} :: 0 <= k < i ==> HonestStep(cfg, ms[k], es[k], work)
    requires x < y < |ms[i].w.slices| && NoRescan.OneRun(ms[i].w.slices, x, y)
    requires x in ms[i].answers ==> ms[i].answers[x].answered == ms[i].answers[x].asked
    ensures ms[i].w.slices[x].scanned < ms[i].w.slices[y].start
    ensures ms[i].w.slices[x].start < ms[i].w.slices[y].start
  {
    hide Step, HonestStep;
    TriedAlong(cfg, t0, ms, es, i, work);
    Along(cfg, t0, ms, es, i);
    hide Session.Reached, Daemon.Reached;
    NoRescan.RangesNeverOverlap(cfg, t0, ms[i].w, x, y);
  }
}
