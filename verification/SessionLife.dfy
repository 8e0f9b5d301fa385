/**
 The life of a session step by step: connecting, the answer to subscribe, what a
 round of the reader does, how serving ends, the take-down and the pause after it.
 */
module SessionLife {
  import opened Prelude
  import opened Client
  import opened Session
  import opened Handshakes

  /** A connection starts the reader before anything is asked, and asks to subscribe;
      without one the delay is slept. */
  lemma ConnectsExactly(cfg: Config, w: World, ok: bool)
    requires w.phase.Connecting?
    ensures var r := Step(cfg, w, Connect(ok));
            if ok then
              && r.writer && r.tasks == w.tasks[w.nextTask := Reader] && r.reader == Some(w.nextTask) && r.ended.None?
              && r.calls == w.calls + [Call(w.f.msgIdSeq, ForSubscribe, Unset, Sending, |w.handled|)]
              && r.phase == Subscribing(|w.calls|) && r.delays == w.delays
            else
              r.phase == Sleeping && r.delays == w.delays + [w.backoff] && r.tasks == w.tasks && r.calls == w.calls
  {
  }

  /** A well-formed answer to subscribe leads to authorize; any other ends the session. */
  lemma SubscribeAnswers(cfg: Config, w: World, c: nat)
    requires w.phase == Subscribing(c) && ComesBack(w, Calls(c, CallMove.Returns), c) && w.calls[c].owner.ForSubscribe?
    ensures var r, good := Step(cfg, w, Calls(c, CallMove.Returns)), w.calls[c].future.reply.shaped;
            && r.tasks == w.tasks
            && (good && w.writer ==>
                  && r.phase == Authorizing(|w.calls|) && |r.calls| == |w.calls| + 1
                  && r.calls[|w.calls|] == Call(w.f.msgIdSeq, ForAuthorize, Unset, Sending, |w.handled|))
            && (!(good && w.writer) ==> r.phase == Closing(0) && r.exit.ByException?)
  {
  }

  /** An answer to authorize that is not true ends the session. */
  lemma AuthorizeRefused(cfg: Config, w: World, c: nat)
    requires w.phase == Authorizing(c) && ComesBack(w, Calls(c, CallMove.Returns), c) && w.calls[c].owner.ForAuthorize?
    requires !w.calls[c].future.reply.truthy
    ensures var r := Step(cfg, w, Calls(c, CallMove.Returns));
            r.phase == Closing(0) && r.exit.ByException? && r.tasks == w.tasks
  {
  }

  /** What a round of the reader does: a notify reaches the client, blank lines, lines
      that are no JSON and other messages change nothing, and a read that is empty,
      fails or cannot be handled ends the task by an exception. */
  lemma ReaderRoundExactly(cfg: Config, w: World, t: nat, read: Read)
    requires t in w.tasks && w.tasks[t].Reader?
    ensures var r := Step(cfg, w, Line(t, read));
            match read
            case Blank => r == w
            case NotJson => r == w
            case ReadFails => r == w.(tasks := w.tasks - {t}, ended := Some(ByException))
            case Empty => r == w.(tasks := w.tasks - {t}, ended := Some(ByException))
            case Msg(Malformed) => r == w.(tasks := w.tasks - {t}, ended := Some(ByException))
            case Msg(Other) => r == w
            case Msg(Notify(job, clean)) => r == w.(f := OnNotify(w.f, job, clean))
            case Msg(Response(_, _)) => r.tasks == w.tasks && r.phase == w.phase && r.shares == w.shares
  {
  }

  /** A session stops serving exactly when its reader has ended, and is left the way the
      reader was. */
  lemma ServingEndsExactly(cfg: Config, w: World, e: Event)
    requires w.phase.Serving?
    ensures var r := Step(cfg, w, e);
            && (!r.phase.Serving? <==>
                  e.SessionNotices? && w.reader.Some? && w.reader.value !in w.tasks && w.ended.Some?)
            && (!r.phase.Serving? ==> r.phase == Closing(0) && r.exit == w.ended.value && r.tasks == w.tasks)
  {
    hide NoStart;
    match e
    case Calls(c, move) => if c < |w.calls| { ServingCalls(cfg, w, c, move); }
    case SubmitStarts(k) => if k < |w.shares| { hide StartSubmit; SubmitServes(w, k); }
    case Solves(t, move) => if t in w.tasks && w.tasks[t].Solver? { hide OnSolver; SolverServes(cfg, w, t, move); }
    case Line(t, read) => hide OnLine; LineHands(w, t, read);
    case _ =>
  }

  lemma ServingCalls(cfg: Config, w: World, c: nat, move: CallMove)
    requires w.phase.Serving? && c < |w.calls|
    ensures OnCall(cfg, w, c, move).phase.Serving?
  {
    if w.calls[c].owner.ForShare? && w.calls[c].owner.k < |w.shares| {
      hide OnCall;
      SharePhase(cfg, w, c, move);
    }
  }

  lemma SubmitServes(w: World, k: nat)
    requires w.phase.Serving? && k < |w.shares|
    ensures StartSubmit(w, k).phase.Serving?
  {
    hide Turn, Settle;
    TurnPhases(w);
  }

  lemma SolverServes(cfg: Config, w: World, t: nat, move: SolverMove)
    requires w.phase.Serving? && t in w.tasks && w.tasks[t].Solver?
    ensures OnSolver(cfg, w, t, w.tasks[t].pc, move).phase.Serving?
  {
    hide Turn, Settle;
    TurnPhases(w);
  }

  /** The take-down: reader, solver, metrics and heal task one after the other, then the
      connection and the job. The session is counted with the way it was left; after an
      exception the delay is slept, after a return it is reset. */
  lemma TakesDownExactly(cfg: Config, w: World, k: nat)
    requires w.phase == Closing(k)
    ensures var r := Step(cfg, w, CloseStep);
            && (k == 0 ==> r.reader.None? && r.phase == Closing(1) && (w.reader.Some? ==> w.reader.value !in r.tasks))
            && (k == 1 ==> r.solver.None? && r.phase == Closing(2) && (w.solver.Some? ==> w.solver.value !in r.tasks))
            && (k == 2 ==> r.metrics.None? && r.phase == Closing(3) && (w.metrics.Some? ==> w.metrics.value !in r.tasks))
            && (k == 3 ==> r.heal.None? && r.phase == Closing(4) && (w.heal.Some? ==> w.heal.value !in r.tasks))
            && (k >= 4 ==>
                  && r.f.currentJob.None? && r.f.jobChanged && r.f.pending == map[] && !r.writer
                  && r.exits == w.exits + [w.exit]
                  && (w.exit.ByException? ==> r.phase == Sleeping && r.delays == w.delays + [w.backoff])
                  && (w.exit.ByReturn? ==>
                        r.phase == Connecting && r.delays == w.delays && r.backoff == cfg.reconnectInitial))
  {
  }

  /** After the pause the delay is doubled, up to its maximum. */
  lemma SleepsExactly(cfg: Config, w: World)
    requires w.phase.Sleeping?
    ensures var r := Step(cfg, w, SleepOver);
            && r.phase == Connecting
            && (w.backoff * 2.0 <= cfg.reconnectMax ==> r.backoff == w.backoff * 2.0)
            && (w.backoff * 2.0 > cfg.reconnectMax ==> r.backoff == cfg.reconnectMax)
  {
  }

  /** A restart of the daemon that has been decided, once it is over, counts from the
      moment it was decided. */
  lemma HealCompletesExactly(cfg: Config, w: World, t: nat)
    requires t in w.tasks && w.tasks[t].Heal? && w.tasks[t].hpc.Restarting?
    ensures var r, decided := Step(cfg, w, Heals(t, HealMove.Completes)), w.tasks[t].hpc.decided;
            && r.tasks == w.tasks[t := Heal(Napping)]
            && r.f.lastHealAt == decided && r.f.lastSolverResultAt == decided
            && r.f.consecRejects == 0 && r.f.healsWithoutAccept == w.f.healsWithoutAccept + 1
  {
  }
}
