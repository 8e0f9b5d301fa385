/**
 Where every step of the solver task goes, in terms of what the client holds: which
 job the next slice is for, where it starts, and what is written back before it.
 */
module SolverMoves {
  import opened Prelude
  import opened Client
  import opened Session
  import NoRescan

  /** What a job asks of the daemon: each component under its own key, or the value the
      network started with; and nothing at all without the seeds and the height. */
  lemma ChallengeExactly(job: Job)
    ensures var c := ToSolveChallenge(job);
            && (c.Some? <==> job.seeded)
            && (c.Some? ==>
                  && (job.n.Some? ==> c.value.n == job.n.value) && (job.n.None? ==> c.value.n == 512)
                  && (job.b.Some? ==> c.value.b == job.b.value) && (job.b.None? ==> c.value.b == 16)
                  && (job.r.Some? ==> c.value.r == job.r.value) && (job.r.None? ==> c.value.r == 8)
                  && (job.epsilonBits.Some? ==> c.value.epsilonBits == job.epsilonBits.value)
                  && (job.epsilonBits.None? ==> c.value.epsilonBits == 18))
  {
  }

  /** Task t is at work on the current job from where that job says, or refuses it
      for want of metadata; without a job it waits for one. */
  ghost predicate OnCurrent(r: World, t: nat) {
    && t in r.tasks && r.tasks[t].Solver?
    && match r.f.currentJob
       case None => r.tasks[t].pc == AwaitingJob && !r.f.jobChanged
       case Some(job) =>
         var start := if job.start.Some? then job.start.value else 0;
         && r.tasks[t].pc == (if job.seeded then Solving(job, start) else Cooling(job, start))
         && (job.seeded ==> r.f.inflightParent == Some(job.parent))
         && r.slices != []
         && r.slices[|r.slices| - 1] == SliceRec(r.session, job.parent, start, start - 1, None, None)
  }

  /** The cursor of the job's own parent is moved to next, any other stays. */
  predicate WroteBack(w: World, r: World, job: Job, next: int) {
    && (r.f.currentJob.None? <==> w.f.currentJob.None?)
    && (r.f.currentJob.Some? ==>
          var a, b := w.f.currentJob.value, r.f.currentJob.value;
          SameWork(a, b) && b.start == if a.parent == job.parent then Some(next) else a.start)
  }

  /** Where the client goes on after a slice from start. */
  function GoOnFrom(cfg: Config, start: int, end: Option<int>): int {
    match end
    case None => start + cfg.noncesPerSlice
    case Some(e) => if start < e then e + 1 else start + cfg.noncesPerSlice
  }

  lemma TopMoves(w: World, t: nat)
    ensures var r := LoopTop(w, t); OnCurrent(r, t) && t in r.tasks && r.tasks[t].Solver?
    ensures LoopTop(w, t).f.currentJob == w.f.currentJob
  {
  }

  lemma TurnMoves(w: World, t: nat, job: Job, next: int)
    ensures var r := Turn(w, t, job, next); OnCurrent(r, t) && t in r.tasks && r.tasks[t].Solver?
    ensures WroteBack(w, Turn(w, t, job, next), job, next)
  {
    hide LoopTop, OnCurrent;
    TopMoves(w.(f := WriteBack(w.f, job, next), slices := Conclude(w.slices, next)), t);
  }

  /** A fresh solver, or one whose event has been set, takes up the current job. */
  lemma ContinuesExactly(cfg: Config, w: World, t: nat)
    requires t in w.tasks && w.tasks[t].Solver?
    ensures var r, pc := Step(cfg, w, Solves(t, Continues)), w.tasks[t].pc;
            if pc.Fresh? || (pc.AwaitingJob? && w.f.jobChanged)
            then OnCurrent(r, t) && r.f.currentJob == w.f.currentJob
            else r == w
  {
    hide LoopTop, OnCurrent;
    TopMoves(w, t);
  }

  /** A slice that raises pauses and then counts as a whole budget. */
  lemma FailsExactly(cfg: Config, w: World, t: nat, scanned: int)
    requires t in w.tasks && w.tasks[t].Solver? && w.tasks[t].pc.Solving?
    ensures var r, pc := Step(cfg, w, Solves(t, Fails(scanned))), w.tasks[t].pc;
            && t in r.tasks && r.tasks[t] == Solver(Cooling(pc.job, pc.start))
            && r.f.currentJob == w.f.currentJob && r.shares == w.shares && r.calls == w.calls
  {
  }

  lemma CoolsExactly(cfg: Config, w: World, t: nat)
    requires t in w.tasks && w.tasks[t].Solver? && w.tasks[t].pc.Cooling?
    ensures var r, pc := Step(cfg, w, Solves(t, CoolsDown)), w.tasks[t].pc;
            OnCurrent(r, t) && WroteBack(w, r, pc.job, pc.start + cfg.noncesPerSlice)
  {
    hide LoopTop, Turn, OnCurrent;
    TurnMoves(w, t, w.tasks[t].pc.job, w.tasks[t].pc.start + cfg.noncesPerSlice);
  }

  /** The result has shares that are to be submitted. */
  predicate OnTip(w: World, job: Job, res: SliceResult) {
    res.found && (w.f.currentJob.None? || w.f.currentJob.value.parent == job.parent)
  }

  predicate HasJunk(items: seq<Item>) {
    exists i :: 0 <= i < |items| && items[i].NotADict?
  }

  /** What an answer leads to. A share list that raises makes the solver pause, and
      its slice counts as a whole budget. A result without a share list is submitted
      by the solver, which waits if the call can be made. In all other cases the
      cursor is written back and the next slice begins. */
  lemma AnswersExactly(cfg: Config, w: World, t: nat, res: SliceResult, scanned: int)
    requires t in w.tasks && w.tasks[t].Solver? && w.tasks[t].pc.Solving?
    ensures var r, pc := Step(cfg, w, Solves(t, Answers(res, scanned))), w.tasks[t].pc;
            var job, next, tip := pc.job, GoOnFrom(cfg, pc.start, res.nonceEnd), OnTip(w, pc.job, res);
            && t in r.tasks && r.tasks[t].Solver?
            && if tip && HasJunk(res.items) then
                 r.tasks[t].pc == Cooling(job, pc.start) && r.f.currentJob == w.f.currentJob
               else if tip && res.items == [] && res.nonce.Some? && w.writer then
                 && r.tasks[t].pc == Submitting(job, next, |w.shares|) && r.f.currentJob == w.f.currentJob
                 && r.calls == w.calls + [Call(w.f.msgIdSeq, ForShare(|w.shares|), Unset, Sending, |w.handled|)]
                 && r.shares == w.shares + [Share(job, res.nonce, res.isBlock, Some(t), Calling(|w.calls|))]
               else
                 OnCurrent(r, t) && WroteBack(w, r, job, next)
  {
    hide LoopTop, Turn, OnCurrent, SubmitInline;
    var pc := w.tasks[t].pc;
    var job, next := pc.job, NextStart(cfg, pc.start, res.nonceEnd);
    var w1 := Took(w, job, res, scanned);
    TurnMoves(w1, t, job, next);
    TurnMoves(WithQueue(w1, job, res.items), t, job, next);
    InlineMoves(w1, t, job, res, next);
  }

  lemma InlineMoves(w: World, t: nat, job: Job, res: SliceResult, next: int)
    ensures var r := SubmitInline(w, t, job, res, next);
            if res.nonce.Some? && w.writer then
              && t in r.tasks && r.tasks[t] == Solver(Submitting(job, next, |w.shares|))
              && r.f.currentJob == w.f.currentJob
              && r.calls == w.calls + [Call(w.f.msgIdSeq, ForShare(|w.shares|), Unset, Sending, |w.handled|)]
              && r.shares == w.shares + [Share(job, res.nonce, res.isBlock, Some(t), Calling(|w.calls|))]
            else OnCurrent(r, t) && t in r.tasks && r.tasks[t].Solver? && WroteBack(w, r, job, next)
  {
    hide LoopTop, Turn, OnCurrent;
    TurnMoves(WithShare(w, t, job, res, Skipped), t, job, next);
    TurnMoves(Unsent(w, t, job, res), t, job, next);
  }

  /** The submission that the solver waits for is over: the cursor is written back
      and the next slice begins. */
  lemma SubmissionEnds(cfg: Config, w: World, k: nat, reply: Option<Reply>, t: nat)
    requires k < |w.shares| && w.shares[k].awaiter == Some(t)
    requires t in w.tasks && w.tasks[t].Solver? && w.tasks[t].pc.Submitting? && w.tasks[t].pc.k == k
    ensures var r, pc := EndShare(w, k, reply), w.tasks[t].pc;
            OnCurrent(r, t) && WroteBack(w, r, pc.job, pc.next)
  {
    hide LoopTop, Turn, OnCurrent;
    TurnMoves(Settled(w, k, reply), t, w.tasks[t].pc.job, w.tasks[t].pc.next);
  }

  /** In every state of every run: of two neighbouring slices of one session on one
      parent, the second starts right after the end the first one's answer reported,
      if that lies beyond its start and its share list did not raise, and a whole
      budget further on otherwise. */
  lemma NextSliceExactly(cfg: Config, t0: real, w: World, i: nat)
    requires Reached(cfg, t0, w) && i + 1 < |w.slices|
    requires var a, b := w.slices[i], w.slices[i + 1]; a.session == b.session && a.parent == b.parent
    ensures var a := w.slices[i]; w.slices[i + 1].start == GoOnFrom(cfg, a.start, a.used)
  {
    hide Reached;
    NoRescan.ChainReachable(cfg, t0, w);
    assert NoRescan.Linked(w.slices[i], w.slices[i + 1]) && NoRescan.Concluded(cfg, w.slices[i]);
  }

  /** What is recorded of an answered slice: how far it came, and the end its answer
      reported unless its share list raised. */
  lemma RecordsExactly(cfg: Config, w: World, t: nat, res: SliceResult, scanned: int)
    requires t in w.tasks && w.tasks[t].Solver? && w.tasks[t].pc.Solving? && w.slices != []
    ensures var r, n := Step(cfg, w, Solves(t, Answers(res, scanned))), |w.slices| - 1;
            && n < |r.slices|
            && r.slices[n].start == w.slices[n].start && r.slices[n].scanned == scanned
            && r.slices[n].used == (if OnTip(w, w.tasks[t].pc.job, res) && HasJunk(res.items) then None else res.nonceEnd)
  {
    hide Turn, SubmitInline;
    var pc := w.tasks[t].pc;
    var next := NextStart(cfg, pc.start, res.nonceEnd);
    var w1 := Took(w, pc.job, res, scanned);
    NoRescan.TurnKeepsScans(w1, t, pc.job, next);
    NoRescan.TurnKeepsScans(WithQueue(w1, pc.job, res.items), t, pc.job, next);
    NoRescan.InlineKeepsScans(w1, t, pc.job, res, next);
  }
}
