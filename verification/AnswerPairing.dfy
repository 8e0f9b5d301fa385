/**
 Which answer a slice gets. The daemon prints one line per job, in order, so
 the only way to get another job's answer is a line left over in the pipe. This
 module keeps the books on left-over lines over every run.
 */
module AnswerPairing {
  import opened Prelude
  import opened Daemon

  /** Lines a process owes, or has printed, that nobody has read. */
  function Unread(p: Proc): int {
    |p.inbox| - p.read
  }

  ghost predicate Increasing(xs: seq<nat>) {
    forall i, j :: 0 <= i < j < |xs| ==> xs[i] < xs[j]
  }

  ghost predicate AllBelow(xs: seq<nat>, n: nat) {
    forall i :: 0 <= i < |xs| ==> xs[i] < n
  }

  ghost predicate Owes(s: State, p: nat) {
    s.slice.owed == Some(p)
  }

  /** The books on one process. */
  ghost predicate Booked(s: State, p: nat)
    requires p < |s.procs|
  {
    var q := s.procs[p];
    && Unread(q) == q.cancelled + q.failed - q.stray + (if Owes(s, p) then 1 else 0)
    && Increasing(q.inbox)
    && AllBelow(q.inbox, s.nextJob)
    && (Owes(s, p) ==> q.inbox != [] && q.inbox[|q.inbox| - 1] == s.slice.job)
    && (s.daemon == Some(p) ==> q.failed == 0)
  }

  predicate BeforeWrite(pc: Pc) {
    pc.Retiring? || pc.Spawning? || pc.Handshaking? || pc.Aborting? || pc.Backoff?
  }

  /** What the slice in flight knows about the process it talks to. */
  ghost predicate SliceBooked(s: State)
    requires Wf(s)
  {
    var pc := s.slice.pc;
    && (!pc.Idle? ==> s.slice.job + 1 == s.nextJob)
    && (s.slice.owed.Some? ==> AtPipe(pc) || pc.Failing?)
    && (BeforeWrite(pc) && s.daemon.Some? ==> AllBelow(s.procs[s.daemon.value].inbox, s.slice.job))
    && (AtPipe(pc) ==>
          var q := s.procs[pc.pid];
          && (s.slice.owed.Some? ==> Owes(s, pc.pid))
          && (s.slice.owed.None? ==> AllBelow(q.inbox, s.slice.job))
          && (s.slice.pristine <==> Owes(s, pc.pid) && q.read + 1 == |q.inbox|))
  }

  ghost predicate Paired(got: seq<Got>) {
    forall i :: 0 <= i < |got| ==>
      got[i].answers <= got[i].job && (got[i].answers == got[i].job <==> got[i].pristine)
  }

  ghost predicate Inv(s: State) {
    && Wf(s)
    && (forall p :: 0 <= p < |s.procs| ==> Booked(s, p))
    && SliceBooked(s)
    && Paired(s.got)
  }

  // ---- Every piece of a step keeps the books ----

  lemma ForfeitKeeps(s: State)
    requires Inv(s) && s.daemon.None? && !s.slice.pc.Idle?
    ensures Inv(EndSlice(s)) && Inv(AfterFailure(s))
  {
    var r := EndSlice(s);
    forall p | 0 <= p < |s.procs| ensures Booked(r, p) && Booked(AfterFailure(s), p) {
      assert Booked(s, p);
    }
  }

  lemma IdleKeeps(s: State)
    requires Inv(s) && s.slice.owed.None?
    ensures Inv(EndSlice(s))
  {
    forall p | 0 <= p < |s.procs| ensures Booked(EndSlice(s), p) {
      assert Booked(s, p);
    }
  }

  lemma BeginKeeps(s: State)
    requires Inv(s)
    ensures Inv(BeginShutdown(s).s)
  {
    var r := BeginShutdown(s).s;
    forall p | 0 <= p < |s.procs| ensures Booked(r, p) {
      assert Booked(s, p);
    }
  }

  lemma EscalateKeeps(s: State)
    requires Inv(s)
    ensures Inv(EscalateShutdown(s).s)
  {
    var r := EscalateShutdown(s).s;
    forall p | 0 <= p < |s.procs| ensures Booked(r, p) {
      assert Booked(s, p);
    }
  }

  lemma FinishKeeps(s: State)
    requires Inv(s)
    ensures Inv(FinishShutdown(s))
  {
    forall p | 0 <= p < |s.procs| ensures Booked(FinishShutdown(s), p) {
      assert Booked(s, p);
    }
  }

  lemma HandOverKeeps(s: State, d: nat)
    requires Inv(s) && s.daemon == Some(d) && s.slice.owed.None?
    requires s.slice.job + 1 == s.nextJob && AllBelow(s.procs[d].inbox, s.slice.job)
    ensures Inv(HandOver(s, d))
  {
    var r := HandOver(s, d);
    assert Booked(s, d);
    forall p | 0 <= p < |s.procs| ensures Booked(r, p) {
      assert Booked(s, p);
    }
  }

  lemma EnsureKeeps(s: State)
    requires Inv(s) && s.slice.owed.None? && s.slice.job + 1 == s.nextJob
    requires s.daemon.Some? ==> AllBelow(s.procs[s.daemon.value].inbox, s.slice.job)
    ensures Inv(EnsureDaemon(s))
  {
    var r := EnsureDaemon(s);
    if s.daemon.Some? && s.params != Some(s.slice.shape) {
      BeginKeeps(s);
    } else if s.daemon.Some? && !s.procs[s.daemon.value].reaped {
      HandOverKeeps(s, s.daemon.value);
    }
    forall p | 0 <= p < |r.procs| ensures Booked(r, p) {
      assert Booked(s, p);
    }
  }

  lemma FailKeeps(s: State)
    requires Inv(s) && !s.slice.pc.Idle?
    ensures Inv(Fail(s))
  {
    BeginKeeps(s);
    match BeginShutdown(s)
    case Waiting(s1, w) =>
      forall p | 0 <= p < |s1.procs| ensures Booked(Fail(s), p) {
        assert Booked(s1, p);
      }
    case Done(s1) => ForfeitKeeps(s1);
    case Crashed(s1) =>
  }

  lemma ResumeKeeps(s: State, r: Shutdown)
    requires Inv(s) && SliceWaits(s) && ShutdownOk(r) && Inv(r.s) && r.s.slice == s.slice
    requires r.Waiting? || r.s.daemon.None?
    ensures Inv(ResumeSlice(s.slice.pc, r))
  {
    var s1 := ResumeSlice(s.slice.pc, r);
    if r.Waiting? || (s.slice.pc.Retiring? && r.Done?) {
      forall p | 0 <= p < |s1.procs| ensures Booked(s1, p) {
        assert Booked(r.s, p);
      }
    } else {
      ForfeitKeeps(r.s);
    }
  }

  lemma StartKeeps(s: State, shape: Shape)
    requires Inv(s) && s.slice.pc.Idle?
    ensures Inv(StartSlice(s, shape))
  {
    // An unnamed middle state: the new slice, about to look for a daemon.
    var s1 := s.(slice := Slice(Spawning, s.nextJob, shape, 1, None, false), nextJob := s.nextJob + 1);
    assert s.slice.owed.None?;
    forall p | 0 <= p < |s1.procs| ensures Booked(s1, p) {
      assert Booked(s, p);
    }
    assert forall p :: 0 <= p < |s.procs| ==> Booked(s, p) && AllBelow(s.procs[p].inbox, s.nextJob);
    EnsureKeeps(s1);
    assert EnsureDaemon(s1) == StartSlice(s, shape);
  }

  lemma SpawnKeeps(s: State)
    requires Inv(s) && s.slice.pc.Spawning?
    ensures Inv(Spawn(s))
  {
    var r := Spawn(s);
    forall p | 0 <= p < |r.procs| ensures Booked(r, p) {
      if p < |s.procs| {
        assert Booked(s, p);
      }
    }
  }

  lemma ReadyKeeps(s: State)
    requires Inv(s) && s.slice.pc.Handshaking?
    ensures Inv(BecomeReady(s))
  {
    var s1 := s.(params := Some(s.slice.shape));
    forall p | 0 <= p < |s.procs| ensures Booked(s1, p) {
      assert Booked(s, p);
    }
    if s1.daemon.None? {
      ForfeitKeeps(s1);
    } else {
      HandOverKeeps(s1, s1.daemon.value);
    }
  }

  /** Reading a line: it is the slice's own exactly when the slice is owed the
      very last line the process will print. */
  lemma TakeKeeps(s: State, p: nat)
    requires Inv(s) && s.slice.pc == Reading(p) && s.procs[p].read < |s.procs[p].lines|
    ensures Inv(TakeLine(s, p))
  {
    var s1 := Consume(s, p);
    assert Booked(s, p);
    forall k | 0 <= k < |s.procs| ensures Booked(s1, k) {
      assert Booked(s, k);
    }
    FailKeeps(s1);
    IdleKeeps(s1);
  }

  lemma CancelKeeps(s: State)
    requires Inv(s)
    ensures Inv(CancelSlice(s))
  {
    var r := CancelSlice(s);
    forall p | 0 <= p < |r.procs| ensures Booked(r, p) {
      assert Booked(s, p);
    }
  }

  lemma AbortKeeps(s: State)
    requires Inv(s) && s.slice.pc.Handshaking?
    ensures Inv(AbortHandshake(s))
  {
    BeginKeeps(s);
    match BeginShutdown(s)
    case Waiting(s1, w) =>
      forall p | 0 <= p < |s1.procs| ensures Booked(AbortHandshake(s), p) {
        assert Booked(s1, p);
      }
    case Done(s1) => ForfeitKeeps(s1);
    case Crashed(s1) =>
  }

  lemma OutcomeKeeps(r: Shutdown)
    requires ShutdownOk(r) && Inv(r.s)
    ensures Inv(HealOutcome(r))
  {
    var s1 := HealOutcome(r);
    forall p | 0 <= p < |s1.procs| ensures Booked(s1, p) {
      assert Booked(r.s, p);
    }
  }

  lemma HealKeeps(s: State, e: Event)
    requires Inv(s)
    ensures Inv(HealStep(s, e))
  {
    BeginKeeps(s);
    EscalateKeeps(s);
    FinishKeeps(s);
    OutcomeKeeps(BeginShutdown(s));
    OutcomeKeeps(EscalateShutdown(s));
    OutcomeKeeps(Done(FinishShutdown(s)));
    if e.HealCancel? {
      forall p | 0 <= p < |s.procs| ensures Booked(s.(heal := None), p) { assert Booked(s, p); }
    } else {
      hide BeginShutdown, EscalateShutdown, FinishShutdown, HealOutcome, Booked;
    }
  }

  /** A process acting on its own changes nothing the books mention. */
  lemma ProcActs(p: Proc, e: Event)
    ensures var q := ProcStep(p, e);
            q == p.(lines := q.lines, dead := q.dead, reaped := q.reaped)
  {
  }

  lemma ProcKeeps(s: State, e: Event)
    requires Inv(s) && (e.Emit? || e.Die? || e.Reap?)
    ensures Inv(Step(s, e))
  {
    if e.pid < |s.procs| {
      ProcActs(s.procs[e.pid], e);
      var q := ProcStep(s.procs[e.pid], e);
      ReplaceKeeps(s, e.pid, q, s.(procs := s.procs[e.pid := q]));
    }
  }

  lemma ReplaceKeeps(s: State, k: nat, q: Proc, r: State)
    requires Inv(s) && k < |s.procs| && r == s.(procs := s.procs[k := q]) && Wf(r)
    requires q == s.procs[k].(lines := q.lines, dead := q.dead, reaped := q.reaped)
    ensures Inv(r)
  {
    forall p | 0 <= p < |r.procs| ensures Booked(r, p) {
      assert Booked(s, p);
    }
  }

  lemma DrainedKeeps(s: State)
    requires Inv(s) && s.slice.pc.Draining?
    ensures Inv(Goto(s, Reading(s.slice.pc.pid)))
  {
    var r := Goto(s, Reading(s.slice.pc.pid));
    forall p | 0 <= p < |s.procs| ensures Booked(r, p) { assert Booked(s, p); }
  }

  lemma RetryKeeps(s: State)
    requires Inv(s) && s.slice.pc.Backoff?
    ensures Inv(EnsureDaemon(s.(slice := s.slice.(attempt := 2))))
  {
    var s1 := s.(slice := s.slice.(attempt := 2));
    forall p | 0 <= p < |s.procs| ensures Booked(s1, p) { assert Booked(s, p); }
    EnsureKeeps(s1);
  }

  lemma WaitKeeps(s: State)
    requires Inv(s) && SliceWaits(s)
    ensures Inv(ResumeSlice(s.slice.pc, Done(FinishShutdown(s))))
    ensures Inv(ResumeSlice(s.slice.pc, EscalateShutdown(s)))
  {
    hide ResumeSlice;
    FinishKeeps(s);
    EscalateKeeps(s);
    ResumeKeeps(s, Done(FinishShutdown(s)));
    ResumeKeeps(s, EscalateShutdown(s));
  }

  lemma SliceKeeps(s: State, e: Event)
    requires Inv(s)
    ensures Inv(SliceStep(s, e))
  {
    hide Booked, Grows, OffPipe, StartSlice, CancelSlice, Spawn, EndSlice, BecomeReady, AbortHandshake, Goto, Fail,
         TakeLine, EnsureDaemon, FinishShutdown, EscalateShutdown, ResumeSlice;
    var pc := s.slice.pc;
    match e
    case Start(shape) => if pc.Idle? { StartKeeps(s, shape); }
    case Cancel => CancelKeeps(s);
    case Spawned => if pc.Spawning? { SpawnKeeps(s); }
    case SpawnFailed => if pc.Spawning? { IdleKeeps(s); }
    case Ready => if pc.Handshaking? { ReadyKeeps(s); }
    case HandshakeTimeout => if pc.Handshaking? { AbortKeeps(s); }
    case Drained => if pc.Draining? { DrainedKeeps(s); }
    case DrainFailed => if pc.Draining? { FailKeeps(s); }
    case ReadLine => if pc.Reading? && s.procs[pc.pid].read < |s.procs[pc.pid].lines| { TakeKeeps(s, pc.pid); }
    case ReadEof => if pc.Reading? { FailKeeps(s); }
    case ReadTimeout => if pc.Reading? { FailKeeps(s); }
    case BackoffOver => if pc.Backoff? { RetryKeeps(s); }
    case SliceWake => if SliceWaits(s) { WaitKeeps(s); }
    case SliceWaitTimeout => if SliceWaits(s) { WaitKeeps(s); }
    case _ =>
  }

  lemma StepKeeps(s: State, e: Event)
    requires Inv(s)
    ensures Inv(Step(s, e))
  {
    if e.HealStart? || e.HealWake? || e.HealWaitTimeout? || e.HealCancel? {
      HealKeeps(s, e);
    } else if e.Emit? || e.Die? || e.Reap? {
      ProcKeeps(s, e);
    } else {
      SliceKeeps(s, e);
    }
  }

  lemma {:induction false} Along(ss: seq<State>, es: seq<Event>, i: nat)
    requires Trace(ss, es) && i < |ss|
    ensures Inv(ss[i])
  {
    if i > 0 {
      hide Step, Inv;
      Along(ss, es, i - 1);
      StepKeeps(ss[i - 1], es[i - 1]);
    }
  }

  lemma Reachable(s: State)
    requires Reached(s)
    ensures Inv(s)
  {
    hide Inv, Trace;
    var ss, es, i :| Trace(ss, es) && 0 <= i < |ss| && ss[i] == s;
    Along(ss, es, i);
  }

  // ---- Main results ----

  /** With the lock free, the lines left over on the current daemon are those
      of the slices cancelled on it, less those that slices with a swallowed
      job have since read. */
  lemma LockFreeBacklog(s: State, d: nat)
    requires Reached(s) && s.slice.pc.Idle? && s.daemon == Some(d)
    ensures Unread(s.procs[d]) == s.procs[d].cancelled - s.procs[d].stray
  {
    hide Reached;
    Reachable(s);
    assert Booked(s, d);
  }

  /** Every line read in any run answers the reader's own job exactly when that
      job was written to an open stdin with no left-over recorded; otherwise the
      line answers an earlier job. */
  lemma OwnAnswerExactly(s: State, i: nat)
    requires Reached(s) && i < |s.got|
    ensures s.got[i].answers <= s.got[i].job
    ensures s.got[i].answers == s.got[i].job <==> s.got[i].pristine
  {
    hide Reached;
    Reachable(s);
  }

  /** What `pristine` records: at the hand-over stdin was open and the pipe
      held, and was going to hold, no line of another job. */
  lemma PristineMeansNothingUnread(ss: seq<State>, es: seq<Event>, i: nat)
    requires Trace(ss, es) && i < |es| && ss[i + 1].handed != ss[i].handed
    ensures var s, r := ss[i], ss[i + 1];
            && s.daemon.Some? && r.slice.pc == Draining(s.daemon.value)
            && var d := s.procs[s.daemon.value];
            (r.slice.pristine <==> d.stdinOpen && Unread(d) == 0)
  {
    hide Step, Inv;
    Along(ss, es, i);
    PristineAt(ss[i], es[i]);
  }

  lemma PristineAt(s: State, e: Event)
    requires Inv(s) && Step(s, e).handed != s.handed
    ensures var r := Step(s, e);
            && s.daemon.Some? && r.slice.pc == Draining(s.daemon.value)
            && var d := s.procs[s.daemon.value];
            (r.slice.pristine <==> d.stdinOpen && Unread(d) == 0)
  {
    hide Step;
    HandsOverOnlyToCurrent(s, e);
    assert Booked(s, s.daemon.value);
  }

  lemma HandsOverOnlyToCurrent(s: State, e: Event)
    requires Inv(s) && Step(s, e).handed != s.handed
    ensures var r := Step(s, e);
            && s.daemon.Some? && r.slice.pc == Draining(s.daemon.value)
            && s.slice.owed.None? && r.got == s.got
            && var q := s.procs[s.daemon.value];
            (r.slice.pristine <==> q.stdinOpen && q.cancelled == q.stray)
  {
    match e
    case Start(_) =>
    case Ready =>
    case BackoffOver =>
    case _ =>
      assert false;
  }

  // ---- Without cancellation ----

  /** No line was ever left over. */
  ghost predicate Clean(s: State) {
    && Wf(s)
    && (forall p :: 0 <= p < |s.procs| ==> s.procs[p].cancelled == 0 && s.procs[p].stray == 0)
    && (AtPipe(s.slice.pc) ==> s.procs[s.slice.pc.pid].failed == 0)
    && (forall i :: 0 <= i < |s.got| ==> s.got[i].pristine)
  }

  /** A slice that can read finds its own line. */
  lemma CleanRead(s: State)
    requires Inv(s) && Clean(s) && s.slice.pc.Reading? && s.procs[s.slice.pc.pid].read < |s.procs[s.slice.pc.pid].lines|
    ensures s.slice.owed.Some? && s.slice.pristine
  {
    assert Booked(s, s.slice.pc.pid);
  }

  /** Leaving the pipe, whatever the way. */
  lemma CleanLeave(s: State)
    requires Clean(s)
    ensures Clean(EndSlice(s)) && Clean(Fail(s)) && Clean(AbortHandshake(s))
  {
  }

  lemma CleanShutdown(s: State)
    requires Clean(s)
    ensures Clean(FinishShutdown(s)) && Clean(EscalateShutdown(s).s)
  {
  }

  lemma CleanResume(pc: Pc, r: Shutdown)
    requires ShutdownOk(r) && Clean(r.s)
    ensures Clean(ResumeSlice(pc, r))
  {
  }

  lemma CleanWait(s: State)
    requires Clean(s) && SliceWaits(s)
    ensures Clean(OnWake(s)) && Clean(OnWaitTimeout(s))
  {
    CleanShutdown(s);
    hide FinishShutdown, EscalateShutdown, ResumeSlice;
    CleanResume(s.slice.pc, Done(FinishShutdown(s)));
    CleanResume(s.slice.pc, EscalateShutdown(s));
  }

  lemma CleanTake(s: State, p: nat)
    requires Inv(s) && Clean(s) && s.slice.pc == Reading(p)
    ensures Clean(OnReadLine(s, p))
  {
    if s.procs[p].read < |s.procs[p].lines| {
      CleanRead(s);
      assert Clean(Consume(s, p));
      hide Consume, Clean, Inv, Fail, EndSlice;
      CleanLeave(Consume(s, p));
    }
  }

  lemma CleanEnsure(s: State)
    requires Clean(s) && (s.daemon.Some? ==> s.procs[s.daemon.value].failed == 0)
    ensures Clean(EnsureDaemon(s))
  {
  }

  lemma CleanStart(s: State, shape: Shape)
    requires Inv(s) && Clean(s) && s.slice.pc.Idle?
    ensures Clean(StartSlice(s, shape))
  {
    if s.daemon.Some? {
      assert Booked(s, s.daemon.value);
    }
    hide EnsureDaemon;
    CleanEnsure(s.(slice := Slice(s.slice.pc, s.nextJob, shape, 1, None, false), nextJob := s.nextJob + 1));
  }

  lemma CleanRetry(s: State)
    requires Inv(s) && Clean(s)
    ensures Clean(EnsureDaemon(s.(slice := s.slice.(attempt := 2))))
  {
    if s.daemon.Some? {
      assert Booked(s, s.daemon.value);
    }
    hide EnsureDaemon;
    CleanEnsure(s.(slice := s.slice.(attempt := 2)));
  }

  lemma CleanReady(s: State)
    requires Inv(s) && Clean(s)
    ensures Clean(BecomeReady(s)) && Clean(Spawn(s))
  {
    if s.daemon.Some? {
      assert Booked(s, s.daemon.value);
    }
  }

  lemma CleanSlice(s: State, e: Event)
    requires Inv(s) && Clean(s) && !e.Cancel?
    ensures Clean(SliceStep(s, e))
  {
    var pc := s.slice.pc;
    hide Inv, StartSlice, EnsureDaemon, BecomeReady, Spawn;
    hide OnReadLine, OnWake, OnWaitTimeout, EndSlice, Fail, AbortHandshake;
    match e
    case Start(shape) => if pc.Idle? { CleanStart(s, shape); }
    case BackoffOver => CleanRetry(s);
    case Spawned => CleanReady(s);
    case Ready => CleanReady(s);
    case ReadLine => if pc.Reading? { CleanTake(s, pc.pid); }
    case SliceWake => if SliceWaits(s) { CleanWait(s); }
    case SliceWaitTimeout => if SliceWaits(s) { CleanWait(s); }
    case _ => CleanLeave(s);
  }

  lemma CleanHeal(s: State, e: Event)
    requires Clean(s)
    ensures Clean(HealStep(s, e))
  {
  }

  lemma CleanProc(s: State, e: Event)
    requires Clean(s) && (e.Emit? || e.Die? || e.Reap?)
    ensures Clean(Step(s, e))
  {
  }

  lemma CleanStep(s: State, e: Event)
    requires Inv(s) && Clean(s) && !e.Cancel?
    ensures Clean(Step(s, e))
  {
    if e.HealStart? || e.HealWake? || e.HealWaitTimeout? || e.HealCancel? {
      CleanHeal(s, e);
    } else if e.Emit? || e.Die? || e.Reap? {
      CleanProc(s, e);
    } else {
      CleanSlice(s, e);
    }
    hide Clean, Inv, HealStep, SliceStep;
  }

  /** In a run in which no slice is cancelled, every line read answers the job of
      the slice that read it, whatever times out, dies or is restarted when. */
  lemma {:induction false} NoCancelNoMixUp(ss: seq<State>, es: seq<Event>, i: nat)
    requires Trace(ss, es) && i < |ss|
    requires forall k {:trigger es[k]} :: 0 <= k < i ==> !es[k].Cancel?
    ensures Clean(ss[i]) && forall g :: 0 <= g < |ss[i].got| ==> ss[i].got[g].answers == ss[i].got[g].job
  {
    hide Step;
    Along(ss, es, i);
    if i > 0 {
      NoCancelNoMixUp(ss, es, i - 1);
      Along(ss, es, i - 1);
      hide Inv, Clean;
      CleanStep(ss[i - 1], es[i - 1]);
    }
    CleanReadsOwn(ss[i]);
  }

  lemma CleanReadsOwn(s: State)
    requires Inv(s) && Clean(s)
    ensures forall g :: 0 <= g < |s.got| ==> s.got[g].answers == s.got[g].job
  {
  }

  // ---- With cancellation ----

  ghost predicate Misled(s: State, d: nat, from: nat) {
    && from <= |s.got|
    && (AtPipe(s.slice.pc) && s.slice.pc.pid == d ==> !s.slice.pristine)
    && forall i :: from <= i < |s.got| && s.got[i].pid == d ==> s.got[i].answers < s.got[i].job
  }

  lemma CountersGrow(s: State, e: Event, d: nat)
    requires Wf(s) && d < |s.procs|
    ensures d < |Step(s, e).procs|
    ensures s.procs[d].cancelled <= Step(s, e).procs[d].cancelled
    ensures s.procs[d].stray <= Step(s, e).procs[d].stray
  {
  }

  lemma MisledStep(s: State, e: Event, d: nat, from: nat)
    requires Inv(s) && Inv(Step(s, e)) && d < |s.procs| && Misled(s, d, from)
    requires s.procs[d].cancelled > s.procs[d].stray
    ensures Misled(Step(s, e), d, from)
  {
    hide Fail, AfterFailure, EndSlice, AbortHandshake, CancelSlice, ResumeSlice, HealStep;
    hide BeginShutdown, EscalateShutdown;
    var r := Step(s, e);
    if r.handed != s.handed {
      HandsOverOnlyToCurrent(s, e);
    } else if e.ReadLine? && r.got != s.got {
      assert r.got == s.got + [r.got[|s.got|]];
    } else {
      match e
      case Start(_) =>
      case BackoffOver =>
      case _ =>
    }
  }

  /** A left-over line poisons its daemon for good: from then on every line a
      slice reads from it answers an earlier job, until as many slices with a
      swallowed job have come by as there were left-overs. */
  lemma {:induction false} LeftOverPoisonsDaemon(ss: seq<State>, es: seq<Event>, i: nat, j: nat, d: nat)
    requires Trace(ss, es) && i <= j < |ss|
    requires ss[i].slice.pc.Idle? && d < |ss[i].procs| <= |ss[j].procs|
    requires ss[j].procs[d].stray < ss[i].procs[d].cancelled
    ensures Misled(ss[j], d, |ss[i].got|)
    decreases j
  {
    hide Step, Inv;
    if i < j {
      var s, e := ss[j - 1], es[j - 1];
      Along(ss, es, j - 1);
      Along(ss, es, j);
      ProcsGrow(ss, es, i, j - 1);
      CountersGrow(s, e, d);
      CancelledGrows(ss, es, i, j - 1, d);
      LeftOverPoisonsDaemon(ss, es, i, j - 1, d);
      MisledStep(s, e, d, |ss[i].got|);
    }
  }

  lemma {:induction false} ProcsGrow(ss: seq<State>, es: seq<Event>, i: nat, j: nat)
    requires Trace(ss, es) && i <= j < |ss|
    ensures |ss[i].procs| <= |ss[j].procs|
    decreases j
  {
    hide Step;
    if i < j {
      ProcsGrow(ss, es, i, j - 1);
      if |ss[j - 1].procs| > 0 {
        CountersGrow(ss[j - 1], es[j - 1], |ss[j - 1].procs| - 1);
      }
    }
  }

  lemma {:induction false} CancelledGrows(ss: seq<State>, es: seq<Event>, i: nat, j: nat, d: nat)
    requires Trace(ss, es) && i <= j < |ss| && d < |ss[i].procs| <= |ss[j].procs|
    ensures ss[i].procs[d].cancelled <= ss[j].procs[d].cancelled
    decreases j
  {
    hide Step;
    if i < j {
      ProcsGrow(ss, es, i, j - 1);
      CancelledGrows(ss, es, i, j - 1, d);
      CountersGrow(ss[j - 1], es[j - 1], d);
    }
  }
}
