/**
 Is a job only ever handed to a daemon that was launched for its matmul shape?
 The wrapper keeps the shape beside the daemon handle and trusts the pair to
 agree. `force_restart` can pull them apart, in one place only.
 */
module ShapeSafety {
  import opened Prelude
  import opened Daemon

  /** Handle and recorded shape agree. */
  ghost predicate Coherent(s: State)
    requires Wf(s)
  {
    && (s.daemon.None? ==> s.params.None?)
    && (s.daemon.Some? && s.params.Some? ==> s.procs[s.daemon.value].shape == s.params.value)
  }

  /** What holds around the two awaits that create a daemon. */
  ghost predicate Created(s: State)
    requires Wf(s)
  {
    && (s.slice.pc.Spawning? || s.slice.pc.Handshaking? ==> s.params.None? || s.params == Some(s.slice.shape))
    && (s.slice.pc.Handshaking? ==>
          && s.procs[s.slice.pc.pid].shape == s.slice.shape
          && (s.daemon.Some? ==> s.daemon.value == s.slice.pc.pid))
  }

  ghost predicate AllHandedMatch(s: State)
    requires Wf(s)
  {
    forall i :: 0 <= i < |s.handed| ==>
      s.handed[i].pid < |s.procs| && s.procs[s.handed[i].pid].shape == s.handed[i].shape
  }

  ghost predicate Shaped(s: State) {
    Wf(s) && Coherent(s) && Created(s) && AllHandedMatch(s)
  }

  /** The handshake is completed although `force_restart` has meanwhile
      forgotten the daemon it was for. */
  predicate OrphanReady(s: State, e: Event) {
    e.Ready? && s.slice.pc.Handshaking? && s.daemon.None?
  }

  lemma EnsureKeepsShape(s: State)
    requires Wf(s) && Coherent(s) && AllHandedMatch(s)
    ensures Shaped(EnsureDaemon(s))
  {
  }

  /** A piece of a step that keeps or drops the pair and hands nothing over. */
  lemma PairKeepsShape(s: State, r: State)
    requires Shaped(s) && Wf(r) && Grows(s, r) && KeepsPair(s, r) && r.handed == s.handed && Created(r)
    ensures Shaped(r)
  {
  }

  lemma ResumeKeepsShape(s: State, r: Shutdown)
    requires Shaped(s) && ShutdownOk(r) && Aside(s, r.s) && SliceWaits(s)
    requires r.Waiting? || r.s.daemon.None?
    ensures Shaped(ResumeSlice(s.slice.pc, r))
  {
    PairKeepsShape(s, r.s);
    PairKeepsShape(r.s, ResumeSlice(s.slice.pc, r));
  }

  lemma SpawnKeepsShape(s: State)
    requires Shaped(s) && s.slice.pc.Spawning?
    ensures Shaped(Spawn(s))
  {
  }

  lemma ReadyKeepsShape(s: State)
    requires Shaped(s) && s.slice.pc.Handshaking? && s.daemon.Some?
    ensures Shaped(BecomeReady(s))
  {
  }

  lemma DrainedKeepsShape(s: State)
    requires Shaped(s) && s.slice.pc.Draining?
    ensures Shaped(Goto(s, Reading(s.slice.pc.pid)))
  {
  }

  lemma CancelKeepsShape(s: State)
    requires Shaped(s)
    ensures Shaped(CancelSlice(s)) && Shaped(EndSlice(s)) && Shaped(AbortHandshake(s)) && Shaped(Fail(s))
  {
    PairKeepsShape(s, CancelSlice(s));
    PairKeepsShape(s, EndSlice(s));
    PairKeepsShape(s, AbortHandshake(s));
    PairKeepsShape(s, Fail(s));
  }

  lemma StartKeepsShape(s: State, shape: Shape)
    requires Shaped(s) && s.slice.pc.Idle?
    ensures Shaped(StartSlice(s, shape))
  {
    hide EnsureDaemon;
    EnsureKeepsShape(s.(slice := Slice(s.slice.pc, s.nextJob, shape, 1, None, false), nextJob := s.nextJob + 1));
  }

  lemma RetryKeepsShape(s: State)
    requires Shaped(s)
    ensures Shaped(EnsureDaemon(s.(slice := s.slice.(attempt := 2))))
  {
    hide EnsureDaemon;
    EnsureKeepsShape(s.(slice := s.slice.(attempt := 2)));
  }

  lemma WaitKeepsShape(s: State)
    requires Shaped(s) && SliceWaits(s)
    ensures Shaped(ResumeSlice(s.slice.pc, Done(FinishShutdown(s))))
    ensures Shaped(ResumeSlice(s.slice.pc, EscalateShutdown(s)))
  {
    hide ResumeSlice;
    ResumeKeepsShape(s, Done(FinishShutdown(s)));
    ResumeKeepsShape(s, EscalateShutdown(s));
  }

  lemma TakeKeepsShape(s: State, p: nat)
    requires Shaped(s) && s.slice.pc.Reading? && p < |s.procs| && s.procs[p].read < |s.procs[p].lines|
    ensures Shaped(TakeLine(s, p))
  {
    hide Fail, EndSlice;
    PairKeepsShape(s, Consume(s, p));
    hide Consume;
    CancelKeepsShape(Consume(s, p));
  }

  lemma SliceKeepsShape(s: State, e: Event)
    requires Shaped(s) && !OrphanReady(s, e)
    ensures Shaped(SliceStep(s, e))
  {
    hide Coherent, Created, AllHandedMatch, Grows, OffPipe, Fail, AbortHandshake, ResumeSlice, StartSlice,
         EnsureDaemon, Spawn, BecomeReady, Goto, EndSlice, CancelSlice, TakeLine, FinishShutdown, EscalateShutdown;
    var pc := s.slice.pc;
    match e
    case Start(shape) => if pc.Idle? { StartKeepsShape(s, shape); }
    case BackoffOver => if pc.Backoff? { RetryKeepsShape(s); }
    case Ready => if pc.Handshaking? { ReadyKeepsShape(s); }
    case Spawned => if pc.Spawning? { SpawnKeepsShape(s); }
    case Drained => if pc.Draining? { DrainedKeepsShape(s); }
    case ReadLine =>
      if pc.Reading? && s.procs[pc.pid].read < |s.procs[pc.pid].lines| { TakeKeepsShape(s, pc.pid); }
    case SliceWake => if SliceWaits(s) { WaitKeepsShape(s); }
    case SliceWaitTimeout => if SliceWaits(s) { WaitKeepsShape(s); }
    case _ => CancelKeepsShape(s);
  }

  lemma StepKeepsShape(s: State, e: Event)
    requires Shaped(s) && !OrphanReady(s, e)
    ensures Shaped(Step(s, e))
  {
    if e.HealStart? || e.HealWake? || e.HealWaitTimeout? || e.HealCancel? {
      var r := HealStep(s, e);
      assert Grows(s, r);
    } else if e.Emit? || e.Die? || e.Reap? {
      var r := Step(s, e);
      assert Grows(s, r);
    } else {
      SliceKeepsShape(s, e);
    }
  }

  /** The step that breaks the pair, and the only one. */
  lemma OnlyOrphanReadyBreaks(s: State, e: Event)
    requires Shaped(s)
    ensures Coherent(Step(s, e)) <==> !OrphanReady(s, e)
  {
    if !OrphanReady(s, e) {
      StepKeepsShape(s, e);
    }
  }

  /** No step of the run is an orphaned handshake. */
  ghost predicate NoOrphanReady(ss: seq<State>, es: seq<Event>)
    requires |ss| == |es| + 1
  {
    forall k {:trigger es[k]} :: 0 <= k < |es| ==> !OrphanReady(ss[k], es[k])
  }

  lemma {:induction false} ShapedUnlessOrphaned(ss: seq<State>, es: seq<Event>, i: nat)
    requires Trace(ss, es) && i < |ss|
    requires forall k {:trigger es[k]} :: 0 <= k < i ==> !OrphanReady(ss[k], es[k])
    ensures Shaped(ss[i])
  {
    if i > 0 {
      hide Step, Shaped, OrphanReady;
      ShapedUnlessOrphaned(ss, es, i - 1);
      StepKeepsShape(ss[i - 1], es[i - 1]);
    }
  }

  /** Handle and shape agree in every state of a run exactly when the run has
      no handshake completed for a forgotten daemon. */
  lemma CoherentExactly(ss: seq<State>, es: seq<Event>)
    requires Trace(ss, es)
    ensures (forall k :: 0 <= k < |ss| ==> Coherent(ss[k])) <==> NoOrphanReady(ss, es)
  {
    hide Step, Coherent, OrphanReady;
    if NoOrphanReady(ss, es) {
      forall k | 0 <= k < |ss| ensures Coherent(ss[k]) {
        ShapedUnlessOrphaned(ss, es, k);
      }
    } else {
      var k :| 0 <= k < |es| && OrphanReady(ss[k], es[k]);
      FirstOrphan(ss, es, k);
    }
  }

  lemma {:induction false} FirstOrphan(ss: seq<State>, es: seq<Event>, k: nat)
    requires Trace(ss, es) && k < |es| && OrphanReady(ss[k], es[k])
    ensures exists j :: 0 <= j < |ss| && !Coherent(ss[j])
  {
    hide Step, Coherent, OrphanReady;
    if j :| 0 <= j < k && OrphanReady(ss[j], es[j]) {
      FirstOrphan(ss, es, j);
    } else {
      ShapedUnlessOrphaned(ss, es, k);
      OnlyOrphanReadyBreaks(ss[k], es[k]);
      assert !Coherent(ss[k + 1]);
    }
  }

  // ---- Exactly which hand-overs go wrong ----

  /** A live daemon that the wrapper takes for one of this shape. */
  predicate Usable(s: State, shape: Shape)
    requires Wf(s)
  {
    s.daemon.Some? && s.params == Some(shape) && !s.procs[s.daemon.value].reaped
  }

  /** The job that event e hands over, if it does. */
  function Written(s: State, e: Event): Option<Handed>
    requires Wf(s)
  {
    match e
    case Start(shape) =>
      if s.slice.pc.Idle? && Usable(s, shape) then Some(Handed(s.daemon.value, shape)) else None
    case BackoffOver =>
      if s.slice.pc.Backoff? && Usable(s, s.slice.shape) then Some(Handed(s.daemon.value, s.slice.shape)) else None
    case Ready =>
      if s.slice.pc.Handshaking? && s.daemon.Some? then Some(Handed(s.daemon.value, s.slice.shape)) else None
    case _ => None
  }

  /** The job goes to a daemon that was launched for another shape. */
  predicate Misfit(s: State, e: Event)
    requires Wf(s)
  {
    Written(s, e).Some? && s.procs[Written(s, e).value.pid].shape != Written(s, e).value.shape
  }

  lemma WritesExactly(s: State, e: Event)
    requires Wf(s)
    ensures Step(s, e).handed == s.handed + (if Written(s, e).Some? then [Written(s, e).value] else [])
  {
    hide Fail, AbortHandshake, CancelSlice, EndSlice, OnReadLine, OnWake, OnWaitTimeout;
    match e
    case Start(_) =>
    case BackoffOver =>
    case Ready =>
    case _ =>
  }

  /** Every job fits its daemon after a step exactly when every job did before
      and the step makes no misfit. */
  lemma MisfitStep(s: State, e: Event)
    requires Wf(s)
    ensures var r := Step(s, e);
            AllHandedMatch(s) && !Misfit(s, e) ==> AllHandedMatch(r)
    ensures var r := Step(s, e); AllHandedMatch(r) && (forall i :: 0 <= i < |s.handed| ==> s.handed[i].pid < |s.procs|) ==>
              AllHandedMatch(s) && !Misfit(s, e)
  {
    WritesExactly(s, e);
    var r := Step(s, e);
    assert Grows(s, r);
    hide Step;
    if Written(s, e).Some? {
      assert r.handed[|s.handed|] == Written(s, e).value;
    }
    forall i | 0 <= i < |s.handed| ensures r.handed[i] == s.handed[i] {
    }
  }

  ghost predicate InRange(s: State) {
    forall i :: 0 <= i < |s.handed| ==> s.handed[i].pid < |s.procs|
  }

  lemma {:induction false} HandedInRange(ss: seq<State>, es: seq<Event>, i: nat)
    requires Trace(ss, es) && i < |ss|
    ensures InRange(ss[i])
  {
    if i > 0 {
      HandedInRange(ss, es, i - 1);
      WritesExactly(ss[i - 1], es[i - 1]);
      assert Grows(ss[i - 1], Step(ss[i - 1], es[i - 1]));
      hide Step;
    }
  }

  /** In every state of a run every job handed over so far fits its daemon exactly
      when no step so far was a misfit. */
  lemma {:induction false} FitsExactly(ss: seq<State>, es: seq<Event>, i: nat)
    requires Trace(ss, es) && i < |ss|
    ensures AllHandedMatch(ss[i]) <==> forall k {:trigger es[k]} :: 0 <= k < i ==> !Misfit(ss[k], es[k])
  {
    hide Step, Misfit, AllHandedMatch;
    if i == 0 {
      assert AllHandedMatch(ss[0]) by { NothingHanded(); }
    } else {
      FitsExactly(ss, es, i - 1);
      HandedInRange(ss, es, i - 1);
      MisfitStep(ss[i - 1], es[i - 1]);
      assert Misfit(ss[i - 1], es[i - 1]) || !Misfit(ss[i - 1], es[i - 1]);
    }
  }

  lemma NothingHanded()
    ensures AllHandedMatch(INIT)
  {
  }

  /** What a handshake waits for, in every state: its own daemon, launched for
      the slice's shape, or none if that one has been forgotten. */
  ghost predicate OwnHandshake(s: State)
    requires Wf(s)
  {
    s.slice.pc.Handshaking? ==>
      && s.procs[s.slice.pc.pid].shape == s.slice.shape
      && (s.daemon.Some? ==> s.daemon.value == s.slice.pc.pid)
  }

  lemma OwnHandshakeStep(s: State, e: Event)
    requires Wf(s) && OwnHandshake(s)
    ensures OwnHandshake(Step(s, e))
  {
    hide Fail, AbortHandshake, CancelSlice, EndSlice, OnReadLine, OnWake, OnWaitTimeout, HealStep;
    assert Grows(s, Step(s, e));
    match e
    case Start(_) =>
    case BackoffOver =>
    case Spawned =>
    case Ready =>
    case _ =>
  }

  lemma {:induction false} HandshakesAreOwn(ss: seq<State>, es: seq<Event>, i: nat)
    requires Trace(ss, es) && i < |ss|
    ensures OwnHandshake(ss[i])
  {
    hide Step, OwnHandshake;
    if i == 0 {
      assert OwnHandshake(INIT) by { NoHandshakeYet(); }
    } else {
      HandshakesAreOwn(ss, es, i - 1);
      OwnHandshakeStep(ss[i - 1], es[i - 1]);
    }
  }

  lemma NoHandshakeYet()
    ensures OwnHandshake(INIT)
  {
  }

  lemma CoherentFits(s: State, e: Event)
    requires Shaped(s)
    ensures !Misfit(s, e)
  {
  }

  lemma OwnFits(s: State)
    requires Wf(s) && OwnHandshake(s)
    ensures !Misfit(s, Ready)
  {
  }

  /** A misfit never comes from a handshake of its own, and only after a handshake
      that was completed for a forgotten daemon. */
  lemma MisfitNeedsOrphan(ss: seq<State>, es: seq<Event>, k: nat)
    requires Trace(ss, es) && k < |es| && Misfit(ss[k], es[k])
    ensures !es[k].Ready?
    ensures exists j :: 0 <= j < k && OrphanReady(ss[j], es[j])
  {
    HandshakesAreOwn(ss, es, k);
    OwnFits(ss[k]);
    hide Step, OrphanReady, Misfit;
    if forall j {:trigger es[j]} :: 0 <= j < k ==> !OrphanReady(ss[j], es[j]) {
      ShapedUnlessOrphaned(ss, es, k);
      CoherentFits(ss[k], es[k]);
    }
  }

  /** A `force_restart` is under way while a new daemon shakes hands. */
  predicate Overlap(s: State) {
    s.heal.Some? && s.slice.pc.Handshaking?
  }

  ghost predicate NoOverlap(ss: seq<State>) {
    forall k :: 0 <= k < |ss| ==> !Overlap(ss[k])
  }

  lemma {:induction false} HandshakeKeepsHandle(ss: seq<State>, es: seq<Event>, i: nat)
    requires Trace(ss, es) && NoOverlap(ss) && i < |ss|
    ensures ss[i].slice.pc.Handshaking? ==> ss[i].daemon == Some(ss[i].slice.pc.pid)
  {
    if i > 0 {
      hide Step, Overlap;
      HandshakeKeepsHandle(ss, es, i - 1);
      HandshakeStep(ss[i - 1], es[i - 1]);
    }
  }

  lemma HandshakeStep(s: State, e: Event)
    requires Wf(s) && !Overlap(s) && !Overlap(Step(s, e))
    requires s.slice.pc.Handshaking? ==> s.daemon == Some(s.slice.pc.pid)
    ensures var r := Step(s, e); r.slice.pc.Handshaking? ==> r.daemon == Some(r.slice.pc.pid)
  {
    hide Fail, AfterFailure, AbortHandshake, ResumeSlice, Consume, EndSlice, CancelSlice;
    var r := Step(s, e);
    if r.slice.pc.Handshaking? && !s.slice.pc.Handshaking? {
      assert e.Spawned?;
    }
  }

  /** In a run where no `force_restart` overlaps a handshake, whatever is
      cancelled and whichever process dies, every job goes to a daemon launched
      with exactly that job's shape. */
  lemma NoOverlapIsSafe(ss: seq<State>, es: seq<Event>, i: nat)
    requires Trace(ss, es) && NoOverlap(ss) && i < |ss|
    ensures AllHandedMatch(ss[i])
  {
    hide Step, Overlap, NoOverlap;
    forall k | 0 <= k < i ensures !OrphanReady(ss[k], es[k]) {
      HandshakeKeepsHandle(ss, es, k);
    }
    ShapedUnlessOrphaned(ss, es, i);
  }

  const A := Shape(512, 16, 8, 18)
  const B := Shape(256, 16, 8, 18)

  /** A restart inside the first handshake, then a slice of another shape
      cancelled inside its own. */
  const MIXED_UP := [
    Start(A), Spawned, HealStart, Die(0), Reap(0), HealWake, Ready,
    Start(B), Spawned, Cancel,
    Start(A)]

  function Launched(shape: Shape): Proc {
    Proc(shape, [], [], 0, true, false, false, 0, 0, 0)
  }

  /** After the seventh step: no daemon, and shape A still on record. */
  const ORPHANED := INIT.(
    procs := [Launched(A).(stdinOpen := false, dead := true, reaped := true)],
    params := Some(A), slice := Slice(Idle, 0, A, 1, None, false), nextJob := 1)

  lemma RestartInHandshake()
    ensures Step(Step(Step(Step(Step(Step(Step(INIT,
              Start(A)), Spawned), HealStart), Die(0)), Reap(0)), HealWake), Ready) == ORPHANED
  {
    var s2 := INIT.(procs := [Launched(A)], daemon := Some(0),
                    slice := Slice(Handshaking(0), 0, A, 1, None, false), nextJob := 1);
    assert Step(Step(INIT, Start(A)), Spawned) == s2;
    RestartAfterSpawn(s2);
  }

  lemma RestartAfterSpawn(s2: State)
    requires s2 == INIT.(procs := [Launched(A)], daemon := Some(0),
                         slice := Slice(Handshaking(0), 0, A, 1, None, false), nextJob := 1)
    ensures Step(Step(Step(Step(Step(s2, HealStart), Die(0)), Reap(0)), HealWake), Ready) == ORPHANED
  {
    var s3 := s2.(procs := [Launched(A).(stdinOpen := false)], heal := Some(Graceful(0)));
    assert Step(s2, HealStart) == s3;
    var s5 := s3.(procs := [Launched(A).(stdinOpen := false, dead := true, reaped := true)]);
    assert Step(Step(s3, Die(0)), Reap(0)) == s5;
    assert Step(s5, HealWake) == s5.(heal := None, daemon := None, params := None);
  }

  lemma CancelInHandshake()
    ensures var s := Step(Step(Step(Step(ORPHANED, Start(B)), Spawned), Cancel), Start(A));
            s.handed == [Handed(1, A)] && |s.procs| == 2 && s.procs[1].shape == B
  {
    var s9 := ORPHANED.(procs := ORPHANED.procs + [Launched(B)], daemon := Some(1),
                        slice := Slice(Handshaking(1), 1, B, 1, None, false), nextJob := 2);
    assert Step(Step(ORPHANED, Start(B)), Spawned) == s9;
    CancelThenStart(s9);
  }

  lemma CancelThenStart(s9: State)
    requires s9 == ORPHANED.(procs := ORPHANED.procs + [Launched(B)], daemon := Some(1),
                             slice := Slice(Handshaking(1), 1, B, 1, None, false), nextJob := 2)
    ensures var s := Step(Step(s9, Cancel), Start(A));
            s.handed == [Handed(1, A)] && |s.procs| == 2 && s.procs[1].shape == B
  {
    assert Step(s9, Cancel) == s9.(slice := s9.slice.(pc := Idle));
  }

  /** Without the restriction the property fails: in this run the last job has
      shape A and goes to a daemon launched for shape B. */
  lemma OverlapIsUnsafe(ss: seq<State>)
    requires Trace(ss, MIXED_UP)
    ensures !AllHandedMatch(ss[11])
  {
    hide Step;
    var m := MIXED_UP;
    assert |m| == 11 && m[0] == Start(A) && m[1] == Spawned && m[2] == HealStart && m[3] == Die(0)
        && m[4] == Reap(0) && m[5] == HealWake && m[6] == Ready
        && m[7] == Start(B) && m[8] == Spawned && m[9] == Cancel && m[10] == Start(A);
    RestartInHandshake();
    assert ss[7] == ORPHANED;
    CancelInHandshake();
    assert ss[11].handed[0] == Handed(1, A);
  }
}
