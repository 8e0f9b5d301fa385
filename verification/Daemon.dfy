/**
 The daemon driver of `gbt_solve_wrapper.py` as a machine of atomic steps. A
 step is the code between two awaits. The actors are the one slice that holds
 the daemon lock and the heal task inside `force_restart`, which takes no lock;
 the environment emits lines, kills and reaps processes, lets timeouts fire and
 cancels either actor at any await.

 Every spawned process is kept, so that a process the wrapper has already let
 go of can still be read by a slice that holds on to it. The counters
 `cancelled`, `failed` and `stray` are history: nothing decides on them.
 */
module Daemon {
  import opened Prelude

  datatype Shape = Shape(n: int, b: int, r: int, epsilonBits: int)

  /** What one line on the daemon's stdout turns out to be. */
  datatype LineKind = Answer | ErrorRecord | Garbage

  datatype Proc = Proc(
    shape: Shape,          // launch arguments
    inbox: seq<nat>,       // jobs the process was sent, oldest first
    lines: seq<LineKind>,  // lines printed: lines[i] answers inbox[i]
    read: nat,             // lines the wrapper has read
    stdinOpen: bool,
    dead: bool,            // the process is gone
    reaped: bool,          // its return code is known
    cancelled: nat,        // slices cancelled while this process owed them a line
    failed: nat,           // slices that gave up on a line this process owed them
    stray: nat             // lines read by slices whose own job never reached stdin
  )

  /** Where a call of `_shutdown_daemon` waits, and on which process. */
  datatype Wait = Graceful(pid: nat) | Killed(pid: nat)

  datatype Pc =
    | Idle                 // no slice: the lock is free
    | Retiring(w: Wait)    // shape changed: inside _shutdown_daemon
    | Spawning             // inside create_subprocess_exec
    | Handshaking(pid: nat)
    | Aborting(w: Wait)    // no handshake in time: inside _shutdown_daemon
    | Draining(pid: nat)   // job written, inside drain
    | Reading(pid: nat)    // inside readline
    | Failing(w: Wait)     // I/O failed: inside _shutdown_daemon
    | Backoff              // sleeping before the second attempt

  datatype Slice = Slice(
    pc: Pc,
    job: nat,
    shape: Shape,
    attempt: nat,
    owed: Option<nat>,     // process that owes this slice a line
    pristine: bool         // written to an open stdin with nothing left over
  )

  datatype Handed = Handed(pid: nat, shape: Shape)
  datatype Got = Got(pid: nat, job: nat, answers: nat, pristine: bool)

  datatype State = State(
    procs: seq<Proc>,
    daemon: Option<nat>,
    params: Option<Shape>,
    slice: Slice,
    heal: Option<Wait>,
    nextJob: nat,
    handed: seq<Handed>,   // history: every job handed to a daemon
    got: seq<Got>          // history: every line read
  )

  datatype Event =
    | Start(shape: Shape)
    | Spawned | SpawnFailed
    | Ready | HandshakeTimeout
    | Drained | DrainFailed
    | ReadLine | ReadEof | ReadTimeout
    | SliceWake | SliceWaitTimeout
    | BackoffOver
    | Cancel
    | HealStart | HealWake | HealWaitTimeout | HealCancel
    | Emit(pid: nat, kind: LineKind) | Die(pid: nat) | Reap(pid: nat)

  const NO_SHAPE := Shape(0, 0, 0, 0)
  const INIT := State([], None, None, Slice(Idle, 0, NO_SHAPE, 1, None, false), None, 0, [], [])

  // ---- Well-formedness: every process number is in range ----

  predicate WaitOk(s: State, w: Wait) {
    w.pid < |s.procs|
  }

  predicate PcOk(s: State) {
    match s.slice.pc
    case Retiring(w) => WaitOk(s, w)
    case Aborting(w) => WaitOk(s, w)
    case Failing(w) => WaitOk(s, w)
    case Handshaking(p) => p < |s.procs|
    case Draining(p) => p < |s.procs|
    case Reading(p) => p < |s.procs|
    case _ => true
  }

  predicate Wf(s: State) {
    && (s.daemon.Some? ==> s.daemon.value < |s.procs|)
    && (s.heal.Some? ==> WaitOk(s, s.heal.value))
    && (s.slice.owed.Some? ==> s.slice.owed.value < |s.procs|)
    && PcOk(s)
    && forall p :: 0 <= p < |s.procs| ==> s.procs[p].read <= |s.procs[p].lines| <= |s.procs[p].inbox|
  }

  /** Nothing recorded is lost: processes stay, keep their shape, and the
      history only gets longer. */
  ghost predicate Grows(s: State, r: State) {
    && |s.procs| <= |r.procs|
    && s.handed <= r.handed
    && s.got <= r.got
    && forall p :: 0 <= p < |s.procs| ==> ProcGrows(s.procs[p], r.procs[p])
  }

  ghost predicate ProcGrows(p: Proc, q: Proc) {
    q.shape == p.shape && p.cancelled <= q.cancelled && p.stray <= q.stray
  }

  predicate AtPipe(pc: Pc) {
    pc.Draining? || pc.Reading?
  }

  /** Daemon handle and recorded shape are kept together or dropped together. */
  ghost predicate KeepsPair(s: State, r: State) {
    || (r.daemon == s.daemon && r.params == s.params)
    || (r.daemon.None? && r.params.None?)
  }

  /** A piece of a step that leaves the slice and the history alone. */
  ghost predicate Aside(s: State, r: State) {
    Grows(s, r) && KeepsPair(s, r) && r.slice == s.slice && r.handed == s.handed && r.got == s.got && r.nextJob == s.nextJob
  }

  /** A piece of a step that takes the slice away from a daemon, old or new. */
  ghost predicate OffPipe(s: State, r: State) {
    Grows(s, r) && KeepsPair(s, r) && !AtPipe(r.slice.pc) && !r.slice.pc.Handshaking?
    && r.slice.shape == s.slice.shape && r.slice.job == s.slice.job
    && r.handed == s.handed && r.got == s.got && r.nextJob == s.nextJob
  }

  // ---- _shutdown_daemon ----

  datatype Shutdown = Waiting(s: State, w: Wait) | Done(s: State) | Crashed(s: State)

  predicate ShutdownOk(r: Shutdown) {
    Wf(r.s) && (r.Waiting? ==> WaitOk(r.s, r.w))
  }

  /** Up to its first await: close stdin of the current daemon. */
  function BeginShutdown(s: State): (r: Shutdown)
    requires Wf(s)
    ensures ShutdownOk(r) && Aside(s, r.s)
  {
    match s.daemon
    case None => Done(s)
    case Some(d) => Waiting(s.(procs := s.procs[d := s.procs[d].(stdinOpen := false)]), Graceful(d))
  }

  /** The awaited process has been reaped: forget daemon and shape together. */
  function FinishShutdown(s: State): (r: State)
    requires Wf(s)
    ensures Wf(r) && Aside(s, r)
  {
    s.(daemon := None, params := None)
  }

  /** The five seconds are over. The code looks at the current daemon again,
      which need not be the one it waited for. */
  function EscalateShutdown(s: State): (r: Shutdown)
    requires Wf(s)
    ensures ShutdownOk(r) && Aside(s, r.s)
  {
    match s.daemon
    case None => Crashed(s)
    case Some(d) =>
      if s.procs[d].reaped then
        Done(FinishShutdown(s))
      else
        Waiting(s.(procs := s.procs[d := s.procs[d].(dead := true)]), Killed(d))
  }

  // ---- _ensure_daemon and the attempt loop ----

  function Goto(s: State, pc: Pc): State {
    s.(slice := s.slice.(pc := pc))
  }

  /** Give up the line the slice is owed, if any. */
  function Forfeit(s: State): (r: State)
    requires Wf(s)
    ensures Wf(r) && Grows(s, r)
  {
    match s.slice.owed
    case None => s
    case Some(p) => s.(procs := s.procs[p := s.procs[p].(failed := s.procs[p].failed + 1)],
                       slice := s.slice.(owed := None))
  }

  function EndSlice(s: State): (r: State)
    requires Wf(s)
    ensures Wf(r) && OffPipe(s, r)
  {
    Goto(Forfeit(s), Idle)
  }

  /** Write the job to daemon d. A closed stdin swallows it. */
  function HandOver(s: State, d: nat): (r: State)
    requires Wf(s) && d < |s.procs|
    ensures Wf(r) && Grows(s, r)
  {
    var p := s.procs[d];
    s.(procs := s.procs[d := if p.stdinOpen then p.(inbox := p.inbox + [s.slice.job]) else p],
       slice := s.slice.(pc := Draining(d),
                         owed := if p.stdinOpen then Some(d) else None,
                         pristine := p.stdinOpen && p.cancelled == p.stray),
       handed := s.handed + [Handed(d, s.slice.shape)])
  }

  function EnsureDaemon(s: State): (r: State)
    requires Wf(s)
    ensures Wf(r) && Grows(s, r)
  {
    if s.daemon.Some? && s.params != Some(s.slice.shape) then
      var b := BeginShutdown(s);
      Goto(b.s, Retiring(Graceful(s.daemon.value)))
    else if s.daemon.Some? && !s.procs[s.daemon.value].reaped then
      HandOver(s, s.daemon.value)
    else
      Goto(s, Spawning)
  }

  /** After the shutdown that follows a failed attempt. */
  function AfterFailure(s: State): (r: State)
    requires Wf(s)
    ensures Wf(r) && OffPipe(s, r)
  {
    if s.slice.attempt >= 2 then EndSlice(s) else Goto(Forfeit(s), Backoff)
  }

  function Fail(s: State): (r: State)
    requires Wf(s)
    ensures Wf(r) && OffPipe(s, r)
  {
    match BeginShutdown(s)
    case Waiting(s1, w) => Goto(s1, Failing(w))
    case Done(s1) => AfterFailure(s1)
    case Crashed(s1) => EndSlice(s1)
  }

  /** What the slice does once its call of `_shutdown_daemon` returns or raises. */
  function ResumeSlice(pc: Pc, r: Shutdown): (s1: State)
    requires ShutdownOk(r)
    ensures Wf(s1) && OffPipe(r.s, s1)
  {
    match r
    case Waiting(s, w) =>
      Goto(s, if pc.Retiring? then Retiring(w) else if pc.Aborting? then Aborting(w) else Failing(w))
    case Done(s) =>
      if pc.Retiring? then Goto(s, Spawning) else if pc.Failing? then AfterFailure(s) else EndSlice(s)
    case Crashed(s) => EndSlice(s)
  }

  /** The slice is inside `_shutdown_daemon`. */
  predicate SliceWaits(s: State) {
    s.slice.pc.Retiring? || s.slice.pc.Aborting? || s.slice.pc.Failing?
  }

  // ---- The steps ----

  function StartSlice(s: State, shape: Shape): (r: State)
    requires Wf(s)
    ensures Wf(r) && Grows(s, r)
  {
    EnsureDaemon(s.(slice := Slice(s.slice.pc, s.nextJob, shape, 1, None, false), nextJob := s.nextJob + 1))
  }

  function Spawn(s: State): (r: State)
    requires Wf(s)
    ensures Wf(r) && Grows(s, r)
  {
    var p := Proc(s.slice.shape, [], [], 0, true, false, false, 0, 0, 0);
    Goto(s.(procs := s.procs + [p], daemon := Some(|s.procs|)), Handshaking(|s.procs|))
  }

  /** The ready line arrived. The shape is recorded whatever became of the
      daemon, and the current daemon is what the job is written to. */
  function BecomeReady(s: State): (r: State)
    requires Wf(s)
    ensures Wf(r) && Grows(s, r)
  {
    var s1 := s.(params := Some(s.slice.shape));
    match s1.daemon
    case None => EndSlice(s1)
    case Some(d) => HandOver(s1, d)
  }

  function AbortHandshake(s: State): (r: State)
    requires Wf(s)
    ensures Wf(r) && OffPipe(s, r)
  {
    match BeginShutdown(s)
    case Waiting(s1, w) => Goto(s1, Aborting(w))
    case Done(s1) => EndSlice(s1)
    case Crashed(s1) => EndSlice(s1)
  }

  /** The line is off the pipe; the slice has not looked at it yet. */
  function Consume(s: State, p: nat): (r: State)
    requires Wf(s) && p < |s.procs| && s.procs[p].read < |s.procs[p].lines|
    ensures Wf(r) && Grows(s, r)
  {
    var q := s.procs[p];
    var stray := if s.slice.owed.None? then 1 else 0;
    s.(procs := s.procs[p := q.(read := q.read + 1, stray := q.stray + stray)],
       slice := s.slice.(owed := None, pc := Failing(Graceful(p))),
       got := s.got + [Got(p, s.slice.job, q.inbox[q.read], s.slice.pristine)])
  }

  function TakeLine(s: State, p: nat): (r: State)
    requires Wf(s) && p < |s.procs| && s.procs[p].read < |s.procs[p].lines|
    ensures Wf(r) && OffPipe(Consume(s, p), r)
  {
    if s.procs[p].lines[s.procs[p].read].Garbage? then Fail(Consume(s, p)) else EndSlice(Consume(s, p))
  }

  function CancelSlice(s: State): (r: State)
    requires Wf(s)
    ensures Wf(r) && OffPipe(s, r)
  {
    match s.slice.owed
    case None => Goto(s, Idle)
    case Some(p) => s.(procs := s.procs[p := s.procs[p].(cancelled := s.procs[p].cancelled + 1)],
                       slice := s.slice.(owed := None, pc := Idle))
  }

  function HealOutcome(r: Shutdown): (s1: State)
    requires ShutdownOk(r)
    ensures Wf(s1) && Aside(r.s, s1)
  {
    match r
    case Waiting(s, w) => s.(heal := Some(w))
    case Done(s) => s.(heal := None)
    case Crashed(s) => s.(heal := None)
  }

  function OnReadLine(s: State, p: nat): (r: State)
    requires Wf(s) && p < |s.procs|
    ensures Wf(r) && Grows(s, r) && r.handed == s.handed && (r == s || !r.slice.pc.Handshaking?)
  {
    if s.procs[p].read < |s.procs[p].lines| then TakeLine(s, p) else s
  }

  function OnWake(s: State): (r: State)
    requires Wf(s) && SliceWaits(s)
    ensures Wf(r) && Grows(s, r) && r.handed == s.handed && !r.slice.pc.Handshaking?
  {
    if s.procs[s.slice.pc.w.pid].reaped then ResumeSlice(s.slice.pc, Done(FinishShutdown(s))) else s
  }

  function OnWaitTimeout(s: State): (r: State)
    requires Wf(s) && SliceWaits(s)
    ensures Wf(r) && Grows(s, r) && r.handed == s.handed && !r.slice.pc.Handshaking?
  {
    if s.slice.pc.w.Graceful? && !s.procs[s.slice.pc.w.pid].reaped
    then ResumeSlice(s.slice.pc, EscalateShutdown(s)) else s
  }

  function SliceStep(s: State, e: Event): (r: State)
    requires Wf(s)
    ensures Wf(r) && Grows(s, r)
  {
    var pc := s.slice.pc;
    match e
    case Start(shape) => if pc.Idle? then StartSlice(s, shape) else s
    case Cancel => if pc.Idle? then s else CancelSlice(s)
    case Spawned => if pc.Spawning? then Spawn(s) else s
    case SpawnFailed => if pc.Spawning? then EndSlice(s) else s
    case Ready => if pc.Handshaking? then BecomeReady(s) else s
    case HandshakeTimeout => if pc.Handshaking? then AbortHandshake(s) else s
    case Drained => if pc.Draining? then Goto(s, Reading(pc.pid)) else s
    case DrainFailed => if pc.Draining? then Fail(s) else s
    case ReadLine => if pc.Reading? then OnReadLine(s, pc.pid) else s
    case ReadEof =>
      if pc.Reading? && s.procs[pc.pid].dead && s.procs[pc.pid].read == |s.procs[pc.pid].lines| then Fail(s) else s
    case ReadTimeout => if pc.Reading? then Fail(s) else s
    case BackoffOver => if pc.Backoff? then EnsureDaemon(s.(slice := s.slice.(attempt := 2))) else s
    case SliceWake => if SliceWaits(s) then OnWake(s) else s
    case SliceWaitTimeout => if SliceWaits(s) then OnWaitTimeout(s) else s
    case _ => s
  }

  function HealStep(s: State, e: Event): (r: State)
    requires Wf(s)
    ensures Wf(r) && Aside(s, r)
  {
    match e
    case HealStart => if s.heal.None? then HealOutcome(BeginShutdown(s)) else s
    case HealWake =>
      if s.heal.Some? && s.procs[s.heal.value.pid].reaped then HealOutcome(Done(FinishShutdown(s))) else s
    case HealWaitTimeout =>
      if s.heal.Some? && s.heal.value.Graceful? && !s.procs[s.heal.value.pid].reaped
      then HealOutcome(EscalateShutdown(s)) else s
    case HealCancel => s.(heal := None)
    case _ => s
  }

  function ProcStep(p: Proc, e: Event): Proc {
    match e
    case Emit(_, kind) => if !p.dead && |p.lines| < |p.inbox| then p.(lines := p.lines + [kind]) else p
    case Die(_) => p.(dead := true)
    case Reap(_) => if p.dead then p.(reaped := true) else p
    case _ => p
  }

  /** One atomic step; an event that cannot happen in s leaves s alone. */
  function Step(s: State, e: Event): (r: State)
    requires Wf(s)
    ensures Wf(r) && Grows(s, r)
  {
    if e.HealStart? || e.HealWake? || e.HealWaitTimeout? || e.HealCancel? then
      HealStep(s, e)
    else if e.Emit? || e.Die? || e.Reap? then
      if e.pid < |s.procs| then s.(procs := s.procs[e.pid := ProcStep(s.procs[e.pid], e)]) else s
    else
      SliceStep(s, e)
  }

  // ---- Runs ----

  /** A run: any finite sequence of events, and the states it leads through. */
  ghost predicate Trace(ss: seq<State>, es: seq<Event>) {
    && |ss| == |es| + 1 && ss[0] == INIT
    && (forall i :: 0 <= i < |ss| ==> Wf(ss[i]))
    && (forall i {:trigger es[i]} :: 0 <= i < |es| ==> ss[i + 1] == Step(ss[i], es[i]))
  }

  /** A state of some run. */
  ghost predicate Reached(s: State) {
    exists ss, es, i :: Trace(ss, es) && 0 <= i < |ss| && ss[i] == s
  }

  /** Whatever happens next in a state of some run leads to a state of some run. */
  lemma ReachedIsClosed(s: State, e: Event)
    requires Reached(s)
    ensures Wf(s) && Reached(Step(s, e))
  {
    hide Step;
    var ss, es, i :| Trace(ss, es) && 0 <= i < |ss| && ss[i] == s;
    var more, after := es[..i] + [e], ss[..i + 1] + [Step(s, e)];
    forall k | 0 <= k < |more| ensures after[k + 1] == Step(after[k], more[k]) {
      assert k < i ==> more[k] == es[k];
    }
    assert Trace(after, more) && after[i + 1] == Step(s, e);
  }

  lemma InitIsReached()
    ensures Reached(INIT)
  {
    var es: seq<Event> := [];
    assert Trace([INIT], es) && [INIT][0] == INIT;
  }

  /** Every sequence of events is a run. */
  lemma {:induction false} EveryRunExists(es: seq<Event>) returns (ss: seq<State>)
    ensures Trace(ss, es)
  {
    hide Step;
    if es == [] {
      ss := [INIT];
    } else {
      var init := EveryRunExists(es[..|es| - 1]);
      ss := init + [Step(init[|es| - 1], es[|es| - 1])];
      forall i | 0 <= i < |es| ensures ss[i + 1] == Step(ss[i], es[i]) {
        assert i < |es| - 1 ==> es[..|es| - 1][i] == es[i];
      }
    }
  }
}
