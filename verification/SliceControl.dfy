/**
 Where every step takes the slice, the pipes and the daemon on record: when a
 slice is given up, when it is tried again, and who changes what.
 */
module SliceControl {
  import opened Prelude
  import opened Daemon

  // ---- What a step finds ----

  /** The process the slice waits for is gone, or the daemon now on record is when
      the five seconds are over. */
  predicate WaitIsOver(s: State, e: Event)
    requires Wf(s)
  {
    && SliceWaits(s)
    && var p := s.procs[s.slice.pc.w.pid];
    || (e.SliceWake? && p.reaped)
    || (TimeIsUp(s, e) && s.daemon.Some? && s.procs[s.daemon.value].reaped)
  }

  /** The five seconds are over, and the process has not gone. */
  predicate TimeIsUp(s: State, e: Event)
    requires Wf(s)
  {
    SliceWaits(s) && e.SliceWaitTimeout? && s.slice.pc.w.Graceful? && !s.procs[s.slice.pc.w.pid].reaped
  }

  /** The line read next is not there, or no record. */
  predicate Unreadable(s: State, e: Event)
    requires Wf(s)
  {
    && s.slice.pc.Reading?
    && var p := s.procs[s.slice.pc.pid];
    || e.ReadTimeout?
    || (e.ReadEof? && p.dead && p.read == |p.lines|)
    || (e.ReadLine? && p.read < |p.lines| && p.lines[p.read].Garbage?)
  }

  /** Writing or reading raises. */
  predicate IoFails(s: State, e: Event)
    requires Wf(s)
  {
    (s.slice.pc.Draining? && e.DrainFailed?) || Unreadable(s, e)
  }

  /** The attempt has failed and its daemon has been seen off. */
  predicate AttemptOver(s: State, e: Event)
    requires Wf(s)
  {
    (s.slice.pc.Failing? && WaitIsOver(s, e)) || (IoFails(s, e) && s.daemon.None?)
  }

  /** A record is read, be it an answer or an error. */
  predicate GetsRecord(s: State, e: Event)
    requires Wf(s)
  {
    && s.slice.pc.Reading? && e.ReadLine?
    && var p := s.procs[s.slice.pc.pid];
    p.read < |p.lines| && !p.lines[p.read].Garbage?
  }

  /** No daemon can be had: it is not spawned, does not shake hands in time, or is
      forgotten while it does. */
  predicate NoDaemon(s: State, e: Event)
    requires Wf(s)
  {
    || (s.slice.pc.Spawning? && e.SpawnFailed?)
    || (s.slice.pc.Handshaking? && (e.Ready? || e.HandshakeTimeout?) && s.daemon.None?)
    || (s.slice.pc.Aborting? && WaitIsOver(s, e))
  }

  /** The shutdown finds no daemon to kill, and raises. */
  predicate ShutdownCrashes(s: State, e: Event)
    requires Wf(s)
  {
    TimeIsUp(s, e) && s.daemon.None?
  }

  /** An attempt begins; `shape` is what it needs. */
  predicate Asks(s: State, e: Event) {
    (s.slice.pc.Idle? && e.Start?) || (s.slice.pc.Backoff? && e.BackoffOver?)
  }

  function Asked(s: State, e: Event): Shape {
    if e.Start? then e.shape else s.slice.shape
  }

  // ---- What the pieces of a step do ----

  /** Everything but the program counter, the books and the processes stays. */
  predicate Same(s: State, r: State) {
    && r.daemon == s.daemon && r.params == s.params && Kept(s, r)
  }

  predicate Kept(s: State, r: State) {
    && r.heal == s.heal && r.nextJob == s.nextJob && |r.procs| == |s.procs|
    && r.slice.job == s.slice.job && r.slice.shape == s.slice.shape && r.slice.attempt == s.slice.attempt
  }

  /** Where a slice goes once it has failed and there is no daemon to wait for. */
  function FailedPc(s: State): Pc {
    if s.slice.attempt >= 2 then Idle else Backoff
  }

  /** Where it goes once its shutdown is over. */
  function ResumedPc(s: State): Pc {
    if s.slice.pc.Retiring? then Spawning else if s.slice.pc.Failing? then FailedPc(s) else Idle
  }

  lemma EndPieces(s: State)
    requires Wf(s)
    ensures var r := EndSlice(s); Same(s, r) && r.slice.pc == Idle
    ensures var r := CancelSlice(s); Same(s, r) && r.slice.pc == Idle
    ensures var r := AfterFailure(s); Same(s, r) && r.slice.pc == FailedPc(s)
  {
  }

  lemma ShutPieces(s: State)
    requires Wf(s)
    ensures var r := Fail(s);
            Same(s, r) && r.slice.pc == if s.daemon.Some? then Failing(Graceful(s.daemon.value)) else FailedPc(s)
    ensures var r := AbortHandshake(s);
            Same(s, r) && r.slice.pc == if s.daemon.Some? then Aborting(Graceful(s.daemon.value)) else Idle
  {
    hide EndSlice, AfterFailure, Grows;
    EndPieces(s);
  }

  lemma WaitPieces(s: State)
    requires Wf(s) && SliceWaits(s)
    ensures var r := OnWake(s);
            if s.procs[s.slice.pc.w.pid].reaped
            then Kept(s, r) && r.daemon.None? && r.params.None? && r.slice.pc == ResumedPc(s)
            else r == s
    ensures var r := OnWaitTimeout(s);
            if !TimeIsUp(s, SliceWaitTimeout) then r == s
            else if s.daemon.None? then Same(s, r) && r.slice.pc == Idle
            else if s.procs[s.daemon.value].reaped
            then Kept(s, r) && r.daemon.None? && r.params.None? && r.slice.pc == ResumedPc(s)
            else
              var w := Killed(s.daemon.value);
              Same(s, r) && r.slice.pc == if s.slice.pc.Retiring? then Retiring(w)
                                          else if s.slice.pc.Aborting? then Aborting(w) else Failing(w)
  {
    hide EndSlice, AfterFailure, Grows;
    EndPieces(s);
    EndPieces(s.(daemon := None, params := None));
  }

  lemma AskPieces(s: State)
    requires Wf(s)
    ensures var r := EnsureDaemon(s);
            && Same(s, r)
            && r.slice.pc == if s.daemon.None? then Spawning
                             else if s.params != Some(s.slice.shape) then Retiring(Graceful(s.daemon.value))
                             else if s.procs[s.daemon.value].reaped then Spawning
                             else Draining(s.daemon.value)
  {
    hide Grows;
  }

  lemma ReadyPiece(s: State)
    requires Wf(s)
    ensures var r := BecomeReady(s);
            && Kept(s, r) && r.daemon == s.daemon && r.params == Some(s.slice.shape)
            && r.slice.pc == if s.daemon.Some? then Draining(s.daemon.value) else Idle
  {
    hide EndSlice, Grows;
    EndPieces(s.(params := Some(s.slice.shape)));
  }

  lemma ReadPiece(s: State)
    requires Wf(s) && s.slice.pc.Reading?
    ensures var r := OnReadLine(s, s.slice.pc.pid);
            if GetsRecord(s, ReadLine) then Same(s, r) && r.slice.pc == Idle
            else if Unreadable(s, ReadLine) then
              Same(s, r) && r.slice.pc == if s.daemon.Some? then Failing(Graceful(s.daemon.value)) else FailedPc(s)
            else r == s
  {
    var p := s.slice.pc.pid;
    if s.procs[p].read < |s.procs[p].lines| {
      var c := Consume(s, p);
      assert Same(s, c);
      hide Consume, EndSlice, Fail, Grows;
      EndPieces(c);
      ShutPieces(c);
    }
  }

  function AskedPc(s: State, shape: Shape): Pc
    requires Wf(s)
  {
    if s.daemon.None? then Spawning
    else if s.params != Some(shape) then Retiring(Graceful(s.daemon.value))
    else if s.procs[s.daemon.value].reaped then Spawning
    else Draining(s.daemon.value)
  }

  /** Where it goes unless an attempt begins or a daemon is spawned. */
  function NextPc(s: State, e: Event): Pc
    requires Wf(s)
  {
    var pc := s.slice.pc;
    if pc.Idle? then Idle
    else if e.Cancel? || GetsRecord(s, e) || NoDaemon(s, e) || ShutdownCrashes(s, e) then Idle
    else if AttemptOver(s, e) then FailedPc(s)
    else if IoFails(s, e) then Failing(Graceful(s.daemon.value))
    else if pc.Retiring? && WaitIsOver(s, e) then Spawning
    else if TimeIsUp(s, e) then
      var w := Killed(s.daemon.value);
      if pc.Retiring? then Retiring(w) else if pc.Aborting? then Aborting(w) else Failing(w)
    else if pc.Handshaking? && e.Ready? then Draining(s.daemon.value)
    else if pc.Handshaking? && e.HandshakeTimeout? then Aborting(Graceful(s.daemon.value))
    else if pc.Draining? && e.Drained? then Reading(pc.pid)
    else pc
  }

  /** What a step makes of the slice and of the daemon on record, unless an attempt
      begins or a daemon is spawned. */
  predicate Tabled(s: State, e: Event, r: State)
    requires Wf(s)
  {
    && Kept(s, r)
    && r.slice.pc == NextPc(s, e)
    && r.daemon == (if WaitIsOver(s, e) then None else s.daemon)
    && r.params == (if WaitIsOver(s, e) then None
                    else if s.slice.pc.Handshaking? && e.Ready? then Some(s.slice.shape) else s.params)
  }

  lemma SimpleTable(s: State, e: Event)
    requires Wf(s) && !Asks(s, e) && !(s.slice.pc.Spawning? && e.Spawned?)
    requires e.Start? || e.BackoffOver? || e.Cancel? || e.Spawned? || e.SpawnFailed? || e.Drained?
    ensures Tabled(s, e, Step(s, e))
  {
    hide EndSlice, CancelSlice, EnsureDaemon, HealStep, Grows, AttemptOver, IoFails, NoDaemon;
    hide GetsRecord, WaitIsOver, TimeIsUp, ShutdownCrashes;
    EndPieces(s);
    SimpleCases(s, e);
  }

  lemma SimpleCases(s: State, e: Event)
    requires Wf(s) && (e.Start? || e.BackoffOver? || e.Cancel? || e.Spawned? || e.SpawnFailed? || e.Drained?)
    ensures NoDaemon(s, e) <==> s.slice.pc.Spawning? && e.SpawnFailed?
    ensures !AttemptOver(s, e) && !IoFails(s, e)
    ensures !WaitIsOver(s, e) && !ShutdownCrashes(s, e) && !GetsRecord(s, e) && !TimeIsUp(s, e)
  {
  }

  lemma ShutTable(s: State, e: Event)
    requires Wf(s) && (e.Ready? || e.HandshakeTimeout? || e.DrainFailed? || e.ReadEof? || e.ReadTimeout?)
    ensures Tabled(s, e, Step(s, e))
  {
    hide Fail, AbortHandshake, BecomeReady, HealStep, Grows, AttemptOver, IoFails, NoDaemon;
    ShutPieces(s);
    ReadyPiece(s);
    ShutCases(s, e);
  }

  lemma ShutCases(s: State, e: Event)
    requires Wf(s) && (e.Ready? || e.HandshakeTimeout? || e.DrainFailed? || e.ReadEof? || e.ReadTimeout?)
    ensures NoDaemon(s, e) <==> s.slice.pc.Handshaking? && (e.Ready? || e.HandshakeTimeout?) && s.daemon.None?
    ensures AttemptOver(s, e) <==> IoFails(s, e) && s.daemon.None?
    ensures e.DrainFailed? ==> (IoFails(s, e) <==> s.slice.pc.Draining?)
    ensures e.ReadTimeout? ==> (IoFails(s, e) <==> s.slice.pc.Reading?)
    ensures e.ReadEof? ==>
              (IoFails(s, e) <==> s.slice.pc.Reading? && var p := s.procs[s.slice.pc.pid]; p.dead && p.read == |p.lines|)
    ensures e.Ready? || e.HandshakeTimeout? ==> !IoFails(s, e)
    ensures !WaitIsOver(s, e) && !ShutdownCrashes(s, e) && !GetsRecord(s, e) && !TimeIsUp(s, e)
  {
  }

  lemma ReadTable(s: State)
    requires Wf(s)
    ensures Tabled(s, ReadLine, Step(s, ReadLine))
  {
    hide OnReadLine, HealStep, Grows;
    if s.slice.pc.Reading? {
      ReadPiece(s);
    }
  }

  lemma WaitCases(s: State, e: Event)
    requires Wf(s) && (e.SliceWake? || e.SliceWaitTimeout?)
    ensures NoDaemon(s, e) <==> s.slice.pc.Aborting? && WaitIsOver(s, e)
    ensures AttemptOver(s, e) <==> s.slice.pc.Failing? && WaitIsOver(s, e)
    ensures !GetsRecord(s, e) && !IoFails(s, e)
  {
  }

  lemma WaitTable(s: State, e: Event)
    requires Wf(s) && (e.SliceWake? || e.SliceWaitTimeout?)
    ensures Tabled(s, e, Step(s, e))
  {
    hide OnWake, OnWaitTimeout, HealStep, Grows, AttemptOver, IoFails, NoDaemon, GetsRecord;
    WaitCases(s, e);
    if SliceWaits(s) {
      WaitPieces(s);
    }
  }

  /** A step of the forced restart or of a process leaves the slice alone. */
  lemma OthersTable(s: State, e: Event)
    requires Wf(s) && (e.HealStart? || e.HealWake? || e.HealWaitTimeout? || e.HealCancel? || e.Emit? || e.Die? || e.Reap?)
    ensures var r := Step(s, e); r.slice == s.slice && r.nextJob == s.nextJob && |r.procs| == |s.procs|
    ensures NextPc(s, e) == s.slice.pc && !WaitIsOver(s, e)
  {
    hide SliceStep, Grows;
    OthersWait(s, e);
  }

  lemma OthersWait(s: State, e: Event)
    requires Wf(s) && (e.HealStart? || e.HealWake? || e.HealWaitTimeout? || e.HealCancel? || e.Emit? || e.Die? || e.Reap?)
    ensures NextPc(s, e) == s.slice.pc && !WaitIsOver(s, e)
  {
  }

  lemma AskTable(s: State, e: Event)
    requires Wf(s) && Asks(s, e)
    ensures var r := Step(s, e);
            && r.heal == s.heal && r.daemon == s.daemon && r.params == s.params && |r.procs| == |s.procs|
            && r.slice.pc == AskedPc(s, Asked(s, e)) && r.slice.shape == Asked(s, e)
            && (e.Start? ==> r.slice.job == s.nextJob && r.nextJob == s.nextJob + 1 && r.slice.attempt == 1)
            && (!e.Start? ==> r.slice.job == s.slice.job && r.nextJob == s.nextJob && r.slice.attempt == 2)
  {
    hide EnsureDaemon, Grows;
    match e
    case Start(shape) =>
      AskPieces(s.(slice := Slice(s.slice.pc, s.nextJob, shape, 1, None, false), nextJob := s.nextJob + 1));
    case BackoffOver => AskPieces(s.(slice := s.slice.(attempt := 2)));
    case _ =>
  }

  lemma SpawnTable(s: State)
    requires Wf(s) && s.slice.pc.Spawning?
    ensures var r := Step(s, Spawned);
            && r.heal == s.heal && r.nextJob == s.nextJob && |r.procs| == |s.procs| + 1
            && r.slice == s.slice.(pc := Handshaking(|s.procs|))
            && r.daemon == Some(|s.procs|) && r.params == s.params
  {
  }

  /** A step of the slice, all cases together. */
  lemma Table(s: State, e: Event)
    requires Wf(s) && !Asks(s, e) && !(s.slice.pc.Spawning? && e.Spawned?)
    ensures var r := Step(s, e);
            && r.slice.pc == NextPc(s, e) && |r.procs| == |s.procs|
            && r.slice.job == s.slice.job && r.slice.shape == s.slice.shape && r.slice.attempt == s.slice.attempt
            && r.nextJob == s.nextJob
    ensures e.HealStart? || e.HealWake? || e.HealWaitTimeout? || e.HealCancel? || e.Emit? || e.Die? || e.Reap?
            || Tabled(s, e, Step(s, e))
  {
    hide Step, NextPc;
    match e
    case Ready => ShutTable(s, e);
    case HandshakeTimeout => ShutTable(s, e);
    case DrainFailed => ShutTable(s, e);
    case ReadEof => ShutTable(s, e);
    case ReadTimeout => ShutTable(s, e);
    case ReadLine => ReadTable(s);
    case SliceWake => WaitTable(s, e);
    case SliceWaitTimeout => WaitTable(s, e);
    case Start(_) => SimpleTable(s, e);
    case BackoffOver => SimpleTable(s, e);
    case Cancel => SimpleTable(s, e);
    case Spawned => SimpleTable(s, e);
    case SpawnFailed => SimpleTable(s, e);
    case Drained => SimpleTable(s, e);
    case _ => OthersTable(s, e);
  }

  /** ... and what begins an attempt or spawns a daemon. */
  lemma WholeTable(s: State, e: Event)
    requires Wf(s)
    ensures Asks(s, e) ==> Step(s, e).slice.pc == AskedPc(s, Asked(s, e))
    ensures s.slice.pc.Spawning? && e.Spawned? ==> Step(s, e).slice.pc == Handshaking(|s.procs|)
    ensures !Asks(s, e) && !(s.slice.pc.Spawning? && e.Spawned?) ==> Step(s, e).slice.pc == NextPc(s, e)
  {
    hide Step, NextPc, AskedPc;
    if Asks(s, e) {
      AskTable(s, e);
    } else if s.slice.pc.Spawning? && e.Spawned? {
      SpawnTable(s);
    } else {
      Table(s, e);
    }
  }

  // ---- Where the slice goes ----

  /** A slice gives the lock back exactly if it is cancelled, has its record, gets
      no daemon, its shutdown raises, or its second attempt is over. */
  lemma LeavesExactly(s: State, e: Event)
    requires Wf(s) && !s.slice.pc.Idle?
    ensures Step(s, e).slice.pc.Idle? <==>
              || e.Cancel? || GetsRecord(s, e) || NoDaemon(s, e) || ShutdownCrashes(s, e)
              || (AttemptOver(s, e) && s.slice.attempt >= 2)
  {
    hide Step;
    WholeTable(s, e);
  }

  /** It backs off exactly if its first attempt is over, and then only tries again
      or is cancelled. */
  lemma BacksOffExactly(s: State, e: Event)
    requires Wf(s)
    ensures !s.slice.pc.Backoff? ==>
              (Step(s, e).slice.pc.Backoff? <==> AttemptOver(s, e) && s.slice.attempt < 2)
    ensures s.slice.pc.Backoff? ==>
              (!Step(s, e).slice.pc.Backoff? <==> e.BackoffOver? || e.Cancel?)
  {
    hide Step;
    WholeTable(s, e);
  }

  /** The three ways on when an attempt begins. */
  lemma AsksExactly(s: State, e: Event)
    requires Wf(s) && Asks(s, e)
    ensures var r, shape := Step(s, e), Asked(s, e);
            && r.slice.shape == shape
            && (s.daemon.None? ==> r.slice.pc == Spawning)
            && (s.daemon.Some? ==>
                  var d := s.daemon.value;
                  && (s.params != Some(shape) ==> r.slice.pc == Retiring(Graceful(d)))
                  && (s.params == Some(shape) && s.procs[d].reaped ==> r.slice.pc == Spawning)
                  && (s.params == Some(shape) && !s.procs[d].reaped ==> r.slice.pc == Draining(d)))
  {
    hide Step;
    AskTable(s, e);
  }

  /** A slice comes to spawn a daemon only so, or when it has retired the old one. */
  lemma SpawnsExactly(s: State, e: Event)
    requires Wf(s) && !Asks(s, e) && !s.slice.pc.Spawning?
    ensures Step(s, e).slice.pc.Spawning? <==> s.slice.pc.Retiring? && WaitIsOver(s, e)
  {
    hide Step;
    WholeTable(s, e);
  }

  /** From a spawned daemon to a job that is being read. */
  lemma ConnectsExactly(s: State, e: Event)
    requires Wf(s) && !Asks(s, e)
    ensures var r := Step(s, e);
            && (!s.slice.pc.Handshaking? ==>
                  (r.slice.pc.Handshaking? <==> s.slice.pc.Spawning? && e.Spawned?))
            && (!s.slice.pc.Draining? ==>
                  (r.slice.pc.Draining? <==> s.slice.pc.Handshaking? && e.Ready? && s.daemon.Some?))
            && (!s.slice.pc.Reading? ==>
                  (r.slice.pc.Reading? <==> s.slice.pc.Draining? && e.Drained?))
            && (r.slice.pc.Handshaking? && !s.slice.pc.Handshaking? ==> r.slice.pc.pid == |s.procs|)
            && (r.slice.pc.Draining? && !s.slice.pc.Draining? ==> s.daemon == Some(r.slice.pc.pid))
            && (r.slice.pc.Reading? && !s.slice.pc.Reading? ==> r.slice.pc.pid == s.slice.pc.pid)
  {
    hide Step;
    WholeTable(s, e);
  }

  /** A slice shuts the current daemon down exactly when its I/O fails or the
      handshake is late. */
  lemma ShutsDownExactly(s: State, e: Event)
    requires Wf(s) && !Asks(s, e) && !SliceWaits(s)
    ensures var r := Step(s, e);
            && !r.slice.pc.Retiring?
            && (r.slice.pc.Failing? <==> IoFails(s, e) && s.daemon.Some?)
            && (r.slice.pc.Aborting? <==> s.slice.pc.Handshaking? && e.HandshakeTimeout? && s.daemon.Some?)
            && (SliceWaits(r) ==> r.slice.pc.w == Graceful(s.daemon.value))
  {
    hide Step;
    WholeTable(s, e);
  }

  /** A slice that waits goes on waiting unless the wait is over, crashes or is
      cancelled; after five seconds it waits for the daemon it has killed. */
  lemma WaitsExactly(s: State, e: Event)
    requires Wf(s) && SliceWaits(s)
    ensures var r := Step(s, e);
            && (SliceWaits(r) <==> !WaitIsOver(s, e) && !ShutdownCrashes(s, e) && !e.Cancel?)
            && (SliceWaits(r) && !TimeIsUp(s, e) ==> r.slice.pc == s.slice.pc)
            && (SliceWaits(r) && TimeIsUp(s, e) ==> s.daemon.Some? && r.slice.pc.w == Killed(s.daemon.value))
            && (SliceWaits(r) ==>
                  && (r.slice.pc.Retiring? <==> s.slice.pc.Retiring?)
                  && (r.slice.pc.Aborting? <==> s.slice.pc.Aborting?)
                  && (r.slice.pc.Failing? <==> s.slice.pc.Failing?))
  {
    hide Step;
    WholeTable(s, e);
  }

  /** Job numbers, shapes and attempts are set where an attempt begins and nowhere
      else. */
  lemma CountsAttempts(s: State, e: Event)
    requires Wf(s)
    ensures var r := Step(s, e);
            if s.slice.pc.Idle? && e.Start? then
              r.slice.job == s.nextJob && r.nextJob == s.nextJob + 1 && r.slice.attempt == 1 && r.slice.shape == e.shape
            else
              && r.slice.job == s.slice.job && r.nextJob == s.nextJob && r.slice.shape == s.slice.shape
              && r.slice.attempt == if s.slice.pc.Backoff? && e.BackoffOver? then 2 else s.slice.attempt
  {
    hide Step, NextPc, AskedPc;
    if Asks(s, e) {
      AskTable(s, e);
    } else if s.slice.pc.Spawning? && e.Spawned? {
      SpawnTable(s);
    } else {
      Table(s, e);
    }
  }

  // ---- The daemon on record ----

  /** The wait of the forced restart is over. */
  predicate HealIsOver(s: State, e: Event)
    requires Wf(s)
  {
    && s.heal.Some?
    && var p := s.procs[s.heal.value.pid];
    || (e.HealWake? && p.reaped)
    || (HealTimeIsUp(s, e) && s.daemon.Some? && s.procs[s.daemon.value].reaped)
  }

  predicate HealTimeIsUp(s: State, e: Event)
    requires Wf(s)
  {
    s.heal.Some? && e.HealWaitTimeout? && s.heal.value.Graceful? && !s.procs[s.heal.value.pid].reaped
  }

  lemma OthersRecord(s: State, e: Event)
    requires Wf(s) && (e.HealStart? || e.HealWake? || e.HealWaitTimeout? || e.HealCancel? || e.Emit? || e.Die? || e.Reap?)
    ensures var r := Step(s, e);
            && r.daemon == (if HealIsOver(s, e) then None else s.daemon)
            && r.params == (if HealIsOver(s, e) then None else s.params)
  {
    hide Grows;
  }

  /** Handle and shape: set by a spawn and a ready line, forgotten together when a
      shutdown is over, and never otherwise changed. */
  lemma RecordMoves(s: State, e: Event)
    requires Wf(s)
    ensures var r, over := Step(s, e), WaitIsOver(s, e) || HealIsOver(s, e);
            && r.daemon == (if s.slice.pc.Spawning? && e.Spawned? then Some(|s.procs|)
                            else if over then None else s.daemon)
            && r.params == (if s.slice.pc.Handshaking? && e.Ready? then Some(s.slice.shape)
                            else if over then None else s.params)
  {
    if e.HealStart? || e.HealWake? || e.HealWaitTimeout? || e.HealCancel? || e.Emit? || e.Die? || e.Reap? {
      OthersRecord(s, e);
    } else {
      hide Step, NextPc, AskedPc;
      if Asks(s, e) {
        AskTable(s, e);
      } else if s.slice.pc.Spawning? && e.Spawned? {
        SpawnTable(s);
      } else {
        Table(s, e);
      }
    }
  }

  /** The forced restart: it begins with a daemon only, waits for it, kills after
      five seconds, and ends when its process is gone or nothing is left to kill. */
  lemma HealMoves(s: State, e: Event)
    requires Wf(s)
    ensures var r := Step(s, e);
            && (s.heal.None? ==>
                  r.heal == if e.HealStart? && s.daemon.Some? then Some(Graceful(s.daemon.value)) else None)
            && (s.heal.Some? ==>
                  r.heal == if e.HealCancel? || HealIsOver(s, e) then None
                            else if HealTimeIsUp(s, e) then
                              if s.daemon.None? then None else Some(Killed(s.daemon.value))
                            else s.heal)
  {
    if e.HealStart? || e.HealWake? || e.HealWaitTimeout? || e.HealCancel? || e.Emit? || e.Die? || e.Reap? {
      hide Grows;
    } else {
      hide Step, NextPc, AskedPc;
      if Asks(s, e) {
        AskTable(s, e);
      } else if s.slice.pc.Spawning? && e.Spawned? {
        SpawnTable(s);
      } else {
        Table(s, e);
      }
    }
  }

  // ---- The processes ----

  /** A shutdown begins: stdin of the daemon on record is closed. */
  predicate CallsOff(s: State, e: Event)
    requires Wf(s)
  {
    || (e.HealStart? && s.heal.None?)
    || IoFails(s, e)
    || (s.slice.pc.Handshaking? && e.HandshakeTimeout?)
    || (Asks(s, e) && s.params != Some(Asked(s, e)))
  }

  /** A job is written to the daemon on record. */
  predicate WritesJob(s: State, e: Event)
    requires Wf(s)
  {
    && s.daemon.Some?
    && (|| (Asks(s, e) && s.params == Some(Asked(s, e)) && !s.procs[s.daemon.value].reaped)
        || (s.slice.pc.Handshaking? && e.Ready?))
  }

  /** What becomes of process p: its pipe takes the slice's job if it is written to
      and open, and gives up one line to the slice that reads it; its stdin closes
      when it is on record and a shutdown begins; it dies by itself or is killed as
      the daemon on record. */
  predicate Moved(s: State, e: Event, p: nat, r: State)
    requires Wf(s) && p < |s.procs|
  {
    && p < |r.procs|
    && var q, t, current := s.procs[p], r.procs[p], s.daemon == Some(p);
    && t.inbox == q.inbox + (if WritesJob(s, e) && current && q.stdinOpen then [r.slice.job] else [])
    && t.lines == q.lines + (if e.Emit? && e.pid == p && !q.dead && |q.lines| < |q.inbox| then [e.kind] else [])
    && t.read == q.read + (if s.slice.pc == Reading(p) && e.ReadLine? && q.read < |q.lines| then 1 else 0)
    && t.stdinOpen == (q.stdinOpen && !(CallsOff(s, e) && current))
    && t.dead == (q.dead || e == Die(p) || ((TimeIsUp(s, e) || HealTimeIsUp(s, e)) && current && !q.reaped))
    && t.reaped == (q.reaped || (e == Reap(p) && q.dead))
  }

  predicate SameProc(q: Proc, t: Proc) {
    && t.inbox == q.inbox && t.lines == q.lines && t.read == q.read
    && t.stdinOpen == q.stdinOpen && t.dead == q.dead && t.reaped == q.reaped
  }

  /** A step that writes nothing, shuts nothing and kills nothing. */
  lemma Still(s: State, e: Event, p: nat, r: State)
    requires Wf(s) && p < |s.procs| && p < |r.procs| && SameProc(s.procs[p], r.procs[p])
    requires !WritesJob(s, e) && !CallsOff(s, e) && !TimeIsUp(s, e) && !HealTimeIsUp(s, e)
    requires !e.Emit? && !e.Die? && !e.Reap? && !(s.slice.pc.Reading? && e.ReadLine?)
    ensures Moved(s, e, p, r)
  {
  }

  predicate Shut(s: State, p: nat, r: State) {
    && p < |s.procs| && p < |r.procs|
    && SameProc(s.procs[p].(stdinOpen := s.procs[p].stdinOpen && s.daemon != Some(p)), r.procs[p])
  }

  /** A step that begins a shutdown, or asks for one with no daemon on record. */
  lemma Shutting(s: State, e: Event, p: nat, r: State)
    requires Wf(s) && Shut(s, p, r)
    requires !WritesJob(s, e) && CallsOff(s, e) && !TimeIsUp(s, e) && !HealTimeIsUp(s, e)
    requires !e.Emit? && !e.Die? && !e.Reap? && !(s.slice.pc.Reading? && e.ReadLine?)
    ensures Moved(s, e, p, r)
  {
  }

  /** Process p when the job of r is written to the daemon on record. */
  predicate Wrote(s: State, p: nat, r: State) {
    && p < |s.procs| && p < |r.procs|
    && var q := s.procs[p];
    SameProc(if s.daemon == Some(p) && q.stdinOpen then q.(inbox := q.inbox + [r.slice.job]) else q, r.procs[p])
  }

  lemma Writing(s: State, e: Event, p: nat, r: State)
    requires Wf(s) && Wrote(s, p, r)
    requires WritesJob(s, e) && !CallsOff(s, e) && !TimeIsUp(s, e) && !HealTimeIsUp(s, e)
    requires !e.Emit? && !e.Die? && !e.Reap? && !(s.slice.pc.Reading? && e.ReadLine?)
    ensures Moved(s, e, p, r)
  {
  }

  lemma EnsureProc(s: State, p: nat)
    requires Wf(s) && p < |s.procs|
    ensures var r := EnsureDaemon(s);
            && p < |r.procs|
            && if s.daemon.Some? && s.params != Some(s.slice.shape) then Shut(s, p, r)
               else if s.daemon.Some? && !s.procs[s.daemon.value].reaped then Wrote(s, p, r)
               else SameProc(s.procs[p], r.procs[p])
  {
    hide Grows;
  }

  lemma ReadyProc(s: State, p: nat)
    requires Wf(s) && p < |s.procs|
    ensures var r := BecomeReady(s);
            p < |r.procs| && if s.daemon.Some? then Wrote(s, p, r) else SameProc(s.procs[p], r.procs[p])
  {
    hide EndSlice, Grows;
    EndProc(s.(params := Some(s.slice.shape)), p);
  }

  lemma EndProc(s: State, p: nat)
    requires Wf(s) && p < |s.procs|
    ensures var r := EndSlice(s); p < |r.procs| && SameProc(s.procs[p], r.procs[p])
    ensures var r := CancelSlice(s); p < |r.procs| && SameProc(s.procs[p], r.procs[p])
    ensures var r := AfterFailure(s); p < |r.procs| && SameProc(s.procs[p], r.procs[p])
  {
    hide Grows;
  }

  lemma ShutProc(s: State, p: nat)
    requires Wf(s) && p < |s.procs|
    ensures Shut(s, p, Fail(s)) && Shut(s, p, AbortHandshake(s))
  {
    hide EndSlice, AfterFailure, Grows;
    EndProc(s, p);
  }

  /** Process p when the daemon on record is killed. */
  predicate Struck(s: State, p: nat, r: State) {
    && p < |s.procs| && p < |r.procs|
    && var q := s.procs[p];
    SameProc(if s.daemon == Some(p) && !q.reaped then q.(dead := true) else q, r.procs[p])
  }

  lemma Killing(s: State, e: Event, p: nat, r: State)
    requires Wf(s) && Struck(s, p, r)
    requires !WritesJob(s, e) && !CallsOff(s, e) && (TimeIsUp(s, e) || HealTimeIsUp(s, e))
    requires e.SliceWaitTimeout? || e.HealWaitTimeout?
    ensures Moved(s, e, p, r)
  {
  }

  lemma WaitProc(s: State, p: nat)
    requires Wf(s) && p < |s.procs| && SliceWaits(s)
    ensures var r := OnWake(s); p < |r.procs| && SameProc(s.procs[p], r.procs[p])
    ensures var r := OnWaitTimeout(s);
            if TimeIsUp(s, SliceWaitTimeout) then Struck(s, p, r) else r == s
  {
    hide EndSlice, AfterFailure, Grows;
    EndProc(s, p);
    EndProc(s.(daemon := None, params := None), p);
  }

  lemma SimpleMovesProc(s: State, e: Event, p: nat)
    requires Wf(s) && p < |s.procs|
    requires e.Cancel? || e.Spawned? || e.SpawnFailed? || e.Drained?
    ensures Moved(s, e, p, Step(s, e))
  {
    hide EndSlice, CancelSlice, HealStep, Grows, Wf, Moved;
    EndProc(s, p);
    Still(s, e, p, Step(s, e));
  }

  lemma AskMovesProc(s: State, e: Event, p: nat)
    requires Wf(s) && p < |s.procs| && (e.Start? || e.BackoffOver?)
    ensures Moved(s, e, p, Step(s, e))
  {
    hide EnsureDaemon, HealStep, Grows, Wf, Moved, Wrote, Shut, SameProc;
    var r := Step(s, e);
    if !Asks(s, e) {
      SameIsSame(s.procs[p]);
      Still(s, e, p, r);
    } else {
      AskSets(s, e, p);
      if s.params != Some(Asked(s, e)) {
        Shutting(s, e, p, r);
      } else if WritesJob(s, e) {
        Writing(s, e, p, r);
      } else {
        Still(s, e, p, r);
      }
    }
  }

  lemma SameIsSame(q: Proc)
    ensures SameProc(q, q)
  {
  }

  lemma AskSets(s: State, e: Event, p: nat)
    requires Wf(s) && p < |s.procs| && Asks(s, e)
    ensures var r, shape := Step(s, e), Asked(s, e);
            && p < |r.procs|
            && (s.daemon.Some? && s.params != Some(shape) ==> Shut(s, p, r))
            && (s.daemon.None? ==> Shut(s, p, r) && SameProc(s.procs[p], r.procs[p]))
            && (s.daemon.Some? && s.params == Some(shape) ==>
                  if s.procs[s.daemon.value].reaped then SameProc(s.procs[p], r.procs[p]) else Wrote(s, p, r))
  {
    hide EnsureDaemon, HealStep, Grows;
    match e
    case Start(shape) =>
      EnsureProc(s.(slice := Slice(s.slice.pc, s.nextJob, shape, 1, None, false), nextJob := s.nextJob + 1), p);
    case BackoffOver => EnsureProc(s.(slice := s.slice.(attempt := 2)), p);
    case _ =>
  }

  lemma ShutMovesProc(s: State, e: Event, p: nat)
    requires Wf(s) && p < |s.procs|
    requires e.Ready? || e.HandshakeTimeout? || e.DrainFailed? || e.ReadEof? || e.ReadTimeout?
    ensures Moved(s, e, p, Step(s, e))
  {
    hide Fail, AbortHandshake, BecomeReady, HealStep, Grows, Wf, Moved, Wrote, Shut, SameProc;
    var r := Step(s, e);
    ShutProc(s, p);
    ReadyProc(s, p);
    SameIsSame(s.procs[p]);
    if CallsOff(s, e) {
      Shutting(s, e, p, r);
    } else if WritesJob(s, e) {
      Writing(s, e, p, r);
    } else {
      Still(s, e, p, r);
    }
  }

  /** Process p when the next line of process q is taken off. */
  predicate Took(s: State, q: nat, p: nat, r: State) {
    && p < |s.procs| && p < |r.procs|
    && SameProc(if p == q then s.procs[p].(read := s.procs[p].read + 1) else s.procs[p], r.procs[p])
  }

  /** ... and the line is no record, so the daemon is shut down. */
  predicate TookAndShut(s: State, q: nat, p: nat, r: State) {
    && p < |s.procs|
    && var taken := if p == q then s.procs[p].(read := s.procs[p].read + 1) else s.procs[p];
    Shut(s.(procs := s.procs[p := taken]), p, r)
  }

  lemma ReadProc(s: State, p: nat)
    requires Wf(s) && p < |s.procs| && s.slice.pc.Reading?
    ensures var r, q := OnReadLine(s, s.slice.pc.pid), s.slice.pc.pid;
            if GetsRecord(s, ReadLine) then Took(s, q, p, r)
            else if Unreadable(s, ReadLine) then TookAndShut(s, q, p, r)
            else r == s
  {
    hide EndSlice, Fail, Grows;
    var q := s.slice.pc.pid;
    if s.procs[q].read < |s.procs[q].lines| {
      var c := Consume(s, q);
      assert Took(s, q, p, c) && c.daemon == s.daemon;
      ShutProc(c, p);
      EndProc(c, p);
    }
  }

  lemma ReadMovesProc(s: State, p: nat)
    requires Wf(s) && p < |s.procs|
    ensures Moved(s, ReadLine, p, Step(s, ReadLine))
  {
    hide OnReadLine, HealStep, Grows;
    if s.slice.pc.Reading? {
      ReadProc(s, p);
    }
  }

  lemma WaitMovesProc(s: State, e: Event, p: nat)
    requires Wf(s) && p < |s.procs| && (e.SliceWake? || e.SliceWaitTimeout?)
    ensures Moved(s, e, p, Step(s, e))
  {
    hide OnWake, OnWaitTimeout, HealStep, Grows, Wf, Moved, SameProc;
    var r := Step(s, e);
    SameIsSame(s.procs[p]);
    if SliceWaits(s) {
      WaitProc(s, p);
    }
    if TimeIsUp(s, e) {
      Killing(s, e, p, r);
    } else {
      Still(s, e, p, r);
    }
  }

  lemma HealMovesProc(s: State, e: Event, p: nat)
    requires Wf(s) && p < |s.procs| && (e.HealStart? || e.HealWake? || e.HealWaitTimeout? || e.HealCancel?)
    ensures Moved(s, e, p, Step(s, e))
  {
    hide SliceStep, Grows, Wf, Moved, SameProc;
    var r := Step(s, e);
    SameIsSame(s.procs[p]);
    HealProc(s, e, p);
    if HealTimeIsUp(s, e) {
      Killing(s, e, p, r);
    } else if CallsOff(s, e) {
      Shutting(s, e, p, r);
    } else {
      Still(s, e, p, r);
    }
  }

  lemma HealProc(s: State, e: Event, p: nat)
    requires Wf(s) && p < |s.procs| && (e.HealStart? || e.HealWake? || e.HealWaitTimeout? || e.HealCancel?)
    ensures var r := HealStep(s, e);
            && p < |r.procs|
            && if HealTimeIsUp(s, e) then Struck(s, p, r)
               else if e.HealStart? && s.heal.None? then Shut(s, p, r)
               else SameProc(s.procs[p], r.procs[p])
  {
    hide Grows;
  }

  lemma OwnMoves(s: State, e: Event, p: nat)
    requires Wf(s) && p < |s.procs| && (e.Emit? || e.Die? || e.Reap?)
    ensures Moved(s, e, p, Step(s, e))
  {
    hide SliceStep, HealStep, Grows, Wf;
  }

  /** So it is for every step and every process. */
  lemma ProcessMoves(s: State, e: Event, p: nat)
    requires Wf(s) && p < |s.procs|
    ensures Moved(s, e, p, Step(s, e))
  {
    hide Step, CallsOff, WritesJob, TimeIsUp, HealTimeIsUp;
    match e
    case Emit(_, _) => OwnMoves(s, e, p);
    case Die(_) => OwnMoves(s, e, p);
    case Reap(_) => OwnMoves(s, e, p);
    case HealStart => HealMovesProc(s, e, p);
    case HealWake => HealMovesProc(s, e, p);
    case HealWaitTimeout => HealMovesProc(s, e, p);
    case HealCancel => HealMovesProc(s, e, p);
    case ReadLine => ReadMovesProc(s, p);
    case SliceWake => WaitMovesProc(s, e, p);
    case SliceWaitTimeout => WaitMovesProc(s, e, p);
    case Start(_) => AskMovesProc(s, e, p);
    case BackoffOver => AskMovesProc(s, e, p);
    case Ready => ShutMovesProc(s, e, p);
    case HandshakeTimeout => ShutMovesProc(s, e, p);
    case DrainFailed => ShutMovesProc(s, e, p);
    case ReadEof => ShutMovesProc(s, e, p);
    case ReadTimeout => ShutMovesProc(s, e, p);
    case _ => SimpleMovesProc(s, e, p);
  }

  /** Processes come by spawning only: launched for the slice's shape, running, with
      nothing written or read. */
  lemma ProcessesComeExactly(s: State, e: Event)
    requires Wf(s)
    ensures var r := Step(s, e);
            if s.slice.pc.Spawning? && e.Spawned? then
              && |r.procs| == |s.procs| + 1
              && var p := r.procs[|s.procs|];
              && p.shape == s.slice.shape && p.inbox == [] && p.lines == [] && p.read == 0
              && p.stdinOpen && !p.dead && !p.reaped
            else |r.procs| == |s.procs|
  {
    if s.slice.pc.Spawning? && e.Spawned? {
    } else {
      hide Step, NextPc, AskedPc;
      if Asks(s, e) {
        AskTable(s, e);
      } else {
        Table(s, e);
      }
    }
  }

  // ---- Over runs ----

  /** The slice in flight at i had its first attempt fail at step a, and began its
      second at step b. */
  ghost predicate Retried(ss: seq<State>, es: seq<Event>, a: nat, b: nat, i: nat) {
    && a < b < i < |ss| && |ss| == |es| + 1
    && (forall k :: 0 <= k < |ss| ==> Wf(ss[k]))
    && AttemptOver(ss[a], es[a]) && ss[a].slice.attempt == 1
    && ss[b].slice.pc.Backoff? && es[b].BackoffOver?
    && ss[a].slice.job == ss[i].slice.job && ss[b].slice.job == ss[i].slice.job
  }

  /** A slice on its second attempt has had a first one fail. */
  lemma {:induction false} SecondFollowsFirst(ss: seq<State>, es: seq<Event>, i: nat) returns (a: nat, b: nat)
    requires Trace(ss, es) && i < |ss| && !ss[i].slice.pc.Idle?
    ensures ss[i].slice.attempt == 1 || ss[i].slice.attempt == 2
    ensures ss[i].slice.attempt == 2 ==> Retried(ss, es, a, b, i)
    ensures ss[i].slice.pc.Backoff? ==>
              && ss[i].slice.attempt == 1 && a < i && AttemptOver(ss[a], es[a])
              && ss[a].slice.attempt == 1 && ss[a].slice.job == ss[i].slice.job
  {
    hide Step, AttemptOver;
    a, b := 0, 0;
    if i > 0 {
      var s, e := ss[i - 1], es[i - 1];
      CountsAttempts(s, e);
      BacksOffExactly(s, e);
      if s.slice.pc.Idle? {
        IdleStarts(s, e);
      } else {
        a, b := SecondFollowsFirst(ss, es, i - 1);
        if s.slice.pc.Backoff? && e.BackoffOver? {
          b := i - 1;
        } else if ss[i].slice.pc.Backoff? && !s.slice.pc.Backoff? {
          a := i - 1;
        }
      }
    }
  }

  lemma IdleStarts(s: State, e: Event)
    requires Wf(s) && s.slice.pc.Idle? && !Step(s, e).slice.pc.Idle?
    ensures e.Start? && !Step(s, e).slice.pc.Backoff?
  {
    hide Step;
    WholeTable(s, e);
  }

  /** A slice that is neither cancelled nor answered, gets its daemons and shuts
      them down without an exception is given up only after two attempts: the first
      has failed, the slice has backed off, and the second has failed too. */
  lemma GivesUpAfterTwo(ss: seq<State>, es: seq<Event>, i: nat)
    requires Trace(ss, es) && i < |es| && !ss[i].slice.pc.Idle? && ss[i + 1].slice.pc.Idle?
    requires !es[i].Cancel? && !GetsRecord(ss[i], es[i]) && !NoDaemon(ss[i], es[i]) && !ShutdownCrashes(ss[i], es[i])
    ensures AttemptOver(ss[i], es[i]) && ss[i].slice.attempt == 2
    ensures exists a: nat, b: nat :: Retried(ss, es, a, b, i)
  {
    hide Step, AttemptOver, GetsRecord, NoDaemon, ShutdownCrashes, Retried;
    LeavesExactly(ss[i], es[i]);
    var a, b := SecondFollowsFirst(ss, es, i);
  }
}
