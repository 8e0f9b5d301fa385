/**
 The class `GbtSolveWrapper`. A method under "Steps" is the code between two
 awaits; it takes the object from one state of some run to the next, so what is
 proved of runs holds of the object. The methods before are pieces of steps.
 `procs` stands for the operating system's side of the daemons; `handed` and
 `got` are history.
 */
module GbtSolveWrapper {
  import opened Prelude
  import opened Daemon
  import opened AnswerPairing
  import opened ShapeSafety
  import SliceControl

  /** What a coroutine does next: it awaits a process, it has returned, or it has
      raised something nobody catches. */
  datatype Progress = Awaits(w: Wait) | Returns | Raises

  class Wrapper {
    var daemon: Option<nat>
    var params: Option<Shape>
    var procs: seq<Proc>
    var slice: Slice
    var heal: Option<Wait>
    var nextJob: nat
    ghost var handed: seq<Handed>
    ghost var got: seq<Got>

    ghost function View(): State
      reads this
    {
      State(procs, daemon, params, slice, heal, nextJob, handed, got)
    }

    /** The object is in a state of some run. */
    ghost predicate Valid()
      reads this
    {
      Reached(View())
    }

    /** What every run keeps: each line read answered its reader's job exactly when
        the job was written to an empty, open pipe, else an earlier one; and with the lock free the
        lines left over on the daemon are the cancelled slices less stray reads. */
    ghost predicate Booked()
      reads this
      requires Wf(View())
    {
      && Paired(got)
      && (slice.pc.Idle? && daemon.Some? ==>
            var d := procs[daemon.value]; Unread(d) == d.cancelled - d.stray)
    }

    lemma ValidIsBooked()
      requires Valid()
      ensures Inv(View()) && Booked()
    {
      Reachable(View());
      if slice.pc.Idle? && daemon.Some? {
        LockFreeBacklog(View(), daemon.value);
      }
    }

    constructor ()
      ensures Valid() && View() == INIT
    {
      daemon, params, procs, heal, nextJob := None, None, [], None, 0;
      slice := Slice(Idle, 0, NO_SHAPE, 1, None, false);
      handed, got := [], [];
      new;
      InitIsReached();
    }

    method SetProc(p: nat, proc: Proc)
      requires p < |procs|
      modifies `procs
      ensures procs == old(procs)[p := proc]
    {
      procs := procs[p := proc];
    }

    method Goto(pc: Pc)
      modifies `slice
      ensures View() == Daemon.Goto(old(View()), pc)
    {
      slice := slice.(pc := pc);
    }

    // ---- _shutdown_daemon ----

    ghost predicate Did(r: Shutdown, progress: Progress)
      reads this
    {
      && View() == r.s
      && (match progress
          case Awaits(w) => r == Waiting(r.s, w)
          case Returns => r.Done?
          case Raises => r.Crashed?)
    }

    /** Close stdin, then wait for the process. */
    method ShutdownDaemon() returns (progress: Progress)
      requires Wf(View())
      modifies `procs
      ensures Did(BeginShutdown(old(View())), progress)
    {
      match daemon
      case None => progress := Returns;
      case Some(d) =>
        SetProc(d, procs[d].(stdinOpen := false));
        progress := Awaits(Graceful(d));
    }

    /** The wait is over: forget the daemon and its shape. */
    method DaemonGone()
      requires Wf(View())
      modifies `daemon, `params
      ensures View() == FinishShutdown(old(View()))
    {
      daemon := None;
      params := None;
    }

    /** The wait timed out: kill whatever the current daemon now is. */
    method Escalate() returns (progress: Progress)
      requires Wf(View())
      modifies `procs, `daemon, `params
      ensures Did(EscalateShutdown(old(View())), progress)
    {
      match daemon
      case None => progress := Raises;
      case Some(d) =>
        if procs[d].reaped {
          DaemonGone();
          progress := Returns;
        } else {
          SetProc(d, procs[d].(dead := true));
          progress := Awaits(Killed(d));
        }
    }

    // ---- _ensure_daemon ----

    /** Write the job. A closed stdin swallows it. */
    method WriteJob(d: nat)
      requires Wf(View()) && d < |procs|
      modifies this
      ensures View() == HandOver(old(View()), d)
    {
      var p := procs[d];
      if p.stdinOpen {
        SetProc(d, p.(inbox := p.inbox + [slice.job]));
      }
      slice := slice.(pc := Draining(d), owed := if p.stdinOpen then Some(d) else None,
                      pristine := p.stdinOpen && p.cancelled == p.stray);
      handed := handed + [Handed(d, slice.shape)];
    }

    method EnsureDaemon()
      requires Wf(View())
      modifies this
      ensures View() == Daemon.EnsureDaemon(old(View()))
    {
      if daemon.Some? && params != Some(slice.shape) {
        var progress := ShutdownDaemon();
        Goto(Retiring(progress.w));
      } else if daemon.Some? && !procs[daemon.value].reaped {
        WriteJob(daemon.value);
      } else {
        Goto(Spawning);
      }
    }

    /** The subprocess has been created. */
    method NoteSpawn()
      requires Wf(View())
      modifies this
      ensures View() == Spawn(old(View()))
    {
      var d := |procs|;
      procs := procs + [Proc(slice.shape, [], [], 0, true, false, false, 0, 0, 0)];
      daemon := Some(d);
      Goto(Handshaking(d));
    }

    /** The ready line has been read: record the shape, write to the current daemon. */
    method NoteReady()
      requires Wf(View())
      modifies this
      ensures View() == BecomeReady(old(View()))
    {
      params := Some(slice.shape);
      match daemon
      case None => Leave();
      case Some(d) => WriteJob(d);
    }

    method AbandonHandshake()
      requires Wf(View())
      modifies this
      ensures View() == AbortHandshake(old(View()))
    {
      var progress := ShutdownDaemon();
      if progress.Awaits? {
        Goto(Aborting(progress.w));
      } else {
        Leave();
      }
    }

    // ---- _send_job_with_retry ----

    /** Give up the line that is still owed, for the books. */
    method GiveUpLine()
      requires Wf(View())
      modifies this
      ensures View() == Forfeit(old(View()))
    {
      match slice.owed
      case None =>
      case Some(p) =>
        SetProc(p, procs[p].(failed := procs[p].failed + 1));
        slice := slice.(owed := None);
    }

    /** Leave the coroutine, and with it the lock. */
    method Leave()
      requires Wf(View())
      modifies this
      ensures View() == EndSlice(old(View()))
    {
      GiveUpLine();
      Goto(Idle);
    }

    method AttemptFailed()
      requires Wf(View())
      modifies this
      ensures View() == AfterFailure(old(View()))
    {
      if slice.attempt >= 2 {
        Leave();
      } else {
        GiveUpLine();
        Goto(Backoff);
      }
    }

    /** The except clause around the attempt. */
    method FailAttempt()
      requires Wf(View())
      modifies this
      ensures View() == Fail(old(View()))
    {
      var progress := ShutdownDaemon();
      if progress.Awaits? {
        Goto(Failing(progress.w));
      } else {
        AttemptFailed();
      }
    }

    /** Take the next line off the pipe of process p. */
    method TakeOff(p: nat)
      requires Wf(View()) && p < |procs| && procs[p].read < |procs[p].lines|
      modifies this
      ensures View() == Consume(old(View()), p)
    {
      var q := procs[p];
      got := got + [Got(p, slice.job, q.inbox[q.read], slice.pristine)];
      SetProc(p, q.(read := q.read + 1, stray := q.stray + (if slice.owed.None? then 1 else 0)));
      slice := slice.(owed := None, pc := Failing(Graceful(p)));
    }

    method ReadFrom(p: nat)
      requires Wf(View()) && p < |procs|
      modifies this
      ensures View() == OnReadLine(old(View()), p)
    {
      if procs[p].read < |procs[p].lines| {
        var kind := procs[p].lines[procs[p].read];
        TakeOff(p);
        if kind.Garbage? {
          FailAttempt();
        } else {
          Leave();
        }
      }
    }

    /** The slice's own call of `_shutdown_daemon` moves on. */
    method Resume(pc: Pc, progress: Progress)
      requires Wf(View()) && (progress.Awaits? ==> WaitOk(View(), progress.w))
      modifies this
      ensures match progress
              case Awaits(w) => View() == ResumeSlice(pc, Waiting(old(View()), w))
              case Returns => View() == ResumeSlice(pc, Done(old(View())))
              case Raises => View() == ResumeSlice(pc, Crashed(old(View())))
    {
      match progress
      case Awaits(w) => Goto(if pc.Retiring? then Retiring(w) else if pc.Aborting? then Aborting(w) else Failing(w));
      case Returns =>
        if pc.Retiring? {
          Goto(Spawning);
        } else if pc.Failing? {
          AttemptFailed();
        } else {
          Leave();
        }
      case Raises => Leave();
    }

    method Wake()
      requires Wf(View()) && SliceWaits(View())
      modifies this
      ensures View() == OnWake(old(View()))
    {
      if procs[slice.pc.w.pid].reaped {
        var pc := slice.pc;
        DaemonGone();
        Resume(pc, Returns);
      }
    }

    method StopWaiting()
      requires Wf(View()) && SliceWaits(View())
      modifies this
      ensures View() == OnWaitTimeout(old(View()))
    {
      if slice.pc.w.Graceful? && !procs[slice.pc.w.pid].reaped {
        var pc := slice.pc;
        var progress := Escalate();
        Resume(pc, progress);
      }
    }

    // ---- force_restart ----

    method HealMovesOn(progress: Progress)
      modifies `heal
      ensures View() == old(View()).(heal := if progress.Awaits? then Some(progress.w) else None)
    {
      heal := if progress.Awaits? then Some(progress.w) else None;
    }

    // ---- Steps ----

    /** `solve_slice`, up to its first await. The job is handed over at once exactly
        if a live daemon is on record for this shape; otherwise a daemon is retired
        or spawned first. The slice is promised its own answer exactly if that
        daemon's pipe is open and empty. */
    method SolveSlice(shape: Shape)
      requires Valid() && slice.pc.Idle?
      modifies this
      ensures Valid() && Wf(View()) && Booked()
      ensures Wf(old(View())) && View() == Step(old(View()), Start(shape))
      ensures slice.job == old(nextJob) && got == old(got)
      ensures handed == old(handed) + (if Usable(old(View()), shape) then [Handed(old(daemon).value, shape)] else [])
      ensures Usable(old(View()), shape) ==>
                var d := old(procs)[old(daemon).value];
                (slice.pristine <==> d.stdinOpen && Unread(d) == 0)
      ensures slice.attempt == 1 && nextJob == old(nextJob) + 1
      ensures old(daemon).None? ==> slice.pc == Spawning
      ensures old(daemon).Some? && old(params) != Some(shape) ==> slice.pc == Retiring(Graceful(old(daemon).value))
      ensures old(daemon).Some? && old(params) == Some(shape) ==>
                slice.pc == if old(procs)[old(daemon).value].reaped then Spawning else Draining(old(daemon).value)
    {
      ghost var s, e := View(), Start(shape);
      ReachedIsClosed(s, e);
      WritesExactly(s, e);
      Reachable(s);
      SliceControl.AskTable(s, e);
      if Usable(s, shape) {
        PristineAt(s, e);
      }
      slice := Slice(slice.pc, nextJob, shape, 1, None, false);
      nextJob := nextJob + 1;
      EnsureDaemon();
      ValidIsBooked();
    }

    /** The second attempt begins; what holds of the first holds of it. */
    method RetrySlice()
      requires Valid() && slice.pc.Backoff?
      modifies this
      ensures Valid() && Wf(View()) && Booked()
      ensures Wf(old(View())) && View() == Step(old(View()), BackoffOver)
      ensures slice.job == old(slice.job) && slice.attempt == 2 && got == old(got)
      ensures old(daemon).None? ==> slice.pc == Spawning
      ensures old(daemon).Some? && old(params) != Some(old(slice.shape)) ==>
                slice.pc == Retiring(Graceful(old(daemon).value))
      ensures old(daemon).Some? && old(params) == Some(old(slice.shape)) ==>
                slice.pc == if old(procs)[old(daemon).value].reaped then Spawning else Draining(old(daemon).value)
      ensures var shape := old(slice.shape);
              && handed == old(handed) + (if Usable(old(View()), shape) then [Handed(old(daemon).value, shape)] else [])
              && (Usable(old(View()), shape) ==>
                    var d := old(procs)[old(daemon).value];
                    (slice.pristine <==> d.stdinOpen && Unread(d) == 0))
    {
      ghost var s := View();
      ReachedIsClosed(s, BackoffOver);
      WritesExactly(s, BackoffOver);
      Reachable(s);
      SliceControl.AskTable(s, BackoffOver);
      if Usable(s, slice.shape) {
        PristineAt(s, BackoffOver);
      }
      slice := slice.(attempt := 2);
      EnsureDaemon();
      ValidIsBooked();
    }

    /** The subprocess has been created: a new process with nothing on its pipe,
        launched for the slice's shape. */
    method DaemonSpawned()
      requires Valid() && slice.pc.Spawning?
      modifies this
      ensures Valid() && Wf(View()) && Booked()
      ensures Wf(old(View())) && View() == Step(old(View()), Spawned)
      ensures daemon == Some(|old(procs)|) && |procs| == |old(procs)| + 1 && procs[..|old(procs)|] == old(procs)
      ensures var p := procs[daemon.value];
              p.shape == slice.shape && p.inbox == [] && Unread(p) == 0 && p.stdinOpen && !p.dead && !p.reaped
      ensures got == old(got) && handed == old(handed) && slice.pc == Handshaking(|old(procs)|)
    {
      ReachedIsClosed(View(), Spawned);
      NoteSpawn();
      ValidIsBooked();
    }

    /** The ready line has been read. The job goes to the daemon that shook hands,
        launched for just this shape, unless it has been forgotten meanwhile: then
        nothing is handed over and the slice ends. */
    method DaemonReady()
      requires Valid() && slice.pc.Handshaking?
      modifies this
      ensures Valid() && Wf(View()) && Booked()
      ensures Wf(old(View())) && View() == Step(old(View()), Ready)
      ensures params == Some(slice.shape) && daemon == old(daemon) && got == old(got)
      ensures daemon.None? ==> slice.pc.Idle? && handed == old(handed)
      ensures daemon.Some? ==>
                && daemon == Some(old(slice.pc.pid)) && procs[daemon.value].shape == slice.shape
                && handed == old(handed) + [Handed(daemon.value, slice.shape)]
                && (slice.pristine <==> old(procs)[daemon.value].stdinOpen && Unread(old(procs)[daemon.value]) == 0)
    {
      ghost var s := View();
      ReachedIsClosed(s, Ready);
      WritesExactly(s, Ready);
      ReachedHandshakesAreOwn(s);
      Reachable(s);
      if daemon.Some? {
        PristineAt(s, Ready);
      }
      NoteReady();
      ValidIsBooked();
    }

    /** No ready line in time: the daemon is asked to go, and the slice will end. */
    method HandshakeTimedOut()
      requires Valid() && slice.pc.Handshaking?
      modifies this
      ensures Valid() && Wf(View()) && Booked()
      ensures Wf(old(View())) && View() == Step(old(View()), HandshakeTimeout)
      ensures got == old(got) && handed == old(handed) && daemon == old(daemon)
      ensures daemon.Some? ==> slice.pc == Aborting(Graceful(daemon.value)) && !procs[daemon.value].stdinOpen
      ensures daemon.None? ==> slice.pc.Idle?
    {
      ReachedIsClosed(View(), HandshakeTimeout);
      AbandonHandshake();
      ValidIsBooked();
    }

    /** One line, if there is one, comes off the pipe. It answers the job of the
        slice exactly if the slice was promised that when it wrote, and an earlier
        job otherwise. */
    method LineRead()
      requires Valid() && slice.pc.Reading?
      modifies this
      ensures Valid() && Wf(View()) && Booked()
      ensures Wf(old(View())) && View() == Step(old(View()), ReadLine)
      ensures var q := old(procs)[old(slice.pc.pid)];
              if q.read == |q.lines| then View() == old(View())
              else
                && |got| == |old(got)| + 1 && old(got) <= got
                && var last := got[|old(got)|];
                && last == Got(old(slice.pc.pid), old(slice.job), q.inbox[q.read], old(slice.pristine))
                && last.answers <= old(slice.job) && (last.answers == old(slice.job) <==> old(slice.pristine))
      ensures handed == old(handed)
      ensures var q := old(procs)[old(slice.pc.pid)];
              q.read < |q.lines| ==>
                slice.pc == if !q.lines[q.read].Garbage? then Idle
                            else if daemon.Some? then Failing(Graceful(daemon.value))
                            else if old(slice.attempt) < 2 then Backoff else Idle
    {
      ReachedIsClosed(View(), ReadLine);
      SliceControl.ReadTable(View());
      ReadFrom(slice.pc.pid);
      ValidIsBooked();
    }

    /** The event is an exception of the write or the read the slice awaits. */
    ghost predicate Fails(e: Event)
      reads this
      requires Wf(View())
    {
      || (e.DrainFailed? && slice.pc.Draining?)
      || (e.ReadTimeout? && slice.pc.Reading?)
      || (e.ReadEof? && slice.pc.Reading? && procs[slice.pc.pid].dead
          && procs[slice.pc.pid].read == |procs[slice.pc.pid].lines|)
    }

    /** Writing, or reading, has raised: the daemon is asked to go if there still is
        one; otherwise the slice backs off, or ends if it has already done so. */
    method IoFailed(e: Event)
      requires Valid() && Wf(View()) && Fails(e)
      modifies this
      ensures Valid() && Wf(View()) && Booked()
      ensures Wf(old(View())) && View() == Step(old(View()), e)
      ensures got == old(got) && handed == old(handed) && daemon == old(daemon)
      ensures daemon.Some? ==> slice.pc == Failing(Graceful(daemon.value)) && !procs[daemon.value].stdinOpen
      ensures daemon.None? ==> slice.pc == if slice.attempt >= 2 then Idle else Backoff
    {
      ReachedIsClosed(View(), e);
      FailedAttempt(View());
      hide Reached, Fail;
      FailAttempt();
      ValidIsBooked();
    }

    /** The solver task is cancelled inside the slice: the lock is free, nothing is
        read or written, and a line the slice was owed stays on the pipe. */
    method Cancelled()
      requires Valid() && !slice.pc.Idle?
      modifies this
      ensures Valid() && Wf(View()) && Booked()
      ensures Wf(old(View())) && View() == Step(old(View()), Cancel)
      ensures slice.pc.Idle? && daemon == old(daemon) && got == old(got) && handed == old(handed)
      ensures |procs| == |old(procs)| && forall p :: 0 <= p < |procs| ==> Unread(procs[p]) == Unread(old(procs)[p])
      ensures old(slice.owed).Some? ==>
                var p := old(slice.owed).value; procs[p].cancelled == old(procs)[p].cancelled + 1
    {
      ReachedIsClosed(View(), Cancel);
      if slice.owed.Some? {
        var p := slice.owed.value;
        SetProc(p, procs[p].(cancelled := procs[p].cancelled + 1));
        slice := slice.(owed := None);
      }
      Goto(Idle);
      ValidIsBooked();
    }

    /** The process the slice waits for is gone: daemon and shape are forgotten
        together, and the slice goes on: to a new daemon, to its second attempt, or
        to its end if there was no handshake or both attempts have failed. */
    method ProcessReaped()
      requires Valid() && SliceWaits(View()) && slice.pc.w.pid < |procs| && procs[slice.pc.w.pid].reaped
      modifies this
      ensures Valid() && Wf(View()) && Booked()
      ensures Wf(old(View())) && View() == Step(old(View()), SliceWake)
      ensures daemon.None? && params.None? && got == old(got) && handed == old(handed)
      ensures slice.attempt == old(slice.attempt) && slice.job == old(slice.job)
      ensures old(slice.pc).Retiring? ==> slice.pc == Spawning
      ensures old(slice.pc).Aborting? ==> slice.pc == Idle
      ensures old(slice.pc).Failing? ==> slice.pc == if slice.attempt < 2 then Backoff else Idle
    {
      ReachedIsClosed(View(), SliceWake);
      SliceControl.WaitTable(View(), SliceWake);
      Wake();
      ValidIsBooked();
    }

    /** Five seconds are over. Whatever daemon there is now, which need not be the
        one the slice waits for, is killed, or forgotten if it is gone; with none
        the call raises and the slice ends. */
    method WaitTimedOut()
      requires Valid() && SliceWaits(View()) && slice.pc.w.Graceful?
      requires slice.pc.w.pid < |procs| && !procs[slice.pc.w.pid].reaped
      modifies this
      ensures Valid() && Wf(View()) && Booked()
      ensures Wf(old(View())) && View() == Step(old(View()), SliceWaitTimeout)
      ensures got == old(got) && handed == old(handed) && (daemon == old(daemon) || daemon.None?)
      ensures daemon.Some? ==> procs[daemon.value].dead && SliceWaits(View()) && slice.pc.w == Killed(daemon.value)
      ensures slice.attempt == old(slice.attempt) && slice.job == old(slice.job)
      ensures old(daemon).None? ==> slice.pc == Idle
      ensures old(daemon).Some? && daemon.None? ==>
                && (old(slice.pc).Retiring? ==> slice.pc == Spawning)
                && (old(slice.pc).Aborting? ==> slice.pc == Idle)
                && (old(slice.pc).Failing? ==> slice.pc == if slice.attempt < 2 then Backoff else Idle)
    {
      ReachedIsClosed(View(), SliceWaitTimeout);
      SliceControl.WaitTable(View(), SliceWaitTimeout);
      StopWaiting();
      ValidIsBooked();
    }

    /** `force_restart` begins. It takes no lock: the slice goes on as it was, but no
        job written from now on reaches the daemon. */
    method HealBegins()
      requires Valid() && heal.None?
      modifies this
      ensures Valid() && Wf(View()) && Booked()
      ensures Wf(old(View())) && View() == Step(old(View()), HealStart)
      ensures slice == old(slice) && daemon == old(daemon) && got == old(got) && handed == old(handed)
      ensures |procs| == |old(procs)| && forall p :: 0 <= p < |procs| ==> Unread(procs[p]) == Unread(old(procs)[p])
      ensures daemon.Some? ==> heal == Some(Graceful(daemon.value)) && !procs[daemon.value].stdinOpen
      ensures daemon.None? ==> heal.None?
    {
      ReachedIsClosed(View(), HealStart);
      var progress := ShutdownDaemon();
      HealMovesOn(progress);
      ValidIsBooked();
    }

    /** The process `force_restart` waits for is gone: whatever the daemon is by now,
        it is forgotten, and the slice goes on as it was. */
    method HealReaped()
      requires Valid() && heal.Some? && heal.value.pid < |procs| && procs[heal.value.pid].reaped
      modifies this
      ensures Valid() && Wf(View()) && Booked()
      ensures Wf(old(View())) && View() == Step(old(View()), HealWake)
      ensures heal.None? && daemon.None? && params.None? && slice == old(slice) && procs == old(procs)
      ensures got == old(got) && handed == old(handed)
    {
      ReachedIsClosed(View(), HealWake);
      DaemonGone();
      HealMovesOn(Returns);
      ValidIsBooked();
    }

    /** Five seconds are over for `force_restart`. */
    method HealWaitTimedOut()
      requires Valid() && heal.Some? && heal.value.Graceful?
      requires heal.value.pid < |procs| && !procs[heal.value.pid].reaped
      modifies this
      ensures Valid() && Wf(View()) && Booked()
      ensures Wf(old(View())) && View() == Step(old(View()), HealWaitTimeout)
      ensures slice == old(slice) && got == old(got) && handed == old(handed)
      ensures daemon.Some? ==> heal == Some(Killed(daemon.value)) && procs[daemon.value].dead && daemon == old(daemon)
      ensures daemon.None? ==> heal.None?
    {
      ReachedIsClosed(View(), HealWaitTimeout);
      var progress := Escalate();
      HealMovesOn(progress);
      ValidIsBooked();
    }

    /** A step of the slice up to the hand-over of its job. */
    method SliceMoves(e: Event)
      requires Valid() && Wf(View())
      requires e.Start? || e.Cancel? || e.Spawned? || e.SpawnFailed? || e.Ready? || e.HandshakeTimeout? || e.BackoffOver?
      modifies this
      ensures View() == Step(old(View()), e)
    {
      hide Reached, StartSlice, CancelSlice, Spawn, EndSlice, BecomeReady, AbortHandshake, Daemon.EnsureDaemon, Written;
      var pc := slice.pc;
      match e
      case Start(shape) => if pc.Idle? { SolveSlice(shape); }
      case Cancel => if !pc.Idle? { Cancelled(); }
      case Spawned => if pc.Spawning? { DaemonSpawned(); }
      case SpawnFailed => if pc.Spawning? { Leave(); }
      case Ready => if pc.Handshaking? { DaemonReady(); }
      case HandshakeTimeout => if pc.Handshaking? { HandshakeTimedOut(); }
      case BackoffOver => if pc.Backoff? { RetrySlice(); }
    }

    /** A step of the slice on the pipe. */
    method PipeMoves(e: Event)
      requires Valid() && Wf(View())
      requires e.Drained? || e.DrainFailed? || e.ReadLine? || e.ReadEof? || e.ReadTimeout?
      modifies this
      ensures View() == Step(old(View()), e)
    {
      hide Reached, Fail, OnReadLine;
      var pc := slice.pc;
      match e
      case Drained => if pc.Draining? { Goto(Reading(pc.pid)); }
      case DrainFailed => if pc.Draining? { IoFailed(e); }
      case ReadLine => if pc.Reading? { LineRead(); }
      case ReadEof =>
        if pc.Reading? && procs[pc.pid].dead && procs[pc.pid].read == |procs[pc.pid].lines| { IoFailed(e); }
      case ReadTimeout => if pc.Reading? { IoFailed(e); }
    }

    /** A step of a shutdown, the slice's or the heal task's. */
    method ShutdownMoves(e: Event)
      requires Valid() && Wf(View())
      requires e.SliceWake? || e.SliceWaitTimeout? || e.HealStart? || e.HealWake? || e.HealWaitTimeout? || e.HealCancel?
      modifies this
      ensures View() == Step(old(View()), e)
    {
      hide Reached, FinishShutdown, EscalateShutdown, BeginShutdown, ResumeSlice;
      var pc := slice.pc;
      match e
      case SliceWake =>
        if (pc.Retiring? || pc.Aborting? || pc.Failing?) && procs[pc.w.pid].reaped { ProcessReaped(); }
      case SliceWaitTimeout =>
        if (pc.Retiring? || pc.Aborting? || pc.Failing?) && pc.w.Graceful? && !procs[pc.w.pid].reaped { WaitTimedOut(); }
      case HealStart => if heal.None? { HealBegins(); }
      case HealWake => if heal.Some? && procs[heal.value.pid].reaped { HealReaped(); }
      case HealWaitTimeout =>
        if heal.Some? && heal.value.Graceful? && !procs[heal.value.pid].reaped { HealWaitTimedOut(); }
      case HealCancel => HealMovesOn(Returns);
    }

    /** Any step at all, those of the processes included. Nothing recorded is lost,
        launch shapes never change, and every hand-over is the one foretold. */
    method Dispatch(e: Event)
      requires Valid()
      modifies this
      ensures Valid() && Wf(View()) && Booked() && Wf(old(View()))
      ensures View() == Step(old(View()), e) && Grows(old(View()), View())
      ensures handed == old(handed) + (if Written(old(View()), e).Some? then [Written(old(View()), e).value] else [])
    {
      hide SliceStep, HealStep;
      ghost var s := View();
      ReachedIsClosed(s, e);
      WritesExactly(s, e);
      hide Reached, Written;
      if e.Emit? || e.Die? || e.Reap? {
        if e.pid < |procs| {
          SetProc(e.pid, ProcStep(procs[e.pid], e));
        }
      } else if e.Drained? || e.DrainFailed? || e.ReadLine? || e.ReadEof? || e.ReadTimeout? {
        PipeMoves(e);
      } else if e.Start? || e.Cancel? || e.Spawned? || e.SpawnFailed? || e.Ready? || e.HandshakeTimeout?
                || e.BackoffOver? {
        SliceMoves(e);
      } else {
        ShutdownMoves(e);
      }
      ValidIsBooked();
    }
  }

  /** Where a failed attempt leads. */
  lemma FailedAttempt(s: State)
    requires Wf(s)
    ensures var r := Fail(s);
            && r.got == s.got && r.handed == s.handed && r.daemon == s.daemon && r.slice.attempt == s.slice.attempt
            && (s.daemon.Some? ==> var d := s.daemon.value;
                  r.slice.pc == Failing(Graceful(d)) && d < |r.procs| && !r.procs[d].stdinOpen)
            && (s.daemon.None? ==> r.slice.pc == if s.slice.attempt >= 2 then Idle else Backoff)
  {
  }

  lemma ReachedHandshakesAreOwn(s: State)
    requires Reached(s)
    ensures Wf(s) && OwnHandshake(s)
  {
    hide Step, OwnHandshake;
    var ss, es, i :| Trace(ss, es) && 0 <= i < |ss| && ss[i] == s;
    HandshakesAreOwn(ss, es, i);
  }
}
