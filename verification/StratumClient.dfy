/**
 The class `StratumClient`: its attributes, and one method for the code between
 two awaits, each proved to do what module Client says. `history` is ghost.
 */
module StratumClient {
  import opened Prelude
  import opened Client

  datatype Trigger = Desync | Hang

  /** A stretch of code between two awaits, as far as the attributes go. */
  datatype Act =
    | Opens(now: real)
    | Clears
    | Hears(m: Message)
    | Registers(call: nat)
    | Forgets(id: nat)
    | Tops
    | Answers(now: real)
    | Fails
    | Cancels
    | Writes(job: Job, next: int)
    | Settles(ok: Option<bool>, isBlock: bool)
    | Heals(decided: real)

  function Perform(f: Fields, a: Act): (r: Fields)
    ensures Tracks(f) ==> Tracks(r)
  {
    match a
    case Opens(now) => OpenWindow(f, now)
    case Clears => ClearJob(f)
    case Hears(m) => OnMessage(f, m)
    case Registers(call) => Register(f, call)
    case Forgets(id) => Forget(f, id)
    case Tops => if f.currentJob.Some? then BeginSlice(f, f.currentJob.value) else f.(jobChanged := false)
    case Answers(now) => SliceAnswered(f, now)
    case Fails => SliceFails(f)
    case Cancels => SliceCancels(f)
    case Writes(job, next) => WriteBack(f, job, next)
    case Settles(ok, isBlock) => Settle(f, ok, isBlock)
    case Heals(decided) => RecordHeal(f, decided)
  }

  function PerformAll(f: Fields, acts: seq<Act>): Fields {
    if acts == [] then f else Perform(PerformAll(f, acts[..|acts| - 1]), acts[|acts| - 1])
  }

  /** The attributes after these reads, none of which ends the loop. */
  function Heard(f: Fields, incoming: seq<Read>): Fields {
    if incoming == [] then f
    else
      var before := Heard(f, incoming[..|incoming| - 1]);
      var last := incoming[|incoming| - 1];
      if last.Msg? then OnMessage(before, last.m) else before
  }

  /** What `_handle_message` does to the future of a call. */
  datatype Completion = Ignored | Completes(call: nat)

  class Stratum {
    const cfg: Config
    var msgIdSeq: nat
    var pending: map<nat, nat>
    var currentJob: Option<Job>
    var jobChanged: bool
    var inflightParent: Option<string>
    var sessionStartedAt: real
    var lastSolverResultAt: real
    var lastHealAt: real
    var consecRejects: nat
    var healsWithoutAccept: nat
    var sharesAccepted: nat
    var sharesRejected: nat
    var blocksFound: nat
    ghost var history: History

    ghost function View(): Fields
      reads this
    {
      Fields(msgIdSeq, pending, currentJob, jobChanged, inflightParent, sessionStartedAt, lastSolverResultAt, lastHealAt,
             consecRejects, healsWithoutAccept, sharesAccepted, sharesRejected, blocksFound, history)
    }

    /** The invariant of the class: the attributes say what has happened. */
    ghost predicate Valid()
      reads this
    {
      Tracks(View())
    }

    constructor (cfg: Config, now: real)
      ensures View() == Initial(now) && Valid() && this.cfg == cfg
    {
      this.cfg := cfg;
      msgIdSeq, pending, currentJob, jobChanged, inflightParent := 1, map[], None, false, None;
      sessionStartedAt, lastSolverResultAt, lastHealAt := now, now, 0.0;
      consecRejects, healsWithoutAccept, sharesAccepted, sharesRejected, blocksFound := 0, 0, 0, 0, 0;
      history := Born(now);
    }

    ghost method Log(what: Happening)
      modifies `history
      ensures View() == Note(old(View()), what)
    {
      history := Then(history, what);
    }

    // ---- Session lifecycle ----

    /** After the handshake: a new heal window. */
    method HandshakeDone(now: real)
      requires Valid()
      modifies this
      ensures View() == OpenWindow(old(View()), now) && Valid()
      ensures sessionStartedAt == now && lastSolverResultAt == now && consecRejects == 0
      ensures healsWithoutAccept == old(healsWithoutAccept) && lastHealAt == old(lastHealAt)
    {
      sessionStartedAt := now;
      lastSolverResultAt := now;
      consecRejects := 0;
      Log(Handshook(now));
    }

    /** The end of the `finally` block. */
    method SessionOver()
      requires Valid()
      modifies this
      ensures View() == ClearJob(old(View())) && Valid()
      ensures currentJob.None? && jobChanged && pending == map[]
    {
      currentJob := None;
      jobChanged := true;
      pending := map[];
      Log(JobCleared);
    }

    // ---- Reader ----

    /** `_on_notify`; the result is whether the solver is to be preempted. */
    method OnNotify(job: Job, clean: bool) returns (preempt: bool)
      requires Valid()
      modifies this
      ensures View() == Client.OnNotify(old(View()), job, clean) && Valid()
      ensures preempt <==> old(inflightParent).Some? && old(inflightParent).value != job.parent
      ensures jobChanged && currentJob.Some? && SameWork(currentJob.value, job)
      ensures currentJob.value.start == if clean || old(currentJob).None? || old(currentJob).value.start.None?
                                        then job.start else old(currentJob).value.start
    {
      var adopted := job;
      if !clean && currentJob.Some? {
        var previous := currentJob.value.start;
        if previous.Some? {
          adopted := job.(start := previous);
        }
      }
      currentJob := Some(adopted);
      jobChanged := true;
      Log(Notified(clean, job));
      preempt := inflightParent.Some? && inflightParent.value != job.parent;
      if preempt {
        Log(Preempted(inflightParent.value, job.parent));
      }
    }

    /** `_handle_message` on a response: the future is looked up and forgotten. */
    method OnResponse(id: nat) returns (done: Completion)
      requires Valid()
      modifies this
      ensures View() == (if id in old(pending) then Forget(old(View()), id) else old(View())) && Valid()
      ensures done == if id in old(pending) then Completes(old(pending)[id]) else Ignored
    {
      done := Ignored;
      if id in pending {
        done := Completes(pending[id]);
        pending := pending - {id};
      }
    }

    /** `_reader_loop` over what `readline` comes back with. The loop is left, always
        by an exception, at the first read that is empty, fails or makes the handler
        raise; every message before it has been handled, in order. */
    method ReaderLoop(incoming: seq<Read>) returns (end: Round, rounds: nat)
      requires Valid()
      modifies this
      ensures Valid() && rounds <= |incoming| && View() == Heard(old(View()), incoming[..rounds])
      ensures forall k :: 0 <= k < rounds ==> ReaderRound(incoming[k]).GoesOn?
      ensures end.GoesOn? ==> rounds == |incoming|
      ensures !end.GoesOn? ==> end == Round.Raises && rounds < |incoming| && ReaderRound(incoming[rounds]) == Round.Raises
      ensures end.GoesOn? <==>
                forall k :: 0 <= k < |incoming| ==>
                  incoming[k].Blank? || incoming[k].NotJson? || (incoming[k].Msg? && !incoming[k].m.Malformed?)
    {
      rounds := 0;
      while rounds < |incoming|
        invariant rounds <= |incoming| && Valid() && View() == Heard(old(View()), incoming[..rounds])
        invariant forall k :: 0 <= k < rounds ==> ReaderRound(incoming[k]).GoesOn?
      {
        var read := incoming[rounds];
        assert incoming[..rounds + 1][..rounds] == incoming[..rounds];
        if read.ReadFails? || read.Empty? {
          return Round.Raises, rounds;
        }
        if read.Msg? {
          var ok := HandleMessage(read.m);
          if !ok {
            return Round.Raises, rounds;
          }
        }
        rounds := rounds + 1;
      }
      end := GoesOn;
    }

    /** `_handle_message`; false if it raises. */
    method HandleMessage(m: Message) returns (ok: bool)
      requires Valid()
      modifies this
      ensures ok == !m.Malformed? && View() == Client.OnMessage(old(View()), m) && Valid()
    {
      ok := true;
      match m
      case Response(id, _) => var _ := OnResponse(id);
      case Notify(job, clean) => var _ := OnNotify(job, clean);
      case Other =>
      case Malformed => ok := false;
    }

    // ---- Calls ----

    /** `_call` up to the write. */
    method BeginCall(call: nat) returns (id: nat)
      requires Valid()
      modifies this
      ensures View() == Register(old(View()), call) && id == old(msgIdSeq) && Valid()
      ensures msgIdSeq == id + 1 && id in pending && pending[id] == call && pending - {id} == old(pending) - {id}
    {
      id := msgIdSeq;
      msgIdSeq := msgIdSeq + 1;
      pending := pending[id := call];
    }

    method CallTimedOut(id: nat)
      requires Valid()
      modifies this
      ensures View() == Forget(old(View()), id) && Valid()
    {
      pending := pending - {id};
    }

    // ---- Solver loop ----

    /** The top of the loop: no job, a job the challenge refuses, or a slice. */
    method LoopTop() returns (job: Option<Job>, start: int)
      requires Valid()
      modifies this
      ensures job == old(currentJob)
      ensures job.None? ==> !jobChanged && currentJob.None? && inflightParent == old(inflightParent)
      ensures job.Some? ==>
                && currentJob == job && start == (if job.value.start.None? then 0 else job.value.start.value)
                && inflightParent == if job.value.seeded then Some(job.value.parent) else old(inflightParent)
      ensures match job
              case None => View() == old(View()).(jobChanged := false)
              case Some(j) => View() == Client.BeginSlice(old(View()), j) && start == GetOr(j.start, 0)
      ensures Valid()
    {
      job := currentJob;
      start := 0;
      match job
      case None => jobChanged := false;
      case Some(j) =>
        start := GetOr(j.start, 0);
        Log(Began(j.parent, start, ToSolveChallenge(j).Some?));
        if ToSolveChallenge(j).Some? {
          inflightParent := Some(j.parent);
        }
    }

    /** The loop over the shares of a result. An element that is no dictionary
        raises, and the elements after it are lost. */
    method HandOverShares(items: seq<Item>) returns (handed: seq<(int, bool)>, raised: bool)
      ensures handed == HandOver(items) && raised == SomeRaises(items)
    {
      hide HandOver, SomeRaises;
      handed, raised := [], false;
      var k := 0;
      while k < |items|
        invariant k <= |items|
        invariant handed + HandOver(items[k..]) == HandOver(items)
        invariant forall i :: 0 <= i < k ==> !items[i].NotADict?
      {
        OneMore(items, k);
        if items[k].NotADict? {
          raised := true;
          return;
        }
        if items[k].Parsed? {
          handed := handed + [(items[k].nonce, items[k].isBlock)];
        }
        k := k + 1;
      }
      NoMore(items);
    }

    /** What element k adds to the shares handed over. */
    static lemma OneMore(items: seq<Item>, k: nat)
      requires k < |items|
      ensures HandOver(items[k..]) ==
                if items[k].NotADict? then []
                else (if items[k].Parsed? then [(items[k].nonce, items[k].isBlock)] else []) + HandOver(items[k + 1..])
      ensures items[k].NotADict? ==> SomeRaises(items)
    {
      assert items[k..][0] == items[k] && items[k..][1..] == items[k + 1..];
    }

    static lemma NoMore(items: seq<Item>)
      ensures HandOver(items[|items|..]) == []
      ensures (forall i :: 0 <= i < |items| ==> !items[i].NotADict?) ==> !SomeRaises(items)
    {
    }

    /** `solve_slice` has returned. */
    method NoteAnswer(now: real)
      requires Valid()
      modifies this
      ensures View() == SliceAnswered(old(View()), now) && Valid()
      ensures inflightParent.None? && lastSolverResultAt == now && currentJob == old(currentJob)
    {
      inflightParent := None;
      lastSolverResultAt := now;
      Log(Answered(now));
    }

    /** `solve_slice` has raised: no attribute changes, so the parent stays on record. */
    ghost method SliceRaised()
      requires Valid()
      modifies `history
      ensures View() == SliceFails(old(View())) && Valid() && inflightParent == old(inflightParent)
    {
      Log(SliceFailed);
    }

    /** `solve_slice` has been cancelled: again no attribute changes. */
    ghost method SliceCalledOff()
      requires Valid()
      modifies `history
      ensures View() == SliceCancels(old(View())) && Valid() && inflightParent == old(inflightParent)
    {
      Log(SliceCancelled);
    }

    /** From the return of `solve_slice` to the write-back. Shares found on the
        current parent are handed over, others dropped; `next` is where to go on,
        unless the shares raised. A result with no share list is submitted by the
        caller. */
    method SliceReturned(job: Job, start: int, res: SliceResult, now: real)
      returns (handed: seq<(int, bool)>, raised: bool, inline: bool, next: int)
      requires Valid()
      modifies this
      ensures View() == SliceAnswered(old(View()), now) && Valid()
      ensures handed == if res.found && !Stale(old(View()), job) then HandOver(res.items) else []
      ensures raised <==> res.found && !Stale(old(View()), job) && SomeRaises(res.items)
      ensures inline <==> res.found && !Stale(old(View()), job) && res.items == []
      ensures next == NextStart(cfg, start, res.nonceEnd)
      ensures next == if res.nonceEnd.None? || res.nonceEnd.value <= start then start + cfg.noncesPerSlice
                      else res.nonceEnd.value + 1
    {
      NoteAnswer(now);
      handed, raised, inline := [], false, false;
      var stale := currentJob.Some? && currentJob.value.parent != job.parent;
      if res.found && !stale {
        if res.items != [] {
          handed, raised := HandOverShares(res.items);
        } else {
          inline := true;
        }
      }
      if res.nonceEnd.Some? && res.nonceEnd.value > start {
        next := res.nonceEnd.value + 1;
      } else {
        next := start + cfg.noncesPerSlice;
      }
    }

    /** The bottom of the loop. */
    method FinishSlice(job: Job, next: int)
      requires Valid()
      modifies this
      ensures View() == WriteBack(old(View()), job, next) && Valid()
      ensures currentJob.None? <==> old(currentJob).None?
      ensures currentJob.Some? ==>
                && SameWork(currentJob.value, old(currentJob).value)
                && currentJob.value.start == if currentJob.value.parent == job.parent then Some(next)
                                             else old(currentJob).value.start
    {
      Log(Ended(job.parent, next));
      if currentJob.Some? && currentJob.value.parent == job.parent {
        currentJob := Some(currentJob.value.(start := Some(next)));
      }
    }

    /** `_submit_share` once its call has returned (Some) or raised (None). */
    method ShareSettled(ok: Option<bool>, isBlock: bool)
      requires Valid()
      modifies this
      ensures View() == Settle(old(View()), ok, isBlock) && Valid()
      ensures ok == Some(true) ==>
                && sharesAccepted == old(sharesAccepted) + 1 && sharesRejected == old(sharesRejected)
                && blocksFound == old(blocksFound) + (if isBlock then 1 else 0)
                && consecRejects == 0 && healsWithoutAccept == 0
      ensures ok != Some(true) ==>
                && sharesAccepted == old(sharesAccepted) && sharesRejected == old(sharesRejected) + 1
                && blocksFound == old(blocksFound)
                && consecRejects == old(consecRejects) + 1 && healsWithoutAccept == old(healsWithoutAccept)
    {
      if ok == Some(true) {
        sharesAccepted := sharesAccepted + 1;
        if isBlock {
          blocksFound := blocksFound + 1;
        }
        consecRejects := 0;
        healsWithoutAccept := 0;
        Log(Accepted);
      } else {
        sharesRejected := sharesRejected + 1;
        consecRejects := consecRejects + 1;
        Log(Rejected);
      }
    }

    // ---- Heal loop ----

    /** One wake-up of `_heal_loop`: is a restart due, and why? */
    method HealCheck(now: real) returns (reason: Option<Trigger>)
      ensures reason.Some? <==> HealDue(cfg, View(), now)
      ensures reason.Some? <==>
                && (healsWithoutAccept == 0 ==> now - lastHealAt >= cfg.healCooldown)
                && (1 <= healsWithoutAccept <= 5 ==> now - lastHealAt >= cfg.healCooldown * (1 + healsWithoutAccept) as real)
                && (healsWithoutAccept > 5 ==> now - lastHealAt >= cfg.healCooldown * 6.0)
                && (|| consecRejects >= cfg.healConsecRejects
                    || (now - lastSolverResultAt > cfg.healStall && now - sessionStartedAt > cfg.healGrace))
      ensures reason == Some(Desync) ==> consecRejects >= cfg.healConsecRejects
      ensures reason == Some(Hang) ==> now - lastSolverResultAt > cfg.healStall && consecRejects < cfg.healConsecRejects
    {
      var cooldown := cfg.healCooldown * (1 + Min(healsWithoutAccept, 5)) as real;
      if now - lastHealAt < cooldown {
        return None;
      }
      if consecRejects >= cfg.healConsecRejects {
        return Some(Desync);
      }
      if now - lastSolverResultAt > cfg.healStall && now - sessionStartedAt > cfg.healGrace {
        return Some(Hang);
      }
      reason := None;
    }

    /** Any of the stretches: whatever sequence of them a session makes, the object
        follows it. */
    method Do(a: Act)
      requires Valid()
      modifies this
      ensures View() == Perform(old(View()), a) && Valid()
    {
      match a
      case Opens(now) => HandshakeDone(now);
      case Clears => SessionOver();
      case Hears(m) => var _ := HandleMessage(m);
      case Registers(call) => var _ := BeginCall(call);
      case Forgets(id) => CallTimedOut(id);
      case Tops => var _, _ := LoopTop();
      case Answers(now) => NoteAnswer(now);
      case Fails => SliceRaised();
      case Cancels => SliceCalledOff();
      case Writes(job, next) => FinishSlice(job, next);
      case Settles(ok, isBlock) => ShareSettled(ok, isBlock);
      case Heals(decided) => HealDone(decided);
    }

    /** After `force_restart` has returned or raised; `now` is the time of the check. */
    method HealDone(now: real)
      requires Valid()
      modifies this
      ensures View() == RecordHeal(old(View()), now) && Valid()
      ensures lastHealAt == now && lastSolverResultAt == now && consecRejects == 0
      ensures healsWithoutAccept == old(healsWithoutAccept) + 1
    {
      lastHealAt := now;
      healsWithoutAccept := healsWithoutAccept + 1;
      consecRejects := 0;
      lastSolverResultAt := now;
      Log(Healed(now));
    }
  }
}
