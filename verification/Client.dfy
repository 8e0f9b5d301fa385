/**
 The attributes of `StratumClient` and what its methods do to them between two
 awaits, as functions. The history records what happened, in order; no function
 decides anything on it, and the theorems read it.
 */
module Client {
  import opened Prelude
  import opened Daemon

  datatype Config = Config(
    noncesPerSlice: int,
    healEnabled: bool,
    healConsecRejects: int,
    healStall: real,
    healGrace: real,
    healCooldown: real,
    reconnectInitial: real,
    reconnectMax: real)

  /** A parsed `mining.notify`. `start` is the key `nonce64_start` of its matmul
      dictionary, `seeded` says that both seeds and the block height are there. */
  datatype Job = Job(
    id: string, parent: string, start: Option<int>, seeded: bool,
    n: Option<int>, b: Option<int>, r: Option<int>, epsilonBits: Option<int>)

  function GetOr(x: Option<int>, default: int): int {
    match x
    case Some(v) => v
    case None => default
  }

  /** `Job.to_solve_challenge`, reduced to the shape it asks the daemon for.
      None stands for the ValueError about missing metadata. */
  function ToSolveChallenge(job: Job): Option<Shape> {
    if !job.seeded then None
    else Some(Shape(GetOr(job.n, 512), GetOr(job.b, 16), GetOr(job.r, 8), GetOr(job.epsilonBits, 18)))
  }

  // ---- History ----

  datatype Happening =
    | Handshook(at: real)
    | Notified(clean: bool, job: Job)
    | Preempted(inflight: string, parent: string)
    | Began(parent: string, start: int, accepted: bool)
    | Ended(parent: string, next: int)
    | Answered(at: real)
    | SliceFailed
    | SliceCancelled
    | Accepted
    | Rejected
    | Healed(at: real)
    | JobCleared

  datatype History = Born(at: real) | Then(past: History, last: Happening)

  /** Reject events since the latest accept, completed heal or handshake. */
  function Streak(h: History): nat {
    match h
    case Born(_) => 0
    case Then(past, Rejected) => Streak(past) + 1
    case Then(_, Accepted) => 0
    case Then(_, Healed(_)) => 0
    case Then(_, Handshook(_)) => 0
    case Then(past, _) => Streak(past)
  }

  /** Completed heals since the latest accept. */
  function Unhelped(h: History): nat {
    match h
    case Born(_) => 0
    case Then(past, Healed(_)) => Unhelped(past) + 1
    case Then(_, Accepted) => 0
    case Then(past, _) => Unhelped(past)
  }

  /** When the latest completed heal was decided; 0 before the first. */
  function LastHeal(h: History): real {
    match h
    case Born(_) => 0.0
    case Then(_, Healed(at)) => at
    case Then(past, _) => LastHeal(past)
  }

  /** The latest sign of life the hang trigger counts from. */
  function LastProof(h: History): real {
    match h
    case Born(at) => at
    case Then(_, Answered(at)) => at
    case Then(_, Handshook(at)) => at
    case Then(_, Healed(at)) => at
    case Then(past, _) => LastProof(past)
  }

  function LastHandshake(h: History): real {
    match h
    case Born(at) => at
    case Then(_, Handshook(at)) => at
    case Then(past, _) => LastHandshake(past)
  }

  datatype Cursor = Cursor(parent: string, start: Option<int>)

  /** The abstract cursor: a clean notify takes the broadcast start, another
      carries the previous start if there is one, the end of a slice overwrites
      the start of its own parent only. */
  function CursorOf(h: History): Option<Cursor> {
    match h
    case Born(_) => None
    case Then(past, Notified(clean, job)) =>
      var previous := if clean || CursorOf(past).None? then None else CursorOf(past).value.start;
      Some(Cursor(job.parent, if previous.Some? then previous else job.start))
    case Then(past, Ended(parent, next)) =>
      if CursorOf(past).Some? && CursorOf(past).value.parent == parent
      then Some(Cursor(parent, Some(next))) else CursorOf(past)
    case Then(_, JobCleared) => None
    case Then(past, _) => CursorOf(past)
  }

  /** The job of the latest notify, unless it has been cleared since. */
  function LatestJob(h: History): Option<Job> {
    match h
    case Born(_) => None
    case Then(_, Notified(_, job)) => Some(job)
    case Then(_, JobCleared) => None
    case Then(past, _) => LatestJob(past)
  }

  /** The two jobs differ in where to start at most. */
  predicate SameWork(a: Job, b: Job) {
    && a.id == b.id && a.parent == b.parent && a.seeded == b.seeded
    && a.n == b.n && a.b == b.b && a.r == b.r && a.epsilonBits == b.epsilonBits
  }

  /** Both are there and ask for the same work, or neither is. */
  predicate SameWorkIfAny(a: Option<Job>, b: Option<Job>) {
    match a
    case None => b.None?
    case Some(job) => b.Some? && SameWork(job, b.value)
  }

  /** Every slice began at the cursor, or at 0 if the pool never sent one. */
  predicate StartsFollow(h: History) {
    match h
    case Born(_) => true
    case Then(past, Began(parent, start, _)) =>
      && StartsFollow(past)
      && CursorOf(past).Some? && CursorOf(past).value.parent == parent
      && start == GetOr(CursorOf(past).value.start, 0)
    case Then(past, _) => StartsFollow(past)
  }

  /** The slice whose parent is on record for preemption: none, one that is being
      solved, or one that has ended without an answer. */
  datatype OnRecord = NoSlice | Flying(parent: string) | Failed(parent: string) | Cancelled(parent: string)

  function Record(h: History): OnRecord {
    match h
    case Born(_) => NoSlice
    case Then(past, Began(parent, _, accepted)) => if accepted then Flying(parent) else Record(past)
    case Then(_, Answered(_)) => NoSlice
    case Then(past, SliceFailed) => if Record(past).Flying? then Failed(Record(past).parent) else Record(past)
    case Then(past, SliceCancelled) => if Record(past).Flying? then Cancelled(Record(past).parent) else Record(past)
    case Then(past, _) => Record(past)
  }

  /** The parent on record. */
  function Inflight(h: History): Option<string> {
    if Record(h).NoSlice? then None else Some(Record(h).parent)
  }

  /** A completed heal: when it was decided, when the one before it was, and how
      many heals had by then been completed since the latest accept. */
  datatype HealRec = HealRec(at: real, previous: real, unhelped: nat)

  function HealLog(h: History): seq<HealRec> {
    match h
    case Born(_) => []
    case Then(past, Healed(at)) => HealLog(past) + [HealRec(at, LastHeal(past), Unhelped(past))]
    case Then(past, _) => HealLog(past)
  }

  // ---- The attributes ----

  datatype Fields = Fields(
    msgIdSeq: nat,
    pending: map<nat, nat>,      // request id -> the call that waits for it
    currentJob: Option<Job>,
    jobChanged: bool,
    inflightParent: Option<string>,
    sessionStartedAt: real,
    lastSolverResultAt: real,
    lastHealAt: real,
    consecRejects: nat,
    healsWithoutAccept: nat,
    sharesAccepted: nat,
    sharesRejected: nat,
    blocksFound: nat,
    history: History)

  function Initial(now: real): Fields {
    Fields(1, map[], None, false, None, now, now, 0.0, 0, 0, 0, 0, 0, Born(now))
  }

  function CursorView(f: Fields): Option<Cursor> {
    match f.currentJob
    case None => None
    case Some(job) => Some(Cursor(job.parent, job.start))
  }

  /** Every attribute is what the history says it should be. */
  ghost predicate Tracks(f: Fields) {
    && f.consecRejects == Streak(f.history)
    && f.healsWithoutAccept == Unhelped(f.history)
    && f.lastHealAt == LastHeal(f.history)
    && f.lastSolverResultAt == LastProof(f.history)
    && f.sessionStartedAt == LastHandshake(f.history)
    && f.inflightParent == Inflight(f.history)
    && CursorView(f) == CursorOf(f.history)
    && SameWorkIfAny(f.currentJob, LatestJob(f.history))
    && StartsFollow(f.history)
  }

  /** No heal is recorded, and the cooldown does not grow. */
  ghost predicate Calm(f: Fields, r: Fields) {
    && HealLog(r.history) == HealLog(f.history)
    && r.lastHealAt == f.lastHealAt
    && r.healsWithoutAccept <= f.healsWithoutAccept
  }

  function Note(f: Fields, what: Happening): Fields {
    f.(history := Then(f.history, what))
  }

  // ---- What the methods do ----

  /** `_session_once` after the handshake. */
  function OpenWindow(f: Fields, now: real): (r: Fields)
    ensures (Tracks(f) ==> Tracks(r)) && Calm(f, r)
  {
    Note(f.(sessionStartedAt := now, lastSolverResultAt := now, consecRejects := 0), Handshook(now))
  }

  /** The end of `_session_once`. */
  function ClearJob(f: Fields): (r: Fields)
    ensures (Tracks(f) ==> Tracks(r)) && Calm(f, r)
  {
    Note(f.(currentJob := None, jobChanged := true, pending := map[]), JobCleared)
  }

  /** `_on_notify`. */
  function OnNotify(f: Fields, job: Job, clean: bool): (r: Fields)
    ensures (Tracks(f) ==> Tracks(r)) && Calm(f, r)
  {
    var carried := if clean || f.currentJob.None? then None else f.currentJob.value.start;
    var adopted := if carried.Some? then job.(start := carried) else job;
    var f1 := Note(f.(currentJob := Some(adopted), jobChanged := true), Notified(clean, job));
    assert Record(f1.history) == Record(f.history);
    if f.inflightParent.Some? && f.inflightParent.value != job.parent
    then Note(f1, Preempted(f.inflightParent.value, job.parent)) else f1
  }

  /** The start of a slice: remember the parent unless the challenge is refused. */
  function BeginSlice(f: Fields, job: Job): (r: Fields)
    requires f.currentJob == Some(job)
    ensures (Tracks(f) ==> Tracks(r)) && Calm(f, r)
  {
    var f1 := Note(f, Began(job.parent, GetOr(job.start, 0), ToSolveChallenge(job).Some?));
    if ToSolveChallenge(job).Some? then f1.(inflightParent := Some(job.parent)) else f1
  }

  /** `solve_slice` returned. */
  function SliceAnswered(f: Fields, now: real): (r: Fields)
    ensures (Tracks(f) ==> Tracks(r)) && Calm(f, r)
  {
    Note(f.(inflightParent := None, lastSolverResultAt := now), Answered(now))
  }

  /** `solve_slice` raised: nothing but the history changes. */
  function SliceFails(f: Fields): (r: Fields)
    ensures (Tracks(f) ==> Tracks(r)) && Calm(f, r)
  {
    Note(f, SliceFailed)
  }

  /** `solve_slice` was cancelled: nothing but the history changes. */
  function SliceCancels(f: Fields): (r: Fields)
    ensures (Tracks(f) ==> Tracks(r)) && Calm(f, r)
  {
    Note(f, SliceCancelled)
  }

  predicate Stale(f: Fields, job: Job) {
    f.currentJob.Some? && f.currentJob.value.parent != job.parent
  }

  function NextStart(cfg: Config, start: int, nonceEnd: Option<int>): int {
    if nonceEnd.Some? && nonceEnd.value > start then nonceEnd.value + 1 else start + cfg.noncesPerSlice
  }

  /** The write-back at the bottom of the solver loop. */
  function WriteBack(f: Fields, job: Job, next: int): (r: Fields)
    ensures (Tracks(f) ==> Tracks(r)) && Calm(f, r)
  {
    var f1 := Note(f, Ended(job.parent, next));
    if f.currentJob.Some? && f.currentJob.value.parent == job.parent
    then f1.(currentJob := Some(f.currentJob.value.(start := Some(next)))) else f1
  }

  /** The end of `_submit_share`: None stands for an exception of `_call`. */
  function Settle(f: Fields, ok: Option<bool>, isBlock: bool): (r: Fields)
    ensures (Tracks(f) ==> Tracks(r)) && Calm(f, r)
  {
    if ok == Some(true) then
      Note(f.(sharesAccepted := f.sharesAccepted + 1,
              blocksFound := f.blocksFound + (if isBlock then 1 else 0),
              consecRejects := 0, healsWithoutAccept := 0), Accepted)
    else
      Note(f.(sharesRejected := f.sharesRejected + 1, consecRejects := f.consecRejects + 1), Rejected)
  }

  function Cooldown(cfg: Config, heals: nat): real {
    cfg.healCooldown * (1 + Min(heals, 5)) as real
  }

  /** The decision of `_heal_loop`. */
  predicate HealDue(cfg: Config, f: Fields, now: real) {
    && now - f.lastHealAt >= Cooldown(cfg, f.healsWithoutAccept)
    && (|| f.consecRejects >= cfg.healConsecRejects
        || (now - f.lastSolverResultAt > cfg.healStall && now - f.sessionStartedAt > cfg.healGrace))
  }

  /** `_heal_loop` after `force_restart` returned or raised. */
  function RecordHeal(f: Fields, decided: real): (r: Fields)
    ensures Tracks(f) ==> Tracks(r)
  {
    Note(f.(lastHealAt := decided, healsWithoutAccept := f.healsWithoutAccept + 1,
            consecRejects := 0, lastSolverResultAt := decided), Healed(decided))
  }

  /** `_call` up to the write: a fresh id, registered as pending. */
  function Register(f: Fields, call: nat): (r: Fields)
    ensures (Tracks(f) ==> Tracks(r)) && Calm(f, r)
  {
    f.(msgIdSeq := f.msgIdSeq + 1, pending := f.pending[f.msgIdSeq := call])
  }

  /** `_pending.pop(id, None)`. */
  function Forget(f: Fields, id: nat): (r: Fields)
    ensures (Tracks(f) ==> Tracks(r)) && Calm(f, r)
  {
    f.(pending := f.pending - {id})
  }

  // ---- One round of the reader ----

  /** A result, as far as the callers look at it: its truth value, and whether
      it is a well-formed answer to `mining.subscribe`. */
  datatype Reply = Reply(truthy: bool, shaped: bool)

  /** A parsed message: `Other` changes no attribute, `Malformed` makes
      `_handle_message` raise. An outcome of None is an error response. */
  datatype Message =
    | Response(id: nat, outcome: Option<Reply>)
    | Notify(job: Job, clean: bool)
    | Other
    | Malformed

  /** What `readline` comes back with. */
  datatype Read = ReadFails | Empty | Blank | NotJson | Msg(m: Message)

  /** How a round of `_reader_loop`, or the loop itself, can end. */
  datatype Round = GoesOn | Raises | Returns

  function ReaderRound(r: Read): Round {
    match r
    case ReadFails => Round.Raises
    case Empty => Round.Raises
    case Blank => GoesOn
    case NotJson => GoesOn
    case Msg(m) => if m.Malformed? then Round.Raises else GoesOn
  }

  /** The attributes after a message; what happens to the future of a call is
      not among them. */
  function OnMessage(f: Fields, m: Message): (r: Fields)
    ensures (Tracks(f) ==> Tracks(r)) && Calm(f, r)
  {
    match m
    case Response(id, _) => if id in f.pending then Forget(f, id) else f
    case Notify(job, clean) => OnNotify(f, job, clean)
    case _ => f
  }

  // ---- The shares of one result ----

  /** One element of `raw_output["shares"]`: a dictionary with a nonce that
      parses, one whose nonce does not, or no dictionary at all. */
  datatype Item = Parsed(nonce: int, isBlock: bool) | Unparsable | NotADict

  datatype SliceResult = SliceResult(
    found: bool, items: seq<Item>, nonce: Option<int>, isBlock: bool, nonceEnd: Option<int>)

  /** The parsable shares, in order, up to the first element that raises. */
  function HandOver(items: seq<Item>): seq<(int, bool)> {
    if items == [] || items[0].NotADict? then []
    else (if items[0].Parsed? then [(items[0].nonce, items[0].isBlock)] else []) + HandOver(items[1..])
  }

  predicate SomeRaises(items: seq<Item>) {
    exists i :: 0 <= i < |items| && items[i].NotADict?
  }
}
