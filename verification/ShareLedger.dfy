/**
 What becomes of every share: handed over once or not at all, and settled once.
 */
module ShareLedger {
  import opened Prelude
  import opened Client
  import opened Session

  // ---- Counting ----

  function Count(shares: seq<Share>, p: Share -> bool): nat {
    if shares == [] then 0
    else Count(shares[..|shares| - 1], p) + (if p(shares[|shares| - 1]) then 1 else 0)
  }

  predicate IsAccepted(s: Share) { s.st.AcceptedShare? }
  predicate IsAcceptedBlock(s: Share) { s.st.AcceptedShare? && s.isBlock }
  predicate IsRejected(s: Share) { s.st.RejectedShare? }
  predicate IsCancelled(s: Share) { s.st.CancelledShare? }
  predicate IsInFlight(s: Share) { s.st.Queued? || s.st.Calling? }
  predicate HasNonce(s: Share) { s.nonce.Some? }

  function Bit(b: bool): nat {
    if b then 1 else 0
  }

  lemma {:induction false} CountSet(shares: seq<Share>, k: nat, s: Share, p: Share -> bool)
    requires k < |shares|
    ensures Count(shares[k := s], p) == Count(shares, p) - Bit(p(shares[k])) + Bit(p(s))
  {
    var n := |shares| - 1;
    if k == n {
      assert shares[k := s][..n] == shares[..n];
    } else {
      assert shares[k := s][..n] == shares[..n][k := s];
      CountSet(shares[..n], k, s, p);
    }
  }

  lemma CountSnoc(shares: seq<Share>, s: Share, p: Share -> bool)
    ensures Count(shares + [s], p) == Count(shares, p) + Bit(p(s))
  {
    assert (shares + [s])[..|shares|] == shares;
  }

  lemma {:induction false} CountNone(shares: seq<Share>, more: seq<Share>, p: Share -> bool)
    requires forall i :: 0 <= i < |more| ==> !p(more[i])
    ensures Count(shares + more, p) == Count(shares, p)
  {
    if more == [] {
      assert shares + more == shares;
    } else {
      var n := |more| - 1;
      CountNone(shares, more[..n], p);
      assert shares + more == (shares + more[..n]) + [more[n]];
      CountSnoc(shares + more[..n], more[n], p);
    }
  }

  // ---- The ledger ----

  predicate Open(phase: CallPhase) {
    phase.Sending? || phase.Waiting?
  }

  /** A share being submitted has an open call of its own. `ending` is the call
      whose end is just being dealt with, if any. */
  ghost predicate ShareOk(w: World, k: nat, ending: Option<nat>)
    requires k < |w.shares|
  {
    var s := w.shares[k];
    && (s.nonce.None? <==> s.st.Skipped?)
    && (s.st.Calling? ==>
          var c := s.st.call;
          && c < |w.calls| && w.calls[c].owner == ForShare(k)
          && (Open(w.calls[c].phase) || ending == Some(c)))
  }

  predicate Counters(w: World) {
    && w.f.sharesAccepted == Count(w.shares, IsAccepted)
    && w.f.sharesRejected == Count(w.shares, IsRejected)
    && w.f.blocksFound == Count(w.shares, IsAcceptedBlock)
  }

  ghost predicate Ledger(w: World, ending: Option<nat>) {
    Counters(w) && forall k :: 0 <= k < |w.shares| ==> ShareOk(w, k, ending)
  }

  /** A piece of a step that leaves shares alone and opens calls at most. */
  ghost predicate NoShare(w: World, r: World) {
    && r.shares == w.shares
    && r.f.sharesAccepted == w.f.sharesAccepted
    && r.f.sharesRejected == w.f.sharesRejected
    && r.f.blocksFound == w.f.blocksFound
    && |w.calls| <= |r.calls|
    && (forall c :: 0 <= c < |w.calls| ==> r.calls[c].owner == w.calls[c].owner)
    && (forall c :: 0 <= c < |w.calls| && Open(w.calls[c].phase) ==> Open(r.calls[c].phase))
  }

  lemma NoSharePiece(w: World, r: World, ending: Option<nat>)
    requires Ledger(w, ending) && NoShare(w, r)
    ensures Ledger(r, ending)
  {
    forall k | 0 <= k < |r.shares| ensures ShareOk(r, k, ending) {
      assert ShareOk(w, k, ending);
    }
  }

  lemma AppendPiece(w: World, more: seq<Share>, ending: Option<nat>)
    requires Ledger(w, ending)
    requires forall i :: 0 <= i < |more| ==>
               (more[i].st.Queued? && more[i].nonce.Some?) || (more[i].st.Skipped? && more[i].nonce.None?)
    ensures Ledger(w.(shares := w.shares + more), ending)
  {
    var r := w.(shares := w.shares + more);
    CountNone(w.shares, more, IsAccepted);
    CountNone(w.shares, more, IsRejected);
    CountNone(w.shares, more, IsAcceptedBlock);
    forall k | 0 <= k < |r.shares| ensures ShareOk(r, k, ending) {
      if k < |w.shares| {
        assert ShareOk(w, k, ending);
      }
    }
  }

  /** Moving an unsettled share to a state no counter counts. */
  lemma MovePiece(w: World, k: nat, st: ShareState, ending: Option<nat>)
    requires Ledger(w, ending) && k < |w.shares| && IsInFlight(w.shares[k])
    requires st.CancelledShare? ||
             (st.Calling? && st.call < |w.calls| && w.calls[st.call].owner == ForShare(k) && Open(w.calls[st.call].phase))
    ensures Ledger(SetShare(w, k, st), ending)
  {
    var r := SetShare(w, k, st);
    assert ShareOk(w, k, ending);
    CountSet(w.shares, k, r.shares[k], IsAccepted);
    CountSet(w.shares, k, r.shares[k], IsRejected);
    CountSet(w.shares, k, r.shares[k], IsAcceptedBlock);
    forall j | 0 <= j < |r.shares| ensures ShareOk(r, j, ending) {
      assert ShareOk(w, j, ending);
    }
  }

  /** Settling a share in flight. */
  lemma SettlePiece(w: World, k: nat, ok: Option<bool>, ending: Option<nat>)
    requires Ledger(w, ending) && k < |w.shares| && IsInFlight(w.shares[k])
    ensures Ledger(SetShare(w.(f := Settle(w.f, ok, w.shares[k].isBlock)), k,
                            if ok == Some(true) then AcceptedShare else RejectedShare), ending)
  {
    var r := SetShare(w.(f := Settle(w.f, ok, w.shares[k].isBlock)), k,
                      if ok == Some(true) then AcceptedShare else RejectedShare);
    assert ShareOk(w, k, ending);
    CountSet(w.shares, k, r.shares[k], IsAccepted);
    CountSet(w.shares, k, r.shares[k], IsRejected);
    CountSet(w.shares, k, r.shares[k], IsAcceptedBlock);
    forall j | 0 <= j < |r.shares| ensures ShareOk(r, j, ending) {
      assert ShareOk(w, j, ending);
    }
  }

  /** Once no share is being submitted by call c, its end is dealt with. */
  lemma DealtWith(w: World, c: nat)
    requires Ledger(w, Some(c))
    requires forall k :: 0 <= k < |w.shares| ==> w.shares[k].st != Calling(c)
    ensures Ledger(w, None)
  {
    forall k | 0 <= k < |w.shares| ensures ShareOk(w, k, None) {
      assert ShareOk(w, k, Some(c));
    }
  }

  lemma TurnPiece(w: World, t: nat, job: Job, next: int)
    ensures NoShare(w, Turn(w, t, job, next))
  {
  }

  lemma BeginPiece(w: World, owner: Owner)
    ensures NoShare(w, BeginCall(w, owner).w)
  {
  }

  lemma SubmitInlinePiece(w: World, t: nat, job: Job, res: SliceResult, next: int)
    requires Ledger(w, None)
    ensures Ledger(SubmitInline(w, t, job, res, next), None)
  {
    hide Turn, LoopTop;
    var k := |w.shares|;
    var r := SubmitInline(w, t, job, res, next);
    if res.nonce.None? {
      var skipped := WithShare(w, t, job, res, Skipped);
      AppendPiece(w, [Share(job, res.nonce, res.isBlock, Some(t), Skipped)], None);
      TurnPiece(skipped, t, job, next);
      NoSharePiece(skipped, r, None);
    } else {
      var b := BeginCall(w, ForShare(k));
      var share := Share(job, res.nonce, res.isBlock, Some(t), Queued);
      NoSharePiece(w, b.w, None);
      AppendPiece(b.w, [share], None);
      var w1 := b.w.(shares := w.shares + [share]);
      if b.sent {
        MovePiece(w1, k, Calling(|w.calls|), None);
        assert SetShare(w1, k, Calling(|w.calls|)).shares == r.shares;
        NoSharePiece(SetShare(w1, k, Calling(|w.calls|)), r, None);
      } else {
        SettlePiece(w1, k, None, None);
        var unsent := Unsent(w, t, job, res);
        assert SetShare(w1.(f := Settle(w1.f, None, res.isBlock)), k, RejectedShare).shares == unsent.shares;
        TurnPiece(unsent, t, job, next);
        NoSharePiece(unsent, r, None);
      }
    }
  }

  lemma OnResultPiece(cfg: Config, w: World, t: nat, job: Job, start: int, res: SliceResult, scanned: int)
    requires Ledger(w, None)
    ensures Ledger(OnResult(cfg, w, t, job, start, res, scanned), None)
  {
    hide Turn, LoopTop, SubmitInline;
    var r := OnResult(cfg, w, t, job, start, res, scanned);
    var next := NextStart(cfg, start, res.nonceEnd);
    var w1 := Took(w, job, res, scanned);
    NoSharePiece(w, w1, None);
    if !res.found || Stale(w.f, job) {
      TurnPiece(w1, t, job, next);
      NoSharePiece(w1, r, None);
    } else if res.items == [] {
      SubmitInlinePiece(w1, t, job, res, next);
    } else {
      AppendPiece(w1, Queue(job, HandOver(res.items)), None);
      var w2 := WithQueue(w1, job, res.items);
      TurnPiece(w2, t, job, next);
      NoSharePiece(w2, r, None);
    }
  }

  lemma EndSharePiece(w: World, k: nat, reply: Option<Reply>, ending: Option<nat>)
    requires Ledger(w, ending) && k < |w.shares| && IsInFlight(w.shares[k])
    ensures Ledger(EndShare(w, k, reply), ending)
    ensures EndShare(w, k, reply).shares ==
            SetShare(w, k, if reply.Some? && reply.value.truthy then AcceptedShare else RejectedShare).shares
  {
    hide Turn, LoopTop;
    SettlePiece(w, k, Verdict(reply), ending);
    var w1 := Settled(w, k, reply);
    var u := w.shares[k].awaiter;
    if u.Some? && Awaits(w, u.value, k) {
      var pc := w.tasks[u.value].pc;
      TurnPiece(w1, u.value, pc.job, pc.next);
    }
    NoSharePiece(w1, EndShare(w, k, reply), ending);
  }

  lemma EndCallPiece(cfg: Config, w: World, c: nat, reply: Option<Reply>)
    requires Ledger(w, Some(c)) && c < |w.calls|
    ensures Ledger(EndCall(cfg, w, c, reply), None)
  {
    hide EndShare, Serve, BeginCall;
    var r := EndCall(cfg, w, c, reply);
    forall k | 0 <= k < |w.shares| && w.shares[k].st == Calling(c) ensures w.calls[c].owner == ForShare(k) {
      assert ShareOk(w, k, Some(c));
    }
    match w.calls[c].owner
    case ForShare(k) =>
      if k < |w.shares| && w.shares[k].st == Calling(c) {
        EndSharePiece(w, k, reply, Some(c));
        DealtWith(r, c);
      } else {
        DealtWith(w, c);
      }
    case ForAuthorize =>
      DealtWith(w, c);
      ServePiece(cfg, w);
      NoSharePiece(w, r, None);
    case ForSubscribe =>
      DealtWith(w, c);
      BeginPiece(w, ForAuthorize);
      NoSharePiece(w, r, None);
  }

  lemma ServePiece(cfg: Config, w: World)
    ensures NoShare(w, Serve(cfg, w))
  {
  }

  /** The end of call c, before its consequences. */
  lemma EndingPiece(w: World, c: nat, future: Future, phase: CallPhase)
    requires Ledger(w, None) && c < |w.calls|
    ensures Ledger(SetCall(w, c, future, phase), Some(c))
    ensures Open(phase) ==> Ledger(SetCall(w, c, future, phase), None)
  {
    var r := SetCall(w, c, future, phase);
    forall k | 0 <= k < |r.shares|
      ensures ShareOk(r, k, Some(c)) && (Open(phase) ==> ShareOk(r, k, None)) {
      assert ShareOk(w, k, None);
    }
  }

  lemma OnCallPiece(cfg: Config, w: World, c: nat, move: CallMove)
    requires Ledger(w, None) && c < |w.calls|
    ensures Ledger(OnCall(cfg, w, c, move), None)
  {
    hide EndCall;
    var call := w.calls[c];
    match move
    case Drained => EndingPiece(w, c, call.future, Waiting);
    case DrainFails =>
      EndingPiece(w, c, call.future, Raised);
      EndCallPiece(cfg, SetCall(w, c, call.future, Raised), c, None);
    case Returns =>
      if call.future.Value? {
        EndingPiece(w, c, call.future, Returned(call.future.reply));
        EndCallPiece(cfg, SetCall(w, c, call.future, Returned(call.future.reply)), c, Some(call.future.reply));
      } else if call.future.Error? {
        EndingPiece(w, c, Error, Raised);
        EndCallPiece(cfg, SetCall(w, c, Error, Raised), c, None);
      }
    case TimesOut =>
      EndingPiece(w, c, Dropped, Raised);
      var w1 := SetCall(w, c, Dropped, Raised);
      NoSharePiece(w1, w1.(f := Forget(w.f, call.id)), Some(c));
      EndCallPiece(cfg, w1.(f := Forget(w.f, call.id)), c, None);
  }

  lemma StartSubmitPiece(w: World, k: nat)
    requires Ledger(w, None) && k < |w.shares|
    ensures Ledger(StartSubmit(w, k), None)
  {
    hide EndShare;
    if w.shares[k].st.Queued? {
      var b := BeginCall(w, ForShare(k));
      NoSharePiece(w, b.w, None);
      if b.sent {
        MovePiece(b.w, k, Calling(|w.calls|), None);
      } else {
        EndSharePiece(b.w, k, None, None);
      }
    }
  }

  lemma CancelSolverPiece(w: World, t: nat)
    requires Ledger(w, None)
    ensures Ledger(CancelSolver(w, t), None)
  {
    var w1 := w.(tasks := w.tasks - {t});
    NoSharePiece(w, w1, None);
    var r := CancelSolver(w, t);
    if r.f != w1.f {
      NoSharePiece(w1, r, None);
    } else if r != w1 {
      var k := w.tasks[t].pc.k;
      var c := w.shares[k].st.call;
      assert ShareOk(w, k, None);
      EndingPiece(w1, c, Dropped, Abandoned);
      MovePiece(SetCall(w1, c, Dropped, Abandoned), k, CancelledShare, Some(c));
      forall j | 0 <= j < |w.shares| && w.shares[j].st == Calling(c) ensures j == k {
        assert ShareOk(w, j, None);
      }
      DealtWith(r, c);
    }
  }

  lemma CloseSolver(cfg: Config, w: World)
    requires w.solver.Some?
    ensures OnClose(cfg, w, 1) == CancelSolver(w, w.solver.value).(solver := None, phase := Closing(2))
  {
    hide CancelSolver;
  }

  lemma OnClosePiece(cfg: Config, w: World, stage: nat)
    requires Ledger(w, None)
    ensures Ledger(OnClose(cfg, w, stage), None)
  {
    hide Ledger;
    if stage == 1 && w.solver.Some? {
      CloseSolver(cfg, w);
      hide OnClose, CancelSolver;
      var c := CancelSolver(w, w.solver.value);
      CancelSolverPiece(w, w.solver.value);
      NoSharePiece(c, c.(solver := None, phase := Closing(2)), None);
    } else {
      NoSharePiece(w, OnClose(cfg, w, stage), None);
    }
  }

  lemma OnSolverPiece(cfg: Config, w: World, t: nat, pc: SolverPc, move: SolverMove)
    requires Ledger(w, None)
    ensures Ledger(OnSolver(cfg, w, t, pc, move), None)
  {
    hide Turn, OnResult;
    var r := OnSolver(cfg, w, t, pc, move);
    match move
    case Answers(res, scanned) => if pc.Solving? { OnResultPiece(cfg, w, t, pc.job, pc.start, res, scanned); }
    case CoolsDown =>
      if pc.Cooling? {
        TurnPiece(w, t, pc.job, pc.start + cfg.noncesPerSlice);
      }
      NoSharePiece(w, r, None);
    case _ => NoSharePiece(w, r, None);
  }

  lemma OnLinePiece(w: World, t: nat, read: Read)
    ensures NoShare(w, OnLine(w, t, read))
  {
  }

  lemma StepKeeps(cfg: Config, w: World, e: Event)
    requires Ledger(w, None)
    ensures Ledger(Step(cfg, w, e), None)
  {
    hide OnLine, OnCall, StartSubmit, OnSolver, OnClose;
    match e
    case Line(t, read) =>
      OnLinePiece(w, t, read);
      NoSharePiece(w, Step(cfg, w, e), None);
    case Calls(c, move) => if c < |w.calls| { OnCallPiece(cfg, w, c, move); }
    case SubmitStarts(k) => if k < |w.shares| { StartSubmitPiece(w, k); }
    case Solves(t, move) => if t in w.tasks && w.tasks[t].Solver? { OnSolverPiece(cfg, w, t, w.tasks[t].pc, move); }
    case CloseStep => if w.phase.Closing? { OnClosePiece(cfg, w, w.phase.stage); }
    case _ => NoSharePiece(w, Step(cfg, w, e), None);
  }

  lemma {:induction false} Along(cfg: Config, t0: real, ws: seq<World>, es: seq<Event>, i: nat)
    requires Trace(cfg, t0, ws, es) && i < |ws|
    ensures Ledger(ws[i], None)
  {
    hide Step;
    if i > 0 {
      Along(cfg, t0, ws, es, i - 1);
      StepKeeps(cfg, ws[i - 1], es[i - 1]);
    }
  }

  lemma Reachable(cfg: Config, t0: real, w: World)
    requires Reached(cfg, t0, w)
    ensures Ledger(w, None)
  {
    hide Trace;
    var ws, es, i :| Trace(cfg, t0, ws, es) && 0 <= i < |ws| && ws[i] == w;
    Along(cfg, t0, ws, es, i);
  }

  // ---- Main results ----

  lemma {:induction false} Partition(shares: seq<Share>)
    requires forall k :: 0 <= k < |shares| ==> (shares[k].nonce.None? <==> shares[k].st.Skipped?)
    ensures Count(shares, HasNonce) == Count(shares, IsAccepted) + Count(shares, IsRejected)
                                       + Count(shares, IsInFlight) + Count(shares, IsCancelled)
  {
    if shares != [] {
      Partition(shares[..|shares| - 1]);
    }
  }

  /** Conservation, in every state of every run: the shares handed over with a
      nonce are the accepted, the rejected, those in flight and those whose
      submission was cancelled; and the block count counts accepted blocks. */
  lemma SharesAreConserved(cfg: Config, t0: real, w: World)
    requires Reached(cfg, t0, w)
    ensures Count(w.shares, HasNonce) == w.f.sharesAccepted + w.f.sharesRejected
                                         + Count(w.shares, IsInFlight) + Count(w.shares, IsCancelled)
    ensures w.f.blocksFound == Count(w.shares, IsAcceptedBlock)
  {
    hide Reached;
    Reachable(cfg, t0, w);
    forall k | 0 <= k < |w.shares| ensures w.shares[k].nonce.None? <==> w.shares[k].st.Skipped? {
      assert ShareOk(w, k, None);
    }
    Partition(w.shares);
  }

  /** A share counted as in flight with a call has that call open. */
  lemma InFlightIsReal(cfg: Config, t0: real, w: World, k: nat)
    requires Reached(cfg, t0, w) && k < |w.shares| && w.shares[k].st.Calling?
    ensures var c := w.shares[k].st.call; c < |w.calls| && w.calls[c].owner == ForShare(k) && Open(w.calls[c].phase)
  {
    hide Reached;
    Reachable(cfg, t0, w);
    assert ShareOk(w, k, None);
  }

  // ---- What one result hands over ----

  function Parsables(items: seq<Item>): seq<(int, bool)> {
    if items == [] then []
    else (if items[0].Parsed? then [(items[0].nonce, items[0].isBlock)] else []) + Parsables(items[1..])
  }

  /** Every parsable share of a list is handed over, in order, exactly when none
      of them comes after an element that is no dictionary. */
  lemma {:induction false} HandOverExactly(items: seq<Item>)
    ensures HandOver(items) == Parsables(items) <==>
            forall i, j :: 0 <= i < j < |items| && items[i].NotADict? ==> !items[j].Parsed?
  {
    if items != [] {
      HandOverExactly(items[1..]);
      NoParsables(items[1..]);
      if items[0].NotADict? {
        assert HandOver(items) == [];
        if exists j :: 0 <= j < |items[1..]| && items[1..][j].Parsed? {
          var j :| 0 <= j < |items[1..]| && items[1..][j].Parsed?;
          assert items[j + 1].Parsed?;
        } else {
          assert forall j :: 0 < j < |items| ==> items[j] == items[1..][j - 1];
        }
      } else {
        var head := if items[0].Parsed? then [(items[0].nonce, items[0].isBlock)] else [];
        assert HandOver(items) == head + HandOver(items[1..]) && Parsables(items) == head + Parsables(items[1..]);
        assert (head + HandOver(items[1..]))[|head|..] == HandOver(items[1..]);
        assert (head + Parsables(items[1..]))[|head|..] == Parsables(items[1..]);
        assert forall j :: 0 < j < |items| ==> items[j] == items[1..][j - 1];
        assert forall j :: 0 <= j < |items[1..]| ==> items[1..][j] == items[j + 1];
      }
    }
  }

  lemma {:induction false} NoParsables(items: seq<Item>)
    ensures Parsables(items) == [] <==> forall j :: 0 <= j < |items| ==> !items[j].Parsed?
  {
    if items != [] {
      NoParsables(items[1..]);
      assert forall j :: 0 < j < |items| ==> items[j] == items[1..][j - 1];
    }
  }

  lemma InlineShares(w: World, t: nat, job: Job, res: SliceResult, next: int)
    ensures var r := SubmitInline(w, t, job, res, next);
            && |r.shares| == |w.shares| + 1 && w.shares <= r.shares
            && r.shares[|w.shares|].nonce == res.nonce
            && r.shares[|w.shares|].job == job && r.shares[|w.shares|].isBlock == res.isBlock
  {
    hide Turn, LoopTop;
    TurnPiece(WithShare(w, t, job, res, Skipped), t, job, next);
    TurnPiece(Unsent(w, t, job, res), t, job, next);
  }

  /** The shares of h, in order, are queued for this job at the end of the list. */
  ghost predicate QueuedInOrder(before: seq<Share>, after: seq<Share>, job: Job, h: seq<(int, bool)>) {
    && |after| == |before| + |h| && before <= after
    && forall k :: |before| <= k < |after| ==>
         var i := k - |before|;
         after[k] == Share(job, Some(h[i].0), h[i].1, None, Queued)
  }

  /** The elements before the first that is no dictionary. */
  ghost predicate Cut(items: seq<Item>, n: nat) {
    && n <= |items|
    && (forall i :: 0 <= i < n ==> !items[i].NotADict?)
    && (n < |items| ==> items[n].NotADict?)
  }

  /** The parsable elements among the first k. */
  function ParsedBefore(items: seq<Item>, k: nat): nat
    requires k <= |items|
  {
    if k == 0 then 0 else ParsedBefore(items, k - 1) + (if items[k - 1].Parsed? then 1 else 0)
  }

  lemma {:induction false} ParsedShifts(items: seq<Item>, k: nat)
    requires 0 < k <= |items|
    ensures ParsedBefore(items, k) == (if items[0].Parsed? then 1 else 0) + ParsedBefore(items[1..], k - 1)
  {
    if k > 1 {
      ParsedShifts(items, k - 1);
      assert items[1..][k - 2] == items[k - 1];
    }
  }

  /** What is handed over, place by place: as many shares as there are parsable
      elements before the first that is no dictionary, and each of those elements is
      the share at the place of its turn. */
  lemma {:induction false} HandedInTurn(items: seq<Item>, n: nat)
    requires Cut(items, n)
    ensures var h := HandOver(items);
            && |h| == ParsedBefore(items, n)
            && forall k :: 0 <= k < n && items[k].Parsed? ==>
                 ParsedBefore(items, k) < |h| && h[ParsedBefore(items, k)] == (items[k].nonce, items[k].isBlock)
  {
    if n > 0 {
      var rest := items[1..];
      assert forall i :: 0 <= i < n - 1 ==> rest[i] == items[i + 1];
      HandedInTurn(rest, n - 1);
      ParsedShifts(items, n);
      forall k | 0 < k < n && items[k].Parsed?
        ensures ParsedBefore(items, k) < |HandOver(items)|
        ensures HandOver(items)[ParsedBefore(items, k)] == (items[k].nonce, items[k].isBlock)
      {
        ParsedShifts(items, k);
        assert rest[k - 1] == items[k];
      }
    }
  }

  /** When a result arrives, its shares are handed over once each if the current
      parent is the slice's parent, and not at all otherwise. */
  lemma ResultHandsOver(cfg: Config, w: World, t: nat, job: Job, start: int, res: SliceResult, scanned: int)
    ensures var r := OnResult(cfg, w, t, job, start, res, scanned);
            var onTip := res.found && (w.f.currentJob.None? || w.f.currentJob.value.parent == job.parent);
            && w.shares <= r.shares
            && (!onTip ==> r.shares == w.shares)
            && (onTip && res.items == [] ==>
                  |r.shares| == |w.shares| + 1 && r.shares[|w.shares|].nonce == res.nonce
                  && r.shares[|w.shares|].job == job && r.shares[|w.shares|].isBlock == res.isBlock)
            && (onTip && res.items != [] ==> QueuedInOrder(w.shares, r.shares, job, HandOver(res.items)))
  {
    hide Turn, LoopTop, SubmitInline;
    var next := NextStart(cfg, start, res.nonceEnd);
    var w1 := Took(w, job, res, scanned);
    TurnPiece(w1, t, job, next);
    InlineShares(w1, t, job, res, next);
    TurnPiece(WithQueue(w1, job, res.items), t, job, next);
  }

  lemma QueuedOne(before: seq<Share>, after: seq<Share>, job: Job, h: seq<(int, bool)>)
    requires QueuedInOrder(before, after, job, h) && |h| == 1
    ensures after == before + [Share(job, Some(h[0].0), h[0].1, None, Queued)]
  {
  }

  const LIST_WITH_JUNK := [Parsed(1, false), NotADict, Parsed(2, true)]

  /** A share, an element that is no dictionary, and a block: the block is lost. */
  lemma BlockAfterJunkIsLost(cfg: Config, w: World, t: nat, job: Job, start: int, res: SliceResult, scanned: int)
    requires w.f.currentJob == Some(job) && res.found && res.items == LIST_WITH_JUNK
    ensures Parsables(res.items) == [(1, false), (2, true)] && HandOver(res.items) == [(1, false)]
    ensures OnResult(cfg, w, t, job, start, res, scanned).shares == w.shares + [Share(job, Some(1), false, None, Queued)]
  {
    hide OnResult;
    assert res.items[1..] == [NotADict, Parsed(2, true)] && res.items[1..][1..] == [Parsed(2, true)];
    assert Parsables([Parsed(2, true)]) == [(2, true)];
    assert HandOver(res.items) == [(1, false)] + HandOver(res.items[1..]);
    ResultHandsOver(cfg, w, t, job, start, res, scanned);
    hide QueuedInOrder;
    QueuedOne(w.shares, OnResult(cfg, w, t, job, start, res, scanned).shares, job, HandOver(res.items));
  }

  /** The same shares, for the same jobs; only what becomes of them may differ. */
  ghost predicate SameShares(w: World, r: World) {
    && |r.shares| == |w.shares|
    && forall k :: 0 <= k < |w.shares| ==>
         var s, t := w.shares[k], r.shares[k]; t.job == s.job && t.nonce == s.nonce && t.isBlock == s.isBlock
  }

  lemma EndShareHandsNothing(w: World, k: nat, reply: Option<Reply>)
    requires k < |w.shares|
    ensures SameShares(w, EndShare(w, k, reply))
  {
    hide Settle;
  }

  lemma EndCallHandsNothing(cfg: Config, w: World, c: nat, reply: Option<Reply>)
    requires c < |w.calls|
    ensures SameShares(w, EndCall(cfg, w, c, reply))
  {
    hide EndShare;
    if w.calls[c].owner.ForShare? && w.calls[c].owner.k < |w.shares| {
      EndShareHandsNothing(w, w.calls[c].owner.k, reply);
    }
  }

  lemma OnCallHandsNothing(cfg: Config, w: World, c: nat, move: CallMove)
    requires c < |w.calls|
    ensures SameShares(w, OnCall(cfg, w, c, move))
  {
    hide EndCall;
    var call := w.calls[c];
    EndCallHandsNothing(cfg, SetCall(w, c, call.future, Raised), c, None);
    EndCallHandsNothing(cfg, SetCall(w, c, Error, Raised), c, None);
    EndCallHandsNothing(cfg, SetCall(w, c, Dropped, Raised).(f := Forget(w.f, call.id)), c, None);
    if call.future.Value? {
      EndCallHandsNothing(cfg, SetCall(w, c, call.future, Returned(call.future.reply)), c, Some(call.future.reply));
    }
  }

  lemma OnSolverHandsNothing(cfg: Config, w: World, t: nat, pc: SolverPc, move: SolverMove)
    requires !move.Answers?
    ensures SameShares(w, OnSolver(cfg, w, t, pc, move))
  {
  }

  /** Nothing but a result hands a share over, or changes its job, nonce or kind. */
  lemma OnlyResultsHandOver(cfg: Config, w: World, e: Event)
    requires !(e.Solves? && e.move.Answers?)
    ensures SameShares(w, Step(cfg, w, e))
  {
    hide OnCall, EndShare, OnSolver;
    match e
    case Calls(c, move) => if c < |w.calls| { OnCallHandsNothing(cfg, w, c, move); }
    case SubmitStarts(k) => if k < |w.shares| { EndShareHandsNothing(BeginCall(w, ForShare(k)).w, k, None); }
    case Solves(t, move) => if t in w.tasks && w.tasks[t].Solver? { OnSolverHandsNothing(cfg, w, t, w.tasks[t].pc, move); }
    case _ =>
  }
}
