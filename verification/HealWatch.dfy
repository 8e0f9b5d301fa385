/**
 The auto-heal watchdog over the whole life of the process: when it fires, how
 far apart its restarts are, and that a healthy rig never sees one.
 */
module HealWatch {
  import opened Prelude
  import opened Client
  import opened Session
  import SessionStructure
  import opened Tracking

  // ---- Spacing ----

  /** Every completed heal kept the cooldown it was decided under. */
  ghost predicate Spaced(cfg: Config, log: seq<HealRec>) {
    forall i :: 0 <= i < |log| ==> log[i].at - log[i].previous >= Cooldown(cfg, log[i].unhelped)
  }

  /** Each heal is measured from the one before. */
  ghost predicate Consecutive(log: seq<HealRec>, last: real) {
    && (forall i :: 0 < i < |log| ==> log[i].previous == log[i - 1].at)
    && (log != [] ==> last == log[|log| - 1].at)
  }

  lemma {:induction false} LogIsConsecutive(h: History)
    ensures Consecutive(HealLog(h), LastHeal(h))
    ensures Unhelped(h) <= |HealLog(h)|
  {
    match h
    case Born(_) =>
    case Then(past, _) => LogIsConsecutive(past);
  }

  /** The heal in progress, if any, has waited out a cooldown that is at least
      the present one. */
  ghost predicate Waited(cfg: Config, w: World) {
    forall t <- w.tasks :: w.tasks[t].Heal? && w.tasks[t].hpc.Restarting? ==>
      w.tasks[t].hpc.decided - w.f.lastHealAt >= Cooldown(cfg, w.f.healsWithoutAccept)
  }

  ghost predicate Watched(cfg: Config, w: World) {
    Tracks(w.f) && Spaced(cfg, HealLog(w.f.history)) && Waited(cfg, w)
  }

  lemma CooldownGrows(cfg: Config, m: nat, n: nat)
    requires m <= n && cfg.healCooldown >= 0.0
    ensures Cooldown(cfg, m) <= Cooldown(cfg, n)
  {
  }

  lemma StepWatches(cfg: Config, w: World, e: Event)
    requires cfg.healCooldown >= 0.0 && Watched(cfg, w) && SessionStructure.Structured(w)
    ensures Watched(cfg, Step(cfg, w, e))
  {
    hide Step, Tracks, Cooldown;
    var r := Step(cfg, w, e);
    StepTracks(cfg, w, e);
    if e.Heals? {
      HealStepWatches(cfg, w, e.t, e.watch);
    } else {
      CooldownGrows(cfg, r.f.healsWithoutAccept, w.f.healsWithoutAccept);
    }
  }

  lemma HealStepWatches(cfg: Config, w: World, t: nat, move: HealMove)
    requires cfg.healCooldown >= 0.0 && Watched(cfg, w) && SessionStructure.Structured(w)
    ensures Spaced(cfg, HealLog(Step(cfg, w, Heals(t, move)).f.history)) && Waited(cfg, Step(cfg, w, Heals(t, move)))
  {
    hide Cooldown;
    var r := Step(cfg, w, Heals(t, move));
    forall u <- r.tasks | r.tasks[u].Heal? && r.tasks[u].hpc.Restarting?
      ensures r.tasks[u].hpc.decided - r.f.lastHealAt >= Cooldown(cfg, r.f.healsWithoutAccept)
    {
      if t in w.tasks && u in w.tasks {
        assert SessionStructure.TaskOk(w, u) && SessionStructure.TaskOk(w, t);
      }
    }
  }

  lemma {:induction false} WatchAlong(cfg: Config, t0: real, ws: seq<World>, es: seq<Event>, i: nat)
    requires Trace(cfg, t0, ws, es) && i < |ws| && cfg.healCooldown >= 0.0
    ensures Watched(cfg, ws[i])
  {
    hide Step;
    if i > 0 {
      WatchAlong(cfg, t0, ws, es, i - 1);
      SessionStructure.Along(cfg, t0, ws, es, i - 1);
      StepWatches(cfg, ws[i - 1], es[i - 1]);
    }
  }

  lemma WatchReachable(cfg: Config, t0: real, w: World)
    requires Reached(cfg, t0, w) && cfg.healCooldown >= 0.0
    ensures Watched(cfg, w)
  {
    hide Trace;
    var ws, es, i :| Trace(cfg, t0, ws, es) && 0 <= i < |ws| && ws[i] == w;
    WatchAlong(cfg, t0, ws, es, i);
  }

  lemma {:induction false} LogSpaced(cfg: Config, log: seq<HealRec>, last: real, i: nat, j: nat)
    requires Spaced(cfg, log) && Consecutive(log, last) && cfg.healCooldown >= 0.0 && i < j < |log|
    ensures log[j].at - log[i].at >= cfg.healCooldown
    decreases j
  {
    CooldownGrows(cfg, 0, log[j].unhelped);
    if i < j - 1 {
      LogSpaced(cfg, log, last, i, j - 1);
    }
  }

  /** Any two completed heals, in whatever sessions, are at least one cooldown
      apart. */
  lemma HealsAreSpaced(cfg: Config, t0: real, w: World, i: nat, j: nat)
    requires Reached(cfg, t0, w) && cfg.healCooldown >= 0.0 && i < j < |HealLog(w.f.history)|
    ensures var log := HealLog(w.f.history); log[j].at - log[i].at >= cfg.healCooldown
  {
    hide Reached, HealLog, LastHeal, Cooldown, Tracks;
    WatchReachable(cfg, t0, w);
    LogIsConsecutive(w.f.history);
    LogSpaced(cfg, HealLog(w.f.history), LastHeal(w.f.history), i, j);
  }

  // ---- The span of a streak of heals that do not help ----

  /** Sum over i = 1 .. k-1 of 1 + min(i, 5). */
  function GapSum(k: nat): nat {
    if k <= 1 then 0 else GapSum(k - 1) + 1 + Min(k - 1, 5)
  }

  lemma {:induction false} GapSumClosed(k: nat)
    requires k >= 6
    ensures GapSum(k) == 20 + 6 * (k - 6)
  {
    if k == 6 {
      assert GapSum(2) == 2 && GapSum(3) == 5 && GapSum(4) == 9;
    } else {
      GapSumClosed(k - 1);
    }
  }

  /** Among the heals since the latest accept, the j-th was decided with at
      least j - 1 of them behind it. */
  lemma {:induction false} UnhelpedCounts(h: History, k: nat, j: nat)
    requires j < k <= Unhelped(h) <= |HealLog(h)|
    ensures HealLog(h)[|HealLog(h)| - k + j].unhelped >= j
  {
    if h.Then? {
      if h.last.Healed? {
        if j < k - 1 {
          LogIsConsecutive(h.past);
          UnhelpedCounts(h.past, k - 1, j);
        }
      } else if !h.last.Accepted? {
        UnhelpedCounts(h.past, k, j);
      }
    }
  }

  /** The last k heals, with no accept after the first of them completed, span at
      least cooldown * (2 + 3 + ...), every factor capped at 6. */
  lemma UnhelpfulHealsSpread(cfg: Config, t0: real, w: World, k: nat)
    requires Reached(cfg, t0, w) && cfg.healCooldown >= 0.0 && 1 <= k <= Unhelped(w.f.history)
    ensures var log := HealLog(w.f.history);
            && k <= |log|
            && log[|log| - 1].at - log[|log| - k].at >= cfg.healCooldown * GapSum(k) as real
  {
    hide Reached;
    WatchReachable(cfg, t0, w);
    LogIsConsecutive(w.f.history);
    Spread(cfg, w.f.history, k, k);
    SpanIsSum(cfg, k);
  }

  function Span(cfg: Config, k: nat): real {
    if k <= 1 then 0.0 else Span(cfg, k - 1) + Cooldown(cfg, k - 1)
  }

  lemma {:induction false} SpanIsSum(cfg: Config, k: nat)
    ensures Span(cfg, k) == cfg.healCooldown * GapSum(k) as real
  {
    if k > 1 {
      SpanIsSum(cfg, k - 1);
      Distribute(cfg.healCooldown, GapSum(k - 1), 1 + Min(k - 1, 5));
    }
  }

  /** The first m of those k heals. */
  lemma {:induction false} Spread(cfg: Config, h: History, k: nat, m: nat)
    requires cfg.healCooldown >= 0.0 && Spaced(cfg, HealLog(h))
    requires 1 <= m <= k <= Unhelped(h) <= |HealLog(h)|
    ensures var log := HealLog(h); log[|log| - k + m - 1].at - log[|log| - k].at >= Span(cfg, m)
    decreases m
  {
    hide Cooldown;
    if m > 1 {
      var log := HealLog(h);
      var i := |log| - k + m - 1;
      Spread(cfg, h, k, m - 1);
      LogIsConsecutive(h);
      UnhelpedCounts(h, k, m - 1);
      CooldownGrows(cfg, m - 1, log[i].unhelped);
    }
  }

  lemma Distribute(c: real, a: nat, b: nat)
    ensures c * (a + b) as real == c * a as real + c * b as real
  {
  }

  // ---- When it fires ----

  /** The watchdog, napping, decides to restart the daemon exactly when the
      history says so: the cooldown is over, which is longer by one for each of
      the first five heals since the latest accept, and either the reject streak has reached the threshold or there has
      been no sign of life for too long since the end of the grace period. */
  lemma FiresExactly(cfg: Config, t0: real, w: World, t: nat)
    requires Reached(cfg, t0, w) && t in w.tasks && w.tasks[t] == Heal(Napping)
    ensures var h := w.f.history;
            Step(cfg, w, Heals(t, Wakes)).tasks[t] == Heal(Restarting(w.now)) <==>
              && (Unhelped(h) == 0 ==> w.now - LastHeal(h) >= cfg.healCooldown)
              && (1 <= Unhelped(h) <= 5 ==> w.now - LastHeal(h) >= cfg.healCooldown * (1 + Unhelped(h)) as real)
              && (Unhelped(h) > 5 ==> w.now - LastHeal(h) >= cfg.healCooldown * 6.0)
              && (|| Streak(h) >= cfg.healConsecRejects
                  || (w.now - LastProof(h) > cfg.healStall && w.now - LastHandshake(h) > cfg.healGrace))
  {
    hide Reached;
    Tracking.Reachable(cfg, t0, w);
  }

  // ---- No false trip ----

  /** A slice result has arrived since the latest handshake. */
  predicate AnsweredSince(h: History) {
    match h
    case Born(_) => false
    case Then(_, Answered(_)) => true
    case Then(_, Handshook(_)) => false
    case Then(past, _) => AnsweredSince(past)
  }

  function MaxReal(a: real, b: real): real {
    if a >= b then a else b
  }

  /** The reject streak is short; the first result of the session is not overdue,
      or, once it has come, the next one is not. */
  predicate Healthy(cfg: Config, w: World) {
    var h := w.f.history;
    && Streak(h) < cfg.healConsecRejects
    && if AnsweredSince(h) then w.now - LastProof(h) <= cfg.healStall
       else w.now - LastHandshake(h) <= MaxReal(cfg.healStall, cfg.healGrace)
  }

  predicate WatchdogAlive(w: World) {
    exists t :: t in w.tasks && w.tasks[t].Heal?
  }

  lemma {:induction false} ProofIsHandshake(h: History)
    requires HealLog(h) == [] && !AnsweredSince(h)
    ensures LastProof(h) == LastHandshake(h)
  {
    match h
    case Born(_) =>
    case Then(_, Handshook(_)) =>
    case Then(past, _) => ProofIsHandshake(past);
  }

  ghost predicate NeverHealed(w: World) {
    && HealLog(w.f.history) == []
    && forall t <- w.tasks :: w.tasks[t].Heal? ==> w.tasks[t].hpc.Napping?
  }

  lemma HealthyStep(cfg: Config, w: World, e: Event)
    requires Tracks(w.f) && NeverHealed(w) && (WatchdogAlive(w) ==> Healthy(cfg, w))
    ensures NeverHealed(Step(cfg, w, e))
  {
    hide Tracks;
    if e.Heals? {
      if e.t in w.tasks && w.tasks[e.t].Heal? {
        assert WatchdogAlive(w);
        NotDue(cfg, w);
      }
    } else {
      hide Step;
      StepTracks(cfg, w, e);
      var r := Step(cfg, w, e);
      forall t <- r.tasks | r.tasks[t].Heal? ensures r.tasks[t].hpc.Napping? {
      }
    }
  }

  lemma NotDue(cfg: Config, w: World)
    requires Tracks(w.f) && HealLog(w.f.history) == [] && Healthy(cfg, w)
    ensures !HealDue(cfg, w.f, w.now)
  {
    if !AnsweredSince(w.f.history) {
      ProofIsHandshake(w.f.history);
    }
  }

  /** A run that is healthy whenever the watchdog is alive never heals. */
  lemma {:induction false} NoFalseTrip(cfg: Config, t0: real, ws: seq<World>, es: seq<Event>, i: nat)
    requires Trace(cfg, t0, ws, es) && i < |ws|
    requires forall k :: 0 <= k < i && WatchdogAlive(ws[k]) ==> Healthy(cfg, ws[k])
    ensures NeverHealed(ws[i])
  {
    if i > 0 {
      hide Step, Healthy, WatchdogAlive;
      NoFalseTrip(cfg, t0, ws, es, i - 1);
      Tracking.Along(cfg, t0, ws, es, i - 1);
      HealthyStep(cfg, ws[i - 1], es[i - 1]);
    }
  }
}
