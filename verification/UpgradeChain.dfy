/**
 How often the wrapper can upgrade itself. A release may be broken: what it
 leaves on disk need not be the version it was published as.
 */
module UpgradeChain {
  import opened Prelude
  import opened Versions
  import opened SolverUpdater
  import opened WrapperUpdater

  // ---- Whatever the releases carry ----

  /** No upgrade can come next: the process has just been upgraded, or is gone. */
  predicate Quiet(h: Host) {
    h.phase.Dead? || (h.phase.Starting? && Guarded(h))
  }

  lemma UpgradeQuiets(h: Host, e: Event)
    ensures Upgrades(h, e) ==> !Quiet(h) && Quiet(Step(h, e))
    ensures Quiet(h) && !e.Restart? ==> Quiet(Step(h, e)) || (Calls(h, e) && !Upgrades(h, e))
  {
  }

  predicate IdleCall(h: Host, es: seq<Event>, k: nat)
    requires k < |es|
  {
    Calls(After(h, es[..k]), es[k]) && !Upgrades(After(h, es[..k]), es[k])
  }

  lemma {:induction false} QuietUntilIdle(h: Host, es: seq<Event>, i: nat, m: nat)
    requires i < m <= |es| && Upgrades(After(h, es[..i]), es[i])
    requires forall k :: i < k < m ==> !es[k].Restart?
    ensures Quiet(After(h, es[..m])) || exists k :: i < k < m && IdleCall(h, es, k)
    decreases m
  {
    hide Step, Upgrades, Calls, Quiet;
    assert es[..m][..m - 1] == es[..m - 1];
    UpgradeQuiets(After(h, es[..m - 1]), es[m - 1]);
    assert After(h, es[..m]) == Step(After(h, es[..m - 1]), es[m - 1]);
    hide After;
    if m > i + 1 {
      QuietUntilIdle(h, es, i, m - 1);
      if Quiet(After(h, es[..m - 1])) && !Quiet(After(h, es[..m])) {
        assert IdleCall(h, es, m - 1);
      }
    }
  }

  /** Two upgrades of the same chain always have a call between them that
      upgrades nothing, whatever the tarballs carry: two consecutive calls never
      both re-exec. Only the operator, by a restart, can undo the guard. */
  lemma NeverTwiceInARow(h: Host, es: seq<Event>, i: nat, j: nat)
    requires i < j < |es| && Upgrades(After(h, es[..i]), es[i]) && Upgrades(After(h, es[..j]), es[j])
    requires forall k :: i < k < j ==> !es[k].Restart?
    ensures exists k :: i < k < j && IdleCall(h, es, k)
  {
    QuietUntilIdle(h, es, i, j);
    UpgradeQuiets(After(h, es[..j]), es[j]);
  }

  function CountUpgrades(h: Host, es: seq<Event>): nat {
    if es == [] then 0
    else CountUpgrades(h, es[..|es| - 1]) + (if Upgrades(After(h, es[..|es| - 1]), es[|es| - 1]) then 1 else 0)
  }

  function CountCalls(h: Host, es: seq<Event>): nat {
    if es == [] then 0
    else CountCalls(h, es[..|es| - 1]) + (if Calls(After(h, es[..|es| - 1]), es[|es| - 1]) then 1 else 0)
  }

  /** At most every second call re-execs. */
  lemma {:induction false} AtMostEverySecondCall(h: Host, es: seq<Event>)
    requires forall k :: 0 <= k < |es| ==> !es[k].Restart?
    ensures 2 * CountUpgrades(h, es) <= CountCalls(h, es) + (if Quiet(After(h, es)) then 1 else 0)
  {
    if es != [] {
      AtMostEverySecondCall(h, es[..|es| - 1]);
      UpgradeQuiets(After(h, es[..|es| - 1]), es[|es| - 1]);
    }
  }

  // ---- One release, called for again and again ----

  /** The same event twice, n times over. */
  function Loop(c: Event, n: nat): seq<Event> {
    if n == 0 then [] else Loop(c, n - 1) + [c] + [c]
  }

  /** What pip leaves on disk is at least as new as what the release is published as. */
  predicate Fits(h: Host, env: CallEnv) {
    PublishedVersion(env.fetch).Some? ==> VersionLe(PublishedVersion(env.fetch).value, DiskAfterPip(h.disk, env))
  }

  /** An upgrade and the call after it: that call upgrades nothing and lifts the
      guard. The next one upgrades again exactly if the release does not fit;
      otherwise no later call does anything. */
  lemma UpgradeAndNext(h: Host, env: CallEnv)
    requires Upgrades(h, Call(env))
    ensures var c := Call(env); var mid, r := Step(h, c), Step(Step(h, c), c);
            && Calls(h, c) && Calls(mid, c) && !Upgrades(mid, c) && Calls(r, c)
            && r.disk == DiskAfterPip(h.disk, env) && DiskAfterPip(r.disk, env) == r.disk
            && (Upgrades(r, c) <==> !Fits(h, env))
            && (Upgrades(r, c) ==> Step(Step(r, c), c) == r)
            && (!Upgrades(r, c) ==> Step(r, c) == r)
  {
    hide VersionLe;
  }

  lemma Snoc(h: Host, es: seq<Event>, e: Event)
    ensures After(h, es + [e]) == Step(After(h, es), e)
    ensures CountUpgrades(h, es + [e]) == CountUpgrades(h, es) + (if Upgrades(After(h, es), e) then 1 else 0)
    ensures CountCalls(h, es + [e]) == CountCalls(h, es) + (if Calls(After(h, es), e) then 1 else 0)
  {
    hide Step, Upgrades, Calls;
    assert (es + [e])[..|es|] == es;
  }

  lemma LoopOpens(h: Host, c: Event, n: nat)
    ensures Loop(c, 0) == [] && (n > 0 ==> Loop(c, n) == Loop(c, n - 1) + [c] + [c])
    ensures After(h, []) == h && CountUpgrades(h, []) == 0 && CountCalls(h, []) == 0
  {
    hide Step, Upgrades, Calls;
  }

  lemma TwoMore(h: Host, es: seq<Event>, c: Event)
    ensures var s, more := After(h, es), es + [c] + [c];
            && After(h, more) == Step(Step(s, c), c)
            && CountUpgrades(h, more) == CountUpgrades(h, es) + (if Upgrades(s, c) then 1 else 0)
                                         + (if Upgrades(Step(s, c), c) then 1 else 0)
            && CountCalls(h, more) == CountCalls(h, es) + (if Calls(s, c) then 1 else 0)
                                      + (if Calls(Step(s, c), c) then 1 else 0)
  {
    hide Step, Upgrades, Calls, After, CountUpgrades, CountCalls;
    Snoc(h, es, c);
    Snoc(h, es + [c], c);
  }

  /** The promise that a release is installed once and then left alone is kept
      exactly if the release fits. Otherwise every second call upgrades, for as
      long as the chain of processes lives: the guard only spaces the upgrades out. */
  lemma {:induction false} SettlesExactly(h: Host, env: CallEnv, n: nat)
    requires Upgrades(h, Call(env)) && n > 0
    ensures var c := Call(env); var r := After(h, Loop(c, n));
            && CountCalls(h, Loop(c, n)) == 2 * n
            && CountUpgrades(h, Loop(c, n)) == (if Fits(h, env) then 1 else n)
            && r == Step(Step(h, c), c)
            && (Upgrades(r, c) <==> !Fits(h, env))
            && (Step(r, c) == r <==> Fits(h, env))
  {
    hide *;
    hide Fits, Upgrades, Step, Calls, After, CountUpgrades, CountCalls, Loop;
    var c := Call(env);
    UpgradeAndNext(h, env);
    LoopOpens(h, c, n);
    LoopOpens(h, c, n - 1);
    TwoMore(h, Loop(c, n - 1), c);
    var r := Step(Step(h, c), c);
    if Upgrades(r, c) {
      UpgradeQuiets(r, c);
      UpgradeMoves(r, c);
    }
    if n > 1 {
      SettlesExactly(h, env, n - 1);
      if Upgrades(r, c) {
        UpgradeAndNext(r, env);
      }
    }
  }

  lemma UpgradeMoves(h: Host, e: Event)
    requires Upgrades(h, e)
    ensures Step(h, e) != h
  {
    UpgradeQuiets(h, e);
  }

  const BROKEN := CallEnv(Fetched(Dict(map["version" := Text("2")])), true, Exits(true, None), Exits(true, None), true)

  lemma BrokenIsNewer()
    ensures !VersionLe("2", "1")
  {
    VersionRoundTrip([2]);
    VersionRoundTrip([1]);
    assert Join([2]) == "2" && Join([1]) == "1";
  }

  lemma BrokenDoesNotFit(h: Host)
    requires h == Host(false, None, "1", "1", Running)
    ensures Upgrades(h, Call(BROKEN)) && !Fits(h, BROKEN) && Step(Step(h, Call(BROKEN)), Call(BROKEN)) == h
  {
    BrokenIsNewer();
    hide VersionLe;
    assert PublishedVersion(BROKEN.fetch) == Some("2");
  }

  /** One release that does not fit: published as 2, it installs 1. */
  lemma BrokenReleaseNeverSettles(n: nat)
    ensures var h, es := Host(false, None, "1", "1", Running), Loop(Call(BROKEN), n);
            After(h, es) == h && CountUpgrades(h, es) == n && CountCalls(h, es) == 2 * n
  {
    var h := Host(false, None, "1", "1", Running);
    hide Fits, Upgrades, Step, After, CountUpgrades, CountCalls, Loop;
    BrokenDoesNotFit(h);
    if n > 0 {
      SettlesExactly(h, BROKEN, n);
    } else {
      LoopOpens(h, Call(BROKEN), 0);
    }
  }

  // ---- What a call does ----

  /** A call re-execs exactly if it is not opted out, no upgrade has just been made,
      the manifest is an object with a version above the loaded one, the template
      formats, pip exits with zero at its first attempt or, the first having exited
      with something else, at its second, and the exec is possible. */
  lemma ReexecsExactly(h: Host, env: CallEnv)
    ensures EndOf(h, env).Reexeced? <==>
              && !h.optOut && (h.just.None? || h.just.value == "")
              && env.fetch.Fetched? && env.fetch.manifest.Dict? && "version" in env.fetch.manifest.fields
              && var v := env.fetch.manifest.fields["version"];
              && v.Text? && v.s != "" && !VersionLe(v.s, h.loaded) && env.formatOk
              && (|| (env.first.Exits? && env.first.zero)
                  || (env.first.Exits? && !env.first.zero && env.second.Exits? && env.second.zero))
              && env.execOk
  {
    hide VersionLe;
  }

  /** The process that comes of it loads what pip has left on disk and knows the
      version it was upgraded to. A process that stays has spent that mark, unless it
      is opted out, and goes on with what it has loaded. */
  lemma CallLeavesExactly(h: Host, env: CallEnv)
    ensures var r, end := AfterCall(h, env), EndOf(h, env);
            && r.optOut == h.optOut
            && (end.Reexeced? ==>
                  && r.phase == Starting && r.loaded == r.disk
                  && r.just == Some(env.fetch.manifest.fields["version"].s))
            && (!end.Reexeced? ==>
                  && r.loaded == h.loaded && (h.optOut ==> r.just == h.just) && (!h.optOut ==> r.just.None?)
                  && (r.phase.Dead? <==> end.Raised? && h.phase.Starting?) && !r.phase.Starting?)
  {
    hide VersionLe;
    ReexecsExactly(h, env);
  }

  /** What is on disk after a call: pip runs for a newer version only, and leaves what
      its last attempt that leaves anything leaves. */
  lemma DiskExactly(h: Host, env: CallEnv)
    ensures var r, second := AfterCall(h, env), env.first.Exits? && !env.first.zero;
            && (!Wants(h, env) || !env.formatOk ==> r.disk == h.disk)
            && (Wants(h, env) && env.formatOk ==>
                  && (second && env.second.leaves.Some? ==> r.disk == env.second.leaves.value)
                  && (!(second && env.second.leaves.Some?) && env.first.leaves.Some? ==> r.disk == env.first.leaves.value)
                  && (!(second && env.second.leaves.Some?) && env.first.leaves.None? ==> r.disk == h.disk))
  {
    hide VersionLe;
  }

  /** Every new process loads what is on disk, whoever starts it. */
  lemma NewProcessesLoadDisk(h: Host, e: Event)
    requires (e.SolverReexec? && h.phase.Running?) || e.Restart?
    ensures var r := Step(h, e);
            && r.phase.Starting? && r.loaded == h.disk && r.disk == h.disk && r.optOut == h.optOut
            && r.just == if e.Restart? then e.just else h.just
  {
  }

  // ---- A call that raises ----

  /** A call raises exactly when it is neither opted out nor guarded, and either the
      manifest is JSON but no object or could not be decoded, or an upgrade is
      wanted and the operator's URL template does not format. */
  lemma RaisesExactly(h: Host, env: CallEnv)
    ensures EndOf(h, env).Raised? <==>
              && !h.optOut && (h.just.None? || h.just.value == "")
              && (|| env.fetch.FetchRaised?
                  || (env.fetch.Fetched? && !env.fetch.manifest.Dict?)
                  || (&& env.fetch.Fetched? && "version" in env.fetch.manifest.fields
                      && var v := env.fetch.manifest.fields["version"];
                      v.Text? && v.s != "" && !VersionLe(v.s, h.loaded) && !env.formatOk))
  {
  }

  /** A call ends the process exactly when it raises at start-up. */
  lemma DiesExactly(h: Host, env: CallEnv)
    requires !h.phase.Dead?
    ensures Step(h, Call(env)).phase.Dead? <==> h.phase.Starting? && EndOf(h, env).Raised?
  {
  }

  const NO_OBJECT := CallEnv(Fetched(List([])), true, Exits(true, None), Exits(true, None), true)

  /** A manifest that is a list ends a fresh process before it has begun to mine. */
  lemma ListManifestKills(version: string)
    ensures After(Host(false, None, version, version, Starting), [Call(NO_OBJECT)]).phase == Dead
  {
    var h, es := Host(false, None, version, version, Starting), [Call(NO_OBJECT)];
    assert es[..0] == [];
    RaisesExactly(h, NO_OBJECT);
    DiesExactly(h, NO_OBJECT);
    hide Step;
    assert After(h, es) == Step(After(h, es[..0]), es[0]);
  }

  // ---- When no release installs less than it was published as ----

  /** A version that pip leaves is at least the published one, and a pip that
      succeeds leaves one. */
  predicate FitAttempt(a: Attempt, target: string) {
    (a.leaves.Some? ==> VersionLe(target, a.leaves.value)) && (a.Exits? && a.zero ==> a.leaves.Some?)
  }

  predicate Honest(e: Event) {
    e.Call? && PublishedVersion(e.env.fetch).Some? ==>
      var target := PublishedVersion(e.env.fetch).value;
      FitAttempt(e.env.first, target) && FitAttempt(e.env.second, target)
  }

  function Rank(v: string): seq<int> {
    ParseVersion(Some(v))
  }

  /** Along one step the loaded version never falls, and at an upgrade it rises
      to the published one or beyond. */
  lemma LoadedRises(h: Host, e: Event)
    requires Honest(e) && LexLe(Rank(h.loaded), Rank(h.disk))
    ensures var r := Step(h, e);
            && LexLe(Rank(h.loaded), Rank(r.loaded))
            && LexLe(Rank(r.loaded), Rank(r.disk))
            && (Upgrades(h, e) ==> !LexLe(Rank(r.loaded), Rank(h.loaded))
                                   && PublishedVersion(e.env.fetch).Some?
                                   && !LexLe(Rank(PublishedVersion(e.env.fetch).value), Rank(h.loaded))
                                   && LexLe(Rank(PublishedVersion(e.env.fetch).value), Rank(r.loaded)))
  {
    hide LexLe, ParseVersion;
    LexReflexive(Rank(h.loaded));
    LexReflexive(Rank(h.disk));
    LexReflexive(Rank(Step(h, e).disk));
    if e.Call? && PublishedVersion(e.env.fetch).Some? {
      var target := PublishedVersion(e.env.fetch).value;
      LexTotal(Rank(target), Rank(h.loaded));
      LexReflexive(Rank(target));
      if Wants(h, e.env) && e.env.formatOk {
        PipFits(h, e.env, target);
      }
    }
  }

  /** Pip leaves the disk alone or at a version that fits; if it succeeds, at one that fits. */
  lemma PipFits(h: Host, env: CallEnv, target: string)
    requires FitAttempt(env.first, target) && FitAttempt(env.second, target)
    requires !LexLe(Rank(target), Rank(h.loaded)) && LexLe(Rank(h.loaded), Rank(h.disk))
    ensures var disk := DiskAfterPip(h.disk, env);
            && LexLe(Rank(h.loaded), Rank(disk))
            && (PipOk(env) ==> LexLe(Rank(target), Rank(disk)) && !LexLe(Rank(disk), Rank(h.loaded)))
  {
    hide LexLe, ParseVersion;
    var disk := DiskAfterPip(h.disk, env);
    LexTotal(Rank(target), Rank(h.loaded));
    if LexLe(Rank(target), Rank(disk)) {
      LexTransitive(Rank(h.loaded), Rank(target), Rank(disk));
      if LexLe(Rank(disk), Rank(h.loaded)) {
        LexTransitive(Rank(target), Rank(disk), Rank(h.loaded));
      }
    }
  }

  lemma {:induction false} LoadedNeverFalls(h: Host, es: seq<Event>)
    requires LexLe(Rank(h.loaded), Rank(h.disk)) && forall k :: 0 <= k < |es| ==> Honest(es[k])
    ensures var r := After(h, es); LexLe(Rank(h.loaded), Rank(r.loaded)) && LexLe(Rank(r.loaded), Rank(r.disk))
  {
    hide Step, Rank, Honest, LexLe;
    if es == [] {
      LexReflexive(Rank(h.loaded));
    } else {
      var s := After(h, es[..|es| - 1]);
      LoadedNeverFalls(h, es[..|es| - 1]);
      LoadedRises(s, es[|es| - 1]);
      LexTransitive(Rank(h.loaded), Rank(s.loaded), Rank(After(h, es).loaded));
    }
  }

  /** The ranks of the published versions that an upgrade was made for. */
  function Reached(h: Host, es: seq<Event>): set<seq<int>> {
    if es == [] then {}
    else
      var init, e := es[..|es| - 1], es[|es| - 1];
      Reached(h, init)
      + (if Upgrades(After(h, init), e) && PublishedVersion(e.env.fetch).Some?
         then {Rank(PublishedVersion(e.env.fetch).value)} else {})
  }

  /** The ranks of all versions published during the run. */
  function Published(es: seq<Event>): set<seq<int>> {
    if es == [] then {}
    else
      var e := es[|es| - 1];
      Published(es[..|es| - 1])
      + (if e.Call? && PublishedVersion(e.env.fetch).Some? then {Rank(PublishedVersion(e.env.fetch).value)} else {})
  }

  lemma {:induction false} EachReachedOnce(h: Host, es: seq<Event>)
    requires LexLe(Rank(h.loaded), Rank(h.disk)) && forall k :: 0 <= k < |es| ==> Honest(es[k])
    ensures |Reached(h, es)| == CountUpgrades(h, es) && Reached(h, es) <= Published(es)
    ensures forall x <- Reached(h, es) :: LexLe(x, Rank(After(h, es).loaded))
  {
    hide Step, Rank, Honest, LexLe, Upgrades;
    if es != [] {
      var init, e := es[..|es| - 1], es[|es| - 1];
      var s, r := After(h, init), After(h, es);
      EachReachedOnce(h, init);
      LoadedNeverFalls(h, init);
      LoadedRises(s, e);
      LexReflexive(Rank(r.loaded));
      forall x | x in Reached(h, init) ensures LexLe(x, Rank(r.loaded)) {
        LexTransitive(x, Rank(s.loaded), Rank(r.loaded));
      }
      UpgradesAreCalls(s, e);
      if Upgrades(s, e) {
        assert Rank(PublishedVersion(e.env.fetch).value) !in Reached(h, init);
      }
    }
  }

  lemma UpgradesAreCalls(h: Host, e: Event)
    ensures Upgrades(h, e) ==> e.Call? && PublishedVersion(e.env.fetch).Some?
  {
  }

  /** When every release installs its published version or a later one, the chain
      upgrades at most once for every distinct version published, across restarts,
      solver re-execs and failures of any kind. */
  lemma UpgradesAreBounded(h: Host, es: seq<Event>)
    requires LexLe(Rank(h.loaded), Rank(h.disk)) && forall k :: 0 <= k < |es| ==> Honest(es[k])
    ensures CountUpgrades(h, es) <= |Published(es)|
  {
    hide Rank, Honest, LexLe;
    EachReachedOnce(h, es);
    Smaller(Reached(h, es), Published(es));
  }

  lemma {:induction false} Smaller(a: set<seq<int>>, b: set<seq<int>>)
    requires a <= b
    ensures |a| <= |b|
  {
    if a != {} {
      var x :| x in a;
      Smaller(a - {x}, b - {x});
    }
  }
}
