/**
 Start-up and the periodic re-check of `__main__.py`: the wrapper first, then the
 solver, then a comparison of the solver on disk before and after.
 */
module Watcher {
  import opened Prelude
  import opened Disk
  import opened SolverUpdater
  import opened WrapperUpdater
  import opened UpdateLaws

  /** What one cycle meets. The watcher hashes the configured path as it is
      written; `canHash` says whether each of its two reads succeeds. */
  datatype CycleEnv = CycleEnv(wrapper: CallEnv, solver: Env, canHashBefore: bool, canHashAfter: bool, execOk: bool)

  datatype CycleEnd = Continues | WrapperReexecs | SolverReexecs

  datatype Rig = Rig(host: Host, files: Files)

  /** `Path.expanduser` on a path that names no other user. */
  function Expand(home: string, raw: Path): Path {
    if raw != "" && raw[0] == '~' && (|raw| == 1 || raw[1] == '/') then home + raw[1..] else raw
  }

  /** A tilde stands for the home directory at the start of a path, alone or before a
      slash; any other path is as it is. */
  lemma ExpandsExactly(home: string, raw: Path)
    ensures raw == "~" ==> Expand(home, raw) == home
    ensures |raw| > 1 && raw[0] == '~' && raw[1] == '/' ==> Expand(home, raw) == home + raw[1..]
    ensures raw == "" || raw[0] != '~' || (|raw| > 1 && raw[1] != '/') ==> Expand(home, raw) == raw
  {
  }

  predicate GoodHome(home: string) {
    home == "" || home[0] != '~'
  }

  /** `hardware.solver_sha256_hex`. */
  function HashOf(sha: Hash, files: Files, raw: Path, canRead: bool): Option<string> {
    if raw in files && canRead then Some(sha(files[raw])) else None
  }

  /** A digest is a non-empty text. */
  ghost predicate Hashes(sha: Hash) {
    forall b: Bytes :: sha(b) != ""
  }

  predicate TempOk(files: Files, raw: Path, path: Path, env: Env) {
    TempIsFree(files, path, env) && env.tmp != raw
  }

  // ---- One cycle ----

  /** A new solver over a readable old one, at a path that needs no expansion. */
  predicate SolverReplaced(sha: Hash, rig: Rig, raw: Path, path: Path, c: CycleEnv) {
    && Decide(sha, rig.files, path, c.solver).Updated?
    && raw == path && path in rig.files
    && c.canHashBefore && c.canHashAfter
  }

  function CycleEndOf(sha: Hash, rig: Rig, raw: Path, path: Path, c: CycleEnv): CycleEnd {
    match EndOf(rig.host, c.wrapper)
    case Reexeced => WrapperReexecs
    case Raised => Continues
    case Stayed => if SolverReplaced(sha, rig, raw, path, c) && c.execOk then SolverReexecs else Continues
  }

  function AfterCycle(sha: Hash, rig: Rig, raw: Path, path: Path, c: CycleEnv): Rig {
    var host := AfterCall(rig.host, c.wrapper);
    var files := if EndOf(rig.host, c.wrapper).Stayed? then NextFiles(sha, rig.files, path, c.solver) else rig.files;
    Rig(if CycleEndOf(sha, rig, raw, path, c).SolverReexecs? then WrapperUpdater.Step(host, SolverReexec) else host, files)
  }

  lemma TildeStaysAway(home: string, raw: Path)
    requires GoodHome(home) && raw != Expand(home, raw)
    ensures raw != BackupOf(Expand(home, raw))
  {
  }

  /** The body of the loop in `_solver_update_watcher`. */
  method Cycle(host: Process, fs: FileSystem, sha: Hash, home: string, raw: Path, c: CycleEnv) returns (end: CycleEnd)
    requires host.phase.Running? && Hashes(sha) && GoodHome(home)
    requires TempOk(fs.files, raw, Expand(home, raw), c.solver)
    modifies host, fs
    ensures end == CycleEndOf(sha, Rig(old(host.View()), old(fs.files)), raw, Expand(home, raw), c)
    ensures Rig(host.View(), fs.files) == AfterCycle(sha, Rig(old(host.View()), old(fs.files)), raw, Expand(home, raw), c)
    ensures old(fs.trace) <= fs.trace
    ensures forall i :: |old(fs.trace)| <= i < |fs.trace| ==>
              Sound(sha, old(fs.files), fs.trace[i], Expand(home, raw), c.solver)
  {
    var path := Expand(home, raw);
    ghost var was := fs.files;
    var wrapper := host.MaybeSelfUpgrade(c.wrapper);
    if wrapper.Reexeced? {
      return WrapperReexecs;
    }
    if wrapper.Raised? {
      return Continues;
    }
    var before := HashOf(sha, fs.files, raw, c.canHashBefore);
    var out := MaybeUpdateSolver(fs, sha, path, c.solver);
    OutcomeIsExact(sha, was, path, c.solver);
    if raw != path {
      TildeStaysAway(home, raw);
      assert Get(fs.files, raw) == Get(was, raw);
    }
    if out.Refused? || out.Escaped? {
      return Continues;
    }
    var after := HashOf(sha, fs.files, raw, c.canHashAfter);
    end := Continues;
    if before.Some? && before.value != "" && after.Some? && after.value != "" && before != after {
      if c.execOk {
        host.Reexec();
        end := SolverReexecs;
      }
    }
  }

  // ---- Start-up ----

  /** What the command line asks for. */
  datatype Command = Mine | Benchmark | BadArguments

  /** `main` and `_run` up to the client: the wrapper first, whatever the command
      line says; then the miner starts to mine exactly when it is asked to, the
      wrapper stays and the solver updater returns. The solver is looked after
      only if it is to mine. */
  method StartUp(host: Process, fs: FileSystem, sha: Hash, path: Path, command: Command, wrapper: CallEnv, solver: Env)
    returns (mines: bool)
    requires host.phase.Starting? && TempIsFree(fs.files, path, solver)
    modifies host, fs
    ensures mines <==> command.Mine? && EndOf(old(host.View()), wrapper).Stayed?
                       && Decide(sha, old(fs.files), path, solver) in {Updated, Unchanged}
    ensures fs.files == if command.Mine? && EndOf(old(host.View()), wrapper).Stayed?
                        then NextFiles(sha, old(fs.files), path, solver) else old(fs.files)
    ensures mines ==> host.phase.Running?
  {
    var end := host.MaybeSelfUpgrade(wrapper);
    if !end.Stayed? || !command.Mine? {
      return false;
    }
    var out := MaybeUpdateSolver(fs, sha, path, solver);
    mines := out.Updated? || out.Unchanged?;
  }

  // ---- Many cycles ----

  /** The rig after a number of cycles, whichever processes ran them. */
  function AfterCycles(sha: Hash, rig: Rig, raw: Path, path: Path, cs: seq<CycleEnv>): Rig {
    if cs == [] then rig
    else AfterCycle(sha, AfterCycles(sha, rig, raw, path, cs[..|cs| - 1]), raw, path, cs[|cs| - 1])
  }

  function CountSolverReexecs(sha: Hash, rig: Rig, raw: Path, path: Path, cs: seq<CycleEnv>): nat {
    if cs == [] then 0
    else
      var init := cs[..|cs| - 1];
      CountSolverReexecs(sha, rig, raw, path, init)
      + (if CycleEndOf(sha, AfterCycles(sha, rig, raw, path, init), raw, path, cs[|cs| - 1]).SolverReexecs? then 1 else 0)
  }

  /** While the channel names one solver, the watcher re-execs for it at most once,
      whatever fails how often: afterwards that solver is installed. */
  lemma {:induction false} ReexecsAtMostOnce(
      sha: Hash, rig: Rig, raw: Path, path: Path, cs: seq<CycleEnv>, target: string)
    requires forall k :: 0 <= k < |cs| ==> TempApart(path, cs[k].solver)
    requires forall k :: 0 <= k < |cs| ==> Valid(EntryFor(cs[k].solver)) ==> EntryFor(cs[k].solver).sha.s == target
    ensures CountSolverReexecs(sha, rig, raw, path, cs) <= 1
    ensures CountSolverReexecs(sha, rig, raw, path, cs) == 1 ==>
              var files := AfterCycles(sha, rig, raw, path, cs).files; path in files && sha(files[path]) == target
  {
    if cs != [] {
      var init, c := cs[..|cs| - 1], cs[|cs| - 1];
      var mid := AfterCycles(sha, rig, raw, path, init);
      ReexecsAtMostOnce(sha, rig, raw, path, init, target);
      StepFrames(sha, mid.files, path, c.solver);
      if CountSolverReexecs(sha, rig, raw, path, init) == 1 {
        UpToDateIsIdle(sha, mid.files, path, c.solver);
      }
      hide Decide, NextFiles, EndOf, AfterCall;
    }
  }

  /** How a cycle ends and what it leaves on disk. It stops where the wrapper's own call
      re-execs or raises; otherwise the solver is looked after, and the process re-execs
      for it exactly if this cycle has put it in place of one the watcher could hash
      before and after, under the path as it is written. */
  lemma CycleExactly(sha: Hash, rig: Rig, raw: Path, path: Path, c: CycleEnv)
    ensures var own, end := EndOf(rig.host, c.wrapper), CycleEndOf(sha, rig, raw, path, c);
            var r := AfterCycle(sha, rig, raw, path, c);
            && (end.WrapperReexecs? <==> own.Reexeced?)
            && (end.SolverReexecs? <==>
                  && own.Stayed? && Decide(sha, rig.files, path, c.solver).Updated? && raw == path && path in rig.files
                  && c.canHashBefore && c.canHashAfter && c.execOk)
            && (!own.Stayed? ==> r.files == rig.files)
            && (own.Stayed? ==> r.files == NextFiles(sha, rig.files, path, c.solver))
            && (!end.SolverReexecs? ==> r.host == AfterCall(rig.host, c.wrapper))
            && (end.SolverReexecs? && AfterCall(rig.host, c.wrapper).phase.Running? ==>
                  r.host.phase.Starting? && r.host.loaded == r.host.disk)
  {
    hide EndOf, Decide, NextFiles, AfterCall;
  }

  /** A path written with a tilde is never hashed, so no install is ever noticed. */
  lemma TildeNeverReexecs(sha: Hash, rig: Rig, home: string, raw: Path, c: CycleEnv)
    requires |raw| > 1 && raw[0] == '~' && raw[1] == '/' && GoodHome(home)
    ensures !CycleEndOf(sha, rig, raw, Expand(home, raw), c).SolverReexecs?
  {
    assert Expand(home, raw)[0] != '~';
  }

  const RIG := Rig(Host(false, None, "1", "1", Running), map["/home/m/s" := [1]])
  const NEW_SOLVER := CycleEnv(CallEnv(FetchFailed, true, Exits(true, None), Exits(true, None), true),
                               READ_ONLY.(backup := Copied), true, true, true)

  /** A cycle that installs a new solver over a readable old one: at the path
      spelled out it re-execs, at the same path written with a tilde it does not,
      and the process goes on beside the new solver. */
  lemma TildeMissesAnInstall()
    ensures Expand("/home/m", "~/s") == "/home/m/s"
    ensures Decide(Toy, RIG.files, "/home/m/s", NEW_SOLVER.solver) == Updated
    ensures CycleEndOf(Toy, RIG, "/home/m/s", "/home/m/s", NEW_SOLVER) == SolverReexecs
    ensures CycleEndOf(Toy, RIG, "~/s", "/home/m/s", NEW_SOLVER) == Continues
    ensures var r := AfterCycle(Toy, RIG, "~/s", "/home/m/s", NEW_SOLVER);
            r.host == RIG.host && "/home/m/s" in r.files && r.files["/home/m/s"] == [2]
  {
    assert Letters('a')[0] != Letters('b')[0];
    assert READ_ONLY.chunks[..0] == [];
    assert Flatten(READ_ONLY.chunks) == [2];
    assert Valid(EntryFor(NEW_SOLVER.solver));
    assert "~/s" != "/home/m/s" by { assert "~/s"[0] != "/home/m/s"[0]; }
  }
}
