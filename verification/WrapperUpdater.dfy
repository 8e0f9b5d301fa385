/**
 The wrapper's self-upgrade `wrapper_updater.py`, and the chain of processes its
 re-execs make. The environment decides what is published, what pip does and
 leaves on disk, and when processes end.
 */
module WrapperUpdater {
  import opened Prelude
  import opened Versions
  import opened SolverUpdater

  /** One run of pip; `leaves` is the version it leaves on disk, if another. */
  datatype Attempt = Exits(zero: bool, leaves: Option<string>) | Breaks(leaves: Option<string>)

  datatype CallEnv = CallEnv(fetch: Fetch, formatOk: bool, first: Attempt, second: Attempt, execOk: bool)

  datatype Phase = Starting | Running | Dead
  datatype End = Stayed | Reexeced | Raised

  /** `just` is DEXBTX_WRAPPER_JUST_UPGRADED, `loaded` the `__version__` of the
      running process, `disk` the one a new process would load. */
  datatype Host = Host(optOut: bool, just: Option<string>, loaded: string, disk: string, phase: Phase)

  /** `_fetch_manifest_version`, where it returns: a published version, or None. */
  function PublishedVersion(fetch: Fetch): Option<string> {
    if fetch.Fetched? && fetch.manifest.Dict? then
      var v := Field(fetch.manifest.fields, "version");
      if v.Text? && v.s != "" then Some(v.s) else None
    else None
  }

  /** ... and where it raises: the manifest is JSON, but no object. */
  predicate FetchEscapes(fetch: Fetch) {
    fetch.FetchRaised? || (fetch.Fetched? && !fetch.manifest.Dict?)
  }

  predicate PipOk(env: CallEnv) {
    env.first.Exits? && (env.first.zero || (env.second.Exits? && env.second.zero))
  }

  /** The version on disk after `_run_pip_install`. */
  function DiskAfterPip(disk: string, env: CallEnv): string {
    var mid := if env.first.leaves.Some? then env.first.leaves.value else disk;
    if env.first.Breaks? || env.first.zero then mid
    else if env.second.leaves.Some? then env.second.leaves.value else mid
  }

  /** The loop guard: an upgrade has just been made. */
  predicate Guarded(h: Host) {
    !h.optOut && h.just.Some? && h.just.value != ""
  }

  /** A newer version is published, and nothing forbids to install it. */
  predicate Wants(h: Host, env: CallEnv) {
    && !h.optOut && !Guarded(h)
    && PublishedVersion(env.fetch).Some?
    && !VersionLe(PublishedVersion(env.fetch).value, h.loaded)
  }

  function EndOf(h: Host, env: CallEnv): End {
    if !h.optOut && !Guarded(h) && FetchEscapes(env.fetch) then Raised
    else if !Wants(h, env) then Stayed
    else if !env.formatOk then Raised
    else if PipOk(env) && env.execOk then Reexeced
    else Stayed
  }

  /** The process after a call of `maybe_self_upgrade`, or the one it became. */
  function AfterCall(h: Host, env: CallEnv): Host {
    var end := EndOf(h, env);
    var disk := if Wants(h, env) && env.formatOk then DiskAfterPip(h.disk, env) else h.disk;
    if end.Reexeced? then Host(h.optOut, PublishedVersion(env.fetch), disk, disk, Starting)
    else
      Host(h.optOut, if h.optOut then h.just else None, h.loaded, disk,
           if end.Raised? && h.phase.Starting? then Dead else Running)
  }

  // ---- The updater itself ----

  class Process {
    const optOut: bool
    var just: Option<string>
    var loaded: string
    var disk: string
    var phase: Phase

    function View(): Host
      reads this
    {
      Host(optOut, just, loaded, disk, phase)
    }

    constructor (optOut: bool, just: Option<string>, disk: string)
      ensures View() == Host(optOut, just, disk, disk, Starting)
    {
      this.optOut, this.just, this.loaded, this.disk, this.phase := optOut, just, disk, disk, Starting;
    }

    /** `_run_pip_install`. */
    method RunPipInstall(env: CallEnv) returns (ok: bool)
      modifies `disk
      ensures ok == PipOk(env) && disk == DiskAfterPip(old(disk), env)
    {
      if env.first.leaves.Some? {
        disk := env.first.leaves.value;
      }
      if env.first.Breaks? {
        return false;
      }
      if env.first.zero {
        return true;
      }
      if env.second.leaves.Some? {
        disk := env.second.leaves.value;
      }
      ok := env.second.Exits? && env.second.zero;
    }

    /** `maybe_self_upgrade`, from the caller's point of view: a raise at start-up
        ends the process, the watcher survives it. */
    method MaybeSelfUpgrade(env: CallEnv) returns (end: End)
      requires !phase.Dead?
      modifies this
      ensures end == EndOf(old(View()), env) && View() == AfterCall(old(View()), env)
    {
      var wasStarting := phase.Starting?;
      phase := Running;
      if optOut {
        return Stayed;
      }
      var guard := just;
      just := None;
      if guard.Some? && guard.value != "" {
        return Stayed;
      }
      if FetchEscapes(env.fetch) {
        phase := if wasStarting then Dead else Running;
        return Raised;
      }
      var target := PublishedVersion(env.fetch);
      if target.None? || VersionLe(target.value, loaded) {
        return Stayed;
      }
      if !env.formatOk {
        phase := if wasStarting then Dead else Running;
        return Raised;
      }
      var ok := RunPipInstall(env);
      if !ok || !env.execOk {
        return Stayed;
      }
      just := target;
      loaded := disk;
      phase := Starting;
      end := Reexeced;
    }

    /** `_reexec_for_solver_update`: the same environment, whatever is on disk. */
    method Reexec()
      requires phase.Running?
      modifies this
      ensures View() == Step(old(View()), SolverReexec)
      ensures loaded == disk && disk == old(disk) && just == old(just) && phase.Starting?
    {
      loaded := disk;
      phase := Starting;
    }
  }

  // ---- Chains of processes ----

  datatype Event =
    | Call(env: CallEnv)             // at start-up, or by the watcher
    | SolverReexec                   // by the watcher
    | Stop                           // the process ends
    | Restart(just: Option<string>)  // by the operator, with any environment

  predicate Calls(h: Host, e: Event) {
    e.Call? && !h.phase.Dead?
  }

  predicate Upgrades(h: Host, e: Event) {
    Calls(h, e) && EndOf(h, e.env).Reexeced?
  }

  function Step(h: Host, e: Event): Host {
    match e
    case Call(env) => if h.phase.Dead? then h else AfterCall(h, env)
    case SolverReexec => if h.phase.Running? then h.(loaded := h.disk, phase := Starting) else h
    case Stop => h.(phase := Dead)
    case Restart(just) => h.(just := just, loaded := h.disk, phase := Starting)
  }

  function After(h: Host, es: seq<Event>): Host {
    if es == [] then h else Step(After(h, es[..|es| - 1]), es[|es| - 1])
  }
}
