/**
 What the solver updater guarantees, call by call and over the whole life of an
 installation.
 */
module UpdateLaws {
  import opened Prelude
  import opened Disk
  import opened SolverUpdater

  /** mkstemp never picks the name of the solver or of its backup. */
  predicate TempApart(path: Path, env: Env) {
    env.tmp != path && env.tmp != BackupOf(path)
  }

  /** The three files a call may touch, and what it may do to them. The solver
      changes exactly when the outcome is Updated; it then has the manifest's
      hash and the old one is in the backup. A temporary file stays behind only
      if an exception escapes. Nothing else changes. */
  lemma OutcomeIsExact(sha: Hash, files: Files, path: Path, env: Env)
    requires TempIsFree(files, path, env)
    ensures var next, out := NextFiles(sha, files, path, env), Decide(sha, files, path, env);
            && (out.Updated? <==> Get(next, path) != Get(files, path))
            && (out.Updated? ==>
                  && path in next && sha(next[path]) == EntryFor(env).sha.s
                  && (path in files ==> Get(next, BackupOf(path)) == Get(files, path)))
            && (path !in files ==> Get(next, BackupOf(path)) == Get(files, BackupOf(path)))
            && (!out.Escaped? ==> env.tmp !in next)
            && (out.Refused? ==> next == files)
            && forall q :: q != path && q != BackupOf(path) && q != env.tmp ==> Get(next, q) == Get(files, q)
  {
    assert path != BackupOf(path);
    var out := Decide(sha, files, path, env);
    if out.Updated? {
      assert NextFiles(sha, files, path, env)[path] == Flatten(env.chunks);
    }
  }

  /** `SolverUpdateRequired` is raised exactly when the download fails, in a way
      the updater handles, under a floor the installed solver does not match. */
  lemma RefusedExactly(sha: Hash, files: Files, path: Path, env: Env)
    ensures Decide(sha, files, path, env).Refused? <==>
              Due(sha, files, path, env) && NotDelivered(sha, env) && FloorUnmet(sha, files, path, env)
  {
  }

  // ---- What the manifest says ----

  /** A hash of 64 characters to install, and where to get it. */
  predicate Offers(d: map<string, Json>, hash: string) {
    && "sha256" in d && d["sha256"] == Text(hash) && |hash| == 64
    && "url" in d && d["url"].Text? && "http" <= d["url"].s
  }

  /** The installed solver can be read and has another hash. */
  predicate HasOther(sha: Hash, files: Files, path: Path, env: Env, hash: string) {
    path !in files || (env.canRead && sha(files[path]) != hash)
  }

  /** All of the new solver has arrived in the temporary file, and can be looked at. */
  predicate Arrives(env: Env) {
    env.mkdirOk && env.mkstempOk && env.transfer.Complete? && env.canReadTemp
  }

  /** What a call does when the dictionary d is what the manifest has for this host.
      It installs exactly if d names a hash the solver does not have, bytes with that
      hash arrive, and they can be put in place. It refuses to go on exactly if such
      an update cannot be had and d demands a hash the installed solver does not
      have. It raises exactly where the disk, or an error of another kind, defeats it. */
  ghost predicate DoneAs(sha: Hash, files: Files, path: Path, env: Env, d: map<string, Json>) {
    var out, next := Decide(sha, files, path, env), NextFiles(sha, files, path, env);
    var wrong := Arrives(env) && !Offers(d, sha(Flatten(env.chunks)));
    var due := exists hash :: Offers(d, hash) && HasOther(sha, files, path, env, hash);
    var inPlace := (path in files ==> env.backup.Copied?) && env.chmodOk && env.replaceOk;
    && (out.Updated? <==>
          due && Arrives(env) && Offers(d, sha(Flatten(env.chunks))) && inPlace)
    && (out.Updated? ==> path in next && next[path] == Flatten(env.chunks) && d["sha256"] == Text(sha(next[path])))
    && (out.Refused? <==>
          && due && env.mkdirOk && env.mkstempOk && env.canUnlink && (env.transfer.NetworkError? || wrong)
          && "min_required_sha256" in d && d["min_required_sha256"].Text?
          && (path in files ==> d["min_required_sha256"] != Text(sha(files[path]))))
    && (out.Escaped? <==>
          || (path in files && !env.canRead && exists hash :: Offers(d, hash))
          || (due && (|| !env.mkdirOk || !env.mkstempOk || env.transfer.OtherError?
                      || (env.transfer.Complete? && !env.canReadTemp)
                      || (!env.canUnlink && (env.transfer.NetworkError? || wrong || !inPlace)))))
  }

  /** The same, with the entry as the updater resolves it. */
  lemma DoneAsResolved(sha: Hash, files: Files, path: Path, env: Env, d: map<string, Json>)
    requires !env.optOut && env.fetch.Fetched? && EntryFor(env) == EntryIn(d)
    ensures DoneAs(sha, files, path, env, d)
  {
    var e := EntryFor(env);
    ValidOffers(d);
    if Valid(e) {
      assert Offers(d, e.sha.s);
    }
    if Decide(sha, files, path, env).Updated? {
      assert NextFiles(sha, files, path, env)[path] == Flatten(env.chunks);
    }
  }

  lemma ValidOffers(d: map<string, Json>)
    ensures Valid(EntryIn(d)) <==> exists hash :: Offers(d, hash)
    ensures forall hash :: Offers(d, hash) ==> Valid(EntryIn(d)) && EntryIn(d).sha.s == hash
  {
    if Valid(EntryIn(d)) {
      assert Offers(d, EntryIn(d).sha.s);
    }
  }

  /** With a dictionary of platforms, the entry under this host's own key decides, and
      nothing else in the manifest does. */
  lemma PlatformEntryDecides(
      sha: Hash, files: Files, path: Path, env: Env, top: map<string, Json>, all: map<string, Json>, key: string)
    requires !env.optOut && env.fetch == Fetched(Dict(top)) && env.platform == Some(key)
    requires "platforms" in top && top["platforms"] == Dict(all) && key in all && all[key].Dict?
    ensures DoneAs(sha, files, path, env, all[key].fields)
  {
    DoneAsResolved(sha, files, path, env, all[key].fields);
  }

  /** Without one, the top level does. */
  lemma TopLevelDecides(sha: Hash, files: Files, path: Path, env: Env, top: map<string, Json>)
    requires !env.optOut && env.fetch == Fetched(Dict(top)) && "platforms" !in top
    ensures DoneAs(sha, files, path, env, top)
  {
    DoneAsResolved(sha, files, path, env, top);
  }

  /** A call that has no entry to go by changes nothing and says so: it is opted out,
      there is no manifest, the host is unknown or has no entry, or the platforms are
      no dictionary. */
  lemma NoEntryChangesNothing(sha: Hash, files: Files, path: Path, env: Env)
    requires || env.optOut || env.fetch.FetchFailed? || env.fetch == Fetched(Null)
             || (&& env.fetch.Fetched? && env.fetch.manifest.Dict? && "platforms" in env.fetch.manifest.fields
                 && var p := env.fetch.manifest.fields["platforms"];
                 || !p.Dict? || env.platform.None? || env.platform.value !in p.fields
                 || p.fields[env.platform.value].Null?)
    ensures Decide(sha, files, path, env) == Unchanged && NextFiles(sha, files, path, env) == files
  {
  }

  /** A fetch that raises, a manifest that is no object, and an entry that is none
      raise, with nothing changed. */
  lemma BadManifestRaises(sha: Hash, files: Files, path: Path, env: Env)
    requires !env.optOut
    requires || env.fetch.FetchRaised?
             || (env.fetch.Fetched? && !env.fetch.manifest.Dict? && !env.fetch.manifest.Null?)
             || (&& env.fetch.Fetched? && env.fetch.manifest.Dict? && "platforms" in env.fetch.manifest.fields
                 && var p := env.fetch.manifest.fields["platforms"];
                 && p.Dict? && env.platform.Some? && env.platform.value in p.fields
                 && !p.fields[env.platform.value].Null? && !p.fields[env.platform.value].Dict?)
    ensures Decide(sha, files, path, env) == Escaped && NextFiles(sha, files, path, env) == files
  {
  }

  /** What a call that installs nothing leaves of a backup: the one there was, or a
      beginning of the installed solver. */
  lemma BackupIsAPrefix(sha: Hash, files: Files, path: Path, env: Env)
    requires TempIsFree(files, path, env) && !Decide(sha, files, path, env).Updated?
    ensures var b, next := BackupOf(path), NextFiles(sha, files, path, env);
            Get(next, b) == Get(files, b) || (path in files && b in next && next[b] <= files[path])
  {
  }

  // ---- The floor ----

  /** The manifest could be read, and its floor is not what is installed. */
  predicate UnderFloor(sha: Hash, files: Files, path: Path, env: Env) {
    !env.optOut && FloorUnmet(sha, files, path, env) && (path in files ==> env.canRead)
  }

  /** Under a floor the updater should install or refuse. It lets mining go on
      exactly when the entry is malformed, when the manifest's own solver is
      already installed, or when the verified download cannot be installed. */
  lemma MinesUnderFloorExactly(sha: Hash, files: Files, path: Path, env: Env)
    requires UnderFloor(sha, files, path, env)
    ensures Decide(sha, files, path, env).Unchanged? <==>
              var e := EntryFor(env);
              || !Valid(e)
              || CurrentSha(sha, files, path) == Some(e.sha.s)
              || (Delivered(sha, env) && !InstallOk(files, path, env) && env.canUnlink)
  {
  }

  function Letters(c: char): string {
    seq(64, _ => c)
  }

  /** One file whose hash is all a's; everything else hashes to all b's. */
  function Toy(bytes: Bytes): string {
    if bytes == [1] then Letters('a') else Letters('b')
  }

  const FLOORED := Dict(map["sha256" := Text(Letters('b')), "url" := Text("http://x"),
                            "min_required_sha256" := Text(Letters('b'))])
  const READ_ONLY := Env(false, Fetched(FLOORED), None, true, true, true, "/.dl", [[2]], Complete, true, true,
                         NotOpened, true, true)

  /** A solver below the floor, a good download, and a backup that cannot be
      written: the updater reports no error and mining goes on. */
  lemma InstallFailureIgnoresFloor()
    ensures UnderFloor(Toy, map["/s" := [1]], "/s", READ_ONLY)
    ensures Decide(Toy, map["/s" := [1]], "/s", READ_ONLY) == Unchanged
  {
    assert Letters('a')[0] != Letters('b')[0];
    assert READ_ONLY.chunks[..0] == [];
    assert Flatten(READ_ONLY.chunks) == [2];
    assert Valid(EntryFor(READ_ONLY));
  }

  // ---- Over the whole life of an installation ----

  /** The disk after a number of calls, whatever each of them meets. */
  function FilesAfter(sha: Hash, files: Files, path: Path, envs: seq<Env>): Files {
    if envs == [] then files
    else NextFiles(sha, FilesAfter(sha, files, path, envs[..|envs| - 1]), path, envs[|envs| - 1])
  }

  function OutcomeOf(sha: Hash, files: Files, path: Path, envs: seq<Env>, k: nat): Outcome
    requires k < |envs|
  {
    Decide(sha, FilesAfter(sha, files, path, envs[..k]), path, envs[k])
  }

  lemma StepFrames(sha: Hash, files: Files, path: Path, env: Env)
    requires TempApart(path, env)
    ensures var next := NextFiles(sha, files, path, env);
            if Decide(sha, files, path, env).Updated?
            then Valid(EntryFor(env)) && path in next && sha(next[path]) == EntryFor(env).sha.s
            else Get(next, path) == Get(files, path)
  {
    assert path != BackupOf(path);
  }

  /** The k-th call installed a solver with the hash of b, as its manifest asked. */
  ghost predicate Vouches(sha: Hash, files: Files, path: Path, envs: seq<Env>, k: nat, b: Bytes) {
    && k < |envs| && OutcomeOf(sha, files, path, envs, k).Updated?
    && Valid(EntryFor(envs[k])) && sha(b) == EntryFor(envs[k]).sha.s
  }

  lemma VouchesLater(sha: Hash, files: Files, path: Path, envs: seq<Env>, k: nat, b: Bytes)
    requires envs != [] && Vouches(sha, files, path, envs[..|envs| - 1], k, b)
    ensures Vouches(sha, files, path, envs, k, b)
  {
    hide Decide, NextFiles, Valid, EntryFor, FilesAfter;
    assert envs[..|envs| - 1][..k] == envs[..k];
  }

  lemma VouchesNow(sha: Hash, files: Files, path: Path, envs: seq<Env>)
    requires envs != [] && OutcomeOf(sha, files, path, envs, |envs| - 1).Updated? && TempApart(path, envs[|envs| - 1])
    ensures var now := FilesAfter(sha, files, path, envs);
            path in now && Vouches(sha, files, path, envs, |envs| - 1, now[path])
  {
    StepFrames(sha, FilesAfter(sha, files, path, envs[..|envs| - 1]), path, envs[|envs| - 1]);
    hide Decide, NextFiles, Valid, EntryFor;
  }

  /** Whatever happens over any number of calls, the solver is the original one
      or has the hash some manifest named in the call that installed it. */
  lemma {:induction false} EverySolverIsVouchedFor(sha: Hash, files: Files, path: Path, envs: seq<Env>)
    requires forall k :: 0 <= k < |envs| ==> TempApart(path, envs[k])
    ensures var now := FilesAfter(sha, files, path, envs);
            || Get(now, path) == Get(files, path)
            || (path in now && exists k :: 0 <= k < |envs| && Vouches(sha, files, path, envs, k, now[path]))
  {
    if envs != [] {
      var n := |envs| - 1;
      var before := FilesAfter(sha, files, path, envs[..n]);
      EverySolverIsVouchedFor(sha, files, path, envs[..n]);
      if OutcomeOf(sha, files, path, envs, n).Updated? {
        VouchesNow(sha, files, path, envs);
      } else {
        StepFrames(sha, before, path, envs[n]);
        hide Decide, NextFiles, Vouches;
        if Get(before, path) != Get(files, path) {
          var k :| 0 <= k < n && Vouches(sha, files, path, envs[..n], k, before[path]);
          VouchesLater(sha, files, path, envs, k, before[path]);
        }
      }
    }
  }

  function Updates(sha: Hash, files: Files, path: Path, envs: seq<Env>): nat {
    if envs == [] then 0
    else
      Updates(sha, files, path, envs[..|envs| - 1])
      + (if OutcomeOf(sha, files, path, envs, |envs| - 1).Updated? then 1 else 0)
  }

  /** Every call that gets a manifest gets one that names this hash. */
  predicate Names(envs: seq<Env>, target: string) {
    forall k :: 0 <= k < |envs| ==> Valid(EntryFor(envs[k])) ==> EntryFor(envs[k]).sha.s == target
  }

  /** Convergence: while the manifest stays the same, the solver is installed at
      most once, whatever fails how often, and from then on it has the
      manifest's hash. */
  lemma {:induction false} InstalledAtMostOnce(sha: Hash, files: Files, path: Path, envs: seq<Env>, target: string)
    requires Names(envs, target) && forall k :: 0 <= k < |envs| ==> TempApart(path, envs[k])
    ensures Updates(sha, files, path, envs) <= 1
    ensures Updates(sha, files, path, envs) == 1 ==>
              var now := FilesAfter(sha, files, path, envs); path in now && sha(now[path]) == target
    ensures Updates(sha, files, path, envs) == 0 ==> Get(FilesAfter(sha, files, path, envs), path) == Get(files, path)
  {
    if envs != [] {
      var n := |envs| - 1;
      InstalledAtMostOnce(sha, files, path, envs[..n], target);
      StepFrames(sha, FilesAfter(sha, files, path, envs[..n]), path, envs[n]);
      if Updates(sha, files, path, envs[..n]) == 1 {
        UpToDateIsIdle(sha, FilesAfter(sha, files, path, envs[..n]), path, envs[n]);
      }
    }
  }

  /** A call that finds the manifest's solver installed changes nothing at all. */
  lemma UpToDateIsIdle(sha: Hash, files: Files, path: Path, env: Env)
    requires path in files && (Valid(EntryFor(env)) ==> sha(files[path]) == EntryFor(env).sha.s)
    ensures NextFiles(sha, files, path, env) == files
    ensures var out := Decide(sha, files, path, env);
            out == if EscapesEarly(files, path, env) then Escaped else Unchanged
  {
  }

  /** A second call under the same manifest, right after a successful one. */
  lemma SecondCallIsIdle(sha: Hash, files: Files, path: Path, env: Env, again: Env)
    requires TempIsFree(files, path, env) && Decide(sha, files, path, env).Updated?
    requires again.fetch == env.fetch && again.platform == env.platform && again.canRead
    ensures var next := NextFiles(sha, files, path, env);
            NextFiles(sha, next, path, again) == next && Decide(sha, next, path, again) == Unchanged
  {
    OutcomeIsExact(sha, files, path, env);
    UpToDateIsIdle(sha, NextFiles(sha, files, path, env), path, again);
  }
}
