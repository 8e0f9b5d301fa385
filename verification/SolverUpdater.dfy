/**
 The solver updater `solver_updater.py`. What the network, the disk and the
 operator decide comes in as `Env`; the hash is an unknown function, of which
 nothing is assumed.
 */
module SolverUpdater {
  import opened Prelude
  import opened Disk

  // ---- The manifest ----

  datatype Json =
    | Null | Flag(b: bool) | Number(n: int) | Text(s: string)
    | List(items: seq<Json>) | Dict(fields: map<string, Json>)

  /** `d.get(key)`. */
  function Field(d: map<string, Json>, key: string): Json {
    if key in d then d[key] else Null
  }

  datatype Resolved = Entry(sha: Json, url: Json, floor: Json) | NoEntry | Raises

  /** `_resolve_manifest_entry`: the platforms dictionary if there is one, else
      the top level. Anything but a dictionary makes it raise. */
  function Resolve(manifest: Json, platform: Option<string>): Resolved {
    if !manifest.Dict? then Raises
    else if "platforms" !in manifest.fields then EntryIn(manifest.fields)
    else
      var platforms := manifest.fields["platforms"];
      if !platforms.Dict? || platform.None? then NoEntry
      else
        match Field(platforms.fields, platform.value)
        case Null => NoEntry
        case Dict(fields) => EntryIn(fields)
        case _ => Raises
  }

  function EntryIn(fields: map<string, Json>): Resolved {
    Entry(Field(fields, "sha256"), Field(fields, "url"), Field(fields, "min_required_sha256"))
  }

  predicate Valid(e: Resolved) {
    e.Entry? && e.sha.Text? && |e.sha.s| == 64 && e.url.Text? && "http" <= e.url.s
  }

  // ---- What the environment decides ----

  datatype Fetch = FetchFailed | FetchRaised | Fetched(manifest: Json)
  datatype Transfer = Complete | NetworkError | OtherError
  datatype Backup = Copied | NotOpened | CutShort(n: nat)

  datatype Env = Env(
    optOut: bool,
    fetch: Fetch,
    platform: Option<string>,
    canRead: bool,          // the installed solver, if there is one
    mkdirOk: bool,
    mkstempOk: bool,
    tmp: Path,              // the name mkstemp picks
    chunks: seq<Bytes>,     // what arrives before the transfer ends
    transfer: Transfer,
    canReadTemp: bool,
    canUnlink: bool,
    backup: Backup,
    chmodOk: bool,
    replaceOk: bool)

  datatype Outcome = Updated | Unchanged | Refused | Escaped

  function BackupOf(path: Path): Path {
    path + ".pre-autoupdate-bak"
  }

  /** mkstemp picks a name that is not in use, nor one of the other two. */
  predicate TempIsFree(files: Files, path: Path, env: Env) {
    env.tmp !in files && env.tmp != path && env.tmp != BackupOf(path)
  }

  // ---- What should come of it ----

  type Hash = Bytes -> string

  function EntryFor(env: Env): Resolved {
    if env.fetch.Fetched? && !env.fetch.manifest.Null? then Resolve(env.fetch.manifest, env.platform) else NoEntry
  }

  function CurrentSha(sha: Hash, files: Files, path: Path): Option<string> {
    if path in files then Some(sha(files[path])) else None
  }

  /** The manifest names another solver than the installed one. */
  predicate Due(sha: Hash, files: Files, path: Path, env: Env) {
    && !env.optOut
    && Valid(EntryFor(env))
    && (path in files ==> env.canRead)
    && CurrentSha(sha, files, path) != Some(EntryFor(env).sha.s)
  }

  /** Bytes with the manifest's hash have arrived. */
  predicate Delivered(sha: Hash, env: Env)
    requires Valid(EntryFor(env))
  {
    && env.mkdirOk && env.mkstempOk && env.transfer.Complete? && env.canReadTemp
    && sha(Flatten(env.chunks)) == EntryFor(env).sha.s
  }

  /** The download failed in a way the updater handles. */
  predicate NotDelivered(sha: Hash, env: Env)
    requires Valid(EntryFor(env))
  {
    && env.mkdirOk && env.mkstempOk && env.canUnlink
    && (|| env.transfer.NetworkError?
        || (env.transfer.Complete? && env.canReadTemp && sha(Flatten(env.chunks)) != EntryFor(env).sha.s))
  }

  predicate InstallOk(files: Files, path: Path, env: Env) {
    (path in files ==> env.backup.Copied?) && env.chmodOk && env.replaceOk
  }

  /** The manifest has a floor and the installed solver is not it. */
  predicate FloorUnmet(sha: Hash, files: Files, path: Path, env: Env) {
    var e := EntryFor(env);
    e.Entry? && e.floor.Text? && CurrentSha(sha, files, path) != Some(e.floor.s)
  }

  /** An exception the updater does not handle before it looks for an update. */
  predicate EscapesEarly(files: Files, path: Path, env: Env) {
    && !env.optOut
    && (|| env.fetch.FetchRaised?
        || EntryFor(env).Raises?
        || (Valid(EntryFor(env)) && path in files && !env.canRead))
  }

  function Decide(sha: Hash, files: Files, path: Path, env: Env): Outcome {
    if EscapesEarly(files, path, env) then Escaped
    else if !Due(sha, files, path, env) then Unchanged
    else if Delivered(sha, env) then
      if InstallOk(files, path, env) then Updated else if env.canUnlink then Unchanged else Escaped
    else if !NotDelivered(sha, env) then Escaped
    else if FloorUnmet(sha, files, path, env) then Refused
    else Unchanged
  }

  /** The disk with the downloaded solver in place and the old one beside it. */
  function Installed(files: Files, path: Path, bytes: Bytes): Files {
    (if path in files then files[BackupOf(path) := files[path]] else files)[path := bytes]
  }

  /** What a failed attempt to install may leave behind: a backup, or part of one. */
  function HalfInstalled(files: Files, path: Path, env: Env): Files {
    if path !in files || env.backup.NotOpened? then files
    else
      var kept := if env.backup.CutShort? && env.backup.n < |files[path]| then files[path][..env.backup.n]
                  else files[path];
      files[BackupOf(path) := kept]
  }

  /** The disk after a call. */
  function NextFiles(sha: Hash, files: Files, path: Path, env: Env): Files {
    if EscapesEarly(files, path, env) || !Due(sha, files, path, env) then files
    else if Delivered(sha, env) then
      if InstallOk(files, path, env) then Installed(files, path, Flatten(env.chunks))
      else
        var half := HalfInstalled(files, path, env);
        if env.canUnlink then half else half[env.tmp := Flatten(env.chunks)]
    else if NotDelivered(sha, env) || !env.mkdirOk || !env.mkstempOk then files
    else files[env.tmp := Flatten(env.chunks)]
  }

  /** A state the disk may be in at any moment of a call: the solver is the old
      one, or it has the manifest's hash and the old one is in the backup. */
  ghost predicate Sound(sha: Hash, before: Files, now: Files, path: Path, env: Env) {
    || Get(now, path) == Get(before, path)
    || (&& Valid(EntryFor(env)) && path in now && sha(now[path]) == EntryFor(env).sha.s
        && (path in before ==> Get(now, BackupOf(path)) == Get(before, path)))
  }

  // ---- The updater itself ----

  datatype Download = Ready | Failed | Crashed

  /** `copyfileobj`: chunk by chunk. */
  method CopyChunks(fs: FileSystem, tmp: Path, chunks: seq<Bytes>)
    requires tmp in fs.files && fs.files[tmp] == []
    modifies fs
    ensures fs.files == old(fs.files)[tmp := Flatten(chunks)]
    ensures old(fs.trace) <= fs.trace
    ensures forall i :: |old(fs.trace)| <= i < |fs.trace| ==> fs.trace[i] - {tmp} == old(fs.files) - {tmp}
  {
    for k := 0 to |chunks|
      invariant fs.files == old(fs.files)[tmp := Flatten(chunks[..k])]
      invariant old(fs.trace) <= fs.trace
      invariant forall i :: |old(fs.trace)| <= i < |fs.trace| ==> fs.trace[i] - {tmp} == old(fs.files) - {tmp}
    {
      assert chunks[..k + 1][..k] == chunks[..k];
      fs.Append(tmp, chunks[k]);
    }
    assert chunks[..|chunks|] == chunks;
  }

  /** `_download_and_verify`. */
  method DownloadAndVerify(fs: FileSystem, sha: Hash, target: string, env: Env) returns (r: Download)
    requires env.tmp !in fs.files && Valid(EntryFor(env)) && target == EntryFor(env).sha.s
    modifies fs
    ensures r.Ready? <==> Delivered(sha, env)
    ensures r.Failed? <==> NotDelivered(sha, env)
    ensures r.Ready? ==> fs.files == old(fs.files)[env.tmp := Flatten(env.chunks)]
    ensures r.Failed? ==> fs.files == old(fs.files)
    ensures r.Crashed? ==>
      fs.files == if env.mkdirOk && env.mkstempOk then old(fs.files)[env.tmp := Flatten(env.chunks)] else old(fs.files)
    ensures old(fs.trace) <= fs.trace
    ensures forall i :: |old(fs.trace)| <= i < |fs.trace| ==> fs.trace[i] - {env.tmp} == old(fs.files)
  {
    if !env.mkdirOk || !env.mkstempOk {
      return Crashed;
    }
    var tmp := env.tmp;
    fs.Write(tmp, []);
    CopyChunks(fs, tmp, env.chunks);
    if env.transfer.OtherError? {
      return Crashed;
    }
    if env.transfer.Complete? {
      if !env.canReadTemp {
        return Crashed;
      }
      if sha(fs.files[tmp]) == target {
        return Ready;
      }
    }
    if !env.canUnlink {
      return Crashed;
    }
    fs.Unlink(tmp);
    return Failed;
  }

  /** `copy2`: every prefix of the copy is on disk at some moment. */
  method CopyFile(fs: FileSystem, dest: Path, bytes: Bytes)
    modifies fs
    ensures fs.files == old(fs.files)[dest := bytes]
    ensures old(fs.trace) <= fs.trace
    ensures forall i :: |old(fs.trace)| <= i < |fs.trace| ==> fs.trace[i] - {dest} == old(fs.files) - {dest}
  {
    fs.Write(dest, []);
    for k := 0 to |bytes|
      invariant fs.files == old(fs.files)[dest := bytes[..k]]
      invariant old(fs.trace) <= fs.trace
      invariant forall i :: |old(fs.trace)| <= i < |fs.trace| ==> fs.trace[i] - {dest} == old(fs.files) - {dest}
    {
      fs.Append(dest, [bytes[k]]);
      assert bytes[..k] + [bytes[k]] == bytes[..k + 1];
    }
    assert bytes[..|bytes|] == bytes;
  }

  /** `_install_atomic`; false stands for an OSError. */
  method InstallAtomic(fs: FileSystem, path: Path, env: Env) returns (ok: bool)
    requires env.tmp in fs.files && env.tmp != path && env.tmp != BackupOf(path)
    modifies fs
    ensures ok == InstallOk(old(fs.files), path, env)
    ensures ok ==> fs.files == Installed(old(fs.files) - {env.tmp}, path, old(fs.files)[env.tmp])
    ensures !ok ==> fs.files == HalfInstalled(old(fs.files), path, env)
    ensures old(fs.trace) <= fs.trace
    ensures forall i :: |old(fs.trace)| <= i < |fs.trace| ==>
              || fs.trace[i] - {BackupOf(path)} == old(fs.files) - {BackupOf(path)}
              || fs.trace[i] == Installed(old(fs.files) - {env.tmp}, path, old(fs.files)[env.tmp])
  {
    if path in fs.files {
      match env.backup
      case NotOpened => return false;
      case CutShort(n) =>
        CopyFile(fs, BackupOf(path), if n < |fs.files[path]| then fs.files[path][..n] else fs.files[path]);
        return false;
      case Copied =>
        CopyFile(fs, BackupOf(path), fs.files[path]);
    }
    if !env.chmodOk || !env.replaceOk {
      return false;
    }
    fs.Replace(env.tmp, path);
    ok := true;
  }

  /** The second half of `maybe_update_solver`: an update is due. */
  method UpdateNow(fs: FileSystem, sha: Hash, path: Path, env: Env, current: Option<string>) returns (out: Outcome)
    requires TempIsFree(fs.files, path, env) && Due(sha, fs.files, path, env)
    requires current == CurrentSha(sha, fs.files, path)
    modifies fs
    ensures out == Decide(sha, old(fs.files), path, env)
    ensures fs.files == NextFiles(sha, old(fs.files), path, env)
    ensures old(fs.trace) <= fs.trace
    ensures forall i :: |old(fs.trace)| <= i < |fs.trace| ==> Sound(sha, old(fs.files), fs.trace[i], path, env)
  {
    var entry := Resolve(env.fetch.manifest, env.platform);
    var target := entry.sha.s;
    ghost var before, start := fs.files, |fs.trace|;
    var got := DownloadAndVerify(fs, sha, target, env);
    forall i | start <= i < |fs.trace| ensures Sound(sha, before, fs.trace[i], path, env) {
      MinusKeeps(before, fs.trace[i], env.tmp, path);
    }
    match got
    case Crashed => return Escaped;
    case Failed =>
      return if entry.floor.Text? && current != Some(entry.floor.s) then Refused else Unchanged;
    case Ready =>
      ghost var ready, mid := fs.files, |fs.trace|;
      var ok := InstallAtomic(fs, path, env);
      assert ready - {env.tmp} == before;
      forall i | mid <= i < |fs.trace| ensures Sound(sha, before, fs.trace[i], path, env) {
        InstallIsSound(sha, before, ready, fs.trace[i], path, env);
      }
      if ok {
        return Updated;
      }
      if !env.canUnlink {
        return Escaped;
      }
      fs.Unlink(env.tmp);
      out := Unchanged;
  }

  /** `maybe_update_solver` on an expanded path. */
  method MaybeUpdateSolver(fs: FileSystem, sha: Hash, path: Path, env: Env) returns (out: Outcome)
    requires TempIsFree(fs.files, path, env)
    modifies fs
    ensures out == Decide(sha, old(fs.files), path, env)
    ensures out.Updated? <==> Get(fs.files, path) != Get(old(fs.files), path)
    ensures out.Refused? <==> Due(sha, old(fs.files), path, env) && NotDelivered(sha, env)
                              && FloorUnmet(sha, old(fs.files), path, env)
    ensures !out.Escaped? ==> env.tmp !in fs.files
    ensures fs.files == NextFiles(sha, old(fs.files), path, env)
    ensures old(fs.trace) <= fs.trace
    ensures forall i :: |old(fs.trace)| <= i < |fs.trace| ==> Sound(sha, old(fs.files), fs.trace[i], path, env)
  {
    if env.optOut {
      return Unchanged;
    }
    if env.fetch.FetchRaised? {
      return Escaped;
    }
    if env.fetch.FetchFailed? || env.fetch.manifest.Null? {
      return Unchanged;
    }
    var entry := Resolve(env.fetch.manifest, env.platform);
    if entry.Raises? {
      return Escaped;
    }
    if !Valid(entry) {
      return Unchanged;
    }
    var target := entry.sha.s;
    if path in fs.files && !env.canRead {
      return Escaped;
    }
    var current := CurrentSha(sha, fs.files, path);
    if current == Some(target) {
      return Unchanged;
    }
    out := UpdateNow(fs, sha, path, env, current);
  }

  lemma MinusKeeps(before: Files, now: Files, tmp: Path, path: Path)
    requires now - {tmp} == before && tmp != path
    ensures Get(now, path) == Get(before, path)
  {
    assert path in before <==> path in now - {tmp};
  }

  lemma InstallIsSound(sha: Hash, before: Files, ready: Files, now: Files, path: Path, env: Env)
    requires Valid(EntryFor(env)) && Delivered(sha, env) && TempIsFree(before, path, env)
    requires ready == before[env.tmp := Flatten(env.chunks)]
    requires || now - {BackupOf(path)} == ready - {BackupOf(path)}
             || now == Installed(before, path, Flatten(env.chunks))
    ensures Sound(sha, before, now, path, env)
  {
    assert path != BackupOf(path);
    if now - {BackupOf(path)} == ready - {BackupOf(path)} {
      assert path in now <==> path in now - {BackupOf(path)};
      assert path in ready <==> path in ready - {BackupOf(path)};
    }
  }
}
