/**
 * Cgroup manager selection (libcontainer/cgroups/manager/new.go). The four concrete
 * backends are not part of this model: a successful selection returns a tag naming
 * the backend together with the configuration and paths it would be built from.
 */
module CgroupManager {
  import opened Wrappers
  import opened FilePath

  /** The part of `configs.Cgroup` the selection reads: whether systemd drives the cgroup.
      The remaining fields are handed to the backend untouched. */
  datatype CgroupConfig = CgroupConfig(systemd: bool, name: string, parent: string, path: string)

  /** The host facts the selection queries: `cgroups.IsCgroup2UnifiedMode()` and
      `systemd.IsRunningSystemd()`. */
  datatype Host = Host(unified: bool, systemdRunning: bool)

  /** The backend chosen, with what it receives. */
  datatype Manager =
    | FsLegacy(config: CgroupConfig, paths: map<string, string>)        // fs.NewManager
    | SystemdLegacy(config: CgroupConfig, paths: map<string, string>)   // systemd.NewLegacyManager
    | FsUnified(config: CgroupConfig, path: string)                     // fs2.NewManager
    | SystemdUnified(config: CgroupConfig, path: string)                // systemd.NewUnifiedManager

  datatype PathError = MultiplePaths(paths: map<string, string>) | InvalidPath(path: string)

  datatype ManagerError = NilConfig | SystemdNotRunning | InconsistentPaths(cause: PathError)

  /** `paths[""]`, which is "" when the key is absent. */
  function UnifiedEntry(paths: map<string, string>): string {
    if "" in paths then paths[""] else ""
  }

  /** `getUnifiedPath`: the single unified-hierarchy path of a v2 path map. */
  function GetUnifiedPath(paths: map<string, string>): (r: Result<string, PathError>)
    ensures r.Failure? <==>
              |paths| > 1 || (UnifiedEntry(paths) != "" && !IsCleanAbsolute(UnifiedEntry(paths)))
    ensures r.Success? ==> r.value == UnifiedEntry(paths)
    ensures |paths| > 1 ==> r == Failure(MultiplePaths(paths))
    ensures r.Failure? && |paths| <= 1 ==> r.error == InvalidPath(UnifiedEntry(paths))
    ensures |paths| <= 1 && "" !in paths ==> r == Success("")
  {
    if |paths| > 1 then Failure(MultiplePaths(paths))
    else
      var path := UnifiedEntry(paths);
      // Go tests `Clean(path) != path || !IsAbs(path)`; for a relative path the
      // second disjunct already holds, so Clean is needed for rooted paths only.
      if path != "" && (!IsAbs(path) || CleanRooted(path) != path) then
        CleanAbsoluteIff(path);
        Failure(InvalidPath(path))
      else
        CleanAbsoluteIff(path);
        Success(path)
  }

  /** `NewWithPaths`: `config` is `None` for a nil pointer; a nil `paths` map is the empty map. */
  function NewWithPaths(config: Option<CgroupConfig>, paths: map<string, string>, host: Host): (r: Result<Manager, ManagerError>)
    // a nil config fails before anything else is looked at
    ensures config.None? ==> r == Failure(NilConfig)
    // systemd requested but not running fails whatever the mode and the paths
    ensures config.Some? && config.value.systemd && !host.systemdRunning ==> r == Failure(SystemdNotRunning)
    ensures config.Some? && (config.value.systemd ==> host.systemdRunning) && host.unified && GetUnifiedPath(paths).Failure? ==>
              r == Failure(InconsistentPaths(GetUnifiedPath(paths).error))
    ensures r.Success? <==>
              config.Some? && (config.value.systemd ==> host.systemdRunning) &&
              (host.unified ==> GetUnifiedPath(paths).Success?)
    // on success the backend is fixed by the mode and the systemd flag
    ensures r.Success? ==> r.value.config == config.value
    ensures r.Success? ==> (r.value.SystemdUnified? <==> host.unified && config.value.systemd)
    ensures r.Success? ==> (r.value.FsUnified? <==> host.unified && !config.value.systemd)
    ensures r.Success? ==> (r.value.SystemdLegacy? <==> !host.unified && config.value.systemd)
    ensures r.Success? ==> (r.value.FsLegacy? <==> !host.unified && !config.value.systemd)
    // v1 backends get the map unchanged, v2 backends the validated single path
    ensures r.Success? && !host.unified ==> r.value.paths == paths
    ensures r.Success? && host.unified ==> r.value.path == UnifiedEntry(paths) && IsCleanOrEmpty(r.value.path)
  {
    match config
    case None => Failure(NilConfig)
    case Some(c) =>
      if c.systemd && !host.systemdRunning then Failure(SystemdNotRunning)
      else if host.unified then
        match GetUnifiedPath(paths)
        case Failure(e) => Failure(InconsistentPaths(e))
        case Success(path) => if c.systemd then Success(SystemdUnified(c, path)) else Success(FsUnified(c, path))
      else if c.systemd then Success(SystemdLegacy(c, paths))
      else Success(FsLegacy(c, paths))
  }

  /** What a v2 backend may be handed: no path yet, or an absolute path in clean form. */
  predicate IsCleanOrEmpty(path: string) {
    path == "" || IsCleanAbsolute(path)
  }

  /** `New`: selection without known paths (Go passes a nil map). */
  function New(config: Option<CgroupConfig>, host: Host): (r: Result<Manager, ManagerError>)
    ensures r == NewWithPaths(config, map[], host)
    ensures r.Success? <==> config.Some? && (config.value.systemd ==> host.systemdRunning)
    ensures r.Success? && host.unified ==> (r.value.FsUnified? || r.value.SystemdUnified?) && r.value.path == ""
    ensures r.Success? && !host.unified ==> (r.value.FsLegacy? || r.value.SystemdLegacy?) && r.value.paths == map[]
  {
    NewWithPaths(config, map[], host)
  }
}
