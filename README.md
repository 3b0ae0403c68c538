# runc: cgroup manager selection, rootless adaptation and PID collection

A Dafny model of the decision core of runc, the OCI container runtime:

- **SpecConv** (`specconv.dfy`): the baseline runtime specification `Example` and the
  in-place rootless rewrite `ToRootless`. A specification is a `Spec` object whose Linux
  block is a `LinuxBlock` object, as `*specs.Spec` holds a `*specs.Linux`. `ToRootless`
  is a method with the source's three loops. It is proved against functions on sequences
  (`RootlessNamespaces`, `RootlessMounts`, `StrippedOptions`), and the lemmas state what the
  rewrite guarantees: network and user namespaces dropped, one user namespace appended last,
  order kept, the /sys mount replaced, `uid=`/`gid=` options stripped, and idempotence.
- **CgroupManager** (`manager.dfy`): `NewWithPaths`/`New` pick one of four backends
  (cgroup v1 or v2, direct filesystem or systemd) or an error. `GetUnifiedPath` validates
  the single cgroup v2 path.
- **Rootless** (`rootless.dfy`): whether to use the rootless cgroup manager, and whether
  to honour `$XDG_RUNTIME_DIR`.
- **CliUtils** (`utils.dfy`): the tri-state `--rootless` parser (with Go's
  `strconv.ParseBool`) and the argument-count check of `checkArgs`.
- **CgroupPids** (`getallpids.dfy`): `GetAllPids` as a recursive `WalkDir` method with an
  accumulator and a loop over each directory's children, over a directory tree value. It is
  proved against the recursive function `Collect`. `Collect` is in turn shown equal to a
  flat callback loop (`Gather`) run over the preorder stream of visits (`Trace`).
- **FilePath** (`filepath.dfy`): Go's `filepath.IsAbs` and `filepath.Clean` for rooted
  paths. It proves that `Clean(p) == p && IsAbs(p)` holds exactly of the paths in clean
  absolute form (`IsCleanAbsolute`).
- **Wrappers** (`wrappers.dfy`): `Option` and `Result`.

Every ambient query of the source is a parameter:
- the effective UID and GID;
- user-namespace membership;
- the systemd owner-UID probe;
- the `USER` variable;
- cgroup v2 unified mode;
- whether systemd is running;
- each directory's procs-file read and listing.

`GetAllPids` returns the PIDs gathered before a failure together with the error
(`return pids, err`). It does not return an empty result on error.

## Model

| member | source | states |
|---|---|---|
| SpecConv.Example | libcontainer/specconv/example.go:14-171 | the baseline: read-only "rootfs" root, hostname "runc", the seven standard mounts, masked and read-only paths, deny-all device rule, no ID mappings, namespaces as `ExampleNamespaces(unified)` |
| SpecConv.ExampleNamespaces | libcontainer/specconv/example.go:146-169 | pid, network, ipc, uts, mount in that order, plus a cgroup namespace as sixth entry exactly when the host is in unified mode |
| SpecConv.ExampleProcess | libcontainer/specconv/example.go:23-70 | terminal `sh` in `/` as UID/GID 0; bounding, permitted, ambient and effective capability sets identical (audit-write, kill, net-bind-service), inheritable empty; one RLIMIT_NOFILE with soft = hard = 1024 |
| SpecConv.ToRootless | libcontainer/specconv/example.go:176-235 | namespaces become `RootlessNamespaces` of the old ones; UID and GID mappings become one entry {container 0, host euid/egid as uint32, size 1}; mounts become `RootlessMounts` of the old ones; resources become nil; nothing else is written |
| SpecConv.StripOwnerOptions | libcontainer/specconv/example.go:220-229 | the option loop returns `StrippedOptions` of its input |
| SpecConv.KeptNamespacesAppend | libcontainer/specconv/example.go:180-187 | the namespace filter distributes over concatenation, so kept entries keep their relative order |
| SpecConv.KeptNamespacesMembers | libcontainer/specconv/example.go:180-187 | an entry is kept iff it was in the input and is neither network nor user |
| SpecConv.RootlessNamespacesShape | libcontainer/specconv/example.go:177-192 | after the rewrite no entry is a network namespace, the last entry is the user namespace, and no other entry is a user namespace |
| SpecConv.RootlessNamespacesIdempotent | libcontainer/specconv/example.go:177-192 | rewriting the namespace list twice gives the same list as once |
| SpecConv.StrippedOptionsAppend | libcontainer/specconv/example.go:221-226 | option stripping distributes over concatenation, so kept options keep their order |
| SpecConv.StrippedOptionsMembers | libcontainer/specconv/example.go:221-226 | an option is kept iff it was given and starts with neither "gid=" nor "uid=" |
| SpecConv.StrippedOptionsIdempotent | libcontainer/specconv/example.go:221-226 | stripping twice equals stripping once |
| SpecConv.RootlessMountsAt | libcontainer/specconv/example.go:207-231 | same length as the input; a mount whose destination cleans to /sys becomes the fixed rbind mount {source /sys, destination /sys, type none, options rbind nosuid noexec nodev ro}; any other keeps destination, type and source and gets its options stripped |
| SpecConv.RootlessMountIdempotent | libcontainer/specconv/example.go:208-229 | rewriting one mount twice equals rewriting it once |
| SpecConv.RootlessMountsIdempotent | libcontainer/specconv/example.go:207-231 | rewriting the mount list twice equals rewriting it once |
| SpecConv.ToRootlessIdempotent | libcontainer/specconv/example.go:176-235 | the namespace rewrite and the mount rewrite that `ToRootless` performs are both idempotent |
| SpecConv.ToRootlessTwice | libcontainer/specconv/example.go:176-235 | calling `ToRootless` twice with the same IDs leaves every written field as one call leaves it |
| SpecConv.SysIsSysDestination | libcontainer/specconv/example.go:210-216 | the replacement mount's own destination "/sys" is recognised as /sys again |
| SpecConv.TrailingSlashSysIsSys | libcontainer/specconv/example.go:210 | "/sys/" also cleans to /sys, so it is replaced |
| SpecConv.ExampleRootlessNamespaces | libcontainer/specconv/example.go:177-192 | the baseline after the rewrite requests pid, ipc, uts, mount, (cgroup when unified), user |
| FilePath.CleanAbsoluteIff | libcontainer/cgroups/manager/new.go:81 | `Clean(p) == p && IsAbs(p)` holds iff p is "/" or "/" followed by names joined by single slashes, with no trailing slash and no "." or ".." segment |
| CgroupManager.GetUnifiedPath | libcontainer/cgroups/manager/new.go:74-87 | fails iff the map has more than one entry (error carrying the map) or `paths[""]` is non-empty and not in clean absolute form (error carrying that path); on success returns `paths[""]` exactly, and "" when the key is absent (also for a one-entry map under another key) |
| CgroupManager.NewWithPaths | libcontainer/cgroups/manager/new.go:30-65 | nil config fails first; systemd requested but not running fails for every mode and map; in v2 mode a path error is wrapped; success iff none of these; the backend is fixed by (unified, systemd); v1 backends get the map unchanged, v2 backends the validated `paths[""]` |
| CgroupManager.New | libcontainer/cgroups/manager/new.go:18-20 | equals `NewWithPaths` with the empty map: succeeds iff config present and systemd usable, and hands v2 backends "" and v1 backends the empty map |
| Rootless.ShouldUseRootlessCgroupManager | rootless_linux.go:12-55 | a malformed `--rootless` value is the error; explicit true/false is returned verbatim; in auto mode euid != 0 gives true, real root gives false, root in a user namespace gives `ownerUID != 0` with systemd (a failed probe counts as 0) and true without |
| Rootless.RootlessManagerWhen | rootless_linux.go:15-54 | the rootless manager is chosen iff the flag spells true, or it is auto and (euid != 0 or (in a user namespace and (no systemd or owner UID non-zero))) |
| Rootless.ShouldHonorXdgRuntimeDir | rootless_linux.go:57-71 | euid != 0 gives true; real root gives false; root in a user namespace gives true iff `USER` is unset or not "root" |
| CliUtils.ParseBool | utils.go:136 | true for "1", "t", "T", "TRUE", "true", "True"; false for "0", "f", "F", "FALSE", "false", "False"; a syntax error naming the input otherwise |
| CliUtils.ParseBoolOrAuto | utils.go:130-138 | "no value" iff s is "" or "auto" in any letter case; otherwise the `ParseBool` outcome, with the error for every other string |
| CliUtils.LowerIsAuto | utils.go:132 | the ASCII lowering `AsciiLower(s)` equals "auto" iff s is a four-letter mixed-case spelling of "auto" |
| CliUtils.CheckArgs | utils.go:23-47 | exactArgs errors iff NArg != expected, minArgs iff NArg < expected, maxArgs iff NArg > expected, any other check type never; the error names program, command, the violated bound and the expected count |
| CgroupPids.WalkDir | libcontainer/cgroups/getallpids.go:13-27 | the walk of one entry appends `Collect(e).pids` to the accumulator and returns `Collect(e).err` |
| CgroupPids.GetAllPids | libcontainer/cgroups/getallpids.go:10-29 | a failed stat of the root is returned with no PIDs; otherwise the result is `Collect` of the root |
| CgroupPids.CollectIsGather | libcontainer/cgroups/getallpids.go:13-27 | the recursive walk equals the callback loop run over the preorder stream of procs reads and listing failures |
| CgroupPids.GatherOutcome | libcontainer/cgroups/getallpids.go:14-28 | the callback loop reports no error iff no visit fails, and then returns every PID in order, as many as all lists hold; otherwise it returns the first failure and the PIDs read before it |
| CgroupPids.WalkOutcome | libcontainer/cgroups/getallpids.go:13-28 | for a tree: with no error, the PIDs are the concatenation of each directory's list in preorder, their number the sum of the list sizes; with one, the error is the first failure in walk order and the PIDs are those read before it |
| CgroupPids.RootPidsFirst | libcontainer/cgroups/getallpids.go:21-25 | the root directory's own PIDs are a prefix of the result |
| CgroupPids.FilesContributeNothing | libcontainer/cgroups/getallpids.go:17-20 | walking a listing gives the same result as walking only its directories |
| CgroupPids.SmallTreeExample | libcontainer/cgroups/getallpids.go:10-29 | root [1, 2] with children a [3] and b [] yields [1, 2, 3] and no error |

## Left out

- `fatal`, `fatalWithCode`, `logrusToStderr`: logging and process exit.
- `setupSpec`, `revisePidFile`, `reviseRootDir`: they depend on the working directory and on config loading.
- The help printing in `checkArgs`, and the exact text of every error message. Errors are datatypes carrying the values the messages show.
- The concrete backends `fs.NewManager`, `fs2.NewManager`, `systemd.NewLegacyManager` and `systemd.NewUnifiedManager` are not part of this model. A successful selection returns a tag with the config and paths the backend would get.
- CgroupManager.NewWithPaths: the model cannot report an error raised by a backend constructor itself, because those constructors are not part of this model.
- Rootless.ShouldUseRootlessCgroupManager: the nil-CLI-context path (rootless_linux.go:13) is not modelled. With a nil context, an auto decision for root in a user namespace dereferences the context for `--systemd-cgroup`.
- `filepath.Clean` is modelled only for rooted paths. The cleaned form of a relative path is never rooted, so it can equal neither "/sys" nor a path that must also pass `IsAbs`.
- `strings.ToLower` is modelled by `AsciiLower`, which lowers ASCII capitals only. No other character lowers to a letter of "auto", so the one comparison made is decided as in Go.
- SpecConv.Example: `specs.Version` belongs to the runtime-spec library and is taken as a parameter. `Process`, `User` and `Resources` hold only the fields the baseline sets. Rlimit values are `nat` rather than `uint64`.
- SpecConv.ToRootless: the Linux block is always present. The source dereferences `spec.Linux` without a nil check.
- CgroupPids: the directory tree is an immutable value. Concurrent creation or removal of sub-cgroups during the walk is not modelled. Children are walked in the order given; the model does not re-check that `os.ReadDir` sorted them by name. Entry names are not turned into joined paths.
