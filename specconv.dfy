/**
 * The baseline runtime specification (`Example`) and the rootless rewrite
 * (`ToRootless`) of libcontainer/specconv/example.go. A specification is an object
 * whose Linux block is a second object, as `*specs.Spec` holds a `*specs.Linux`;
 * `ToRootless` overwrites their fields in place.
 */
module SpecConv {
  import opened Wrappers
  import opened FilePath

  /** Go's `uint32`. */
  type Uint32 = x: int | 0 <= x < 0x1_0000_0000

  /** The conversion `uint32(x)` of a Go `int`: the value modulo 2^32. */
  function ToUint32(x: int): Uint32 {
    x % 0x1_0000_0000
  }

  /** Namespace kinds are the strings of the runtime specification. */
  const PidNamespace: string := "pid"
  const NetworkNamespace: string := "network"
  const MountNamespace: string := "mount"
  const IpcNamespace: string := "ipc"
  const UtsNamespace: string := "uts"
  const UserNamespace: string := "user"
  const CgroupNamespace: string := "cgroup"

  datatype Namespace = Namespace(kind: string, path: string)

  datatype Mount = Mount(destination: string, kind: string, source: string, options: seq<string>)

  datatype IdMapping = IdMapping(containerId: Uint32, hostId: Uint32, size: Uint32)

  datatype DeviceRule = DeviceRule(allow: bool, access: string)

  /** `specs.LinuxResources`; only the device rules the baseline sets are modelled. */
  datatype Resources = Resources(devices: seq<DeviceRule>)

  datatype Root = Root(path: string, readonly: bool)

  datatype User = User(uid: Uint32, gid: Uint32)

  datatype Capabilities = Capabilities(bounding: seq<string>, effective: seq<string>, inheritable: seq<string>,
                                       permitted: seq<string>, ambient: seq<string>)

  datatype Rlimit = Rlimit(kind: string, hard: nat, soft: nat)

  datatype Process = Process(terminal: bool, user: User, args: seq<string>, env: seq<string>, cwd: string,
                             noNewPrivileges: bool, capabilities: Option<Capabilities>, rlimits: seq<Rlimit>)

  /** `specs.Linux`, the part of the specification that is Linux-specific. */
  class LinuxBlock {
    var namespaces: seq<Namespace>
    var uidMappings: seq<IdMapping>
    var gidMappings: seq<IdMapping>
    var maskedPaths: seq<string>
    var readonlyPaths: seq<string>
    var resources: Option<Resources>

    constructor (namespaces: seq<Namespace>, maskedPaths: seq<string>, readonlyPaths: seq<string>,
                 resources: Option<Resources>)
      ensures this.namespaces == namespaces && this.uidMappings == [] && this.gidMappings == []
      ensures this.maskedPaths == maskedPaths && this.readonlyPaths == readonlyPaths
      ensures this.resources == resources
    {
      this.namespaces := namespaces;
      this.uidMappings := [];
      this.gidMappings := [];
      this.maskedPaths := maskedPaths;
      this.readonlyPaths := readonlyPaths;
      this.resources := resources;
    }
  }

  /** `specs.Spec`. The Linux block is never nil here: `ToRootless` dereferences it
      without a check. */
  class Spec {
    var version: string
    var root: Option<Root>
    var process: Option<Process>
    var hostname: string
    var mounts: seq<Mount>
    var linux: LinuxBlock

    constructor (version: string, root: Option<Root>, process: Option<Process>, hostname: string,
                 mounts: seq<Mount>, linux: LinuxBlock)
      ensures this.version == version && this.root == root && this.process == process
      ensures this.hostname == hostname && this.mounts == mounts && this.linux == linux
    {
      this.version := version;
      this.root := root;
      this.process := process;
      this.hostname := hostname;
      this.mounts := mounts;
      this.linux := linux;
    }
  }

  // ---------------------------------------------------------------- Example

  /** The capability set of the baseline process. */
  const BaseCapabilities: seq<string> := ["CAP_AUDIT_WRITE", "CAP_KILL", "CAP_NET_BIND_SERVICE"]

  /** The namespaces every baseline specification requests. */
  const BaseNamespaces: seq<Namespace> := [
    Namespace(PidNamespace, ""), Namespace(NetworkNamespace, ""), Namespace(IpcNamespace, ""),
    Namespace(UtsNamespace, ""), Namespace(MountNamespace, "")
  ]

  /** The namespace list of `Example`: a cgroup namespace is added on a unified (v2) host. */
  function ExampleNamespaces(unified: bool): (ns: seq<Namespace>)
    ensures |ns| == if unified then 6 else 5
    ensures ns[..5] == BaseNamespaces
    ensures unified ==> ns[5] == Namespace(CgroupNamespace, "")
    ensures (exists i | 0 <= i < |ns| :: ns[i].kind == CgroupNamespace) <==> unified
  {
    if unified then BaseNamespaces + [Namespace(CgroupNamespace, "")] else BaseNamespaces
  }

  /** The terminal shell process of `Example`. */
  function ExampleProcess(): (p: Process)
    ensures p.capabilities.Some?
    ensures var c := p.capabilities.value;
            c.bounding == c.permitted == c.ambient == c.effective == BaseCapabilities && c.inheritable == []
    ensures |p.rlimits| == 1 && p.rlimits[0].kind == "RLIMIT_NOFILE"
    ensures p.rlimits[0].soft == p.rlimits[0].hard == 1024
    ensures p.terminal && p.args == ["sh"] && p.cwd == "/" && p.user == User(0, 0)
  {
    Process(
      true, User(0, 0), ["sh"],
      ["PATH=/usr/local/sbin:/usr/local/bin:/usr/sbin:/usr/bin:/sbin:/bin", "TERM=xterm"],
      "/", true,
      Some(Capabilities(BaseCapabilities, BaseCapabilities, [], BaseCapabilities, BaseCapabilities)),
      [Rlimit("RLIMIT_NOFILE", 1024, 1024)])
  }

  /** The standard mount set of `Example`. */
  const ExampleMounts: seq<Mount> := [
    Mount("/proc", "proc", "proc", []),
    Mount("/dev", "tmpfs", "tmpfs", ["nosuid", "strictatime", "mode=755", "size=65536k"]),
    Mount("/dev/pts", "devpts", "devpts", ["nosuid", "noexec", "newinstance", "ptmxmode=0666", "mode=0620", "gid=5"]),
    Mount("/dev/shm", "tmpfs", "shm", ["nosuid", "noexec", "nodev", "mode=1777", "size=65536k"]),
    Mount("/dev/mqueue", "mqueue", "mqueue", ["nosuid", "noexec", "nodev"]),
    Mount("/sys", "sysfs", "sysfs", ["nosuid", "noexec", "nodev", "ro"]),
    Mount("/sys/fs/cgroup", "cgroup", "cgroup", ["nosuid", "noexec", "nodev", "relatime", "ro"])
  ]

  const ExampleMaskedPaths: seq<string> := [
    "/proc/acpi", "/proc/asound", "/proc/kcore", "/proc/keys", "/proc/latency_stats",
    "/proc/timer_list", "/proc/timer_stats", "/proc/sched_debug", "/sys/firmware", "/proc/scsi"
  ]

  const ExampleReadonlyPaths: seq<string> := ["/proc/bus", "/proc/fs", "/proc/irq", "/proc/sys", "/proc/sysrq-trigger"]

  /** The device policy of `Example`: deny every device access. */
  const ExampleResources: Resources := Resources([DeviceRule(false, "rwm")])

  /** `Example`. `unified` is `cgroups.IsCgroup2UnifiedMode()`; `version` is the runtime
      specification library's `specs.Version`. */
  method Example(unified: bool, version: string) returns (spec: Spec)
    ensures fresh(spec) && fresh(spec.linux)
    ensures spec.version == version && spec.hostname == "runc"
    ensures spec.root == Some(Root("rootfs", true))
    ensures spec.process == Some(ExampleProcess())
    ensures spec.mounts == ExampleMounts
    ensures spec.linux.namespaces == ExampleNamespaces(unified)
    ensures spec.linux.uidMappings == [] && spec.linux.gidMappings == []
    ensures spec.linux.maskedPaths == ExampleMaskedPaths && spec.linux.readonlyPaths == ExampleReadonlyPaths
    ensures spec.linux.resources == Some(ExampleResources)
  {
    var linux := new LinuxBlock(BaseNamespaces, ExampleMaskedPaths, ExampleReadonlyPaths, Some(ExampleResources));
    spec := new Spec(version, Some(Root("rootfs", true)), Some(ExampleProcess()), "runc", ExampleMounts, linux);
    if unified {
      spec.linux.namespaces := spec.linux.namespaces + [Namespace(CgroupNamespace, "")];
    }
  }

  // ---------------------------------------------------------------- ToRootless

  /** Namespace kinds a rootless container must not inherit from the input. */
  predicate IsDroppedNamespace(ns: Namespace) {
    ns.kind == NetworkNamespace || ns.kind == UserNamespace
  }

  /** The input namespaces minus network and user ones, in their order. */
  function KeptNamespaces(ns: seq<Namespace>): seq<Namespace> {
    if ns == [] then []
    else KeptNamespaces(ns[..|ns| - 1]) + (if IsDroppedNamespace(ns[|ns| - 1]) then [] else [ns[|ns| - 1]])
  }

  /** The namespace list after `ToRootless`. */
  function RootlessNamespaces(ns: seq<Namespace>): seq<Namespace> {
    KeptNamespaces(ns) + [Namespace(UserNamespace, "")]
  }

  /** The single mapping of the caller's effective ID to container ID 0. */
  function SingleMapping(id: int): IdMapping {
    IdMapping(0, ToUint32(id), 1)
  }

  predicate HasPrefix(s: string, prefix: string) {
    |prefix| <= |s| && s[..|prefix|] == prefix
  }

  /** A mount option that sets file ownership. */
  predicate IsOwnerOption(option: string) {
    HasPrefix(option, "gid=") || HasPrefix(option, "uid=")
  }

  /** The options minus the ownership ones, in their order. */
  function StrippedOptions(options: seq<string>): seq<string> {
    if options == [] then []
    else StrippedOptions(options[..|options| - 1]) +
         (if IsOwnerOption(options[|options| - 1]) then [] else [options[|options| - 1]])
  }

  /** `filepath.Clean(destination) == "/sys"`. */
  predicate IsSysDestination(destination: string) {
    IsAbs(destination) && CleanRooted(destination) == "/sys"
  }

  /** The recursive bind of the host's /sys that replaces a sysfs mount. */
  const SysBindMount: Mount := Mount("/sys", "none", "/sys", ["rbind", "nosuid", "noexec", "nodev", "ro"])

  function RootlessMount(m: Mount): Mount {
    if IsSysDestination(m.destination) then SysBindMount else m.(options := StrippedOptions(m.options))
  }

  /** The mount list after `ToRootless`. */
  function RootlessMounts(ms: seq<Mount>): seq<Mount> {
    if ms == [] then [] else RootlessMounts(ms[..|ms| - 1]) + [RootlessMount(ms[|ms| - 1])]
  }

  /** The option loop of `ToRootless`. */
  method StripOwnerOptions(options: seq<string>) returns (kept: seq<string>)
    ensures kept == StrippedOptions(options)
  {
    kept := [];
    var i := 0;
    while i < |options|
      invariant 0 <= i <= |options|
      invariant kept == StrippedOptions(options[..i])
    {
      assert options[..i + 1][..i] == options[..i];
      if !IsOwnerOption(options[i]) {
        kept := kept + [options[i]];
      }
      i := i + 1;
    }
    assert options[..i] == options;
  }

  /** `ToRootless`: `euid` and `egid` are `os.Geteuid()` and `os.Getegid()`. */
  method ToRootless(spec: Spec, euid: int, egid: int)
    modifies spec`mounts, spec.linux`namespaces, spec.linux`uidMappings, spec.linux`gidMappings,
             spec.linux`resources
    ensures spec.linux.namespaces == RootlessNamespaces(old(spec.linux.namespaces))
    ensures spec.linux.uidMappings == [SingleMapping(euid)]
    ensures spec.linux.gidMappings == [SingleMapping(egid)]
    ensures spec.mounts == RootlessMounts(old(spec.mounts))
    ensures spec.linux.resources == None
  {
    var linux := spec.linux;
    var input := linux.namespaces;
    var namespaces: seq<Namespace> := [];
    var i := 0;
    while i < |input|
      invariant 0 <= i <= |input|
      invariant namespaces == KeptNamespaces(input[..i])
      modifies {}
    {
      assert input[..i + 1][..i] == input[..i];
      if !IsDroppedNamespace(input[i]) {
        namespaces := namespaces + [input[i]];
      }
      i := i + 1;
    }
    assert input[..i] == input;
    namespaces := namespaces + [Namespace(UserNamespace, "")];
    linux.namespaces := namespaces;

    linux.uidMappings := [IdMapping(0, ToUint32(euid), 1)];
    linux.gidMappings := [IdMapping(0, ToUint32(egid), 1)];

    var oldMounts := spec.mounts;
    var mounts: seq<Mount> := [];
    var j := 0;
    while j < |oldMounts|
      invariant 0 <= j <= |oldMounts|
      invariant mounts == RootlessMounts(oldMounts[..j])
      modifies {}
    {
      assert oldMounts[..j + 1][..j] == oldMounts[..j];
      var mount := oldMounts[j];
      if IsAbs(mount.destination) && CleanRooted(mount.destination) == "/sys" {
        mounts := mounts + [Mount("/sys", "none", "/sys", ["rbind", "nosuid", "noexec", "nodev", "ro"])];
      } else {
        var options := StripOwnerOptions(mount.options);
        mount := mount.(options := options);
        mounts := mounts + [mount];
      }
      j := j + 1;
    }
    assert oldMounts[..j] == oldMounts;
    spec.mounts := mounts;

    linux.resources := None;
  }

  // ---------------------------------------------------------------- properties of the rewrite

  /** Filtering namespaces distributes over concatenation: kept entries stay in their order. */
  lemma {:induction false} KeptNamespacesAppend(a: seq<Namespace>, b: seq<Namespace>)
    ensures KeptNamespaces(a + b) == KeptNamespaces(a) + KeptNamespaces(b)
    decreases |b|
  {
    if b != [] {
      var b' := b[..|b| - 1];
      assert (a + b)[..|a + b| - 1] == a + b';
      assert (a + b)[|a + b| - 1] == b[|b| - 1];
      KeptNamespacesAppend(a, b');
      assert KeptNamespaces(a + b) == KeptNamespaces(a + b') + KeptNamespaces(b[|b| - 1..]) by {
        assert b[|b| - 1..][..0] == [];
      }
    } else {
      assert a + b == a;
    }
  }

  /** An entry survives exactly when it was in the input and is neither network nor user. */
  lemma {:induction false} KeptNamespacesMembers(ns: seq<Namespace>)
    ensures forall x :: x in KeptNamespaces(ns) <==> x in ns && !IsDroppedNamespace(x)
    decreases |ns|
  {
    if ns != [] {
      var init := ns[..|ns| - 1];
      KeptNamespacesMembers(init);
      assert ns == init + [ns[|ns| - 1]];
    }
  }

  /** After the rewrite there is no network namespace and exactly one user namespace, last. */
  lemma RootlessNamespacesShape(ns: seq<Namespace>)
    ensures var r := RootlessNamespaces(ns);
            && |r| == |KeptNamespaces(ns)| + 1
            && r[|r| - 1] == Namespace(UserNamespace, "")
            && (forall i | 0 <= i < |r| :: r[i].kind != NetworkNamespace)
            && (forall i | 0 <= i < |r| && r[i].kind == UserNamespace :: i == |r| - 1)
  {
    var r := RootlessNamespaces(ns);
    KeptNamespacesMembers(ns);
    forall i | 0 <= i < |r| - 1
      ensures r[i].kind != NetworkNamespace && r[i].kind != UserNamespace
    {
      assert r[i] in KeptNamespaces(ns);
    }
  }

  /** A list without network and user namespaces passes the filter unchanged. */
  lemma {:induction false} KeptNamespacesIdentity(ns: seq<Namespace>)
    requires forall i | 0 <= i < |ns| :: !IsDroppedNamespace(ns[i])
    ensures KeptNamespaces(ns) == ns
    decreases |ns|
  {
    if ns != [] {
      KeptNamespacesIdentity(ns[..|ns| - 1]);
    }
  }

  lemma RootlessNamespacesIdempotent(ns: seq<Namespace>)
    ensures RootlessNamespaces(RootlessNamespaces(ns)) == RootlessNamespaces(ns)
  {
    var kept := KeptNamespaces(ns);
    KeptNamespacesMembers(ns);
    forall i | 0 <= i < |kept| ensures !IsDroppedNamespace(kept[i]) {
      assert kept[i] in kept;
    }
    KeptNamespacesIdentity(kept);
    KeptNamespacesAppend(kept, [Namespace(UserNamespace, "")]);
    assert KeptNamespaces([Namespace(UserNamespace, "")]) == [] by {
      assert [Namespace(UserNamespace, "")][..0] == [];
    }
  }

  /** Stripping options distributes over concatenation: kept options stay in their order. */
  lemma {:induction false} StrippedOptionsAppend(a: seq<string>, b: seq<string>)
    ensures StrippedOptions(a + b) == StrippedOptions(a) + StrippedOptions(b)
    decreases |b|
  {
    if b != [] {
      var b' := b[..|b| - 1];
      assert (a + b)[..|a + b| - 1] == a + b';
      assert (a + b)[|a + b| - 1] == b[|b| - 1];
      StrippedOptionsAppend(a, b');
      assert StrippedOptions(a + b) == StrippedOptions(a + b') + StrippedOptions(b[|b| - 1..]) by {
        assert b[|b| - 1..][..0] == [];
      }
    } else {
      assert a + b == a;
    }
  }

  /** An option survives exactly when it was given and does not start with "gid=" or "uid=". */
  lemma {:induction false} StrippedOptionsMembers(options: seq<string>)
    ensures forall o :: o in StrippedOptions(options) <==> o in options && !IsOwnerOption(o)
    decreases |options|
  {
    if options != [] {
      var init := options[..|options| - 1];
      StrippedOptionsMembers(init);
      assert options == init + [options[|options| - 1]];
    }
  }

  lemma {:induction false} StrippedOptionsIdempotent(options: seq<string>)
    ensures StrippedOptions(StrippedOptions(options)) == StrippedOptions(options)
    decreases |options|
  {
    if options != [] {
      var init := options[..|options| - 1];
      var last := options[|options| - 1];
      StrippedOptionsIdempotent(init);
      var tail := if IsOwnerOption(last) then [] else [last];
      StrippedOptionsAppend(StrippedOptions(init), tail);
      assert StrippedOptions(tail) == tail by {
        if tail != [] { assert tail[..0] == []; }
      }
    }
  }

  /** The mount list keeps its length and order; the /sys mount is replaced whatever it
      held, every other mount keeps destination, type and source and loses only its
      ownership options. */
  lemma {:induction false} RootlessMountsAt(ms: seq<Mount>, i: nat)
    requires i < |ms|
    ensures |RootlessMounts(ms)| == |ms|
    ensures IsSysDestination(ms[i].destination) ==> RootlessMounts(ms)[i] == SysBindMount
    ensures !IsSysDestination(ms[i].destination) ==>
              var m := RootlessMounts(ms)[i];
              && m.destination == ms[i].destination && m.kind == ms[i].kind && m.source == ms[i].source
              && m.options == StrippedOptions(ms[i].options)
    decreases |ms|
  {
    var init := ms[..|ms| - 1];
    if i < |ms| - 1 {
      RootlessMountsAt(init, i);
    } else if init != [] {
      RootlessMountsAt(init, 0);
    }
  }

  lemma RootlessMountIdempotent(m: Mount)
    ensures RootlessMount(RootlessMount(m)) == RootlessMount(m)
  {
    SysIsSysDestination();
    StrippedOptionsIdempotent(m.options);
  }

  lemma {:induction false} RootlessMountsIdempotent(ms: seq<Mount>)
    ensures RootlessMounts(RootlessMounts(ms)) == RootlessMounts(ms)
    decreases |ms|
  {
    if ms != [] {
      var init := ms[..|ms| - 1];
      RootlessMountsIdempotent(init);
      RootlessMountIdempotent(ms[|ms| - 1]);
      var r := RootlessMounts(ms);
      assert r[..|r| - 1] == RootlessMounts(init);
    }
  }

  /** `ToRootless` is idempotent for fixed IDs: the mappings and resources it writes do not
      depend on the input, and the namespace and mount rewrites are idempotent. */
  lemma ToRootlessIdempotent(ns: seq<Namespace>, ms: seq<Mount>)
    ensures RootlessNamespaces(RootlessNamespaces(ns)) == RootlessNamespaces(ns)
    ensures RootlessMounts(RootlessMounts(ms)) == RootlessMounts(ms)
  {
    RootlessNamespacesIdempotent(ns);
    RootlessMountsIdempotent(ms);
  }

  /** Applying `ToRootless` a second time with the same IDs leaves the specification as
      the first application left it. */
  method ToRootlessTwice(spec: Spec, euid: int, egid: int)
    modifies spec`mounts, spec.linux`namespaces, spec.linux`uidMappings, spec.linux`gidMappings,
             spec.linux`resources
    ensures spec.linux.namespaces == RootlessNamespaces(old(spec.linux.namespaces))
    ensures spec.linux.uidMappings == [SingleMapping(euid)]
    ensures spec.linux.gidMappings == [SingleMapping(egid)]
    ensures spec.mounts == RootlessMounts(old(spec.mounts))
    ensures spec.linux.resources == None
  {
    ToRootless(spec, euid, egid);
    ToRootlessIdempotent(old(spec.linux.namespaces), old(spec.mounts));
    ToRootless(spec, euid, egid);
  }

  /** "/sys" itself is a /sys destination, so the replacement mount is recognised again. */
  lemma SysIsSysDestination()
    ensures IsSysDestination("/sys")
  {
  }

  /** A destination with a trailing slash also cleans to /sys and is replaced. */
  lemma TrailingSlashSysIsSys()
    ensures IsSysDestination("/sys/")
  {
  }

  /** The baseline for a rootless container: network dropped, user namespace appended. */
  lemma ExampleRootlessNamespaces(unified: bool)
    ensures RootlessNamespaces(ExampleNamespaces(unified)) ==
            [Namespace(PidNamespace, ""), Namespace(IpcNamespace, ""), Namespace(UtsNamespace, ""),
             Namespace(MountNamespace, "")] +
            (if unified then [Namespace(CgroupNamespace, "")] else []) + [Namespace(UserNamespace, "")]
  {
    var base := BaseNamespaces;
    assert KeptNamespaces(base[..1]) == [base[0]];
    assert KeptNamespaces(base[..2]) == [base[0]];
    assert base[..3][..2] == base[..2];
    assert KeptNamespaces(base[..3]) == [base[0], base[2]];
    assert base[..4][..3] == base[..3];
    assert KeptNamespaces(base[..4]) == [base[0], base[2], base[3]];
    assert base[..5][..4] == base[..4];
    assert base[..5] == base;
    if unified {
      var ns := ExampleNamespaces(true);
      assert ns[..|ns| - 1] == base;
    }
  }
}
