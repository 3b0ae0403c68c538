/**
 * The two privilege heuristics of rootless_linux.go. Every ambient query of the
 * source is an argument here: the effective UID (`os.Geteuid`), membership of a
 * user namespace (`userns.RunningInUserNS`), the systemd owner-UID probe
 * (`systemd.DetectUID`) and the `USER` environment variable (`os.LookupEnv`).
 */
module Rootless {
  import opened Wrappers
  import CliUtils

  /** The two global CLI flags the decision reads: `--rootless` (raw text) and `--systemd-cgroup`. */
  datatype GlobalFlags = GlobalFlags(rootless: string, systemdCgroup: bool)

  /** The failure `systemd.DetectUID` can report (shelling out to `busctl` failed). */
  datatype ProbeError = ProbeError(reason: string)

  /** The `--rootless` value means "detect automatically". */
  predicate IsAuto(flag: string) {
    CliUtils.ParseBoolOrAuto(flag) == Success(None)
  }

  /** The owner UID systemd reports is that of a non-root user; a failed probe counts as UID 0. */
  predicate OwnerIsUnprivileged(owner: Result<int, ProbeError>) {
    owner.Success? && owner.value != 0
  }

  /** `shouldUseRootlessCgroupManager` for a present CLI context. */
  function ShouldUseRootlessCgroupManager(flags: GlobalFlags, euid: int, inUserNS: bool,
                                          owner: Result<int, ProbeError>): (r: Result<bool, CliUtils.ParseError>)
    // a malformed --rootless value is returned as the error
    ensures CliUtils.ParseBoolOrAuto(flags.rootless).Failure? ==>
              r == Failure(CliUtils.ParseBoolOrAuto(flags.rootless).error)
    // an explicit true or false wins over everything else
    ensures CliUtils.ParseBoolOrAuto(flags.rootless) == Success(Some(true)) ==> r == Success(true)
    ensures CliUtils.ParseBoolOrAuto(flags.rootless) == Success(Some(false)) ==> r == Success(false)
    // automatic detection
    ensures IsAuto(flags.rootless) && euid != 0 ==> r == Success(true)
    ensures IsAuto(flags.rootless) && euid == 0 && !inUserNS ==> r == Success(false)
    ensures IsAuto(flags.rootless) && euid == 0 && inUserNS && flags.systemdCgroup ==>
              r == Success(OwnerIsUnprivileged(owner))
    ensures IsAuto(flags.rootless) && euid == 0 && inUserNS && !flags.systemdCgroup ==> r == Success(true)
    ensures r.Failure? <==> CliUtils.ParseBoolOrAuto(flags.rootless).Failure?
  {
    match CliUtils.ParseBoolOrAuto(flags.rootless)
    case Failure(e) => Failure(e)
    case Success(Some(b)) => Success(b)
    case Success(None) =>
      if euid != 0 then Success(true)
      else if !inUserNS then Success(false)   // the real root in the initial namespace
      else if flags.systemdCgroup then
        var ownerUid := if owner.Success? then owner.value else 0;
        Success(ownerUid != 0)
      else Success(true)
  }

  /** The result as one formula: which inputs make runc use the rootless cgroup manager. */
  lemma RootlessManagerWhen(flags: GlobalFlags, euid: int, inUserNS: bool, owner: Result<int, ProbeError>)
    ensures ShouldUseRootlessCgroupManager(flags, euid, inUserNS, owner) == Success(true) <==>
              flags.rootless in CliUtils.TrueWords ||
              (IsAuto(flags.rootless) &&
               (euid != 0 || (inUserNS && (!flags.systemdCgroup || OwnerIsUnprivileged(owner)))))
  {
  }

  /** `shouldHonorXDGRuntimeDir`: whether `$XDG_RUNTIME_DIR` may relocate runc's state
      directory. `user` is the `USER` variable, `None` when unset. */
  function ShouldHonorXdgRuntimeDir(euid: int, inUserNS: bool, user: Option<string>): (r: bool)
    ensures euid != 0 ==> r
    ensures euid == 0 && !inUserNS ==> !r
    ensures euid == 0 && inUserNS ==> (r <==> user != Some("root"))
  {
    if euid != 0 then true
    else if !inUserNS then false
    else match user
      case None => true
      case Some(u) => u != "root"
  }
}
