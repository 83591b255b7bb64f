/**
 * Package-manager detection for the system context.
 *
 * The host probes goss performs (`os.Stat` on marker files and
 * `exec.LookPath` on package-manager binaries) are plain inputs here: a
 * `Host` records which files exist and which commands resolve on the
 * search path.
 */
module Detect {

  /** Marker file whose presence makes the host Debian-based. */
  const DebianVersion := "/etc/debian_version"
  /** Marker files whose presence makes the host RPM-based. */
  const RedhatRelease := "/etc/redhat-release"
  const SystemRelease := "/etc/system-release"
  /** The two package-manager executables looked up on the search path. */
  const DpkgCommand := "dpkg"
  const RpmCommand := "rpm"

  /** Override values that force a package strategy. */
  const RpmOverride := "rpm"
  const DebOverride := "deb"

  /** What the host reveals to the probes. */
  datatype Host = Host(
    files: set<string>,  // paths for which a stat succeeds
    path: set<string>,   // executable names that resolve on the search path
    systemd: bool)       // whether the init system is systemd

  /** The package-strategy constructor bound into the system context. */
  datatype PackageStrategy = NewPackageRpm | NewPackageDeb | NewPackageNull

  predicate FileExists(h: Host, p: string) { p in h.files }

  /** Resolvability only: the command is never run. */
  predicate HasCommand(h: Host, cmd: string) { cmd in h.path }

  /** The Debian check: marker file first, then "dpkg without rpm". */
  function IsDeb(h: Host): (r: bool)
    ensures r <==> DebianVersion in h.files || (DpkgCommand in h.path && RpmCommand !in h.path)
  {
    if FileExists(h, DebianVersion) then true
    else if HasCommand(h, DpkgCommand) && !HasCommand(h, RpmCommand) then true
    else false
  }

  /** The RPM check: either marker file first, then "rpm without dpkg". */
  function IsRpm(h: Host): (r: bool)
    ensures r <==> RedhatRelease in h.files || SystemRelease in h.files
                   || (RpmCommand in h.path && DpkgCommand !in h.path)
  {
    if FileExists(h, RedhatRelease) then true
    else if FileExists(h, SystemRelease) then true
    else if HasCommand(h, RpmCommand) && !HasCommand(h, DpkgCommand) then true
    else false
  }

  /** Neither family has a marker file on the host. */
  predicate NoMarkers(h: Host) {
    RedhatRelease !in h.files && SystemRelease !in h.files && DebianVersion !in h.files
  }

  /**
   * Detection as written: the whole RPM check runs before any of the
   * Debian check, and a host that passes neither gets the null strategy.
   */
  function DetectPackage(h: Host): (r: PackageStrategy)
    ensures IsRpm(h) ==> r == NewPackageRpm
    ensures r == NewPackageDeb <==> !IsRpm(h) && IsDeb(h)
    ensures r == NewPackageNull <==> NoMarkers(h) && (RpmCommand in h.path <==> DpkgCommand in h.path)
  {
    if IsRpm(h) then NewPackageRpm
    else if IsDeb(h) then NewPackageDeb
    else NewPackageNull
  }

  /**
   * The package strategy chosen by the context builder: an override of
   * exactly "rpm" or "deb" wins, any other string falls through to detection.
   */
  function SelectPackage(override: string, h: Host): (r: PackageStrategy)
    ensures override == RpmOverride ==> r == NewPackageRpm
    ensures override == DebOverride ==> r == NewPackageDeb
    ensures override != RpmOverride && override != DebOverride ==> r == DetectPackage(h)
  {
    if override == RpmOverride then NewPackageRpm
    else if override == DebOverride then NewPackageDeb
    else DetectPackage(h)
  }

  /** An override decides alone: no probe of the host can change its outcome. */
  lemma OverrideIgnoresHost(override: string, h1: Host, h2: Host)
    requires override == RpmOverride || override == DebOverride
    ensures SelectPackage(override, h1) == SelectPackage(override, h2)
    ensures SelectPackage(override, h1) == if override == RpmOverride then NewPackageRpm else NewPackageDeb
  {
  }

  /** The empty override (flag not given) means detection. */
  lemma EmptyOverrideDetects(h: Host)
    ensures SelectPackage("", h) == DetectPackage(h)
  {
  }

  /** Detection reads exactly five probes: hosts that agree on them get the same strategy. */
  lemma DetectionReadsFiveProbes(h1: Host, h2: Host)
    requires (RedhatRelease in h1.files <==> RedhatRelease in h2.files)
    requires (SystemRelease in h1.files <==> SystemRelease in h2.files)
    requires (DebianVersion in h1.files <==> DebianVersion in h2.files)
    requires (RpmCommand in h1.path <==> RpmCommand in h2.path)
    requires (DpkgCommand in h1.path <==> DpkgCommand in h2.path)
    ensures DetectPackage(h1) == DetectPackage(h2)
  {
  }

  /** Without marker files, the binary clues never make both checks true. */
  lemma BinaryCluesExclusive(h: Host)
    requires NoMarkers(h)
    ensures !(IsRpm(h) && IsDeb(h))
    ensures IsRpm(h) <==> RpmCommand in h.path && DpkgCommand !in h.path
    ensures IsDeb(h) <==> DpkgCommand in h.path && RpmCommand !in h.path
  {
  }

  /** A host with both Red Hat and Debian markers is treated as RPM-based. */
  lemma BothMarkersYieldRpm(h: Host)
    requires DebianVersion in h.files
    requires RedhatRelease in h.files || SystemRelease in h.files
    ensures IsDeb(h) && IsRpm(h)
    ensures DetectPackage(h) == NewPackageRpm
  {
  }

  /**
   * A reading of detection in which any marker file is authoritative
   * before the binary clues are consulted. It is not what the code does;
   * it serves to pin down where the code departs from it.
   */
  function MarkersFirst(h: Host): PackageStrategy {
    if RedhatRelease in h.files || SystemRelease in h.files then NewPackageRpm
    else if DebianVersion in h.files then NewPackageDeb
    else if RpmCommand in h.path && DpkgCommand !in h.path then NewPackageRpm
    else if DpkgCommand in h.path && RpmCommand !in h.path then NewPackageDeb
    else NewPackageNull
  }

  /**
   * Detection as written agrees with the markers-first reading on every host
   * except one family: a Debian marker, no Red Hat marker, and rpm but not
   * dpkg on the path. There the code picks RPM, the markers-first reading Debian.
   */
  lemma DetectVersusMarkersFirst(h: Host)
    ensures DetectPackage(h) != MarkersFirst(h) <==>
              RedhatRelease !in h.files && SystemRelease !in h.files && DebianVersion in h.files
              && RpmCommand in h.path && DpkgCommand !in h.path
    ensures DetectPackage(h) != MarkersFirst(h) ==>
              DetectPackage(h) == NewPackageRpm && MarkersFirst(h) == NewPackageDeb
  {
  }

  /** Concrete hosts: Debian marker only, dpkg only, both binaries, neither, and an override. */
  lemma Scenarios()
    ensures SelectPackage("", Host({DebianVersion}, {}, false)) == NewPackageDeb
    ensures SelectPackage("", Host({}, {DpkgCommand}, false)) == NewPackageDeb
    ensures SelectPackage("", Host({}, {RpmCommand, DpkgCommand}, false)) == NewPackageNull
    ensures SelectPackage("", Host({}, {}, true)) == NewPackageNull
    ensures SelectPackage(RpmOverride, Host({DebianVersion}, {}, false)) == NewPackageRpm
    ensures SelectPackage("", Host({DebianVersion}, {RpmCommand}, false)) == NewPackageRpm
  {
  }
}
