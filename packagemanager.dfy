/** The system package managers the provisioner knows, how it picks one and the argv it installs with. */
module PackageManagers {
  import opened Wrappers
  import opened Host

  /** Go's PackageManager is an int; the four named values are 0..3 and every other value is unsupported. */
  type PackageManager = int

  const APT: PackageManager := 0
  const YUM: PackageManager := 1
  const DNF: PackageManager := 2
  const PACMAN: PackageManager := 3

  predicate Known(pm: PackageManager) {
    APT <= pm <= PACMAN
  }

  /** PackageManager.String. */
  function Name(pm: PackageManager): (s: string)
    ensures !Known(pm) <==> s == "unknown"
    ensures pm == APT ==> s == "apt"
    ensures pm == YUM ==> s == "yum"
    ensures pm == DNF ==> s == "dnf"
    ensures pm == PACMAN ==> s == "pacman"
  {
    if pm == APT then "apt"
    else if pm == YUM then "yum"
    else if pm == DNF then "dnf"
    else if pm == PACMAN then "pacman"
    else "unknown"
  }

  /** The probe order of DetectPackageManager: apt-get, then dnf before yum, then pacman. */
  const Probes: seq<(PackageManager, string)> := [(APT, "apt-get"), (DNF, "dnf"), (YUM, "yum"), (PACMAN, "pacman")]

  const NoManagerError: string := "no supported package manager found"

  /** The manager of the first probe from index k on whose command is on the search path. */
  function FirstAvailable(executables: set<string>, k: nat): (r: Result<PackageManager>)
    requires k <= |Probes|
    ensures r.Ok? ==>
      exists j :: k <= j < |Probes| && Probes[j].1 in executables && r.value == Probes[j].0 &&
        forall i :: k <= i < j ==> Probes[i].1 !in executables
    ensures r.Err? <==> forall j :: k <= j < |Probes| ==> Probes[j].1 !in executables
    ensures r.Err? ==> r.error == NoManagerError
    decreases |Probes| - k
  {
    if k == |Probes| then Err(NoManagerError)
    else if Probes[k].1 in executables then Ok(Probes[k].0)
    else FirstAvailable(executables, k + 1)
  }

  /** With dnf on the path and no apt-get, DNF is chosen even when yum is there as well. */
  lemma DnfPreferredOverYum(executables: set<string>)
    requires "dnf" in executables && "apt-get" !in executables
    ensures FirstAvailable(executables, 0) == Ok(DNF)
  {
  }

  /** Whatever is chosen is a known manager. */
  lemma DetectedIsKnown(executables: set<string>)
    ensures FirstAvailable(executables, 0).Ok? ==> Known(FirstAvailable(executables, 0).value)
  {
  }

  /** DetectPackageManager: the probes are tried in order and the first one on the path wins. */
  method DetectPackageManager(host: Machine) returns (r: Result<PackageManager>)
    ensures r == FirstAvailable(host.executables, 0)
  {
    var k := 0;
    while k < |Probes|
      invariant 0 <= k <= |Probes|
      invariant FirstAvailable(host.executables, 0) == FirstAvailable(host.executables, k)
    {
      if Probes[k].1 in host.executables {
        return Ok(Probes[k].0);
      }
      k := k + 1;
    }
    r := Err(NoManagerError);
  }

  /** The argv that installs packages: "<bin> install -y" for APT, YUM and DNF, "pacman -S --noconfirm"
      for PACMAN, followed by the packages in order; None for an unsupported value. */
  function InstallArgv(pm: PackageManager, packages: seq<string>): (r: Option<seq<string>>)
    ensures r.Some? <==> Known(pm)
    ensures r.Some? ==> |r.value| == 3 + |packages| && r.value[3..] == packages
    ensures r.Some? && pm == PACMAN ==> r.value[..3] == ["pacman", "-S", "--noconfirm"]
    ensures r.Some? && pm != PACMAN ==> r.value[..3] == [if pm == APT then "apt-get" else Name(pm), "install", "-y"]
  {
    if pm == APT then Some(["apt-get", "install", "-y"] + packages)
    else if pm == YUM then Some(["yum", "install", "-y"] + packages)
    else if pm == DNF then Some(["dnf", "install", "-y"] + packages)
    else if pm == PACMAN then Some(["pacman", "-S", "--noconfirm"] + packages)
    else None
  }

  const UnsupportedError: string := "unsupported package manager"

  /** The effects of one Install call: its command, or nothing for an unsupported manager. */
  function InstallEffects(pm: PackageManager, packages: seq<string>): seq<Effect> {
    if Known(pm) then [Exec(InstallArgv(pm, packages).value)] else []
  }

  /** Whether an Install call succeeds on a machine whose failing effects are failing. */
  predicate InstallSucceeds(pm: PackageManager, packages: seq<string>, failing: set<Effect>) {
    Known(pm) && Exec(InstallArgv(pm, packages).value) !in failing
  }

  /** PackageManager.Install: an unsupported manager is an error and runs nothing; otherwise the command
      runs once and its outcome is the result. */
  method Install(host: Machine, pm: PackageManager, packages: seq<string>) returns (err: Option<string>)
    modifies host
    ensures host.log == old(host.log) + InstallEffects(pm, packages) && host.files == old(host.files)
    ensures err.None? <==> InstallSucceeds(pm, packages, host.failing)
    ensures !Known(pm) ==> err == Some(UnsupportedError)
  {
    var argv := InstallArgv(pm, packages);
    if argv.None? {
      return Some(UnsupportedError);
    }
    err := host.Perform(Exec(argv.value));
  }
}
