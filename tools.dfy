/** Base packages and cloud tools: package-name translation, the counting of enabled tools and the
    install sequence with its fallbacks. */
module Tools {
  import opened Wrappers
  import opened Host
  import opened PackageManagers
  import opened ProvisionConfig

  /** NewProvisioner: a provisioner exists only once a package manager has been detected. */
  method NewProvisioner(host: Machine, username: string, config: Config) returns (r: Result<Provisioner>)
    ensures FirstAvailable(host.executables, 0).Err? ==> r == Err(NoManagerError)
    ensures FirstAvailable(host.executables, 0).Ok? ==>
      r == Ok(Provisioner(FirstAvailable(host.executables, 0).value, username, config))
  {
    var pm := DetectPackageManager(host);
    if pm.Err? {
      return Err(pm.error);
    }
    r := Ok(Provisioner(pm.value, username, config));
  }

  const BuildEssential: string := "build-essential"

  /** The names one generic package stands for under a manager. */
  function Translation(pm: PackageManager, pkg: string): seq<string> {
    if pkg != BuildEssential then [pkg]
    else if pm == YUM || pm == DNF then ["gcc", "gcc-c++", "make"]
    else if pm == PACMAN then ["base-devel"]
    else [pkg]
  }

  /** The translations of every package, concatenated in order. */
  function Translated(pm: PackageManager, packages: seq<string>): seq<string>
    decreases |packages|
  {
    if packages == [] then [] else Translated(pm, packages[..|packages| - 1]) + Translation(pm, packages[|packages| - 1])
  }

  /** How often pkg occurs in packages. */
  function Occurrences(packages: seq<string>, pkg: string): nat
    decreases |packages|
  {
    if packages == [] then 0
    else Occurrences(packages[..|packages| - 1], pkg) + (if packages[|packages| - 1] == pkg then 1 else 0)
  }

  /** Under YUM and DNF every build-essential becomes three names; under every other manager each name
      stays one name. */
  lemma {:induction false} TranslatedLength(pm: PackageManager, packages: seq<string>)
    ensures |Translated(pm, packages)| ==
      |packages| + if pm == YUM || pm == DNF then 2 * Occurrences(packages, BuildEssential) else 0
    decreases |packages|
  {
    if packages != [] {
      TranslatedLength(pm, packages[..|packages| - 1]);
    }
  }

  /** Without build-essential, or under APT, the list is passed on unchanged. */
  lemma {:induction false} TranslatedUnchanged(pm: PackageManager, packages: seq<string>)
    requires pm == APT || Occurrences(packages, BuildEssential) == 0
    ensures Translated(pm, packages) == packages
    decreases |packages|
  {
    if packages != [] {
      var init := packages[..|packages| - 1];
      assert Occurrences(init, BuildEssential) <= Occurrences(packages, BuildEssential);
      TranslatedUnchanged(pm, init);
      assert packages == init + [packages[|packages| - 1]];
    }
  }

  /** translatePackageNames: the translations appended one package at a time. */
  method TranslatePackageNames(pm: PackageManager, packages: seq<string>) returns (translated: seq<string>)
    ensures translated == Translated(pm, packages)
  {
    translated := [];
    var i := 0;
    while i < |packages|
      invariant 0 <= i <= |packages|
      invariant translated == Translated(pm, packages[..i])
    {
      assert packages[..i + 1][..i] == packages[..i];
      translated := translated + Translation(pm, packages[i]);
      i := i + 1;
    }
    assert packages[..i] == packages;
  }

  /** InstallBasePackages: nothing to do without base packages; otherwise one install of the translated
      list, whose failure is reported wrapped. */
  method InstallBasePackages(host: Machine, p: Provisioner) returns (err: Option<string>)
    modifies host
    ensures p.config.base == [] ==> err.None? && host.log == old(host.log)
    ensures p.config.base != [] ==> host.log == old(host.log) + InstallEffects(p.pm, Translated(p.pm, p.config.base))
    ensures p.config.base != [] ==> (err.None? <==> InstallSucceeds(p.pm, Translated(p.pm, p.config.base), host.failing))
    ensures err.Some? ==> exists e :: err == Some(Wrap("failed to install base packages", e))
    ensures host.files == old(host.files)
  {
    if |p.config.base| == 0 {
      return None;
    }
    var packages := TranslatePackageNames(p.pm, p.config.base);
    var e := Install(host, p.pm, packages);
    if e.Some? {
      return Some(Wrap("failed to install base packages", e.value));
    }
    err := None;
  }

  /** The cloud tools in the order InstallCloudTools attempts them, and the flag that enables each. */
  const CloudOrder: seq<string> := ["awscli", "docker", "kubectl", "terraform", "google-cloud-sdk"]

  function CloudFlag(c: CloudConfig, k: nat): bool
    requires k < 5
  {
    [c.aws, c.docker, c.kubectl, c.terraform, c.gcloud][k]
  }

  /** The enabled tools among the first k of CloudOrder. */
  function EnabledUpTo(c: CloudConfig, k: nat): seq<string>
    requires k <= 5
  {
    if k == 0 then [] else EnabledUpTo(c, k - 1) + (if CloudFlag(c, k - 1) then [CloudOrder[k - 1]] else [])
  }

  function EnabledCloudTools(c: CloudConfig): seq<string> {
    EnabledUpTo(c, 5)
  }

  function Bit(b: bool): nat {
    if b then 1 else 0
  }

  /** One enabled tool per set flag. */
  lemma EnabledCloudToolsSize(c: CloudConfig)
    ensures |EnabledCloudTools(c)| == Bit(c.aws) + Bit(c.docker) + Bit(c.kubectl) + Bit(c.terraform) + Bit(c.gcloud)
  {
    assert |EnabledUpTo(c, 1)| == Bit(c.aws);
    assert |EnabledUpTo(c, 2)| == Bit(c.aws) + Bit(c.docker);
    assert |EnabledUpTo(c, 3)| == Bit(c.aws) + Bit(c.docker) + Bit(c.kubectl);
    assert |EnabledUpTo(c, 4)| == Bit(c.aws) + Bit(c.docker) + Bit(c.kubectl) + Bit(c.terraform);
  }

  /** countEnabledCloudTools: one per enabled flag, counted in its own order, so at most five, and as many
      as InstallCloudTools attempts. */
  function CountEnabledCloudTools(c: CloudConfig): (n: nat)
    ensures n == |EnabledCloudTools(c)| && n <= 5
    ensures n == 0 <==> !(c.aws || c.gcloud || c.kubectl || c.docker || c.terraform)
  {
    var n := 0;
    var n := if c.aws then n + 1 else n;
    var n := if c.gcloud then n + 1 else n;
    var n := if c.kubectl then n + 1 else n;
    var n := if c.docker then n + 1 else n;
    var n := if c.terraform then n + 1 else n;
    EnabledCloudToolsSize(c);
    n
  }

  /** The effects of installDocker: on APT, docker.io and, only if that failed, docker-ce; elsewhere docker;
      then, after a successful install, adding the user to the docker group. */
  function DockerEffects(p: Provisioner, failing: set<Effect>): seq<Effect> {
    var installs :=
      if p.pm == APT then
        InstallEffects(p.pm, ["docker.io"]) + (if InstallSucceeds(p.pm, ["docker.io"], failing) then [] else InstallEffects(p.pm, ["docker-ce"]))
      else InstallEffects(p.pm, ["docker"]);
    installs + (if DockerSucceeds(p, failing) then [AddToGroup(p.username, "docker")] else [])
  }

  predicate DockerSucceeds(p: Provisioner, failing: set<Effect>) {
    if p.pm == APT then InstallSucceeds(p.pm, ["docker.io"], failing) || InstallSucceeds(p.pm, ["docker-ce"], failing)
    else InstallSucceeds(p.pm, ["docker"], failing)
  }

  /** installDocker; a failure to add the user to the group is tolerated. */
  method InstallDocker(host: Machine, p: Provisioner) returns (err: Option<string>)
    modifies host
    ensures host.log == old(host.log) + DockerEffects(p, host.failing) && host.files == old(host.files)
    ensures err.None? <==> DockerSucceeds(p, host.failing)
  {
    if p.pm == APT {
      err := Install(host, p.pm, ["docker.io"]);
      if err.Some? {
        err := Install(host, p.pm, ["docker-ce"]);
      }
    } else {
      err := Install(host, p.pm, ["docker"]);
    }
    if err.None? {
      var _ := host.Perform(AddToGroup(p.username, "docker"));
    }
  }

  /** The effects and the outcome of installing one cloud tool. */
  function ToolEffects(p: Provisioner, tool: string, failing: set<Effect>): seq<Effect> {
    if tool == "docker" then DockerEffects(p, failing) else InstallEffects(p.pm, [tool])
  }

  predicate ToolSucceeds(p: Provisioner, tool: string, failing: set<Effect>) {
    if tool == "docker" then DockerSucceeds(p, failing) else InstallSucceeds(p.pm, [tool], failing)
  }

  function AllToolEffects(p: Provisioner, tools: seq<string>, failing: set<Effect>): seq<Effect>
    decreases |tools|
  {
    if tools == [] then [] else AllToolEffects(p, tools[..|tools| - 1], failing) + ToolEffects(p, tools[|tools| - 1], failing)
  }

  /** The number of tools whose install succeeds. */
  function Succeeded(p: Provisioner, tools: seq<string>, failing: set<Effect>): nat
    decreases |tools|
  {
    if tools == [] then 0
    else Succeeded(p, tools[..|tools| - 1], failing) + (if ToolSucceeds(p, tools[|tools| - 1], failing) then 1 else 0)
  }

  lemma {:induction false} SucceededAtMost(p: Provisioner, tools: seq<string>, failing: set<Effect>)
    ensures Succeeded(p, tools, failing) <= |tools|
    decreases |tools|
  {
    if tools != [] {
      SucceededAtMost(p, tools[..|tools| - 1], failing);
    }
  }

  /** One tool of InstallCloudTools: attempted once and counted as installed or failed; a failure does
      not stop the tools after it. done are the tools attempted before it, start the log before them. */
  method TryTool(host: Machine, p: Provisioner, tool: string, ghost start: seq<Effect>, ghost done: seq<string>,
                 installed: nat, failed: nat)
    returns (installed': nat, failed': nat)
    requires host.log == start + AllToolEffects(p, done, host.failing)
    requires installed == Succeeded(p, done, host.failing) && installed + failed == |done|
    modifies host
    ensures host.log == start + AllToolEffects(p, done + [tool], host.failing) && host.files == old(host.files)
    ensures installed' == Succeeded(p, done + [tool], host.failing) && installed' + failed' == |done| + 1
  {
    assert (done + [tool])[..|done|] == done;
    var err: Option<string>;
    if tool == "docker" {
      err := InstallDocker(host, p);
    } else {
      err := Install(host, p.pm, [tool]);
    }
    if err.Some? {
      installed', failed' := installed, failed + 1;
    } else {
      installed', failed' := installed + 1, failed;
    }
  }

  /** The k-th tool of InstallCloudTools, attempted only when its flag is set. */
  method CloudStep(host: Machine, p: Provisioner, k: nat, ghost start: seq<Effect>, installed: nat, failed: nat)
    returns (installed': nat, failed': nat)
    requires k < 5
    requires host.log == start + AllToolEffects(p, EnabledUpTo(p.config.cloud, k), host.failing)
    requires installed == Succeeded(p, EnabledUpTo(p.config.cloud, k), host.failing)
    requires installed + failed == |EnabledUpTo(p.config.cloud, k)|
    modifies host
    ensures host.log == start + AllToolEffects(p, EnabledUpTo(p.config.cloud, k + 1), host.failing)
    ensures installed' == Succeeded(p, EnabledUpTo(p.config.cloud, k + 1), host.failing)
    ensures installed' + failed' == |EnabledUpTo(p.config.cloud, k + 1)|
    ensures host.files == old(host.files)
  {
    if CloudFlag(p.config.cloud, k) {
      installed', failed' := TryTool(host, p, CloudOrder[k], start, EnabledUpTo(p.config.cloud, k), installed, failed);
    } else {
      var done := EnabledUpTo(p.config.cloud, k);
      assert EnabledUpTo(p.config.cloud, k + 1) == done + [];
      assert done + [] == done;
      installed', failed' := installed, failed;
    }
  }

  /** InstallCloudTools: every enabled tool is attempted once, in the order AWS, Docker, kubectl, Terraform,
      gcloud; installed and failed add up to the count of enabled tools, and the result is always nil. */
  method InstallCloudTools(host: Machine, p: Provisioner) returns (installed: nat, failed: nat, err: Option<string>)
    modifies host
    ensures err == None
    ensures installed + failed == CountEnabledCloudTools(p.config.cloud)
    ensures installed == Succeeded(p, EnabledCloudTools(p.config.cloud), host.failing)
    ensures host.log == old(host.log) + AllToolEffects(p, EnabledCloudTools(p.config.cloud), host.failing)
    ensures host.files == old(host.files)
  {
    ghost var start := host.log;
    installed, failed := 0, 0;
    installed, failed := CloudStep(host, p, 0, start, installed, failed);
    installed, failed := CloudStep(host, p, 1, start, installed, failed);
    installed, failed := CloudStep(host, p, 2, start, installed, failed);
    installed, failed := CloudStep(host, p, 3, start, installed, failed);
    installed, failed := CloudStep(host, p, 4, start, installed, failed);
    err := None;
  }
}
