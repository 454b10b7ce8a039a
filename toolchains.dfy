/** Language toolchains: Go with its tools and environment file, Node with its global packages. */
module Toolchains {
  import opened Wrappers
  import opened Host
  import opened PackageManagers
  import opened ProvisionConfig
  import FilePath
  import Validation

  /** The module path `go install` fetches for each known Go tool. */
  function GoToolPath(tool: string): (r: Option<string>)
    ensures r.Some? <==> tool in {"golangci-lint", "gopls", "delve"}
    ensures tool == "golangci-lint" ==> r == Some("github.com/golangci/golangci-lint/cmd/golangci-lint@latest")
    ensures tool == "gopls" ==> r == Some("golang.org/x/tools/gopls@latest")
    ensures tool == "delve" ==> r == Some("github.com/go-delve/delve/cmd/dlv@latest")
  {
    if tool == "golangci-lint" then Some("github.com/golangci/golangci-lint/cmd/golangci-lint@latest")
    else if tool == "gopls" then Some("golang.org/x/tools/gopls@latest")
    else if tool == "delve" then Some("github.com/go-delve/delve/cmd/dlv@latest")
    else None
  }

  /** A Go tool is installed as the target user. */
  function GoToolArgv(user: string, path: string): seq<string> {
    ["sudo", "-u", user, "go", "install", path]
  }

  function GoToolEffects(p: Provisioner, tool: string): seq<Effect> {
    if GoToolPath(tool).Some? then [Exec(GoToolArgv(p.username, GoToolPath(tool).value))] else []
  }

  function AllGoToolEffects(p: Provisioner, tools: seq<string>): seq<Effect>
    decreases |tools|
  {
    if tools == [] then [] else AllGoToolEffects(p, tools[..|tools| - 1]) + GoToolEffects(p, tools[|tools| - 1])
  }

  /** installGoTool: an unknown tool is an error and runs nothing. */
  method InstallGoTool(host: Machine, p: Provisioner, tool: string) returns (err: Option<string>)
    modifies host
    ensures host.log == old(host.log) + GoToolEffects(p, tool) && host.files == old(host.files)
    ensures GoToolPath(tool).None? ==> err == Some("unknown go tool: " + tool)
    ensures GoToolPath(tool).Some? ==> (err.None? <==> Exec(GoToolArgv(p.username, GoToolPath(tool).value)) !in host.failing)
  {
    var path := GoToolPath(tool);
    if path.None? {
      return Some("unknown go tool: " + tool);
    }
    err := host.Perform(Exec(GoToolArgv(p.username, path.value)));
  }

  /** The loop over the configured Go tools; a failing tool does not stop the others. */
  method InstallGoTools(host: Machine, p: Provisioner, tools: seq<string>)
    modifies host
    ensures host.log == old(host.log) + AllGoToolEffects(p, tools) && host.files == old(host.files)
  {
    var i := 0;
    while i < |tools|
      invariant 0 <= i <= |tools|
      invariant host.log == old(host.log) + AllGoToolEffects(p, tools[..i]) && host.files == old(host.files)
    {
      assert tools[..i + 1][..i] == tools[..i];
      var _ := InstallGoTool(host, p, tools[i]);
      i := i + 1;
    }
    assert tools[..i] == tools;
  }

  /** The Go package: "golang", and "go" only when "golang" failed. */
  function GoPackageEffects(p: Provisioner, failing: set<Effect>): seq<Effect> {
    InstallEffects(p.pm, ["golang"]) + (if InstallSucceeds(p.pm, ["golang"], failing) then [] else InstallEffects(p.pm, ["go"]))
  }

  predicate GoPackageInstalled(p: Provisioner, failing: set<Effect>) {
    InstallSucceeds(p.pm, ["golang"], failing) || InstallSucceeds(p.pm, ["go"], failing)
  }

  method InstallGoPackage(host: Machine, p: Provisioner) returns (err: Option<string>)
    modifies host
    ensures host.log == old(host.log) + GoPackageEffects(p, host.failing) && host.files == old(host.files)
    ensures err.None? <==> GoPackageInstalled(p, host.failing)
  {
    err := Install(host, p.pm, ["golang"]);
    if err.Some? {
      err := Install(host, p.pm, ["go"]);
    }
  }

  const GoEnvContent: string := "# StratusShell Go Environment\nexport GOPATH=$HOME/go\nexport PATH=$PATH:/usr/local/go/bin:$GOPATH/bin\n"

  /** The three steps that set up the Go environment file, each stopping the rest when it fails. */
  function GoEnvSteps(p: Provisioner, envDir: string): seq<Effect> {
    [MakeDir(envDir), WriteFile(FilePath.JoinPath(envDir, "env.sh"), GoEnvContent), Chown(envDir, p.username)]
  }

  /** The Go environment directory under a home directory. */
  function GoEnvDir(homeDir: string): string {
    FilePath.JoinPath(homeDir, ".stratusshell")
  }

  /** The effects of the environment-file setup: none when the directory is refused, otherwise the
      steps up to the first that fails. */
  function GoEnvEffects(p: Provisioner, homeDir: string, failing: set<Effect>): seq<Effect> {
    if Validation.ValidateWorkingDir(GoEnvDir(homeDir)).Some? then [] else UntilFailure(GoEnvSteps(p, GoEnvDir(homeDir)), failing)
  }

  /** Whether the environment-file setup succeeds. */
  predicate GoEnvWritten(p: Provisioner, homeDir: string, failing: set<Effect>) {
    Validation.ValidateWorkingDir(GoEnvDir(homeDir)).None? && AllSucceed(GoEnvSteps(p, GoEnvDir(homeDir)), failing)
  }

  /** When every step succeeds, the only file the setup changes is env.sh. */
  lemma GoEnvWritesOneFile(files: map<string, string>, p: Provisioner, envDir: string, failing: set<Effect>)
    requires AllSucceed(GoEnvSteps(p, envDir), failing)
    ensures Written(files, UntilFailure(GoEnvSteps(p, envDir), failing), failing) == files[FilePath.JoinPath(envDir, "env.sh") := GoEnvContent]
  {
    var steps := GoEnvSteps(p, envDir);
    assert UntilFailure(steps, failing) == steps;
    assert steps[..3] == steps && steps[..3][..2] == steps[..2] && steps[..2][..1] == steps[..1] && steps[..1][..0] == [];
    assert steps[1] !in failing;
    assert Written(files, steps[..1], failing) == files;
    assert Written(files, steps[..2], failing) == files[FilePath.JoinPath(envDir, "env.sh") := GoEnvContent];
  }

  /** Create ~/.stratusshell/env.sh: the directory is validated first, then created, written and handed
      to the user, stopping at the first failure. */
  method WriteGoEnv(host: Machine, p: Provisioner, homeDir: string) returns (err: Option<string>)
    modifies host
    ensures host.log == old(host.log) + GoEnvEffects(p, homeDir, host.failing)
    ensures host.files == Written(old(host.files), GoEnvEffects(p, homeDir, host.failing), host.failing)
    ensures err.None? <==> GoEnvWritten(p, homeDir, host.failing)
    ensures GoEnvWritten(p, homeDir, host.failing) ==>
      host.files == old(host.files)[FilePath.JoinPath(GoEnvDir(homeDir), "env.sh") := GoEnvContent]
  {
    var envDir := FilePath.JoinPath(homeDir, ".stratusshell");
    var invalid := Validation.ValidateWorkingDir(envDir);
    if invalid.Some? {
      assert Written(old(host.files), [], host.failing) == old(host.files);
      return Some(Wrap("invalid env directory", Validation.ErrorText(invalid.value)));
    }
    var steps := GoEnvSteps(p, envDir);
    err := host.Run(steps);
    if err.None? {
      GoEnvWritesOneFile(old(host.files), p, envDir, host.failing);
    }
  }

  /** The effects of the Go toolchain: the package, then (once it installed and the home directory
      is known) the tools and the environment file. */
  function GoToolchainEffects(p: Provisioner, homeDir: Result<string>, failing: set<Effect>): seq<Effect> {
    GoPackageEffects(p, failing) +
    if !GoPackageInstalled(p, failing) || homeDir.Err? then []
    else AllGoToolEffects(p, p.config.languages.go.tools) + GoEnvEffects(p, homeDir.value, failing)
  }

  /** The files after the Go toolchain: only the environment-file setup writes. */
  function GoToolchainFiles(files: map<string, string>, p: Provisioner, homeDir: Result<string>, failing: set<Effect>): map<string, string> {
    if !GoPackageInstalled(p, failing) || homeDir.Err? then files
    else Written(files, GoEnvEffects(p, homeDir.value, failing), failing)
  }

  /** installGoToolchain: the Go package first (its failure ends the toolchain with an error), then the
      home directory, then the tools, whose failures are tolerated, then the environment file. */
  method InstallGoToolchain(host: Machine, p: Provisioner, homeDir: Result<string>) returns (err: Option<string>)
    modifies host
    ensures !GoPackageInstalled(p, host.failing) ==> exists e :: err == Some(Wrap("failed to install go", e))
    ensures GoPackageInstalled(p, host.failing) && homeDir.Err? ==> err == Some(homeDir.error)
    ensures GoPackageInstalled(p, host.failing) && homeDir.Ok? ==> (err.None? <==> GoEnvWritten(p, homeDir.value, host.failing))
    ensures host.log == old(host.log) + GoToolchainEffects(p, homeDir, host.failing)
    ensures host.files == GoToolchainFiles(old(host.files), p, homeDir, host.failing)
  {
    ghost var start := host.log;
    var e := InstallGoPackage(host, p);
    ghost var pkg := GoPackageEffects(p, host.failing);
    assert pkg + [] == pkg;
    if e.Some? {
      return Some(Wrap("failed to install go", e.value));
    }
    if homeDir.Err? {
      return Some(homeDir.error);
    }
    err := InstallGoExtras(host, p, homeDir.value);
    AppendAssoc(start, pkg, AllGoToolEffects(p, p.config.languages.go.tools) + GoEnvEffects(p, homeDir.value, host.failing));
  }

  /** The tools and the environment file, once the package is in and the home directory known. */
  method InstallGoExtras(host: Machine, p: Provisioner, homeDir: string) returns (err: Option<string>)
    modifies host
    ensures host.log == old(host.log) + (AllGoToolEffects(p, p.config.languages.go.tools) + GoEnvEffects(p, homeDir, host.failing))
    ensures host.files == Written(old(host.files), GoEnvEffects(p, homeDir, host.failing), host.failing)
    ensures err.None? <==> GoEnvWritten(p, homeDir, host.failing)
  {
    ghost var start := host.log;
    InstallGoTools(host, p, p.config.languages.go.tools);
    ghost var tools := AllGoToolEffects(p, p.config.languages.go.tools);
    err := WriteGoEnv(host, p, homeDir);
    AppendAssoc(start, tools, GoEnvEffects(p, homeDir, host.failing));
  }

  /** A global npm package. */
  function NpmGlobalArgv(pkg: string): seq<string> {
    ["npm", "install", "-g", pkg]
  }

  function NpmGlobalEffects(packages: seq<string>): seq<Effect>
    decreases |packages|
  {
    if packages == [] then [] else NpmGlobalEffects(packages[..|packages| - 1]) + [Exec(NpmGlobalArgv(packages[|packages| - 1]))]
  }

  /** The global-package loop; failures are tolerated. */
  method InstallNpmGlobals(host: Machine, packages: seq<string>)
    modifies host
    ensures host.log == old(host.log) + NpmGlobalEffects(packages) && host.files == old(host.files)
  {
    var i := 0;
    while i < |packages|
      invariant 0 <= i <= |packages|
      invariant host.log == old(host.log) + NpmGlobalEffects(packages[..i]) && host.files == old(host.files)
    {
      assert packages[..i + 1][..i] == packages[..i];
      var _ := host.Perform(Exec(NpmGlobalArgv(packages[i])));
      i := i + 1;
    }
    assert packages[..i] == packages;
  }

  /** The node installs after the package: each global package, then pnpm exactly when it is the
      configured package manager. */
  function NodeExtras(node: NodeConfig): seq<Effect> {
    NpmGlobalEffects(node.globalPackages) + (if node.packageManager == "pnpm" then [Exec(NpmGlobalArgv("pnpm"))] else [])
  }

  /** The Node directory under a home directory. */
  function NvmDir(homeDir: string): string {
    FilePath.JoinPath(homeDir, ".nvm")
  }

  /** The effects once the ~/.nvm directory is accepted: creating it, then the nodejs and npm packages,
      then the extras and the ownership change, each stage only when the one before succeeded. */
  function NodeEffects(p: Provisioner, nvmDir: string, failing: set<Effect>): seq<Effect> {
    if MakeDir(nvmDir) in failing then [MakeDir(nvmDir)]
    else if !InstallSucceeds(p.pm, ["nodejs", "npm"], failing) then [MakeDir(nvmDir)] + InstallEffects(p.pm, ["nodejs", "npm"])
    else [MakeDir(nvmDir)] + InstallEffects(p.pm, ["nodejs", "npm"]) + NodeExtras(p.config.languages.node) + [Chown(nvmDir, p.username)]
  }

  /** Whether the Node toolchain succeeds once the directory is accepted. */
  predicate NodeInstalled(p: Provisioner, nvmDir: string, failing: set<Effect>) {
    MakeDir(nvmDir) !in failing && InstallSucceeds(p.pm, ["nodejs", "npm"], failing) && Chown(nvmDir, p.username) !in failing
  }

  /** The stages after the directory check. */
  method InstallNodeIn(host: Machine, p: Provisioner, nvmDir: string) returns (err: Option<string>)
    modifies host
    ensures host.log == old(host.log) + NodeEffects(p, nvmDir, host.failing) && host.files == old(host.files)
    ensures err.None? <==> NodeInstalled(p, nvmDir, host.failing)
    ensures MakeDir(nvmDir) !in host.failing && !InstallSucceeds(p.pm, ["nodejs", "npm"], host.failing) ==>
      exists e :: err == Some(Wrap("failed to install nodejs", e))
  {
    err := host.Perform(MakeDir(nvmDir));
    if err.Some? {
      return;
    }
    var e := Install(host, p.pm, ["nodejs", "npm"]);
    if e.Some? {
      return Some(Wrap("failed to install nodejs", e.value));
    }
    err := InstallNodeExtras(host, p, nvmDir);
  }

  /** The global packages, pnpm when configured, and the ownership change of ~/.nvm. */
  method InstallNodeExtras(host: Machine, p: Provisioner, nvmDir: string) returns (err: Option<string>)
    modifies host
    ensures host.log == old(host.log) + NodeExtras(p.config.languages.node) + [Chown(nvmDir, p.username)]
    ensures host.files == old(host.files)
    ensures err.None? <==> Chown(nvmDir, p.username) !in host.failing
  {
    InstallNpmGlobals(host, p.config.languages.node.globalPackages);
    if p.config.languages.node.packageManager == "pnpm" {
      var _ := host.Perform(Exec(NpmGlobalArgv("pnpm")));
    }
    err := host.Perform(Chown(nvmDir, p.username));
  }

  /** The effects of the Node toolchain: none when the home directory is unknown or ~/.nvm is refused. */
  function NodeToolchainEffects(p: Provisioner, homeDir: Result<string>, failing: set<Effect>): seq<Effect> {
    if homeDir.Err? || Validation.ValidateWorkingDir(NvmDir(homeDir.value)).Some? then []
    else NodeEffects(p, NvmDir(homeDir.value), failing)
  }

  /** installNodeToolchain: the home directory, then the ~/.nvm directory is validated (a refused
      directory runs nothing), then the stages of InstallNodeIn. */
  method InstallNodeToolchain(host: Machine, p: Provisioner, homeDir: Result<string>) returns (err: Option<string>)
    modifies host
    ensures homeDir.Err? ==> err == Some(homeDir.error)
    ensures homeDir.Ok? && Validation.ValidateWorkingDir(NvmDir(homeDir.value)).Some? ==> err.Some?
    ensures homeDir.Ok? && Validation.ValidateWorkingDir(NvmDir(homeDir.value)).None? ==>
      (err.None? <==> NodeInstalled(p, NvmDir(homeDir.value), host.failing))
    ensures host.log == old(host.log) + NodeToolchainEffects(p, homeDir, host.failing)
    ensures host.files == old(host.files)
  {
    if homeDir.Err? {
      return Some(homeDir.error);
    }
    var nvmDir := FilePath.JoinPath(homeDir.value, ".nvm");
    var invalid := Validation.ValidateWorkingDir(nvmDir);
    if invalid.Some? {
      return Some(Wrap("invalid nvm directory", Validation.ErrorText(invalid.value)));
    }
    err := InstallNodeIn(host, p, nvmDir);
  }

  /** pnpm is installed exactly when it is the configured package manager. */
  lemma PnpmIffConfigured(node: NodeConfig)
    ensures Exec(NpmGlobalArgv("pnpm")) in NodeExtras(node)[|NpmGlobalEffects(node.globalPackages)|..] <==> node.packageManager == "pnpm"
  {
  }

  /** The effects of InstallLanguageToolchains: the Go toolchain when enabled, then the Node
      toolchain when enabled, whatever became of the Go one. */
  function LanguageToolchainEffects(p: Provisioner, homeDir: Result<string>, failing: set<Effect>): seq<Effect> {
    (if p.config.languages.go.enabled then GoToolchainEffects(p, homeDir, failing) else []) +
    (if p.config.languages.node.enabled then NodeToolchainEffects(p, homeDir, failing) else [])
  }

  /** With both toolchains enabled and a known package manager, the run begins with the golang
      install, and a failed Go toolchain still leaves the Node toolchain's effects at the end. */
  lemma GoBeforeNode(p: Provisioner, homeDir: Result<string>, failing: set<Effect>)
    requires p.config.languages.go.enabled && p.config.languages.node.enabled && Known(p.pm)
    ensures LanguageToolchainEffects(p, homeDir, failing)[0] == Exec(InstallArgv(p.pm, ["golang"]).value)
    ensures !GoPackageInstalled(p, failing) ==>
      LanguageToolchainEffects(p, homeDir, failing) == GoPackageEffects(p, failing) + NodeToolchainEffects(p, homeDir, failing)
  {
    var go := GoToolchainEffects(p, homeDir, failing);
    assert go[0] == GoPackageEffects(p, failing)[0];
    if !GoPackageInstalled(p, failing) {
      assert go == GoPackageEffects(p, failing);
    }
  }

  /** InstallLanguageToolchains: the enabled toolchains in turn; their failures never fail the whole. */
  method InstallLanguageToolchains(host: Machine, p: Provisioner, homeDir: Result<string>) returns (err: Option<string>)
    modifies host
    ensures err == None
    ensures host.log == old(host.log) + LanguageToolchainEffects(p, homeDir, host.failing)
    ensures host.files == if p.config.languages.go.enabled then GoToolchainFiles(old(host.files), p, homeDir, host.failing) else old(host.files)
  {
    ghost var start := host.log;
    if p.config.languages.go.enabled {
      var _ := InstallGoToolchain(host, p, homeDir);
    }
    ghost var go := if p.config.languages.go.enabled then GoToolchainEffects(p, homeDir, host.failing) else [];
    assert host.log == start + go;
    if p.config.languages.node.enabled {
      var _ := InstallNodeToolchain(host, p, homeDir);
    }
    AppendAssoc(start, go, if p.config.languages.node.enabled then NodeToolchainEffects(p, homeDir, host.failing) else []);
    err := None;
  }
}
