/** The assistant configuration written into the user's home directory, and the MCP servers installed
    as global npm packages. */
module Claude {
  import opened Wrappers
  import opened Host
  import opened ProvisionConfig
  import Decimal
  import FilePath
  import Validation

  /** The permission lists of settings.json. */
  datatype Permissions = Permissions(allow: seq<string>, deny: seq<string>, ask: seq<string>)

  /** How to start one MCP server. */
  datatype McpServerConfig = McpServerConfig(command: string, args: seq<string>, env: map<string, string>)

  /** settings.json: the permissions, and the MCP servers by name, absent when none is configured. */
  datatype Settings = Settings(permissions: Permissions, mcpServers: Option<map<string, McpServerConfig>>)

  function ServerConfig(s: McpServerInstall): McpServerConfig {
    McpServerConfig(s.command, s.args, s.env)
  }

  /** The server map after the entries in order: a later entry with the same name replaces an earlier one. */
  function ServersMap(servers: seq<McpServerInstall>): map<string, McpServerConfig>
    decreases |servers|
  {
    if servers == [] then map[]
    else ServersMap(servers[..|servers| - 1])[servers[|servers| - 1].name := ServerConfig(servers[|servers| - 1])]
  }

  /** The map's keys are exactly the names, and each name maps to the configuration of its last entry. */
  lemma {:induction false} ServersMapLastWins(servers: seq<McpServerInstall>, name: string)
    ensures name in ServersMap(servers) <==> exists i :: 0 <= i < |servers| && servers[i].name == name
    ensures name in ServersMap(servers) ==>
      exists i :: 0 <= i < |servers| && servers[i].name == name && ServersMap(servers)[name] == ServerConfig(servers[i]) &&
        forall j :: i < j < |servers| ==> servers[j].name != name
    decreases |servers|
  {
    if servers != [] {
      var n := |servers| - 1;
      var init := servers[..n];
      ServersMapLastWins(init, name);
      if servers[n].name == name {
        assert servers[n].name == name && ServersMap(servers)[name] == ServerConfig(servers[n]);
      } else {
        forall i | 0 <= i < n ensures init[i] == servers[i] {}
        if name in ServersMap(servers) {
          var i :| 0 <= i < |init| && init[i].name == name && ServersMap(init)[name] == ServerConfig(init[i]) &&
            forall j :: i < j < |init| ==> init[j].name != name;
          assert servers[i].name == name && ServersMap(servers)[name] == ServerConfig(servers[i]);
          assert forall j :: i < j < |servers| ==> servers[j].name != name;
        } else {
          forall i | 0 <= i < |servers| ensures servers[i].name != name {
            if i < n {
              assert init[i] == servers[i];
            }
          }
        }
      }
    }
  }

  /** The loop that fills the server map. */
  method BuildServers(servers: seq<McpServerInstall>) returns (m: map<string, McpServerConfig>)
    ensures m == ServersMap(servers)
  {
    m := map[];
    var i := 0;
    while i < |servers|
      invariant 0 <= i <= |servers| && m == ServersMap(servers[..i])
    {
      assert servers[..i + 1][..i] == servers[..i];
      m := m[servers[i].name := ServerConfig(servers[i])];
      i := i + 1;
    }
    assert servers[..i] == servers;
  }

  /** The settings for a configuration: its permission lists as given, and the server map only when
      at least one server is configured. */
  function SettingsFor(c: ClaudeConfig): Settings {
    Settings(Permissions(c.allow, c.deny, c.ask), if c.mcpServers == [] then None else Some(ServersMap(c.mcpServers)))
  }

  /** The settings built field by field, the server map through its loop. */
  method BuildSettings(c: ClaudeConfig) returns (s: Settings)
    ensures s.permissions == Permissions(c.allow, c.deny, c.ask)
    ensures s.mcpServers.None? <==> c.mcpServers == []
    ensures s.mcpServers.Some? ==> s.mcpServers.value == ServersMap(c.mcpServers)
    ensures s == SettingsFor(c)
  {
    var servers: Option<map<string, McpServerConfig>> := None;
    if |c.mcpServers| > 0 {
      var m := BuildServers(c.mcpServers);
      servers := Some(m);
    }
    s := Settings(Permissions(c.allow, c.deny, c.ask), servers);
  }

  function ClaudeDir(homeDir: string): string {
    FilePath.JoinPath(homeDir, ".claude")
  }

  function SettingsPath(homeDir: string): string {
    FilePath.JoinPath(ClaudeDir(homeDir), "settings.json")
  }

  /** The effects of the stages after the home directory check, given the encoded settings: create
      ~/.claude, then (when encoding succeeded) write settings.json, then hand the directory to the user,
      each stage only after the previous one succeeded. */
  function SettingsEffects(p: Provisioner, homeDir: string, data: Result<string>, failing: set<Effect>): seq<Effect> {
    var mkdir := MakeDir(ClaudeDir(homeDir));
    if mkdir in failing || data.Err? then [mkdir]
    else
      var write := WriteFile(SettingsPath(homeDir), data.value);
      if write in failing then [mkdir, write] else [mkdir, write, Chown(ClaudeDir(homeDir), p.username)]
  }

  /** The files afterwards: settings.json holds the encoded settings once its write succeeded. */
  function SettingsFiles(files: map<string, string>, homeDir: string, data: Result<string>, failing: set<Effect>): map<string, string> {
    if MakeDir(ClaudeDir(homeDir)) in failing || data.Err? || WriteFile(SettingsPath(homeDir), data.value) in failing then files
    else files[SettingsPath(homeDir) := data.value]
  }

  /** The error of the first stage that failed, wrapped with that stage's message. */
  function SettingsOutcome(p: Provisioner, homeDir: string, data: Result<string>, failing: set<Effect>): Option<string> {
    if MakeDir(ClaudeDir(homeDir)) in failing then Some(Wrap("failed to create .claude directory", EffectFailed))
    else if data.Err? then Some(Wrap("failed to marshal Claude settings", data.error))
    else if WriteFile(SettingsPath(homeDir), data.value) in failing then Some(Wrap("failed to write Claude settings", EffectFailed))
    else if Chown(ClaudeDir(homeDir), p.username) in failing then Some(Wrap("failed to set ownership", EffectFailed))
    else None
  }

  /** The stages after the home directory check: create ~/.claude, encode and write settings.json,
      then hand the directory to the user; each failure is an error naming its stage. */
  method WriteSettings(host: Machine, p: Provisioner, homeDir: string, marshal: Settings -> Result<string>)
    returns (err: Option<string>, settings: Settings)
    modifies host
    ensures settings.permissions == Permissions(p.config.claude.allow, p.config.claude.deny, p.config.claude.ask)
    ensures settings.mcpServers.None? <==> p.config.claude.mcpServers == []
    ensures settings.mcpServers.Some? ==> settings.mcpServers.value == ServersMap(p.config.claude.mcpServers)
    ensures settings == SettingsFor(p.config.claude)
    ensures host.log == old(host.log) + SettingsEffects(p, homeDir, marshal(settings), host.failing)
    ensures host.files == SettingsFiles(old(host.files), homeDir, marshal(settings), host.failing)
    ensures err == SettingsOutcome(p, homeDir, marshal(settings), host.failing)
    ensures MakeDir(ClaudeDir(homeDir)) in host.failing ==>
      host.log == old(host.log) + [MakeDir(ClaudeDir(homeDir))] && host.files == old(host.files) &&
      err == Some(Wrap("failed to create .claude directory", EffectFailed))
    ensures MakeDir(ClaudeDir(homeDir)) !in host.failing && marshal(settings).Err? ==>
      host.log == old(host.log) + [MakeDir(ClaudeDir(homeDir))] && host.files == old(host.files) &&
      err == Some(Wrap("failed to marshal Claude settings", marshal(settings).error))
    ensures MakeDir(ClaudeDir(homeDir)) !in host.failing && marshal(settings).Ok? ==>
      var write := WriteFile(SettingsPath(homeDir), marshal(settings).value);
      (write in host.failing ==>
        host.log == old(host.log) + [MakeDir(ClaudeDir(homeDir)), write] && host.files == old(host.files) &&
        err == Some(Wrap("failed to write Claude settings", EffectFailed))) &&
      (write !in host.failing ==>
        host.log == old(host.log) + [MakeDir(ClaudeDir(homeDir)), write, Chown(ClaudeDir(homeDir), p.username)] &&
        host.files == old(host.files)[SettingsPath(homeDir) := marshal(settings).value] &&
        (err.None? <==> Chown(ClaudeDir(homeDir), p.username) !in host.failing))
  {
    settings := BuildSettings(p.config.claude);
    var dir := ClaudeDir(homeDir);
    err := host.Perform(MakeDir(dir));
    if err.Some? {
      return Some(Wrap("failed to create .claude directory", err.value)), settings;
    }
    var data := marshal(settings);
    if data.Err? {
      return Some(Wrap("failed to marshal Claude settings", data.error)), settings;
    }
    err := host.Write(SettingsPath(homeDir), data.value);
    if err.Some? {
      return Some(Wrap("failed to write Claude settings", err.value)), settings;
    }
    err := host.Perform(Chown(dir, p.username));
    if err.Some? {
      err := Some(Wrap("failed to set ownership", err.value));
    }
  }

  /** SetupClaudeConfig: nothing when disabled; otherwise the home directory and its check come first,
      and a refusal there happens before any effect; after that, the stages of WriteSettings run on the
      settings the configuration determines, and a success leaves settings.json holding their encoding. */
  method SetupClaudeConfig(host: Machine, p: Provisioner, homeDir: Result<string>, marshal: Settings -> Result<string>)
    returns (err: Option<string>)
    modifies host
    ensures !p.config.claude.enabled ==> err == None && host.log == old(host.log) && host.files == old(host.files)
    ensures p.config.claude.enabled && homeDir.Err? ==>
      err == Some(Wrap("failed to get home directory", homeDir.error)) && host.log == old(host.log) && host.files == old(host.files)
    ensures p.config.claude.enabled && homeDir.Ok? && Validation.ValidateWorkingDir(homeDir.value).Some? ==>
      err.Some? && host.log == old(host.log) && host.files == old(host.files)
    ensures err.None? && p.config.claude.enabled ==>
      homeDir.Ok? && SettingsPath(homeDir.value) in host.files && host.files.Keys == old(host.files).Keys + {SettingsPath(homeDir.value)}
    ensures p.config.claude.enabled && homeDir.Ok? && Validation.ValidateWorkingDir(homeDir.value).None? ==>
      var data := marshal(SettingsFor(p.config.claude));
      host.log == old(host.log) + SettingsEffects(p, homeDir.value, data, host.failing) &&
      host.files == SettingsFiles(old(host.files), homeDir.value, data, host.failing) &&
      err == SettingsOutcome(p, homeDir.value, data, host.failing)
    ensures err.None? && p.config.claude.enabled ==>
      homeDir.Ok? && host.files == old(host.files)[SettingsPath(homeDir.value) := marshal(SettingsFor(p.config.claude)).value]
  {
    if !p.config.claude.enabled {
      return None;
    }
    if homeDir.Err? {
      return Some(Wrap("failed to get home directory", homeDir.error));
    }
    var invalid := Validation.ValidateWorkingDir(homeDir.value);
    if invalid.Some? {
      return Some(Wrap("invalid home directory", Validation.ErrorText(invalid.value)));
    }
    var settings;
    err, settings := WriteSettings(host, p, homeDir.value, marshal);
  }

  /** The global install of an MCP server's package, as the provisioned user. */
  function McpArgv(user: string, pkg: string): seq<string> {
    ["sudo", "-u", user, "npm", "install", "-g", pkg]
  }

  /** The error text of a failed npm install; the command's combined output is not modelled. */
  const NpmFailed: string := "npm install failed: " + EffectFailed + " (output: )"

  /** The outcome of installing one server: a refused package name runs nothing. */
  function ServerOutcome(user: string, pkg: string, npmCheck: string -> Option<string>, failing: set<Effect>): Option<string> {
    if npmCheck(pkg).Some? then Some(Wrap("invalid package name", npmCheck(pkg).value))
    else if Exec(McpArgv(user, pkg)) in failing then Some(NpmFailed)
    else None
  }

  function ServerEffects(user: string, pkg: string, npmCheck: string -> Option<string>): seq<Effect> {
    if npmCheck(pkg).Some? then [] else [Exec(McpArgv(user, pkg))]
  }

  /** installMCPServer: the package name is checked before anything runs. */
  method InstallMcpServer(host: Machine, user: string, server: McpServerInstall, npmCheck: string -> Option<string>)
    returns (err: Option<string>)
    modifies host
    ensures host.log == old(host.log) + ServerEffects(user, server.package, npmCheck) && host.files == old(host.files)
    ensures err == ServerOutcome(user, server.package, npmCheck, host.failing)
  {
    var invalid := npmCheck(server.package);
    if invalid.Some? {
      return Some(Wrap("invalid package name", invalid.value));
    }
    err := host.Perform(Exec(McpArgv(user, server.package)));
    if err.Some? {
      err := Some(NpmFailed);
    }
  }

  /** The effects of the install loop: entries without a package are skipped. */
  function McpEffects(user: string, servers: seq<McpServerInstall>, npmCheck: string -> Option<string>): seq<Effect>
    decreases |servers|
  {
    if servers == [] then []
    else
      var s := servers[|servers| - 1];
      McpEffects(user, servers[..|servers| - 1], npmCheck) + (if s.package == "" then [] else ServerEffects(user, s.package, npmCheck))
  }

  /** The errors of the install loop, oldest first, each prefixed with its server's name. */
  function McpErrors(user: string, servers: seq<McpServerInstall>, npmCheck: string -> Option<string>, failing: set<Effect>): seq<string>
    decreases |servers|
  {
    if servers == [] then []
    else
      var s := servers[|servers| - 1];
      var outcome := if s.package == "" then None else ServerOutcome(user, s.package, npmCheck, failing);
      McpErrors(user, servers[..|servers| - 1], npmCheck, failing) + (if outcome.Some? then [s.name + ": " + outcome.value] else [])
  }

  /** The number of entries with a package. */
  function WithPackage(servers: seq<McpServerInstall>): nat
    decreases |servers|
  {
    if servers == [] then 0 else WithPackage(servers[..|servers| - 1]) + (if servers[|servers| - 1].package == "" then 0 else 1)
  }

  /** At most one error per entry with a package. */
  lemma {:induction false} McpErrorsBound(user: string, servers: seq<McpServerInstall>, npmCheck: string -> Option<string>, failing: set<Effect>)
    ensures |McpErrors(user, servers, npmCheck, failing)| <= WithPackage(servers)
    decreases |servers|
  {
    if servers != [] {
      McpErrorsBound(user, servers[..|servers| - 1], npmCheck, failing);
    }
  }

  /** Whether every entry with a package installs. */
  predicate AllInstall(user: string, servers: seq<McpServerInstall>, npmCheck: string -> Option<string>, failing: set<Effect>) {
    forall i :: 0 <= i < |servers| && servers[i].package != "" ==> ServerOutcome(user, servers[i].package, npmCheck, failing).None?
  }

  /** There are no errors exactly when every entry with a package installs. */
  lemma {:induction false} McpErrorsEmpty(user: string, servers: seq<McpServerInstall>, npmCheck: string -> Option<string>, failing: set<Effect>)
    ensures McpErrors(user, servers, npmCheck, failing) == [] <==> AllInstall(user, servers, npmCheck, failing)
    decreases |servers|
  {
    if servers != [] {
      var n := |servers| - 1;
      var init := servers[..n];
      McpErrorsEmpty(user, init, npmCheck, failing);
      var last := servers[n];
      var lastOk := last.package == "" || ServerOutcome(user, last.package, npmCheck, failing).None?;
      assert McpErrors(user, servers, npmCheck, failing) == [] <==> McpErrors(user, init, npmCheck, failing) == [] && lastOk;
      forall i | 0 <= i < n ensures init[i] == servers[i] {}
      assert AllInstall(user, servers, npmCheck, failing) <==> AllInstall(user, init, npmCheck, failing) && lastOk;
    }
  }

  /** strings.Join with a separator string. */
  function JoinWith(parts: seq<string>, sep: string): string
    decreases |parts|
  {
    if parts == [] then "" else if |parts| == 1 then parts[0] else parts[0] + sep + JoinWith(parts[1..], sep)
  }

  /** The error of InstallMCPServers when some installs failed. */
  function McpFailure(errors: seq<string>): string {
    "failed to install " + Decimal.IntToString(|errors|) + " MCP server(s): " + JoinWith(errors, "; ")
  }

  /** The install loop, counting successes and failures. */
  method InstallEach(host: Machine, user: string, servers: seq<McpServerInstall>, npmCheck: string -> Option<string>)
    returns (installed: nat, errors: seq<string>)
    modifies host
    ensures host.log == old(host.log) + McpEffects(user, servers, npmCheck) && host.files == old(host.files)
    ensures errors == McpErrors(user, servers, npmCheck, host.failing)
    ensures installed + |errors| == WithPackage(servers)
  {
    installed, errors := 0, [];
    var i := 0;
    while i < |servers|
      invariant 0 <= i <= |servers|
      invariant host.log == old(host.log) + McpEffects(user, servers[..i], npmCheck) && host.files == old(host.files)
      invariant errors == McpErrors(user, servers[..i], npmCheck, host.failing)
      invariant installed + |errors| == WithPackage(servers[..i])
    {
      assert servers[..i + 1][..i] == servers[..i];
      var s := servers[i];
      if s.package != "" {
        var err := InstallMcpServer(host, user, s, npmCheck);
        if err.Some? {
          errors := errors + [s.name + ": " + err.value];
        } else {
          installed := installed + 1;
        }
      }
      i := i + 1;
    }
    assert servers[..i] == servers;
  }

  /** InstallMCPServers: nothing when disabled or when no server is configured; otherwise every entry
      with a package is attempted, and the result reports how many failed and why. */
  method InstallMcpServers(host: Machine, p: Provisioner, npmCheck: string -> Option<string>) returns (err: Option<string>)
    modifies host
    ensures !p.config.claude.enabled || p.config.claude.mcpServers == [] ==>
      err == None && host.log == old(host.log) && host.files == old(host.files)
    ensures p.config.claude.enabled ==>
      host.log == old(host.log) + McpEffects(p.username, p.config.claude.mcpServers, npmCheck) && host.files == old(host.files)
    ensures p.config.claude.enabled ==>
      var errors := McpErrors(p.username, p.config.claude.mcpServers, npmCheck, host.failing);
      (errors == [] ==> err == None) && (errors != [] ==> err == Some(McpFailure(errors)))
    ensures err.None? <==> !p.config.claude.enabled || AllInstall(p.username, p.config.claude.mcpServers, npmCheck, host.failing)
  {
    if !p.config.claude.enabled {
      return None;
    }
    if |p.config.claude.mcpServers| == 0 {
      assert AllInstall(p.username, p.config.claude.mcpServers, npmCheck, host.failing);
      return None;
    }
    var installed, errors := InstallEach(host, p.username, p.config.claude.mcpServers, npmCheck);
    McpErrorsEmpty(p.username, p.config.claude.mcpServers, npmCheck, host.failing);
    if |errors| > 0 {
      return Some(McpFailure(errors));
    }
    err := None;
  }
}
