/** The provisioning configuration as plain values (the YAML file it is read from is not modelled). */
module ProvisionConfig {

  datatype CloudConfig = CloudConfig(aws: bool, gcloud: bool, kubectl: bool, docker: bool, terraform: bool)

  datatype GoConfig = GoConfig(enabled: bool, version: string, tools: seq<string>)

  datatype NodeConfig = NodeConfig(enabled: bool, version: string, packageManager: string, globalPackages: seq<string>)

  datatype LanguagesConfig = LanguagesConfig(go: GoConfig, node: NodeConfig)

  datatype ShellConfig = ShellConfig(zsh: bool, ohMyZsh: bool, tmux: bool)

  datatype McpServerInstall = McpServerInstall(name: string, package: string, command: string, args: seq<string>, env: map<string, string>)

  datatype ClaudeConfig = ClaudeConfig(enabled: bool, allow: seq<string>, deny: seq<string>, ask: seq<string>, mcpServers: seq<McpServerInstall>)

  datatype Config = Config(
    userShell: string,
    base: seq<string>,
    cloud: CloudConfig,
    languages: LanguagesConfig,
    shell: ShellConfig,
    claude: ClaudeConfig)

  /** The provisioner: the detected package manager, the user being provisioned and the configuration. */
  datatype Provisioner = Provisioner(pm: int, username: string, config: Config)
}
