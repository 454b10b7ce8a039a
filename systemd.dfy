/** The systemd unit that runs StratusShell for one user: its name, its file, its validation and its
    contents, and the steps that install and remove it. */
module Systemd {
  import opened Wrappers
  import opened Host
  import Text
  import Decimal
  import FilePath

  /** The unit's parameters. */
  datatype ServiceConfig = ServiceConfig(user: string, homeDir: string, binaryPath: string, port: int)

  const NamePrefix: string := "stratusshell-"
  const NameSuffix: string := ".service"

  /** getServiceName. */
  function ServiceName(user: string): string {
    NamePrefix + user + NameSuffix
  }

  /** The user is recovered from the service name, so different users get different units. */
  lemma ServiceNameParts(user: string)
    ensures |ServiceName(user)| == |user| + 21
    ensures ServiceName(user)[..13] == NamePrefix && ServiceName(user)[|user| + 13..] == NameSuffix
    ensures ServiceName(user)[13..|user| + 13] == user
  {
  }

  lemma ServiceNameInjective(u: string, v: string)
    requires ServiceName(u) == ServiceName(v)
    ensures u == v
  {
    ServiceNameParts(u);
    ServiceNameParts(v);
  }

  const UnitDir: string := "/etc/systemd/system"

  /** getServicePath. */
  function ServicePath(name: string): string {
    FilePath.JoinPath(UnitDir, name)
  }

  /** A plain file name lands directly in the unit directory. */
  lemma ServicePathPlain(name: string)
    requires FilePath.PlainElem(name) && name != ".."
    ensures ServicePath(name) == UnitDir + "/" + name
  {
    var elems := ["etc", "systemd", "system", name];
    assert Text.Join(elems[2..], '/') == "system/" + name;
    assert Text.Join(elems[1..], '/') == "systemd/system/" + name;
    assert "/" + Text.Join(elems, '/') == UnitDir + "/" + name;
    FilePath.CleanOfPlain(elems);
  }

  /** The binary used when the running executable's path is unknown. */
  const DefaultBinary: string := "/usr/local/bin/stratusshell"

  /** getBinaryPath: the running executable's path, or the default when it cannot be found. */
  function BinaryPath(executable: Option<string>): (r: string)
    ensures executable.None? ==> r == DefaultBinary
    ensures executable.Some? ==> r == executable.value
  {
    if executable.Some? then executable.value else DefaultBinary
  }

  /** The character class [a-zA-Z0-9_-] of user names. */
  predicate UserChar(c: char) {
    ('a' <= c <= 'z') || ('A' <= c <= 'Z') || ('0' <= c <= '9') || c == '_' || c == '-'
  }

  predicate ValidUser(user: string) {
    |user| > 0 && forall i :: 0 <= i < |user| ==> UserChar(user[i])
  }

  /** A valid user's service name is a plain file name. */
  lemma ServiceNamePlain(user: string)
    requires ValidUser(user)
    ensures FilePath.PlainElem(ServiceName(user)) && ServiceName(user) != ".."
  {
    ServiceNameParts(user);
    var n := ServiceName(user);
    forall i | 0 <= i < |n| ensures n[i] != '/' {
      if 13 <= i < |user| + 13 {
        assert n[i] == user[i - 13];
      } else if i < 13 {
        assert n[i] == NamePrefix[i];
      } else {
        assert n[i] == NameSuffix[i - |user| - 13];
      }
    }
  }

  const PortMessage: string := "port must be between 1 and 65535, got "

  /** validateServiceConfig: user, then its characters, then the port, the home directory and the
      binary; the first failing check is the error. */
  function ValidateServiceConfig(c: ServiceConfig): (r: Option<string>)
    ensures r.None? <==> ValidUser(c.user) && 1 <= c.port <= 65535 && c.homeDir != "" && c.binaryPath != ""
    ensures c.user == "" ==> r == Some("username cannot be empty")
    ensures c.user != "" && !ValidUser(c.user) ==>
      r == Some("username contains invalid characters. Only alphanumeric, underscore, and dash are allowed")
    ensures ValidUser(c.user) && !(1 <= c.port <= 65535) ==> r == Some(PortMessage + Decimal.IntToString(c.port))
    ensures ValidUser(c.user) && 1 <= c.port <= 65535 && c.homeDir == "" ==> r == Some("home directory cannot be empty")
    ensures ValidUser(c.user) && 1 <= c.port <= 65535 && c.homeDir != "" && c.binaryPath == "" ==> r == Some("binary path cannot be empty")
  {
    if c.user == "" then Some("username cannot be empty")
    else if !ValidUser(c.user) then Some("username contains invalid characters. Only alphanumeric, underscore, and dash are allowed")
    else if c.port < 1 || c.port > 65535 then Some(PortMessage + Decimal.IntToString(c.port))
    else if c.homeDir == "" then Some("home directory cannot be empty")
    else if c.binaryPath == "" then Some("binary path cannot be empty")
    else None
  }

  const NetworkLine: string := "After=network.target"
  const WantedLine: string := "WantedBy=multi-user.target"

  /** The fixed text of the unit, in the pieces between its placeholders. */
  const UnitHead: string := "[Unit]\nDescription=StratusShell for "
  const ServiceHead: string := "\n\n[Service]\nType=simple\nUser="
  const WorkDirHead: string := "\nWorkingDirectory="
  const ServiceTail: string := "\nRestart=always\nRestartSec=10\nStandardOutput=journal\nStandardError=journal\n\n"
  const InstallSection: string := "[Install]\n" + WantedLine + "\n"

  /** The ExecStart line of the unit. */
  function ExecLine(c: ServiceConfig): string {
    Text.Concat(["ExecStart=", c.binaryPath, " serve --user=", c.user, " --port=", Decimal.IntToString(c.port)])
  }

  /** The pieces of the unit file: the template's text with the configuration in its placeholders. */
  function ContentPieces(c: ServiceConfig): seq<string> {
    [UnitHead, c.user, "\n", NetworkLine, ServiceHead, c.user, WorkDirHead, c.homeDir, "\n", ExecLine(c), ServiceTail, InstallSection]
  }

  /** The unit file. */
  function ServiceContent(c: ServiceConfig): string {
    Text.Concat(ContentPieces(c))
  }

  /** The installation section ends the unit. */
  lemma InstallSectionMentions()
    ensures Text.Contains(InstallSection, WantedLine)
  {
    Text.ContainsMiddle("[Install]\n", WantedLine, "\n");
  }

  /** The unit names its user, home directory, binary and port, starts after the network and is wanted
      by the multi-user target. */
  lemma ServiceContentMentions(c: ServiceConfig)
    ensures Text.Contains(ServiceContent(c), c.user)
    ensures Text.Contains(ServiceContent(c), c.homeDir)
    ensures Text.Contains(ServiceContent(c), c.binaryPath)
    ensures Text.Contains(ServiceContent(c), Decimal.IntToString(c.port))
    ensures Text.Contains(ServiceContent(c), ExecLine(c))
    ensures Text.Contains(ServiceContent(c), NetworkLine)
    ensures Text.Contains(ServiceContent(c), WantedLine)
  {
    var pieces := ContentPieces(c);
    var exec := ["ExecStart=", c.binaryPath, " serve --user=", c.user, " --port=", Decimal.IntToString(c.port)];
    Text.ConcatContainsPiece(pieces, 1);
    Text.ConcatContainsPiece(pieces, 3);
    Text.ConcatContainsPiece(pieces, 7);
    Text.ConcatContainsPiece(pieces, 9);
    Text.ConcatContainsPiece(pieces, 11);
    Text.ConcatContainsPiece(exec, 1);
    Text.ConcatContainsPiece(exec, 5);
    InstallSectionMentions();
    Text.ContainsWithin(ServiceContent(c), ExecLine(c), c.binaryPath);
    Text.ContainsWithin(ServiceContent(c), ExecLine(c), Decimal.IntToString(c.port));
    Text.ContainsWithin(ServiceContent(c), InstallSection, WantedLine);
  }

  /** The error context of each installation step, in order. */
  const StepContexts: seq<string> := ["failed to create service file", "failed to write service file",
    "failed to reload systemd", "failed to enable service", "failed to start service"]

  /** The installation steps: create (truncate) the unit file, write it, reload systemd, enable and start. */
  function InstallSteps(c: ServiceConfig): seq<Effect> {
    var name := ServiceName(c.user);
    [WriteFile(ServicePath(name), ""), WriteFile(ServicePath(name), ServiceContent(c)),
     Exec(["systemctl", "daemon-reload"]), Exec(["systemctl", "enable", name]), Exec(["systemctl", "start", name])]
  }

  /** The running of the steps, stopping at the first failure; the error names that step. */
  method RunInstall(host: Machine, c: ServiceConfig) returns (err: Option<string>)
    modifies host
    ensures host.log == old(host.log) + UntilFailure(InstallSteps(c), host.failing)
    ensures host.files == Written(old(host.files), UntilFailure(InstallSteps(c), host.failing), host.failing)
    ensures err.None? <==> AllSucceed(InstallSteps(c), host.failing)
    ensures err.Some? ==> err == Some(Wrap(StepContexts[|UntilFailure(InstallSteps(c), host.failing)| - 1], EffectFailed))
  {
    var steps := InstallSteps(c);
    err := host.Run(steps);
    if err.Some? {
      var done := UntilFailure(steps, host.failing);
      assert |done| >= 1 by {
        if done == [] {
          assert steps[0] in host.failing || steps[0] !in host.failing;
        }
      }
      err := Some(Wrap(StepContexts[|done| - 1], err.value));
    }
  }

  /** The outcome of the user lookup: the home directory, or the lookup's error. */
  function LookupError(user: string, err: string): string {
    Wrap("failed to lookup user \"" + user + "\"", err)
  }

  /** InstallSystemdService: the home directory, the binary and the port make the configuration, which is
      validated before the unit file is created. */
  method InstallSystemdService(host: Machine, user: string, port: int, lookup: Result<string>, executable: Option<string>)
    returns (err: Option<string>)
    modifies host
    ensures lookup.Err? ==> err == Some(LookupError(user, lookup.error)) && host.log == old(host.log) && host.files == old(host.files)
    ensures lookup.Ok? && ValidateServiceConfig(ServiceConfig(user, lookup.value, BinaryPath(executable), port)).Some? ==>
      err == Some(Wrap("invalid service configuration", ValidateServiceConfig(ServiceConfig(user, lookup.value, BinaryPath(executable), port)).value)) &&
      host.log == old(host.log) && host.files == old(host.files)
    ensures lookup.Ok? && ValidateServiceConfig(ServiceConfig(user, lookup.value, BinaryPath(executable), port)).None? ==>
      var c := ServiceConfig(user, lookup.value, BinaryPath(executable), port);
      host.log == old(host.log) + UntilFailure(InstallSteps(c), host.failing) &&
      (err.None? <==> AllSucceed(InstallSteps(c), host.failing))
    ensures err.None? ==>
      host.files == old(host.files)[UnitDir + "/stratusshell-" + user + ".service" := ServiceContent(ServiceConfig(user, lookup.value, BinaryPath(executable), port))]
  {
    if lookup.Err? {
      return Some(LookupError(user, lookup.error));
    }
    var c := ServiceConfig(user, lookup.value, BinaryPath(executable), port);
    var invalid := ValidateServiceConfig(c);
    if invalid.Some? {
      return Some(Wrap("invalid service configuration", invalid.value));
    }
    err := RunInstall(host, c);
    if err.None? {
      InstallWrites(old(host.files), c, host.failing);
      ServicePathOfUser(user);
    }
  }

  /** A valid user's unit file is /etc/systemd/system/stratusshell-<user>.service. */
  lemma ServicePathOfUser(user: string)
    requires ValidUser(user)
    ensures ServicePath(ServiceName(user)) == UnitDir + "/stratusshell-" + user + ".service"
  {
    ServiceNamePlain(user);
    ServicePathPlain(ServiceName(user));
  }

  /** When every step succeeds, the only file changed is the unit file, holding the unit. */
  lemma InstallWrites(files: map<string, string>, c: ServiceConfig, failing: set<Effect>)
    requires AllSucceed(InstallSteps(c), failing)
    ensures Written(files, UntilFailure(InstallSteps(c), failing), failing) ==
      files[ServicePath(ServiceName(c.user)) := ServiceContent(c)]
  {
    var steps := InstallSteps(c);
    assert UntilFailure(steps, failing) == steps;
    assert steps == [steps[0], steps[1]] + steps[2..];
    TruncateThenWrite(files, ServicePath(ServiceName(c.user)), ServiceContent(c), steps[2..], failing);
  }

  /** Truncating a file, writing it and then running effects that touch no file leaves exactly the
      written contents in that file. */
  lemma TruncateThenWrite(files: map<string, string>, path: string, content: string, rest: seq<Effect>, failing: set<Effect>)
    requires WriteFile(path, "") !in failing && WriteFile(path, content) !in failing
    requires forall k :: 0 <= k < |rest| ==> !rest[k].WriteFile? && !rest[k].RemoveFile?
    ensures Written(files, [WriteFile(path, ""), WriteFile(path, content)] + rest, failing) == files[path := content]
  {
    var head := [WriteFile(path, ""), WriteFile(path, content)];
    WrittenNoFiles(files, head, rest, failing);
    assert head[..1] == [WriteFile(path, "")] && head[..1][..0] == [];
    assert Written(files, head[..1], failing) == files[path := ""];
  }

  /** UninstallSystemdService: stop, disable, remove the unit file and reload, ignoring every failure. */
  method UninstallSystemdService(host: Machine, user: string) returns (err: Option<string>)
    modifies host
    ensures err == None
    ensures host.log == old(host.log) + [Exec(["systemctl", "stop", ServiceName(user)]), Exec(["systemctl", "disable", ServiceName(user)]),
      RemoveFile(ServicePath(ServiceName(user))), Exec(["systemctl", "daemon-reload"])]
    ensures RemoveFile(ServicePath(ServiceName(user))) !in host.failing ==> host.files == old(host.files) - {ServicePath(ServiceName(user))}
    ensures RemoveFile(ServicePath(ServiceName(user))) in host.failing ==> host.files == old(host.files)
  {
    var name := ServiceName(user);
    var _ := host.Perform(Exec(["systemctl", "stop", name]));
    var _ := host.Perform(Exec(["systemctl", "disable", name]));
    var _ := host.Remove(ServicePath(name));
    var _ := host.Perform(Exec(["systemctl", "daemon-reload"]));
    err := None;
  }

  /** GetServiceStatus: systemctl status for the user's unit; its output is not modelled. */
  method GetServiceStatus(host: Machine, user: string) returns (err: Option<string>)
    modifies host
    ensures host.log == old(host.log) + [Exec(["systemctl", "status", ServiceName(user)])] && host.files == old(host.files)
    ensures err.None? <==> Exec(["systemctl", "status", ServiceName(user)]) !in host.failing
  {
    err := host.Perform(Exec(["systemctl", "status", ServiceName(user)]));
  }
}
