/** The shell environment: zsh and tmux, and the rc file that sources the StratusShell environment. */
module Shell {
  import opened Wrappers
  import opened Host
  import opened PackageManagers
  import opened ProvisionConfig
  import Text
  import FilePath
  import Validation

  /** findSubstring: the offsets 0 .. len(s)-len(substr) in turn, stopping at the first occurrence. */
  method FindSubstring(s: string, sub: string) returns (found: bool)
    ensures found <==> exists i :: Text.OccursAt(s, sub, i)
  {
    var i := 0;
    while i <= |s| - |sub|
      invariant 0 <= i
      invariant forall k :: 0 <= k < i ==> !Text.OccursAt(s, sub, k)
      decreases |s| - |sub| - i
    {
      if s[i..i + |sub|] == sub {
        assert Text.OccursAt(s, sub, i);
        return true;
      }
      i := i + 1;
    }
    found := false;
  }

  /** contains: the shortcut tests on equality, the prefix and the suffix, then the scan. It finds an
      occurrence exactly when strings.Contains would. */
  method ContainsAsWritten(s: string, sub: string) returns (b: bool)
    ensures b == Text.Contains(s, sub)
  {
    Text.ContainsIff(s, sub);
    if |s| < |sub| {
      return false;
    }
    if s == sub {
      assert Text.OccursAt(s, sub, 0);
      return true;
    }
    if |s| == |sub| {
      forall i | Text.OccursAt(s, sub, i) ensures false {
      }
      return false;
    }
    if s[..|sub|] == sub {
      assert Text.OccursAt(s, sub, 0);
      return true;
    }
    if s[|s| - |sub|..] == sub {
      assert Text.OccursAt(s, sub, |s| - |sub|);
      return true;
    }
    b := FindSubstring(s, sub);
  }

  /** The marker that shows an rc file is already configured. */
  const Marker: string := "StratusShell Environment"

  /** The block appended to the rc file. */
  const SourceBlock: string := "\n# " + Marker + BlockTail

  /** The lines of the block after the marker: source the environment file when it exists. */
  const BlockTail: string := "\nif [ -f ~/.stratusshell/env.sh ]; then\n    source ~/.stratusshell/env.sh\nfi\n"

  /** The appended block carries the marker, so whatever it is appended to is configured afterwards. */
  lemma BlockCarriesMarker(existing: string)
    ensures Text.Contains(existing + SourceBlock, Marker)
  {
    Text.ContainsMiddle(existing + "\n# ", Marker, BlockTail);
    assert existing + "\n# " + Marker + BlockTail == existing + SourceBlock;
  }

  /** The rc file's contents after configuration: unchanged when the marker is already there,
      otherwise the old contents (none for a missing file) followed by the block. */
  function RcAfter(existing: Option<string>): (r: string)
    ensures existing.Some? && Text.Contains(existing.value, Marker) ==> r == existing.value
    ensures existing.Some? && !Text.Contains(existing.value, Marker) ==> r == existing.value + SourceBlock
    ensures existing.None? ==> r == SourceBlock
  {
    if existing.Some? && Text.Contains(existing.value, Marker) then existing.value
    else if existing.Some? then existing.value + SourceBlock
    else SourceBlock
  }

  /** Configuring twice appends the block once. */
  lemma RcAfterIdempotent(existing: Option<string>)
    ensures RcAfter(Some(RcAfter(existing))) == RcAfter(existing)
  {
    if existing.Some? && !Text.Contains(existing.value, Marker) {
      BlockCarriesMarker(existing.value);
    } else if existing.None? {
      BlockCarriesMarker([]);
      assert [] + SourceBlock == SourceBlock;
    }
  }

  /** The earlier contents survive as a prefix. */
  lemma RcAfterKeepsExisting(existing: string)
    ensures existing <= RcAfter(Some(existing))
  {
  }

  /** The rc file a user's shell reads. */
  function RcFile(homeDir: string, zsh: bool): string {
    FilePath.JoinPath(homeDir, if zsh then ".zshrc" else ".bashrc")
  }

  /** The two steps that append the block and hand the file to the user. */
  function AppendSteps(files: map<string, string>, rc: string, user: string): seq<Effect> {
    [WriteFile(rc, RcAfter(if rc in files then Some(files[rc]) else None)), Chown(rc, user)]
  }

  lemma AppendWritesOneFile(files: map<string, string>, rc: string, user: string, failing: set<Effect>)
    requires AppendSteps(files, rc, user)[0] !in failing
    ensures Written(files, UntilFailure(AppendSteps(files, rc, user), failing), failing) ==
      files[rc := AppendSteps(files, rc, user)[0].content]
  {
    var steps := AppendSteps(files, rc, user);
    if steps[1] in failing {
      assert UntilFailure(steps, failing) == steps;
    }
    assert steps[..2] == steps && steps[..2][..1] == steps[..1] && steps[..1][..0] == [];
    assert Written(files, steps[..1], failing) == files[rc := steps[0].content];
  }

  /** Whether the rc file already carries the marker. */
  predicate Configured(files: map<string, string>, rc: string) {
    rc in files && Text.Contains(files[rc], Marker)
  }

  /** Whether the update leaves the file alone after reading it: a failed read or a file that
      already carries the marker. */
  predicate RcKept(files: map<string, string>, rc: string, failing: set<Effect>) {
    rc in files && (ReadFile(rc) in failing || Configured(files, rc))
  }

  /** The effects of the rc-file update: the read of an existing file, then (unless the file is
      kept) the append steps up to the first that fails. */
  function RcEffects(files: map<string, string>, rc: string, user: string, failing: set<Effect>): seq<Effect> {
    (if rc in files then [ReadFile(rc)] else []) +
    (if RcKept(files, rc, failing) then [] else UntilFailure(AppendSteps(files, rc, user), failing))
  }

  /** The files after the rc-file update. */
  function RcWritten(files: map<string, string>, rc: string, user: string, failing: set<Effect>): map<string, string> {
    if RcKept(files, rc, failing) then files else Written(files, UntilFailure(AppendSteps(files, rc, user), failing), failing)
  }

  /** The rc-file update once both directory checks have passed: an existing file is read and left alone
      when it carries the marker; otherwise the block is appended and the file handed to the user. */
  method UpdateRcFile(host: Machine, rc: string, user: string) returns (err: Option<string>)
    modifies host
    ensures rc in old(host.files) && ReadFile(rc) in host.failing ==>
      host.log == old(host.log) + [ReadFile(rc)] && host.files == old(host.files) && err == Some(EffectFailed)
    ensures rc in old(host.files) && ReadFile(rc) !in host.failing && Configured(old(host.files), rc) ==>
      host.log == old(host.log) + [ReadFile(rc)] && host.files == old(host.files) && err == None
    ensures rc !in old(host.files) || (ReadFile(rc) !in host.failing && !Configured(old(host.files), rc)) ==>
      host.log == old(host.log) + (if rc in old(host.files) then [ReadFile(rc)] else []) +
        UntilFailure(AppendSteps(old(host.files), rc, user), host.failing) &&
      host.files == Written(old(host.files), UntilFailure(AppendSteps(old(host.files), rc, user), host.failing), host.failing) &&
      (err.None? <==> AllSucceed(AppendSteps(old(host.files), rc, user), host.failing))
    ensures err.None? ==> Configured(host.files, rc)
    ensures rc !in old(host.files) || (ReadFile(rc) !in host.failing && !Configured(old(host.files), rc)) ==>
      AppendSteps(old(host.files), rc, user)[0] !in host.failing ==>
      host.files == old(host.files)[rc := RcAfter(if rc in old(host.files) then Some(old(host.files)[rc]) else None)]
    ensures host.log == old(host.log) + RcEffects(old(host.files), rc, user, host.failing)
    ensures host.files == RcWritten(old(host.files), rc, user, host.failing)
  {
    ghost var read: seq<Effect> := if rc in host.files then [ReadFile(rc)] else [];
    ghost var append := UntilFailure(AppendSteps(host.files, rc, user), host.failing);
    AppendAssoc(host.log, read, append);
    assert RcKept(host.files, rc, host.failing) ==> read == [ReadFile(rc)] && read + [] == read;
    if rc in host.files {
      var content := host.Read(rc);
      if content.Err? {
        return Some(content.error);
      }
      var present := ContainsAsWritten(content.value, Marker);
      if present {
        return None;
      }
    }
    var steps := AppendSteps(host.files, rc, user);
    ghost var before := host.files;
    ghost var logged := host.log;
    err := host.Run(steps);
    if steps[0] !in host.failing {
      AppendWritesOneFile(before, rc, user, host.failing);
      RcAfterIdempotent(if rc in before then Some(before[rc]) else None);
    }
  }

  /** configureShellRC refuses before any effect: a missing home directory, or a home or rc-file
      directory that fails the working-directory check. */
  predicate RcRefused(p: Provisioner, homeDir: Result<string>) {
    homeDir.Err? || Validation.ValidateWorkingDir(homeDir.value).Some? ||
    Validation.ValidateWorkingDir(FilePath.Dir(RcFile(homeDir.value, p.config.shell.zsh))).Some?
  }

  /** The effects of configureShellRC. */
  function ConfigureEffects(p: Provisioner, homeDir: Result<string>, files: map<string, string>, failing: set<Effect>): seq<Effect> {
    if RcRefused(p, homeDir) then [] else RcEffects(files, RcFile(homeDir.value, p.config.shell.zsh), p.username, failing)
  }

  /** The files after configureShellRC. */
  function ConfigureFiles(p: Provisioner, homeDir: Result<string>, files: map<string, string>, failing: set<Effect>): map<string, string> {
    if RcRefused(p, homeDir) then files else RcWritten(files, RcFile(homeDir.value, p.config.shell.zsh), p.username, failing)
  }

  /** When the directories are accepted, the file can be read and the block can be written, the rc
      file is configured afterwards, whether or not it was before and whatever the ownership change
      does. */
  lemma ConfiguredAfter(p: Provisioner, homeDir: Result<string>, files: map<string, string>, failing: set<Effect>)
    requires !RcRefused(p, homeDir)
    requires ReadFile(RcFile(homeDir.value, p.config.shell.zsh)) !in failing
    requires AppendSteps(files, RcFile(homeDir.value, p.config.shell.zsh), p.username)[0] !in failing
    ensures Configured(ConfigureFiles(p, homeDir, files, failing), RcFile(homeDir.value, p.config.shell.zsh))
  {
    var rc := RcFile(homeDir.value, p.config.shell.zsh);
    if !RcKept(files, rc, failing) {
      AppendWritesOneFile(files, rc, p.username, failing);
      var existing := if rc in files then Some(files[rc]) else None;
      if existing.Some? {
        BlockCarriesMarker(existing.value);
      } else {
        BlockCarriesMarker([]);
        assert [] + SourceBlock == SourceBlock;
      }
    }
  }

  /** configureShellRC: the home directory, then its check, then the rc file's directory check, then the
      update. Every refusal happens before any effect. */
  method ConfigureShellRC(host: Machine, p: Provisioner, homeDir: Result<string>) returns (err: Option<string>)
    modifies host
    ensures homeDir.Err? ==> err == Some(homeDir.error) && host.log == old(host.log) && host.files == old(host.files)
    ensures homeDir.Ok? && Validation.ValidateWorkingDir(homeDir.value).Some? ==>
      err.Some? && host.log == old(host.log) && host.files == old(host.files)
    ensures homeDir.Ok? && Validation.ValidateWorkingDir(FilePath.Dir(RcFile(homeDir.value, p.config.shell.zsh))).Some? ==>
      err.Some? && host.log == old(host.log) && host.files == old(host.files)
    ensures err.None? ==> homeDir.Ok? && Configured(host.files, RcFile(homeDir.value, p.config.shell.zsh))
    ensures homeDir.Ok? && Configured(old(host.files), RcFile(homeDir.value, p.config.shell.zsh)) ==>
      host.files == old(host.files)
    ensures host.log == old(host.log) + ConfigureEffects(p, homeDir, old(host.files), host.failing)
    ensures host.files == ConfigureFiles(p, homeDir, old(host.files), host.failing)
  {
    if homeDir.Err? {
      return Some(homeDir.error);
    }
    var invalid := Validation.ValidateWorkingDir(homeDir.value);
    if invalid.Some? {
      return Some(Wrap("invalid home directory", Validation.ErrorText(invalid.value)));
    }
    var rc := RcFile(homeDir.value, p.config.shell.zsh);
    invalid := Validation.ValidateWorkingDir(FilePath.Dir(rc));
    if invalid.Some? {
      return Some(Wrap("invalid RC file directory", Validation.ErrorText(invalid.value)));
    }
    err := UpdateRcFile(host, rc, p.username);
  }

  /** The effects of installZsh: the package, then the login shell once the package is in. */
  function ZshEffects(p: Provisioner, failing: set<Effect>): seq<Effect> {
    InstallEffects(p.pm, ["zsh"]) + if InstallSucceeds(p.pm, ["zsh"], failing) then [ChangeShell(p.username, "/bin/zsh")] else []
  }

  /** installZsh: the package, then the login shell, only when the package installed. */
  method InstallZsh(host: Machine, p: Provisioner) returns (err: Option<string>)
    modifies host
    ensures !InstallSucceeds(p.pm, ["zsh"], host.failing) ==>
      host.log == old(host.log) + InstallEffects(p.pm, ["zsh"]) && err.Some?
    ensures InstallSucceeds(p.pm, ["zsh"], host.failing) ==>
      host.log == old(host.log) + InstallEffects(p.pm, ["zsh"]) + [ChangeShell(p.username, "/bin/zsh")] &&
      (err.None? <==> ChangeShell(p.username, "/bin/zsh") !in host.failing)
    ensures host.log == old(host.log) + ZshEffects(p, host.failing)
    ensures host.files == old(host.files)
  {
    err := Install(host, p.pm, ["zsh"]);
    if err.Some? {
      return;
    }
    err := host.Perform(ChangeShell(p.username, "/bin/zsh"));
  }

  /** installTmux: the package, and its outcome. */
  method InstallTmux(host: Machine, p: Provisioner) returns (err: Option<string>)
    modifies host
    ensures host.log == old(host.log) + InstallEffects(p.pm, ["tmux"]) && host.files == old(host.files)
    ensures err.None? <==> InstallSucceeds(p.pm, ["tmux"], host.failing)
  {
    err := Install(host, p.pm, ["tmux"]);
  }

  /** The installs SetupShellEnvironment makes before the rc file: zsh, then tmux, each when configured. */
  function ShellInstallEffects(p: Provisioner, failing: set<Effect>): seq<Effect> {
    (if p.config.shell.zsh then ZshEffects(p, failing) else []) +
    (if p.config.shell.tmux then InstallEffects(p.pm, ["tmux"]) else [])
  }

  /** With a known package manager, zsh is installed exactly when it is configured, and so is tmux. */
  lemma ShellInstallsIffConfigured(p: Provisioner, failing: set<Effect>)
    requires Known(p.pm)
    ensures Exec(InstallArgv(p.pm, ["zsh"]).value) in ShellInstallEffects(p, failing) <==> p.config.shell.zsh
    ensures Exec(InstallArgv(p.pm, ["tmux"]).value) in ShellInstallEffects(p, failing) <==> p.config.shell.tmux
  {
    var zsh := InstallArgv(p.pm, ["zsh"]).value;
    var tmux := InstallArgv(p.pm, ["tmux"]).value;
    assert zsh[3] == "zsh" && tmux[3] == "tmux" && zsh != tmux;
  }

  /** SetupShellEnvironment: zsh and tmux when configured, then the rc file; none of their failures
      fails the whole. */
  method SetupShellEnvironment(host: Machine, p: Provisioner, homeDir: Result<string>) returns (err: Option<string>)
    modifies host
    ensures err == None
    ensures host.log == old(host.log) + ShellInstallEffects(p, host.failing) + ConfigureEffects(p, homeDir, old(host.files), host.failing)
    ensures host.files == ConfigureFiles(p, homeDir, old(host.files), host.failing)
    ensures homeDir.Ok? && Configured(old(host.files), RcFile(homeDir.value, p.config.shell.zsh)) ==>
      host.files == old(host.files)
  {
    ghost var start := host.log;
    if p.config.shell.zsh {
      var _ := InstallZsh(host, p);
    }
    ghost var zsh := if p.config.shell.zsh then ZshEffects(p, host.failing) else [];
    assert host.log == start + zsh && host.files == old(host.files);
    if p.config.shell.tmux {
      var _ := InstallTmux(host, p);
    }
    AppendAssoc(start, zsh, if p.config.shell.tmux then InstallEffects(p.pm, ["tmux"]) else []);
    assert host.log == start + ShellInstallEffects(p, host.failing) && host.files == old(host.files);
    var _ := ConfigureShellRC(host, p, homeDir);
    err := None;
  }
}
