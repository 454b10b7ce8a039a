/** The machine the provisioner drives, reduced to what the provisioning rules observe: the effects they
    cause, in order, and the files they read and write. Which effects fail is fixed by the machine. */
module Host {
  import opened Wrappers

  /** One effect on the machine: a command run with its argv, or one of the user-account and file
      operations the provisioner calls. */
  datatype Effect =
    | Exec(argv: seq<string>)
    | AddToGroup(user: string, group: string)
    | ChangeShell(user: string, shell: string)
    | Chown(path: string, user: string)
    | MakeDir(path: string)
    | WriteFile(path: string, content: string)
    | ReadFile(path: string)
    | RemoveFile(path: string)

  /** The error text of a failed effect; the operating system's own message is not modelled. */
  const EffectFailed: string := "command failed"

  /** The effects a sequence of steps performs when it stops at the first failing one. */
  function UntilFailure(es: seq<Effect>, failing: set<Effect>): (r: seq<Effect>)
    ensures |r| <= |es| && r == es[..|r|]
    ensures r == es <==> (forall k :: 0 <= k < |es| - 1 ==> es[k] !in failing)
    decreases |es|
  {
    if es == [] then []
    else if es[0] in failing then [es[0]]
    else [es[0]] + UntilFailure(es[1..], failing)
  }

  /** No step of the sequence fails. */
  predicate AllSucceed(es: seq<Effect>, failing: set<Effect>) {
    forall k :: 0 <= k < |es| ==> es[k] !in failing
  }

  /** The first failing step of a run is the last one performed. */
  lemma {:induction false} UntilFailureStops(es: seq<Effect>, i: nat, failing: set<Effect>)
    requires i < |es| && AllSucceed(es[..i], failing) && es[i] in failing
    ensures UntilFailure(es, failing) == es[..i + 1]
  {
    if i > 0 {
      assert es[0] == es[..i][0];
      assert es[1..][..i - 1] == es[..i][1..];
      assert es[1..][i - 1] == es[i];
      UntilFailureStops(es[1..], i - 1, failing);
      assert [es[0]] + es[1..][..i] == es[..i + 1];
    }
  }

  /** The files after a sequence of performed effects: each write that does not fail replaces its file. */
  function Written(files: map<string, string>, es: seq<Effect>, failing: set<Effect>): map<string, string>
    decreases |es|
  {
    if es == [] then files else Apply(Written(files, es[..|es| - 1], failing), es[|es| - 1], failing)
  }

  /** The files after one effect. */
  function Apply(files: map<string, string>, e: Effect, failing: set<Effect>): map<string, string> {
    if e in failing then files
    else if e.WriteFile? then files[e.path := e.content]
    else if e.RemoveFile? then files - {e.path}
    else files
  }

  /** Effects that touch no file leave the files as they were. */
  lemma {:induction false} WrittenNoFiles(files: map<string, string>, head: seq<Effect>, tail: seq<Effect>, failing: set<Effect>)
    requires forall k :: 0 <= k < |tail| ==> !tail[k].WriteFile? && !tail[k].RemoveFile?
    ensures Written(files, head + tail, failing) == Written(files, head, failing)
    decreases |tail|
  {
    if tail != [] {
      var n := |tail| - 1;
      assert (head + tail)[..|head + tail| - 1] == head + tail[..n];
      WrittenNoFiles(files, head, tail[..n], failing);
    } else {
      assert head + tail == head;
    }
  }

  /** One more step of a run. */
  lemma RunExtends(files: map<string, string>, es: seq<Effect>, i: nat, failing: set<Effect>)
    requires i < |es| && AllSucceed(es[..i], failing)
    ensures es[i] !in failing ==> AllSucceed(es[..i + 1], failing)
    ensures Written(files, es[..i + 1], failing) == Apply(Written(files, es[..i], failing), es[i], failing)
  {
    assert es[..i + 1][..i] == es[..i];
  }

  /** Concatenation regroups freely; stated once so that callers chaining runs need not
      rediscover it. */
  lemma AppendAssoc(a: seq<Effect>, b: seq<Effect>, c: seq<Effect>)
    ensures a + (b + c) == (a + b) + c
  {
  }

  class Machine {
    /** The effects performed so far, oldest first. */
    var log: seq<Effect>
    /** The files on disk and their contents. */
    var files: map<string, string>
    /** The effects that fail on this machine. */
    const failing: set<Effect>
    /** The commands found on the search path. */
    const executables: set<string>

    constructor (failing: set<Effect>, executables: set<string>, files: map<string, string>)
      ensures this.failing == failing && this.executables == executables
      ensures this.files == files && log == []
    {
      this.failing := failing;
      this.executables := executables;
      this.files := files;
      log := [];
    }

    /** Perform one effect that changes no file: it is logged, and it fails exactly when it is failing. */
    method Perform(e: Effect) returns (err: Option<string>)
      requires !e.WriteFile? && !e.RemoveFile?
      modifies this
      ensures log == old(log) + [e] && files == old(files)
      ensures err.None? <==> e !in failing
      ensures err.Some? ==> err == Some(EffectFailed)
    {
      log := log + [e];
      err := if e in failing then Some(EffectFailed) else None;
    }

    /** Write a file whole; a failing write leaves the file as it was. */
    method Write(path: string, content: string) returns (err: Option<string>)
      modifies this
      ensures log == old(log) + [WriteFile(path, content)]
      ensures err.None? <==> WriteFile(path, content) !in failing
      ensures err.None? ==> files == old(files)[path := content]
      ensures err.Some? ==> files == old(files) && err == Some(EffectFailed)
    {
      log := log + [WriteFile(path, content)];
      if WriteFile(path, content) in failing {
        return Some(EffectFailed);
      }
      files := files[path := content];
      err := None;
    }

    /** Remove a file; removing a missing file changes nothing. */
    method Remove(path: string) returns (err: Option<string>)
      modifies this
      ensures log == old(log) + [RemoveFile(path)]
      ensures err.None? <==> RemoveFile(path) !in failing
      ensures err.None? ==> files == old(files) - {path}
      ensures err.Some? ==> files == old(files) && err == Some(EffectFailed)
    {
      log := log + [RemoveFile(path)];
      if RemoveFile(path) in failing {
        return Some(EffectFailed);
      }
      files := files - {path};
      err := None;
    }

    /** Read a file: a missing file or a failing read is an error. */
    method Read(path: string) returns (r: Result<string>)
      modifies this
      ensures log == old(log) + [ReadFile(path)] && files == old(files)
      ensures r.Ok? <==> path in files && ReadFile(path) !in failing
      ensures r.Ok? ==> r.value == files[path]
      ensures r.Err? ==> r.error == EffectFailed
    {
      var err := Perform(ReadFile(path));
      if err.Some? || path !in files {
        return Err(EffectFailed);
      }
      r := Ok(files[path]);
    }

    /** Perform any one effect. */
    method Step(e: Effect) returns (err: Option<string>)
      modifies this
      ensures log == old(log) + [e] && files == Apply(old(files), e, failing)
      ensures err.None? <==> e !in failing
      ensures err.Some? ==> err == Some(EffectFailed)
    {
      if e.WriteFile? {
        err := Write(e.path, e.content);
      } else if e.RemoveFile? {
        err := Remove(e.path);
      } else {
        err := Perform(e);
      }
    }

    /** Perform steps in order, stopping at the first that fails; its error is the result. */
    method Run(es: seq<Effect>) returns (err: Option<string>)
      modifies this
      ensures log == old(log) + UntilFailure(es, failing)
      ensures files == Written(old(files), UntilFailure(es, failing), failing)
      ensures err.None? <==> AllSucceed(es, failing)
      ensures err.Some? ==> err == Some(EffectFailed)
    {
      var i := 0;
      err := None;
      while i < |es|
        invariant 0 <= i <= |es|
        invariant AllSucceed(es[..i], failing) && err.None?
        invariant log == old(log) + es[..i]
        invariant files == Written(old(files), es[..i], failing)
      {
        err := Step(es[i]);
        RunExtends(old(files), es, i, failing);
        if err.Some? {
          UntilFailureStops(es, i, failing);
          return;
        }
        assert old(log) + es[..i + 1] == old(log) + es[..i] + [es[i]];
        i := i + 1;
      }
      assert es[..i] == es;
    }
  }
}
