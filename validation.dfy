/** The input validators and the sanitiser of the validation package. Each validator returns
    None for valid input and Some(error) otherwise, with the field and message the Go validators return. */
module Validation {
  import opened Wrappers
  import opened Text
  import Utf8
  import FilePath

  datatype ValidationError = ValidationError(field: string, message: string)

  /** The text of ValidationError.Error(): "<field>: <message>". */
  function ErrorText(e: ValidationError): string {
    e.field + ": " + e.message
  }

  const PortMin: int := 1024
  const PortMax: int := 65535

  /** The character class [a-zA-Z0-9 _-] of the title and session-name patterns. */
  predicate NameChar(c: char) {
    ('a' <= c <= 'z') || ('A' <= c <= 'Z') || ('0' <= c <= '9') || c == ' ' || c == '_' || c == '-'
  }

  /** A full match of ^[a-zA-Z0-9 _-]{1,100}$. */
  predicate MatchesNamePattern(s: string) {
    1 <= |s| <= 100 && forall i :: 0 <= i < |s| ==> NameChar(s[i])
  }

  const TitlePatternMessage: string := "title can only contain letters, numbers, spaces, dashes, and underscores (max 100 characters)"
  const NamePatternMessage: string := "session name can only contain letters, numbers, spaces, dashes, and underscores (max 100 characters)"

  /** The rule shared by titles and session names: the trimmed text must be non-empty and match
      the name pattern; each refusal names the field with its own message. */
  function ValidateNameShaped(field: string, emptyMessage: string, patternMessage: string, s: string): (r: Option<ValidationError>)
    ensures r.None? <==> 1 <= |TrimSpace(s)| <= 100 && forall c :: c in TrimSpace(s) ==> NameChar(c)
    ensures r.Some? ==> r.value.field == field
    ensures TrimSpace(s) == "" ==> r == Some(ValidationError(field, emptyMessage))
  {
    var t := TrimSpace(s);
    if t == "" then Some(ValidationError(field, emptyMessage))
    else if !MatchesNamePattern(t) then Some(ValidationError(field, patternMessage))
    else None
  }

  function ValidateTerminalTitle(title: string): (r: Option<ValidationError>)
    ensures r.None? <==> 1 <= |TrimSpace(title)| <= 100 && forall c :: c in TrimSpace(title) ==> NameChar(c)
    ensures r.Some? ==> r.value.field == "title"
    ensures TrimSpace(title) == "" ==> r == Some(ValidationError("title", "title cannot be empty"))
  {
    ValidateNameShaped("title", "title cannot be empty", TitlePatternMessage, title)
  }

  function ValidateSessionName(name: string): (r: Option<ValidationError>)
    ensures r.None? <==> 1 <= |TrimSpace(name)| <= 100 && forall c :: c in TrimSpace(name) ==> NameChar(c)
    ensures r.Some? ==> r.value.field == "name"
    ensures TrimSpace(name) == "" ==> r == Some(ValidationError("name", "session name cannot be empty"))
  {
    ValidateNameShaped("name", "session name cannot be empty", NamePatternMessage, name)
  }

  /** The length limit counts the UTF-8 bytes of the trimmed description. */
  function ValidateSessionDescription(description: string): (r: Option<ValidationError>)
    ensures r.None? <==> Utf8.ByteLen(TrimSpace(description)) <= 500
    ensures r.Some? ==> r.value == ValidationError("description", "description cannot exceed 500 characters")
  {
    if Utf8.ByteLen(TrimSpace(description)) > 500 then
      Some(ValidationError("description", "description cannot exceed 500 characters"))
    else None
  }

  function ValidatePort(port: int): (r: Option<ValidationError>)
    ensures r.None? <==> PortMin <= port <= PortMax
    ensures r.Some? ==> r.value == ValidationError("port", "port must be between 1024 and 65535")
  {
    if port < PortMin || port > PortMax then
      Some(ValidationError("port", "port must be between 1024 and 65535"))
    else None
  }

  function ValidateWorkingDir(dir: string): (r: Option<ValidationError>)
    ensures r.None? <==> dir == "" || (FilePath.IsAbs(dir) && !Contains(FilePath.Clean(dir), ".."))
    ensures dir != "" && Contains(FilePath.Clean(dir), "..") ==>
      r == Some(ValidationError("working_dir", "working directory cannot contain '..'"))
    ensures dir != "" && !Contains(FilePath.Clean(dir), "..") && !FilePath.IsAbs(dir) ==>
      r == Some(ValidationError("working_dir", "working directory must be an absolute path"))
  {
    FilePath.CleanIsAbs(dir);
    if dir == "" then None
    else
      var d := FilePath.Clean(dir);
      if Contains(d, "..") then Some(ValidationError("working_dir", "working directory cannot contain '..'"))
      else if !FilePath.IsAbs(d) then Some(ValidationError("working_dir", "working directory must be an absolute path"))
      else None
  }

  const AllowedShells: seq<string> := [
    "/bin/bash", "/bin/sh", "/bin/zsh", "/bin/fish",
    "/usr/bin/bash", "/usr/bin/sh", "/usr/bin/zsh", "/usr/bin/fish"
  ]

  const ShellListMessage: string :=
    "shell must be one of: /bin/bash, /bin/sh, /bin/zsh, /bin/fish, /usr/bin/bash, /usr/bin/sh, /usr/bin/zsh, /usr/bin/fish"

  /** The allowlisted shells are absolute and contain no ".." (none contains a '.' at all). */
  lemma AllowedShellsSafe()
    ensures forall k :: 0 <= k < |AllowedShells| ==> FilePath.IsAbs(AllowedShells[k]) && !Contains(AllowedShells[k], "..")
  {
    forall k | 0 <= k < |AllowedShells|
      ensures FilePath.IsAbs(AllowedShells[k]) && !Contains(AllowedShells[k], "..")
    {
      NotContainsWithout(AllowedShells[k], "..");
    }
  }

  function ValidateShell(shell: string): (r: Option<ValidationError>)
    ensures r.None? <==> shell == "" || FilePath.Clean(shell) in AllowedShells
    ensures r.Some? ==> r.value.field == "shell"
  {
    if shell == "" then None
    else
      var s := FilePath.Clean(shell);
      AllowedShellsSafe();
      if Contains(s, "..") then Some(ValidationError("shell", "shell path cannot contain '..'"))
      else if !FilePath.IsAbs(s) then Some(ValidationError("shell", "shell must be an absolute path"))
      else if s in AllowedShells then None
      else Some(ValidationError("shell", ShellListMessage))
  }

  function ValidateTerminalID(id: int): (r: Option<ValidationError>)
    ensures r.None? <==> id >= 0
    ensures r.Some? ==> r.value == ValidationError("id", "terminal ID must be non-negative")
  {
    if id < 0 then Some(ValidationError("id", "terminal ID must be non-negative")) else None
  }

  function ValidateSessionID(id: int): (r: Option<ValidationError>)
    ensures r.None? <==> id >= 1
    ensures r.Some? ==> r.value == ValidationError("id", "session ID must be positive")
  {
    if id < 1 then Some(ValidationError("id", "session ID must be positive")) else None
  }

  const ValidLayouts: seq<string> := ["horizontal", "vertical", "grid"]

  function ValidateLayoutType(layoutType: string): (r: Option<ValidationError>)
    ensures r.None? <==> layoutType == "horizontal" || layoutType == "vertical" || layoutType == "grid"
    ensures r.Some? ==> r.value == ValidationError("layout_type", "layout type must be one of: horizontal, vertical, grid")
  {
    if layoutType in ValidLayouts then None
    else Some(ValidationError("layout_type", "layout type must be one of: horizontal, vertical, grid"))
  }

  /** The control characters the sanitiser removes: every rune below 32 except newline and tab. */
  predicate Removed(c: char) {
    (c as int) < 32 && c != '\n' && c != '\t'
  }

  /** strings.Map dropping the removed characters; the others keep their order. */
  function DropControl(s: string): (r: string)
    ensures |r| <= |s|
    ensures forall i :: 0 <= i < |r| ==> !Removed(r[i])
    ensures forall c :: c in r ==> c in s
    ensures forall c :: multiset(r)[c] == if Removed(c) then 0 else multiset(s)[c]
    ensures (forall i :: 0 <= i < |s| ==> !Removed(s[i])) ==> r == s
  {
    if s == [] then []
    else
      assert s == [s[0]] + s[1..];
      if Removed(s[0]) then DropControl(s[1..])
      else [s[0]] + DropControl(s[1..])
  }

  /** Dropping distributes over concatenation: what is kept of a + b is what is kept of a
      followed by what is kept of b, so the kept characters stay in their order. */
  lemma {:induction false} DropControlConcat(a: string, b: string)
    ensures DropControl(a + b) == DropControl(a) + DropControl(b)
  {
    if a == [] {
      assert a + b == b;
    } else {
      assert (a + b)[0] == a[0] && (a + b)[1..] == a[1..] + b;
      DropControlConcat(a[1..], b);
    }
  }

  /** SanitizeString: drop the control characters, then trim surrounding white space. */
  function SanitizeString(s: string): (r: string)
    ensures forall i :: 0 <= i < |r| ==> !Removed(r[i])
    ensures NoEdgeSpace(r)
    ensures |r| <= |s|
  {
    var d := DropControl(s);
    var t := TrimSpace(d);
    assert forall c :: c in t ==> c in d;
    t
  }

  /** Sanitising a sanitised string changes nothing. */
  lemma SanitizeIdempotent(s: string)
    ensures SanitizeString(SanitizeString(s)) == SanitizeString(s)
  {
    var r := SanitizeString(s);
    assert DropControl(r) == r;
    TrimSpaceOfTrimmed(r);
  }

  /** A sanitised title is accepted exactly when the sanitised text itself has the name shape. */
  lemma SanitizedTitleRule(title: string)
    ensures ValidateTerminalTitle(SanitizeString(title)).None? <==> MatchesNamePattern(SanitizeString(title))
  {
    var r := SanitizeString(title);
    TrimSpaceOfTrimmed(r);
    if MatchesNamePattern(r) {
      forall c | c in r ensures NameChar(c) {
        var i :| 0 <= i < |r| && r[i] == c;
      }
    }
  }

  /** A description of at most 125 characters always fits in 500 bytes; one of more than
      500 characters after trimming never does. */
  lemma DescriptionBounds(description: string)
    ensures |TrimSpace(description)| <= 125 ==> ValidateSessionDescription(description).None?
    ensures |TrimSpace(description)| > 500 ==> ValidateSessionDescription(description).Some?
  {
    Utf8.ByteLenAtMostFour(TrimSpace(description));
    Utf8.ByteLenAtLeastLength(TrimSpace(description));
  }

  /** An accepted non-empty working directory cleans to the root followed by plain elements,
      none of which is "..": the cleaned path cannot climb above the root. */
  lemma WorkingDirNoTraversal(dir: string)
    requires dir != "" && ValidateWorkingDir(dir).None?
    ensures FilePath.IsAbs(FilePath.Clean(dir))
    ensures forall k :: 0 <= k < |FilePath.CleanElems(dir)| ==>
      FilePath.PlainElem(FilePath.CleanElems(dir)[k]) && FilePath.CleanElems(dir)[k] != ".."
  {
    FilePath.CleanIsAbs(dir);
    FilePath.CleanAbsolute(dir);
  }

  /** A ".." that Clean resolves is no obstacle: "/a/../b" is accepted as a working directory. */
  lemma WorkingDirResolvedParent(dir: string)
    requires dir == "/a/../b"
    ensures ValidateWorkingDir(dir).None?
  {
    FilePath.CleanParentExample(dir);
    NotContainsWithout("/b", "..");
  }
}
