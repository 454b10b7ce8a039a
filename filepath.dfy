/** The lexical path operations of Go's path/filepath on Unix: Clean, Join, Dir and IsAbs. */
module FilePath {
  import opened Text

  predicate IsAbs(p: string) {
    |p| > 0 && p[0] == '/'
  }

  /** A path element that Clean keeps: not empty, not ".", no separator. */
  predicate PlainElem(e: string) {
    e != "" && e != "." && '/' !in e
  }

  /** One element of the input applied to the stack of kept elements: empty and "." elements vanish;
      ".." removes the previous element, is dropped at the root of a rooted path, and is kept when
      there is nothing to remove in a relative path. */
  function Step(stack: seq<string>, seg: string, rooted: bool): seq<string> {
    if seg == "" || seg == "." then stack
    else if seg == ".." then
      if |stack| > 0 && stack[|stack| - 1] != ".." then stack[..|stack| - 1]
      else if rooted then stack
      else stack + [".."]
    else stack + [seg]
  }

  function Resolve(segs: seq<string>, rooted: bool, stack: seq<string>): seq<string>
    decreases |segs|
  {
    if segs == [] then stack else Resolve(segs[1..], rooted, Step(stack, segs[0], rooted))
  }

  /** The elements Clean keeps for p. */
  function CleanElems(p: string): seq<string> {
    Resolve(Split(p, '/'), IsAbs(p), [])
  }

  /** filepath.Clean: the shortest lexically equivalent path; "." for an empty result. */
  function Clean(p: string): string {
    if p == "" then "."
    else
      var elems := CleanElems(p);
      if IsAbs(p) then "/" + Join(elems, '/')
      else if elems == [] then "."
      else Join(elems, '/')
  }

  /** filepath.Join for two elements: empty elements are ignored; the result is cleaned. */
  function JoinPath(a: string, b: string): string {
    if a == "" && b == "" then ""
    else if a == "" then Clean(b)
    else if b == "" then Clean(a)
    else Clean(a + "/" + b)
  }

  /** The index of the last separator of p. */
  function LastSlash(p: string): (i: int)
    ensures -1 <= i < |p|
    ensures i >= 0 ==> p[i] == '/'
    ensures forall j :: i < j < |p| ==> p[j] != '/'
  {
    if p == [] then -1
    else if p[|p| - 1] == '/' then |p| - 1
    else LastSlash(p[..|p| - 1])
  }

  /** filepath.Dir: everything up to the last separator, cleaned. */
  function Dir(p: string): string {
    Clean(p[..LastSlash(p) + 1])
  }

  /** Every kept element is plain, and a rooted path keeps no "..". */
  predicate StackOk(stack: seq<string>, rooted: bool) {
    forall k :: 0 <= k < |stack| ==> (PlainElem(stack[k]) || stack[k] == "..") && (rooted ==> stack[k] != "..")
  }

  lemma {:induction false} ResolveOk(segs: seq<string>, rooted: bool, stack: seq<string>)
    requires StackOk(stack, rooted)
    requires forall k :: 0 <= k < |segs| ==> '/' !in segs[k]
    ensures StackOk(Resolve(segs, rooted, stack), rooted)
    decreases |segs|
  {
    if segs != [] {
      ResolveOk(segs[1..], rooted, Step(stack, segs[0], rooted));
    }
  }

  /** The elements of a cleaned path are plain, and a rooted path has no ".." left. */
  lemma CleanElemsOk(p: string)
    ensures StackOk(CleanElems(p), IsAbs(p))
  {
    ResolveOk(Split(p, '/'), IsAbs(p), []);
  }

  /** Clean keeps a path absolute exactly when it was. */
  lemma CleanIsAbs(p: string)
    ensures IsAbs(Clean(p)) <==> IsAbs(p)
  {
    if p != "" && !IsAbs(p) {
      var elems := CleanElems(p);
      CleanElemsOk(p);
      if elems != [] {
        JoinHead(elems, '/');
      }
    }
  }

  /** A join of parts starts with its first part. */
  lemma JoinHead(parts: seq<string>, sep: char)
    requires |parts| >= 1
    ensures |Join(parts, sep)| >= |parts[0]| && Join(parts, sep)[..|parts[0]|] == parts[0]
  {
  }

  /** An absolute path cleans to the root followed by plain elements that contain no "..",
      so no element of it climbs above the root. */
  lemma {:induction false} CleanAbsolute(p: string)
    requires IsAbs(p)
    ensures Clean(p) == "/" + Join(CleanElems(p), '/')
    ensures forall k :: 0 <= k < |CleanElems(p)| ==> PlainElem(CleanElems(p)[k]) && CleanElems(p)[k] != ".."
    ensures CleanElems(p) != [] ==> Split(Clean(p)[1..], '/') == CleanElems(p)
  {
    CleanElemsOk(p);
    var elems := CleanElems(p);
    if elems != [] {
      assert Clean(p)[1..] == Join(elems, '/');
      SplitJoin(elems, '/');
    }
  }

  /** Split of a path written as a join of separator-free parts gives back the parts. */
  lemma SplitOfJoin(p: string, parts: seq<string>)
    requires |parts| >= 1 && forall k :: 0 <= k < |parts| ==> '/' !in parts[k]
    requires Join(parts, '/') == p
    ensures Split(p, '/') == parts
  {
    SplitJoin(parts, '/');
  }

  /** Plain elements are all kept. */
  lemma {:induction false} ResolvePlain(elems: seq<string>, rooted: bool, stack: seq<string>)
    requires forall k :: 0 <= k < |elems| ==> PlainElem(elems[k]) && elems[k] != ".."
    ensures Resolve(elems, rooted, stack) == stack + elems
    decreases |elems|
  {
    if elems != [] {
      ResolvePlain(elems[1..], rooted, stack + [elems[0]]);
      assert stack + [elems[0]] + elems[1..] == stack + elems;
    }
  }

  /** A rooted path of plain elements is already clean. */
  lemma CleanOfPlain(elems: seq<string>)
    requires |elems| >= 1
    requires forall k :: 0 <= k < |elems| ==> PlainElem(elems[k]) && elems[k] != ".."
    ensures Clean("/" + Join(elems, '/')) == "/" + Join(elems, '/')
  {
    var p := "/" + Join(elems, '/');
    SplitRooted(p, elems);
    ResolvePlain(elems, true, []);
    CleanRooted(p, elems);
  }

  lemma SplitRooted(p: string, elems: seq<string>)
    requires |elems| >= 1 && p == "/" + Join(elems, '/')
    requires forall k :: 0 <= k < |elems| ==> '/' !in elems[k]
    ensures IsAbs(p) && Split(p, '/') == [""] + elems
  {
    var parts := [""] + elems;
    assert parts[1..] == elems;
    assert Join(parts, '/') == p;
    SplitJoin(parts, '/');
  }

  lemma CleanRooted(p: string, elems: seq<string>)
    requires IsAbs(p) && Split(p, '/') == [""] + elems && Resolve(elems, true, []) == elems && p == "/" + Join(elems, '/')
    ensures Clean(p) == p
  {
    var parts := [""] + elems;
    assert parts[1..] == elems;
    assert CleanElems(p) == Resolve(parts[1..], true, Step([], parts[0], true));
  }

  lemma SplitParentExample(p: string)
    requires p == "/a/../b"
    ensures Split(p, '/') == ["", "a", "..", "b"]
  {
    var parts := ["", "a", "..", "b"];
    assert Join(parts, '/') == "/a/../b" by {
      assert Join(parts[2..], '/') == "../b";
    }
    SplitOfJoin(p, parts);
  }

  lemma ResolveParentExample(p: string)
    requires Split(p, '/') == ["", "a", "..", "b"] && IsAbs(p)
    ensures CleanElems(p) == ["b"]
  {
    var parts := ["", "a", "..", "b"];
    assert Resolve(parts[1..], true, []) == Resolve(parts[2..], true, ["a"]);
    assert Resolve(parts[2..], true, ["a"]) == Resolve(parts[3..], true, []);
  }

  /** ".." inside a rooted path removes the element before it. */
  lemma CleanParentExample(p: string)
    requires p == "/a/../b"
    ensures Clean(p) == "/b"
  {
    SplitParentExample(p);
    ResolveParentExample(p);
    CleanAbsolute(p);
  }

  lemma SplitRootParentExample(p: string)
    requires p == "/../etc"
    ensures Split(p, '/') == ["", "..", "etc"]
  {
    var parts := ["", "..", "etc"];
    assert Join(parts, '/') == "/../etc";
    SplitOfJoin(p, parts);
  }

  lemma ResolveRootParentExample(p: string)
    requires Split(p, '/') == ["", "..", "etc"] && IsAbs(p)
    ensures CleanElems(p) == ["etc"]
  {
    var parts := ["", "..", "etc"];
    assert Resolve(parts[1..], true, []) == Resolve(parts[2..], true, []);
  }

  /** ".." at the root is dropped. */
  lemma CleanRootParentExample(p: string)
    requires p == "/../etc"
    ensures Clean(p) == "/etc"
  {
    SplitRootParentExample(p);
    ResolveRootParentExample(p);
    CleanAbsolute(p);
  }
}
