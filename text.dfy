/** String helpers with the semantics of Go's `strings` package, on sequences of characters. */
module Text {

  /** Go's unicode.IsSpace: the ASCII spaces, U+0085, U+00A0 and the Unicode White_Space characters. */
  predicate IsSpace(c: char) {
    var n := c as int;
    (9 <= n <= 13) || n == 32 || n == 0x85 || n == 0xA0
    || n == 0x1680 || (0x2000 <= n <= 0x200A) || n == 0x2028 || n == 0x2029
    || n == 0x202F || n == 0x205F || n == 0x3000
  }

  /** Neither the first nor the last character is a space. */
  predicate NoEdgeSpace(s: string) {
    s == [] || (!IsSpace(s[0]) && !IsSpace(s[|s| - 1]))
  }

  /** strings.TrimLeftFunc(s, unicode.IsSpace): a suffix of s, all of whose dropped characters are spaces. */
  function TrimLeft(s: string): (r: string)
    ensures |r| <= |s| && r == s[|s| - |r|..]
    ensures forall i :: 0 <= i < |s| - |r| ==> IsSpace(s[i])
    ensures r == [] || !IsSpace(r[0])
  {
    if s == [] || !IsSpace(s[0]) then s else TrimLeft(s[1..])
  }

  /** strings.TrimRightFunc(s, unicode.IsSpace): a prefix of s, all of whose dropped characters are spaces. */
  function TrimRight(s: string): (r: string)
    ensures |r| <= |s| && r == s[..|r|]
    ensures forall i :: |r| <= i < |s| ==> IsSpace(s[i])
    ensures r == [] || !IsSpace(r[|r| - 1])
  {
    if s == [] || !IsSpace(s[|s| - 1]) then s else TrimRight(s[..|s| - 1])
  }

  /** strings.TrimSpace: the slice of s left after dropping leading and trailing spaces. */
  function TrimSpace(s: string): (r: string)
    ensures NoEdgeSpace(r)
    ensures |r| <= |s|
    ensures forall c :: c in r ==> c in s
  {
    var l := TrimLeft(s);
    var r := TrimRight(l);
    assert forall c :: c in r ==> c in l;
    r
  }

  /** Trimming a string that has no space at either end gives the string back. */
  lemma TrimSpaceOfTrimmed(s: string)
    requires NoEdgeSpace(s)
    ensures TrimSpace(s) == s
  {
  }

  /** TrimSpace is idempotent. */
  lemma TrimSpaceIdempotent(s: string)
    ensures TrimSpace(TrimSpace(s)) == TrimSpace(s)
  {
    TrimSpaceOfTrimmed(TrimSpace(s));
  }

  predicate HasPrefix<T(==)>(s: seq<T>, prefix: seq<T>) {
    |prefix| <= |s| && s[..|prefix|] == prefix
  }

  /** strings.TrimPrefix: drop prefix when s starts with it, otherwise s unchanged. */
  function TrimPrefix<T(==)>(s: seq<T>, prefix: seq<T>): (r: seq<T>)
    ensures HasPrefix(s, prefix) ==> s == prefix + r
    ensures !HasPrefix(s, prefix) ==> r == s
  {
    if HasPrefix(s, prefix) then s[|prefix|..] else s
  }

  /** sub occurs in s starting at offset i. */
  predicate OccursAt<T(==)>(s: seq<T>, sub: seq<T>, i: int) {
    0 <= i && i + |sub| <= |s| && s[i..i + |sub|] == sub
  }

  /** strings.Contains / bytes.Contains, computed by scanning the offsets from the left. */
  function Contains<T(==)>(s: seq<T>, sub: seq<T>): bool
    decreases |s|
  {
    if |sub| > |s| then false
    else if s[..|sub|] == sub then true
    else Contains(s[1..], sub)
  }

  /** Contains holds exactly when sub occurs at some offset. */
  lemma {:induction false} ContainsIff<T>(s: seq<T>, sub: seq<T>)
    ensures Contains(s, sub) <==> exists i :: OccursAt(s, sub, i)
    decreases |s|
  {
    if |sub| > |s| {
    } else if s[..|sub|] == sub {
      assert OccursAt(s, sub, 0);
    } else {
      ContainsIff(s[1..], sub);
      if Contains(s[1..], sub) {
        var i :| OccursAt(s[1..], sub, i);
        assert s[1..][i..i + |sub|] == s[i + 1..i + 1 + |sub|];
        assert OccursAt(s, sub, i + 1);
      } else {
        forall i | OccursAt(s, sub, i) ensures false {
          if i == 0 {
          } else {
            assert s[1..][i - 1..i - 1 + |sub|] == s[i..i + |sub|];
            assert OccursAt(s[1..], sub, i - 1);
          }
        }
      }
    }
  }

  /** An occurrence at a known offset is found by Contains. */
  lemma ContainsAt<T>(s: seq<T>, sub: seq<T>, i: int)
    requires OccursAt(s, sub, i)
    ensures Contains(s, sub)
  {
    ContainsIff(s, sub);
  }

  /** Whatever occurs in b occurs in a + b + c. */
  lemma ContainsInContext<T>(a: seq<T>, b: seq<T>, c: seq<T>, sub: seq<T>)
    requires Contains(b, sub)
    ensures Contains(a + b + c, sub)
  {
    ContainsIff(b, sub);
    var i :| OccursAt(b, sub, i);
    assert (a + b + c)[|a| + i..|a| + i + |sub|] == b[i..i + |sub|];
    ContainsAt(a + b + c, sub, |a| + i);
  }

  /** A pattern occurs in anything built around it. */
  lemma ContainsMiddle<T>(a: seq<T>, m: seq<T>, c: seq<T>)
    ensures Contains(a + m + c, m)
  {
    assert (a + m + c)[|a|..|a| + |m|] == m;
    ContainsAt(a + m + c, m, |a|);
  }

  /** Whatever occurs in an occurring pattern occurs in the whole. */
  lemma ContainsWithin<T>(s: seq<T>, m: seq<T>, sub: seq<T>)
    requires Contains(s, m) && Contains(m, sub)
    ensures Contains(s, sub)
  {
    ContainsIff(s, m);
    var i :| OccursAt(s, m, i);
    assert s == s[..i] + m + s[i + |m|..];
    ContainsInContext(s[..i], m, s[i + |m|..], sub);
  }

  /** The pieces written one after the other. */
  function Concat<T>(pieces: seq<seq<T>>): seq<T>
    decreases |pieces|
  {
    if pieces == [] then [] else pieces[0] + Concat(pieces[1..])
  }

  /** Every piece occurs in the concatenation. */
  lemma {:induction false} ConcatContainsPiece<T>(pieces: seq<seq<T>>, k: nat)
    requires k < |pieces|
    ensures Contains(Concat(pieces), pieces[k])
    decreases k
  {
    if k == 0 {
      ContainsMiddle([], pieces[0], Concat(pieces[1..]));
      assert [] + pieces[0] + Concat(pieces[1..]) == Concat(pieces);
    } else {
      ConcatContainsPiece(pieces[1..], k - 1);
      ContainsInContext(pieces[0], Concat(pieces[1..]), [], pieces[k]);
      assert pieces[0] + Concat(pieces[1..]) + [] == Concat(pieces);
    }
  }

  /** A sequence without any occurrence of x does not contain a pattern that starts with x. */
  lemma NotContainsWithout<T>(s: seq<T>, sub: seq<T>)
    requires |sub| > 0 && sub[0] !in s
    ensures !Contains(s, sub)
  {
    ContainsIff(s, sub);
  }

  /** strings.Split(s, sep) for a one-character separator: the pieces between separators. */
  function Split(s: string, sep: char): (parts: seq<string>)
    ensures |parts| >= 1
    ensures forall k :: 0 <= k < |parts| ==> sep !in parts[k]
    decreases |s|
  {
    if sep !in s then [s]
    else
      var i := IndexOf(s, sep);
      [s[..i]] + Split(s[i + 1..], sep)
  }

  /** The first index of c in s. */
  function IndexOf(s: string, c: char): (i: nat)
    requires c in s
    ensures i < |s| && s[i] == c && c !in s[..i]
  {
    if s[0] == c then 0 else 1 + IndexOf(s[1..], c)
  }

  /** strings.Join(parts, sep). */
  function Join(parts: seq<string>, sep: char): string {
    if |parts| == 0 then ""
    else if |parts| == 1 then parts[0]
    else parts[0] + [sep] + Join(parts[1..], sep)
  }

  /** Split is undone by Join. */
  lemma {:induction false} JoinSplit(s: string, sep: char)
    ensures Join(Split(s, sep), sep) == s
    decreases |s|
  {
    if sep in s {
      var i := IndexOf(s, sep);
      var rest := Split(s[i + 1..], sep);
      assert Split(s, sep) == [s[..i]] + rest;
      JoinSplit(s[i + 1..], sep);
      assert Join([s[..i]] + rest, sep) == s[..i] + [sep] + Join(rest, sep) by {
        assert ([s[..i]] + rest)[0] == s[..i] && ([s[..i]] + rest)[1..] == rest;
      }
      assert s == s[..i] + [sep] + s[i + 1..];
    }
  }

  /** The first piece of Split is everything before the first separator. */
  lemma SplitFirst(s: string, sep: char)
    ensures sep in s ==> Split(s, sep)[0] == s[..IndexOf(s, sep)]
    ensures sep !in s ==> Split(s, sep) == [s]
  {
  }

  /** The first separator of a + [sep] + b is the one after a. */
  lemma IndexOfAfter(a: string, sep: char, b: string)
    requires sep !in a
    ensures sep in a + [sep] + b && IndexOf(a + [sep] + b, sep) == |a|
    decreases |a|
  {
    var s := a + [sep] + b;
    assert s[|a|] == sep;
    if a != [] {
      assert s[1..] == a[1..] + [sep] + b;
      IndexOfAfter(a[1..], sep, b);
    }
  }

  /** Join is undone by Split when no part contains the separator. */
  lemma {:induction false} SplitJoin(parts: seq<string>, sep: char)
    requires |parts| >= 1
    requires forall k :: 0 <= k < |parts| ==> sep !in parts[k]
    ensures Split(Join(parts, sep), sep) == parts
  {
    if |parts| > 1 {
      var rest := Join(parts[1..], sep);
      var s := parts[0] + [sep] + rest;
      assert Join(parts, sep) == s;
      IndexOfAfter(parts[0], sep, rest);
      var i := IndexOf(s, sep);
      assert Split(s, sep) == [s[..i]] + Split(s[i + 1..], sep);
      assert s[..i] == parts[0];
      assert s[i + 1..] == rest;
      SplitJoin(parts[1..], sep);
      assert parts == [parts[0]] + parts[1..];
    }
  }
}
