/** UTF-8 encoding of strings: Go strings are byte strings, and `len` counts bytes. */
module Utf8 {

  /** The UTF-8 bytes of one Unicode scalar value. */
  function EncodeChar(c: char): (r: seq<bv8>)
    ensures 1 <= |r| <= 4
    ensures (c as int < 0x80) <==> |r| == 1
    ensures |r| == 1 ==> r[0] as int == c as int
  {
    var n := c as int;
    if n < 0x80 then [n as bv8]
    else if n < 0x800 then [(0xC0 + n / 64) as bv8, (0x80 + n % 64) as bv8]
    else if n < 0x1_0000 then
      [(0xE0 + n / 4096) as bv8, (0x80 + (n / 64) % 64) as bv8, (0x80 + n % 64) as bv8]
    else
      [(0xF0 + n / 262144) as bv8, (0x80 + (n / 4096) % 64) as bv8,
       (0x80 + (n / 64) % 64) as bv8, (0x80 + n % 64) as bv8]
  }

  /** The UTF-8 bytes of a string (Go's []byte(s)). */
  function Encode(s: string): seq<bv8> {
    if s == [] then [] else EncodeChar(s[0]) + Encode(s[1..])
  }

  /** Go's len(s): the number of UTF-8 bytes. */
  function ByteLen(s: string): nat {
    |Encode(s)|
  }

  predicate IsAscii(s: string) {
    forall i :: 0 <= i < |s| ==> s[i] as int < 0x80
  }

  /** An ASCII string encodes to one byte per character, each equal to the character's code. */
  lemma {:induction false} EncodeAscii(s: string)
    requires IsAscii(s)
    ensures |Encode(s)| == |s|
    ensures forall i :: 0 <= i < |s| ==> Encode(s)[i] as int == s[i] as int
  {
    if s != [] {
      EncodeAscii(s[1..]);
    }
  }

  /** Every character needs at least one byte, so the byte length never falls below the character count. */
  lemma {:induction false} ByteLenAtLeastLength(s: string)
    ensures ByteLen(s) >= |s|
  {
    if s != [] {
      ByteLenAtLeastLength(s[1..]);
    }
  }

  /** No character needs more than four bytes. */
  lemma {:induction false} ByteLenAtMostFour(s: string)
    ensures ByteLen(s) <= 4 * |s|
  {
    if s != [] {
      ByteLenAtMostFour(s[1..]);
    }
  }
}
