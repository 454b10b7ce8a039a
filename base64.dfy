/** Base64 encoding as in RFC 4648: the standard alphabet of section 4 and the URL-safe one of section 5, padded with '='. */
module Base64 {

  /** The character for the 6-bit value v: 'A'..'Z', 'a'..'z', '0'..'9', then the alphabet's own two
      last characters (RFC 4648 Table 1 and Table 2). */
  function SextetChar(v: int, c62: char, c63: char): char
    requires 0 <= v < 64
  {
    if v < 26 then ('A' as int + v) as char
    else if v < 52 then ('a' as int + (v - 26)) as char
    else if v < 62 then ('0' as int + (v - 52)) as char
    else if v == 62 then c62
    else c63
  }

  /** The 64 characters of an alphabet, in value order. */
  function Alphabet(c62: char, c63: char): string {
    seq(64, v requires 0 <= v < 64 => SextetChar(v, c62, c63))
  }

  /** A letter or a digit, the characters of the first 62 values. */
  predicate Alnum(c: char) {
    ('A' <= c <= 'Z') || ('a' <= c <= 'z') || ('0' <= c <= '9')
  }

  /** The first 62 values map to letters and digits, each to its own character. */
  lemma SextetCharInjective(v: int, w: int, c62: char, c63: char)
    requires 0 <= v < 62 && 0 <= w < 62 && v != w
    ensures Alnum(SextetChar(v, c62, c63)) && SextetChar(v, c62, c63) != SextetChar(w, c62, c63)
  {
  }

  /** When the last two characters differ from each other and from every letter and digit, no
      character occurs twice in the alphabet, so each character decodes to one value. */
  lemma AlphabetDistinct(c62: char, c63: char)
    requires c62 != c63 && !Alnum(c62) && !Alnum(c63)
    ensures |Alphabet(c62, c63)| == 64
    ensures forall v, w :: 0 <= v < w < 64 ==> Alphabet(c62, c63)[v] != Alphabet(c62, c63)[w]
  {
    var a := Alphabet(c62, c63);
    forall v, w | 0 <= v < w < 64 ensures a[v] != a[w] {
      if w < 62 {
        SextetCharInjective(v, w, c62, c63);
      } else if v < 62 {
        SextetCharInjective(v, (v + 1) % 62, c62, c63);
      }
    }
  }

  const StdAlphabet: string := Alphabet('+', '/')
  const UrlAlphabet: string := Alphabet('-', '_')

  /** The ends of each run of the tables: A..Z at 0..25, a..z at 26..51, 0..9 at 52..61, then the two
      characters that distinguish the standard alphabet from the URL-safe one. */
  lemma AlphabetRuns()
    ensures StdAlphabet[0] == 'A' && StdAlphabet[25] == 'Z' && StdAlphabet[26] == 'a' && StdAlphabet[51] == 'z'
    ensures StdAlphabet[52] == '0' && StdAlphabet[61] == '9' && StdAlphabet[62] == '+' && StdAlphabet[63] == '/'
    ensures UrlAlphabet[..62] == StdAlphabet[..62] && UrlAlphabet[62] == '-' && UrlAlphabet[63] == '_'
  {
  }

  /** Every three bytes become four characters; a final one or two bytes become two or three
      characters followed by "==" or "=". */
  function Encode(alphabet: string, b: seq<bv8>): (r: string)
    requires |alphabet| == 64
    decreases |b|
  {
    if |b| == 0 then ""
    else
      var b0 := b[0] as int;
      if |b| == 1 then
        [alphabet[b0 / 4], alphabet[(b0 % 4) * 16], '=', '=']
      else
        var b1 := b[1] as int;
        if |b| == 2 then
          [alphabet[b0 / 4], alphabet[(b0 % 4) * 16 + b1 / 16], alphabet[(b1 % 16) * 4], '=']
        else
          var b2 := b[2] as int;
          [alphabet[b0 / 4], alphabet[(b0 % 4) * 16 + b1 / 16], alphabet[(b1 % 16) * 4 + b2 / 64], alphabet[b2 % 64]]
          + Encode(alphabet, b[3..])
  }

  /** base64.StdEncoding.EncodeToString */
  function EncodeStd(b: seq<bv8>): string {
    Encode(StdAlphabet, b)
  }

  /** base64.URLEncoding.EncodeToString */
  function EncodeUrl(b: seq<bv8>): string {
    Encode(UrlAlphabet, b)
  }

  /** The number of '=' characters that end the encoding of n bytes. */
  function Padding(n: nat): nat {
    if n % 3 == 0 then 0 else 3 - n % 3
  }

  /** The encoding has 4 * ceil(n / 3) characters: alphabet characters followed by Padding(n) '='. */
  lemma {:induction false} EncodeShape(alphabet: string, b: seq<bv8>)
    requires |alphabet| == 64
    ensures |Encode(alphabet, b)| == 4 * ((|b| + 2) / 3)
    ensures forall i :: 0 <= i < |Encode(alphabet, b)| - Padding(|b|) ==> Encode(alphabet, b)[i] in alphabet
    ensures forall i :: |Encode(alphabet, b)| - Padding(|b|) <= i < |Encode(alphabet, b)| ==> Encode(alphabet, b)[i] == '='
    decreases |b|
  {
    if |b| >= 3 {
      EncodeShape(alphabet, b[3..]);
      var r := Encode(alphabet, b);
      var t := Encode(alphabet, b[3..]);
      assert r[4..] == t;
      assert Padding(|b|) == Padding(|b| - 3);
      forall i | 0 <= i < |r| - Padding(|b|) ensures r[i] in alphabet {
        if i >= 4 { assert r[i] == t[i - 4]; }
      }
      forall i | |r| - Padding(|b|) <= i < |r| ensures r[i] == '=' {
        assert r[i] == t[i - 4];
      }
    }
  }
}
