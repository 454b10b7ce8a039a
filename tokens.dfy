/** Session and CSRF tokens: the padded base64url text (RFC 4648 section 5) of 32 random bytes. */
module Tokens {
  import opened Wrappers
  import Base64

  type Bytes32 = b: seq<bv8> | |b| == 32 witness seq(32, i => 0 as bv8)

  function Token(b: Bytes32): string {
    Base64.EncodeUrl(b)
  }

  /** A token is 44 characters: 43 of the URL-safe alphabet and one '='. */
  lemma TokenShape(b: Bytes32)
    ensures |Token(b)| == 44 && Token(b)[43] == '='
    ensures forall i :: 0 <= i < 43 ==> Token(b)[i] in Base64.UrlAlphabet
  {
    var enc := Base64.EncodeUrl(b);
    Base64.EncodeShape(Base64.UrlAlphabet, b);
    assert |enc| == 44 && Base64.Padding(32) == 1;
    assert Token(b) == enc;
  }

  /** generateToken: a failing random source is an error, otherwise the token of the bytes. */
  function GenerateToken(random: Result<Bytes32>): (r: Result<string>)
    ensures random.Err? <==> r.Err?
    ensures r.Ok? ==> r.value == Token(random.value) && r.value != ""
  {
    match random
    case Err(e) => Err(e)
    case Ok(b) => TokenShape(b); Ok(Token(b))
  }
}
