/**
 * The parts of the `http` crate the core touches: a header map, the
 * conversion of a header value to a string, and a response skeleton.
 */
module Http {
  import opened Wrappers

  type byte = x: int | 0 <= x < 256

  /** A header map: header name to raw header value. */
  type HeaderMap = map<string, seq<byte>>

  /** `http::header::ToStrError`: the value holds a byte that is not visible ASCII. */
  datatype ToStrError = ToStrError

  /** The bytes `HeaderValue::to_str` accepts: visible ASCII and the horizontal tab. */
  predicate IsVisibleAscii(b: byte) {
    (32 <= b < 127) || b == 9
  }

  /** `HeaderValue::to_str`: the value as a string when every byte is visible ASCII. */
  function ToStr(value: seq<byte>): (r: Result<string, ToStrError>)
    ensures r.Ok? <==> forall i | 0 <= i < |value| :: IsVisibleAscii(value[i])
    ensures r.Ok? ==> |r.value| == |value|
    ensures r.Ok? ==> forall i | 0 <= i < |value| :: r.value[i] as int == value[i]
  {
    if forall i | 0 <= i < |value| :: IsVisibleAscii(value[i]) then
      Ok(seq(|value|, i requires 0 <= i < |value| => value[i] as char))
    else
      Err(ToStrError)
  }

  /** A string every character of which `ToStr` would accept back as a byte. */
  predicate IsHeaderText(s: string) {
    forall i | 0 <= i < |s| :: s[i] as int < 256 && IsVisibleAscii(s[i] as int)
  }

  /** The bytes of a header-text string, one per character. */
  function AsciiBytes(s: string): (v: seq<byte>)
    requires IsHeaderText(s)
    ensures |v| == |s|
  {
    seq(|s|, i requires 0 <= i < |s| => s[i] as int)
  }

  /** `ToStr` reads back exactly the text the bytes were made from. */
  lemma ToStrAsciiBytes(s: string)
    requires IsHeaderText(s)
    ensures ToStr(AsciiBytes(s)) == Ok(s)
  {
    var v := AsciiBytes(s);
    assert forall i | 0 <= i < |v| :: v[i] == s[i] as int;
    var r := ToStr(v);
    assert r.Ok?;
    assert forall i | 0 <= i < |s| :: r.value[i] == s[i];
    assert r.value == s;
  }

  type StatusCode = nat

  const UNAUTHORIZED: StatusCode := 401
  const INTERNAL_SERVER_ERROR: StatusCode := 500

  /** The name of the challenge header, as `http::header::WWW_AUTHENTICATE` spells it. */
  const WWW_AUTHENTICATE: string := "www-authenticate"

  /** A response as far as the core decides it: a status and the headers it sets. */
  datatype Response = Response(status: StatusCode, headers: seq<(string, string)>)
}
