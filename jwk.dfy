/**
 * The parts of the `jsonwebtoken` crate the JWT authorizer relies on: the
 * algorithm names, a JWK set and its lookup by key id, the token header and
 * the crate's error kinds. Cryptography is not modelled.
 */
module Jwks {
  import opened Wrappers

  /** `jsonwebtoken::Algorithm`. */
  datatype Algorithm =
    | HS256 | HS384 | HS512
    | ES256 | ES384
    | RS256 | RS384 | RS512
    | PS256 | PS384 | PS512
    | EdDSA

  /** Key material of a JWK; its parameters are opaque to the model. */
  datatype KeyMaterial = KeyMaterial(parameters: seq<(string, string)>)

  /** A JWK: its optional key id, its optional algorithm and its key material. */
  datatype Jwk = Jwk(kid: Option<string>, alg: Option<Algorithm>, material: KeyMaterial)

  /** A JWK set: the keys in document order. */
  datatype JwkSet = JwkSet(keys: seq<Jwk>) {

    /** `JwkSet::find`: the first key whose key id is present and equal to `kid`. */
    function Find(kid: string): (r: Option<Jwk>)
      ensures r.None? <==> forall i | 0 <= i < |keys| :: keys[i].kid != Some(kid)
      ensures r.Some? ==> exists i | 0 <= i < |keys| :: keys[i] == r.value
                           && keys[i].kid == Some(kid)
                           && forall j | 0 <= j < i :: keys[j].kid != Some(kid)
      decreases |keys|
    {
      if |keys| == 0 then None
      else if keys[0].kid == Some(kid) then Some(keys[0])
      else
        var rest := JwkSet(keys[1..]).Find(kid);
        assert forall i | 1 <= i < |keys| :: keys[i] == keys[1..][i - 1];
        rest
    }
  }

  /** Putting a key in front of a set makes it the one found for its own key id. */
  lemma FindPrefers(jwk: Jwk, kid: string, rest: seq<Jwk>)
    requires jwk.kid == Some(kid)
    ensures JwkSet([jwk] + rest).Find(kid) == Some(jwk)
  {
  }

  /** Keys without the searched id do not affect the lookup, wherever they sit. */
  lemma {:induction false} FindSkipsOthers(before: seq<Jwk>, kid: string, after: seq<Jwk>)
    requires forall i | 0 <= i < |before| :: before[i].kid != Some(kid)
    ensures JwkSet(before + after).Find(kid) == JwkSet(after).Find(kid)
  {
    if |before| > 0 {
      FindSkipsOthers(before[1..], kid, after);
      assert (before + after)[0] == before[0];
      assert (before + after)[1..] == before[1..] + after;
    } else {
      assert before + after == after;
    }
  }

  /** The decoded, unverified JOSE header of a token: its algorithm and optional key id. */
  datatype JwtHeader = JwtHeader(alg: Algorithm, kid: Option<string>)

  /** `jsonwebtoken::errors::ErrorKind`, the failure kinds the pipeline can meet. */
  datatype JwtError =
    | InvalidToken
    | InvalidSignature
    | InvalidEcdsaKey
    | InvalidRsaKey(reason: string)
    | InvalidAlgorithmName
    | InvalidKeyFormat
    | MissingRequiredClaim(claim: string)
    | ExpiredSignature
    | InvalidIssuer
    | InvalidAudience
    | InvalidSubject
    | ImmatureSignature
    | InvalidAlgorithm
    | MissingAlgorithm
    | Base64
    | Json
    | Utf8
}
