/**
 * The validation policy of `src/authorize/authorizers/jwt/impls/validation.rs`
 * and its translation into the `jsonwebtoken` crate's own `Validation`.
 */
module JwtValidation {
  import opened Wrappers
  import opened Jwks

  /** Rust's `u64`. */
  type u64 = x: int | 0 <= x < 0x1_0000_0000_0000_0000

  /** The set a slice collects into: duplicates collapse, order is forgotten. */
  function Collect(xs: seq<string>): (s: set<string>)
    ensures forall x :: x in s <==> x in xs
  {
    set x | x in xs
  }

  /** `Validation`: the policy an application configures. */
  datatype Validation = Validation(
    requiredSpecClaims: set<string>,
    leeway: u64,
    rejectTokensExpiringInLessThan: u64,
    validateExp: bool,
    validateNbf: bool,
    validateAud: bool,
    aud: Option<set<string>>,
    iss: Option<set<string>>,
    sub: Option<string>,
    validateSignature: bool)
  {

    /** `required_spec_claims`: replaces the claims that must be present. */
    function RequiredSpecClaims(claims: set<string>): (r: Validation)
      ensures r.requiredSpecClaims == claims
      ensures r.(requiredSpecClaims := requiredSpecClaims) == this
    {
      this.(requiredSpecClaims := claims)
    }

    /** `leeway`: replaces the clock-skew allowance, in seconds. */
    function Leeway(leeway': u64): (r: Validation)
      ensures r.leeway == leeway'
      ensures r.(leeway := leeway) == this
    {
      this.(leeway := leeway')
    }

    /** `reject_tokens_expiring_in_less_than`: replaces the early-expiry threshold. */
    function RejectTokensExpiringInLessThan(seconds: u64): (r: Validation)
      ensures r.rejectTokensExpiringInLessThan == seconds
      ensures r.(rejectTokensExpiringInLessThan := rejectTokensExpiringInLessThan) == this
    {
      this.(rejectTokensExpiringInLessThan := seconds)
    }

    /** `validate_exp`. */
    function ValidateExp(flag: bool): (r: Validation)
      ensures r.validateExp == flag
      ensures r.(validateExp := validateExp) == this
    {
      this.(validateExp := flag)
    }

    /** `validate_nbf`. */
    function ValidateNbf(flag: bool): (r: Validation)
      ensures r.validateNbf == flag
      ensures r.(validateNbf := validateNbf) == this
    {
      this.(validateNbf := flag)
    }

    /** `validate_aud`. */
    function ValidateAud(flag: bool): (r: Validation)
      ensures r.validateAud == flag
      ensures r.(validateAud := validateAud) == this
    {
      this.(validateAud := flag)
    }

    /** `aud`: the accepted audiences, collected from a slice; an empty slice still sets them. */
    function Aud(audiences: seq<string>): (r: Validation)
      ensures r.aud.Some? && forall a :: a in r.aud.value <==> a in audiences
      ensures r.(aud := aud) == this
    {
      this.(aud := Some(Collect(audiences)))
    }

    /** `iss`: the accepted issuers, collected from a slice. */
    function Iss(issuers: seq<string>): (r: Validation)
      ensures r.iss.Some? && forall i :: i in r.iss.value <==> i in issuers
      ensures r.(iss := iss) == this
    {
      this.(iss := Some(Collect(issuers)))
    }

    /** `sub`: the required subject. */
    function Sub(subject: string): (r: Validation)
      ensures r.sub == Some(subject)
      ensures r.(sub := sub) == this
    {
      this.(sub := Some(subject))
    }

    /** `insecure_disable_signature_validation`. */
    function InsecureDisableSignatureValidation(): (r: Validation)
      ensures !r.validateSignature
      ensures r.(validateSignature := validateSignature) == this
    {
      this.(validateSignature := false)
    }

    /** `to_jsonwebtoken_validation`: the library policy for the token's algorithm. */
    function ToJsonWebTokenValidation(algorithm: Algorithm): (v: JsonWebTokenValidation)
      // the policy's own settings are carried over unchanged
      ensures v.leeway == leeway
      ensures v.rejectTokensExpiringInLessThan == rejectTokensExpiringInLessThan
      ensures v.validateExp == validateExp && v.validateNbf == validateNbf && v.validateAud == validateAud
      ensures v.aud == aud && v.iss == iss && v.sub == sub
      // signature checking is off exactly when the policy turned it off
      ensures v.validateSignature <==> validateSignature
      // the library's own choices: the one algorithm, and its default required claims
      ensures v.algorithms == [algorithm]
      ensures v.requiredSpecClaims == NewJsonWebTokenValidation(algorithm).requiredSpecClaims
    {
      var base := NewJsonWebTokenValidation(algorithm).(
        leeway := leeway,
        rejectTokensExpiringInLessThan := rejectTokensExpiringInLessThan,
        validateExp := validateExp,
        validateNbf := validateNbf,
        validateAud := validateAud,
        aud := aud,
        iss := iss,
        sub := sub);
      if !validateSignature then base.InsecureDisableSignatureValidation() else base
    }
  }

  /** `Validation::default` (and `Validation::new`, which calls it). */
  function DefaultValidation(): (v: Validation)
    ensures v.requiredSpecClaims == {"exp"}
    ensures v.leeway == 60 && v.rejectTokensExpiringInLessThan == 0
    ensures v.validateExp && !v.validateNbf && v.validateAud
    ensures v.aud.None? && v.iss.None? && v.sub.None?
    ensures v.validateSignature
  {
    Validation({"exp"}, 60, 0, true, false, true, None, None, None, true)
  }

  /** `jsonwebtoken::Validation`, restricted to the fields the translation touches. */
  datatype JsonWebTokenValidation = JsonWebTokenValidation(
    requiredSpecClaims: set<string>,
    leeway: u64,
    rejectTokensExpiringInLessThan: u64,
    validateExp: bool,
    validateNbf: bool,
    validateAud: bool,
    aud: Option<set<string>>,
    iss: Option<set<string>>,
    sub: Option<string>,
    algorithms: seq<Algorithm>,
    validateSignature: bool)
  {
    /** `jsonwebtoken::Validation::insecure_disable_signature_validation`. */
    function InsecureDisableSignatureValidation(): (r: JsonWebTokenValidation)
      ensures !r.validateSignature
      ensures r.(validateSignature := validateSignature) == this
    {
      this.(validateSignature := false)
    }
  }

  /** `jsonwebtoken::Validation::new(alg)`: the library's defaults for one algorithm. */
  function NewJsonWebTokenValidation(algorithm: Algorithm): (v: JsonWebTokenValidation)
    ensures v.algorithms == [algorithm]
    ensures v.requiredSpecClaims == {"exp"}
    ensures v.leeway == 60 && v.rejectTokensExpiringInLessThan == 0
    ensures v.validateExp && !v.validateNbf && v.validateAud
    ensures v.aud.None? && v.iss.None? && v.sub.None?
    ensures v.validateSignature
  {
    JsonWebTokenValidation({"exp"}, 60, 0, true, false, true, None, None, None, [algorithm], true)
  }

  /** Disabling signature checking twice is the same as once. */
  lemma InsecureDisableIdempotent(v: Validation)
    ensures v.InsecureDisableSignatureValidation().InsecureDisableSignatureValidation()
            == v.InsecureDisableSignatureValidation()
  {
  }

  /** Repeated audiences or issuers collapse, and their order does not matter. */
  lemma AudIssIgnoreDuplicatesAndOrder(v: Validation, xs: seq<string>, ys: seq<string>)
    requires forall x :: x in xs <==> x in ys
    ensures v.Aud(xs) == v.Aud(ys)
    ensures v.Iss(xs) == v.Iss(ys)
    ensures v.Aud(xs + xs) == v.Aud(xs)
  {
    assert Collect(xs) == Collect(ys);
    assert Collect(xs + xs) == Collect(xs);
  }

  /** An empty slice sets an empty audience set, which differs from none at all. */
  lemma AudEmptyIsSomeEmpty(v: Validation)
    ensures v.Aud([]).aud == Some({})
  {
    assert Collect([]) == {};
  }

  /**
   * The policy's required claims do not reach the library policy: two
   * policies that differ only there translate identically.
   */
  lemma RequiredSpecClaimsNotTransferred(v: Validation, claims: set<string>, algorithm: Algorithm)
    ensures v.RequiredSpecClaims(claims).ToJsonWebTokenValidation(algorithm) == v.ToJsonWebTokenValidation(algorithm)
  {
  }

  /** The default policy translates to the library's own default for the algorithm. */
  lemma DefaultTranslatesToLibraryDefault(algorithm: Algorithm)
    ensures DefaultValidation().ToJsonWebTokenValidation(algorithm) == NewJsonWebTokenValidation(algorithm)
  {
  }
}
