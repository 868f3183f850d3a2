/**
 * Two application rules from the repository's examples, as concrete
 * instances of the combinators: `EmailVerifier`, a `Chain` step
 * (`examples/jwt_email_verfied.rs`), and `GroupsValidator`, a `Modifier`
 * (`examples/jwt_groups.rs`).
 */
module AppRules {
  import opened Wrappers
  import opened Http
  import opened Extract
  import Chain
  import opened Extension

  /** The claims both examples decode, restricted to the fields their rules read. */
  datatype Claims = Claims(emailVerified: bool, email: string, groups: seq<string>)

  /** `EmailVerificationError`. */
  datatype EmailVerificationError = EmailVerificationError

  /** `EmailVerifier::chain`: pass the claims on when the email is verified. */
  function VerifyEmail(claims: Claims): (r: Result<Claims, EmailVerificationError>)
    ensures r.Ok? <==> claims.emailVerified
    ensures r.Ok? ==> r.value == claims
  {
    if claims.emailVerified then Ok(claims) else Err(EmailVerificationError)
  }

  /**
   * An authorizer chained with `EmailVerifier` accepts exactly the
   * authorized requests whose claims have a verified email, and reports an
   * unverified one as a chain failure, not an authorization failure.
   */
  lemma EmailVerifiedChain<AE>(authorizer: Extractor<Claims, AE>, headers: HeaderMap)
    ensures var r := Chain.ChainExtractor(authorizer, VerifyEmail).Extract(headers).result;
            && (r.Ok? <==> authorizer(headers).Ok? && authorizer(headers).value.emailVerified)
            && (r.Ok? ==> r.value == authorizer(headers).value)
            && (authorizer(headers).Ok? && !authorizer(headers).value.emailVerified ==>
                  r == Err(Chain.ChainError.Chain(EmailVerificationError)))
  {
  }

  /** `GroupsValidationError`. */
  datatype GroupsValidationError = GroupsValidationError

  /** `GroupsValidator::modify`: keep the claims when one of their groups is allowed. */
  function ValidateGroups(allowed: set<string>, claims: Claims): (r: Result<Claims, GroupsValidationError>)
    ensures r.Ok? <==> exists i | 0 <= i < |claims.groups| :: claims.groups[i] in allowed
    ensures r.Ok? ==> r.value == claims
  {
    if exists g | g in claims.groups :: g in allowed then Ok(claims) else Err(GroupsValidationError)
  }

  /**
   * One guarded route: a `GroupsValidator` modification layer over the
   * route's handler. The handler runs exactly when the request carries
   * sealed claims that share a group with the validator's set, and it then
   * sees those claims unchanged; otherwise the response is the layer's error.
   */
  method GroupsRoute<V, R, SE>(
    handler: Service<V, R, SE>,
    allowed: set<string>,
    key: TypeKey<SealedExtracted<Claims>, V>,
    fromError: ModificationError<GroupsValidationError> -> R,
    request: Request<V>)
    returns (response: Result<R, SE>, handlerCalled: bool)
    modifies request
    ensures var (rest, found) := Remove(old(request.extensions), key);
            && (handlerCalled <==>
                  found.Some? && exists i | 0 <= i < |found.value.IntoInner().groups| :: found.value.IntoInner().groups[i] in allowed)
            && (found.None? ==> response == Ok(fromError(Extract)))
            && (found.Some? && !handlerCalled ==> response == Ok(fromError(Modification(GroupsValidationError))))
            && (handlerCalled ==>
                  && request.extensions == rest[key.tag := key.box(found.value)]
                  && response == handler(request.headers, request.extensions))
  {
    var layer := ModificationService(handler, (c: Claims) => ValidateGroups(allowed, c), key, key, fromError);
    var modifierCalled;
    response, handlerCalled, modifierCalled := layer.Call(request);
  }
}
