/**
 * The two tower services of the core: `ExtensionService` of
 * `src/extension/service.rs`, which runs an extractor and stores its value
 * in the request before calling the inner service, and `ModificationService`
 * of `src/extension/modify/service.rs`, which rewrites a stored value.
 *
 * A request's extension map is keyed by type: `V` is the universe of stored
 * values and a `TypeKey<T>` gives the key of `T` with its conversions.
 * The inner service is a function of the request it receives.
 */
module Extension {
  import opened Wrappers
  import opened Http
  import opened Extract

  /** The `TypeId` of a stored type, as a name. */
  type TypeTag = string

  /**
   * The key of `T` in an extension map: its tag, the boxing of a `T` and
   * the downcast back, which fails on a value of another type.
   */
  datatype TypeKey<!T, !V> = TypeKey(tag: TypeTag, box: T -> V, downcast: V -> Option<T>)

  /** The parts of a request the services touch: fixed headers, a mutable extension map. */
  class Request<V> {
    const headers: HeaderMap
    var extensions: map<TypeTag, V>

    constructor (headers: HeaderMap, extensions: map<TypeTag, V>)
      ensures this.headers == headers && this.extensions == extensions
    {
      this.headers := headers;
      this.extensions := extensions;
    }
  }

  /** The inner service: a response (or the service's own error) for the request it is handed. */
  type Service<!V, R, SE> = (HeaderMap, map<TypeTag, V>) -> Result<R, SE>

  /** `ExtensionService`: an extractor in front of an inner service. */
  datatype ExtensionService<!V, R, SE, !T, !EX> = ExtensionService(
    service: Service<V, R, SE>,
    extractor: Extractor<T, EX>,
    key: TypeKey<T, V>,
    fromError: EX -> R)
  {

    /** `call`: extract from the request's headers; on success store the value, then call the service. */
    method Call(request: Request<V>) returns (response: Result<R, SE>, serviceCalled: bool)
      modifies request
      // a failed extraction answers with the error's response; nothing else happens
      ensures extractor(request.headers).Err? ==>
                && response == Ok(fromError(extractor(request.headers).error))
                && !serviceCalled
                && request.extensions == old(request.extensions)
      // a value is stored under its type before the service sees the request
      ensures extractor(request.headers).Ok? ==>
                && request.extensions == old(request.extensions)[key.tag := key.box(extractor(request.headers).value)]
                && serviceCalled
                && response == service(request.headers, request.extensions)
    {
      var extracted := extractor(request.headers);
      match extracted
      case Err(e) =>
        return Ok(fromError(e)), false;
      case Ok(value) =>
        request.extensions := request.extensions[key.tag := key.box(value)];
        response := service(request.headers, request.extensions);
        serviceCalled := true;
    }
  }

  /** `ModificationError`: no value to modify, or the modifier's own failure. */
  datatype ModificationError<ME> = Extract | Modification(cause: ME)

  /** The error response: 500 when the value is missing, the modifier error's own response otherwise. */
  function ModificationErrorResponse<ME>(e: ModificationError<ME>, modificationResponse: ME -> Response): (r: Response)
    ensures e.Extract? ==> r == Response(INTERNAL_SERVER_ERROR, [])
    ensures e.Modification? ==> r == modificationResponse(e.cause)
  {
    match e
    case Extract => Response(INTERNAL_SERVER_ERROR, [])
    case Modification(cause) => modificationResponse(cause)
  }

  /**
   * `http::Extensions::remove::<T>`: the entry under `T`'s key leaves the
   * map, and its value is returned when it downcasts to `T`.
   */
  function Remove<T, V>(extensions: map<TypeTag, V>, key: TypeKey<T, V>): (r: (map<TypeTag, V>, Option<T>))
    ensures key.tag !in r.0 && forall tag | tag in extensions && tag != key.tag :: tag in r.0 && r.0[tag] == extensions[tag]
    ensures forall tag | tag in r.0 :: tag in extensions
    ensures r.1.Some? <==> key.tag in extensions && key.downcast(extensions[key.tag]).Some?
    ensures r.1.Some? ==> key.downcast(extensions[key.tag]) == Some(r.1.value)
  {
    var removed := if key.tag in extensions then key.downcast(extensions[key.tag]) else None;
    (extensions - {key.tag}, removed)
  }

  /** `ModificationService`: a modifier of a stored `SealedExtracted<T>` in front of an inner service. */
  datatype ModificationService<!V, R, SE, !T, !U, !ME> = ModificationService(
    service: Service<V, R, SE>,
    modifier: T -> Result<U, ME>,
    inKey: TypeKey<SealedExtracted<T>, V>,
    outKey: TypeKey<SealedExtracted<U>, V>,
    fromError: ModificationError<ME> -> R)
  {

    /** `call`: take the stored value out, modify it, store the result, then call the service. */
    method Call(request: Request<V>) returns (response: Result<R, SE>, serviceCalled: bool, modifierCalled: bool)
      modifies request
      ensures var (rest, found) := Remove(old(request.extensions), inKey);
              // nothing to modify: the Extract error's response, no modifier, no service
              && (found.None? ==>
                    && response == Ok(fromError(Extract))
                    && !modifierCalled && !serviceCalled
                    && request.extensions == rest)
              // the modifier runs once, on the stored value
              && (found.Some? ==> modifierCalled)
              && (found.Some? && modifier(found.value.IntoInner()).Err? ==>
                    && response == Ok(fromError(Modification(modifier(found.value.IntoInner()).error)))
                    && !serviceCalled
                    && request.extensions == rest)
              // the modified value is stored, sealed, before the service sees the request
              && (found.Some? && modifier(found.value.IntoInner()).Ok? ==>
                    && request.extensions == rest[outKey.tag := outKey.box(SealedExtracted(modifier(found.value.IntoInner()).value))]
                    && serviceCalled
                    && response == service(request.headers, request.extensions))
    {
      var (rest, found) := Remove(request.extensions, inKey);
      request.extensions := rest;
      modifierCalled := false;
      match found
      case None =>
        return Ok(fromError(Extract)), false, false;
      case Some(sealed) =>
        modifierCalled := true;
        match modifier(sealed.IntoInner())
        case Err(e) =>
          return Ok(fromError(Modification(e))), false, true;
        case Ok(modified) =>
          request.extensions := request.extensions[outKey.tag := outKey.box(SealedExtracted(modified))];
          response := service(request.headers, request.extensions);
          serviceCalled := true;
    }
  }
}
