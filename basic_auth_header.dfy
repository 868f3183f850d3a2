/**
 * `DefaultBaiscAuthExtractor` (so spelled in the source) of
 * `src/authorize/header/basic_auth/impls/default_basic_auth_extractor.rs`.
 */
module BasicAuthHeader {
  import opened Wrappers
  import opened Http
  import opened Strings
  import opened Header

  /** `http::header::AUTHORIZATION`. */
  const AUTHORIZATION: string := "authorization"

  /** The scheme word, compared case-sensitively. */
  const SCHEME: string := "Basic"

  /** `base64::DecodeError`, the failures of the standard engine. */
  datatype DecodeError =
    | InvalidByte(offset: nat, b: byte)
    | InvalidLength(length: nat)
    | InvalidLastSymbol(offset: nat, b: byte)
    | InvalidPadding

  /** `std::string::FromUtf8Error`: the rejected bytes. */
  datatype FromUtf8Error = FromUtf8Error(bytes: seq<byte>)

  /**
   * The two decoders the extractor calls: the standard base64 engine and
   * `String::from_utf8`. They are parameters of the model.
   */
  datatype Codec = Codec(base64Decode: string -> Result<seq<byte>, DecodeError>, fromUtf8: seq<byte> -> Result<string, FromUtf8Error>)

  /** `DefaultBasicAuthError`, one variant per stage. */
  datatype DefaultBasicAuthError =
    | Header(cause: DefaultHeaderError)
    | Format
    | Decode(decodeError: DecodeError)
    | Utf8(utf8Error: FromUtf8Error)
    | Colon

  /** `extract_encoded_basic`: split at the first space, demand the exact scheme. */
  function ExtractEncodedBasic(authorization: string): (r: Result<string, DefaultBasicAuthError>)
    ensures r.Err? ==> r.error == Format
    ensures r.Ok? ==> authorization == SCHEME + " " + r.value
  {
    match SplitOnce(authorization, ' ')
    case Some((scheme, encoded)) =>
      if scheme == SCHEME then Ok(encoded) else Err(Format)
    case None => Err(Format)
  }

  /** Any payload comes back from `"Basic " + payload`. */
  lemma ExtractEncodedBasicRoundTrip(encoded: string)
    ensures ExtractEncodedBasic(SCHEME + " " + encoded) == Ok(encoded)
  {
    SplitOnceJoin(SCHEME, ' ', encoded);
    assert SCHEME + " " + encoded == SCHEME + [' '] + encoded;
  }

  /** `decode`: base64, then UTF-8; each failure keeps its cause. */
  function DecodeBasic(codec: Codec, encoded: string): (r: Result<string, DefaultBasicAuthError>)
    ensures codec.base64Decode(encoded).Err? ==> r == Err(Decode(codec.base64Decode(encoded).error))
    ensures codec.base64Decode(encoded).Ok? ==>
              var text := codec.fromUtf8(codec.base64Decode(encoded).value);
              && (text.Err? ==> r == Err(Utf8(text.error)))
              && (text.Ok? ==> r == Ok(text.value))
  {
    match codec.base64Decode(encoded)
    case Err(e) => Err(Decode(e))
    case Ok(bytes) =>
      match codec.fromUtf8(bytes)
      case Err(e) => Err(Utf8(e))
      case Ok(text) => Ok(text)
  }

  /** `split`: username before the first colon, password (colons allowed) after it. */
  function Split(basicAuth: string): (r: Result<(string, string), DefaultBasicAuthError>)
    ensures r.Err? <==> ':' !in basicAuth
    ensures r.Err? ==> r.error == Colon
    ensures r.Ok? ==> basicAuth == r.value.0 + ":" + r.value.1 && ':' !in r.value.0
  {
    match SplitOnce(basicAuth, ':')
    case Some((username, password)) => Ok((username, password))
    case None => Err(Colon)
  }

  /** A colon-free username and any password come back from `username:password`. */
  lemma SplitRoundTrip(username: string, password: string)
    requires ':' !in username
    ensures Split(username + ":" + password) == Ok((username, password))
  {
    SplitOnceJoin(username, ':', password);
    assert username + ":" + password == username + [':'] + password;
  }

  /** `DefaultBaiscAuthExtractor`: always reads the `authorization` header. */
  datatype DefaultBasicAuthExtractor = DefaultBasicAuthExtractor(headerExtractor: DefaultHeaderExtractor, codec: Codec) {

    /** `extract_basic_auth`: lookup, scheme, base64, UTF-8, colon, in that order. */
    function ExtractBasicAuth(headers: HeaderMap): (r: Result<(string, string), DefaultBasicAuthError>)
      ensures headerExtractor.ExtractHeader(headers).Err? ==>
                r == Err(Header(headerExtractor.ExtractHeader(headers).error))
      ensures headerExtractor.ExtractHeader(headers).Ok? ==>
                var encoded := ExtractEncodedBasic(headerExtractor.ExtractHeader(headers).value);
                && (encoded.Err? ==> r == Err(Format))
                && (encoded.Ok? && DecodeBasic(codec, encoded.value).Err? ==> r == Err(DecodeBasic(codec, encoded.value).error))
                && (encoded.Ok? && DecodeBasic(codec, encoded.value).Ok? ==> r == Split(DecodeBasic(codec, encoded.value).value))
    {
      match headerExtractor.ExtractHeader(headers)
      case Err(e) => Err(Header(e))
      case Ok(authorization) =>
        match ExtractEncodedBasic(authorization)
        case Err(e) => Err(e)
        case Ok(encoded) =>
          match DecodeBasic(codec, encoded)
          case Err(e) => Err(e)
          case Ok(decoded) => Split(decoded)
    }
  }

  /** `DefaultBaiscAuthExtractor::new`: the header name is fixed to `authorization`. */
  function NewDefaultBasicAuthExtractor(codec: Codec): (x: DefaultBasicAuthExtractor)
    ensures x.headerExtractor.HeaderName() == AUTHORIZATION
    ensures x.codec == codec
  {
    DefaultBasicAuthExtractor(NewDefaultHeaderExtractor(AUTHORIZATION), codec)
  }

  /** The stage an error comes from, in the order the stages run. */
  function Stage(e: DefaultBasicAuthError): nat
  {
    match e
    case Header(_) => 0
    case Format => 1
    case Decode(_) => 2
    case Utf8(_) => 3
    case Colon => 4
  }

  /**
   * The reported error is the first failing stage: every stage before it
   * passed. A later stage is never reached after an earlier one fails.
   */
  lemma ErrorIsFirstFailingStage(x: DefaultBasicAuthExtractor, headers: HeaderMap)
    requires x.ExtractBasicAuth(headers).Err?
    ensures var e := x.ExtractBasicAuth(headers).error;
            var lookup := x.headerExtractor.ExtractHeader(headers);
            && (Stage(e) == 0 <==> lookup.Err?)
            && (Stage(e) >= 1 ==> lookup.Ok?)
            && (Stage(e) >= 2 ==> ExtractEncodedBasic(lookup.value).Ok?)
            && (Stage(e) >= 3 ==> x.codec.base64Decode(ExtractEncodedBasic(lookup.value).value).Ok?)
            && (Stage(e) >= 4 ==> DecodeBasic(x.codec, ExtractEncodedBasic(lookup.value).value).Ok?)
  {
  }

  /**
   * A request carrying `Authorization: Basic <payload>`, whose payload
   * decodes to `username:password` with a colon-free username, yields that pair.
   */
  lemma ExtractBasicAuthRoundTrip(x: DefaultBasicAuthExtractor, headers: HeaderMap, payload: string, bytes: seq<byte>, username: string, password: string)
    requires IsHeaderText(SCHEME + " " + payload)
    requires x.headerExtractor.headerName in headers
    requires headers[x.headerExtractor.headerName] == AsciiBytes(SCHEME + " " + payload)
    requires x.codec.base64Decode(payload) == Ok(bytes)
    requires x.codec.fromUtf8(bytes) == Ok(username + ":" + password)
    requires ':' !in username
    ensures x.ExtractBasicAuth(headers) == Ok((username, password))
  {
    ExtractHeaderRoundTrip(x.headerExtractor, headers, SCHEME + " " + payload);
    ExtractEncodedBasicRoundTrip(payload);
    SplitRoundTrip(username, password);
  }
}
