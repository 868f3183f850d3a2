/**
 * Basic-auth authorization: `BasicAuthUser` of
 * `src/authorize/authorizers/basic_auth/impls/basic_auth_user.rs` and
 * `DefaultBasicAuthAuthorizer` of
 * `src/authorize/authorizers/basic_auth/impls/default_basic_auth_authorizer.rs`.
 */
module BasicAuth {
  import opened Wrappers
  import opened Http

  /** `BasicAuthUser`: equality and hashing are those of both fields. */
  datatype BasicAuthUser = BasicAuthUser(username: string, password: string) {

    /** The redacting `Debug`: the username as a quoted string, the password as a placeholder. */
    function Debug(): (r: string)
      // the quoted, escaped username between the fixed head and tail
      ensures |r| == 27 + |EscapeDebug(username)| + 20
      ensures r[..27] == "BasicAuthUser { username: \""
      ensures r[27..|r| - 20] == EscapeDebug(username)
      // the password is always shown as the placeholder
      ensures r[|r| - 20..] == "\", password: \"...\" }"
    {
      "BasicAuthUser { username: \"" + EscapeDebug(username) + "\", password: \"...\" }"
    }
  }

  /**
   * `str::escape_debug` for the characters that need it inside a quoted
   * string: quote, backslash, tab, carriage return and line feed.
   */
  function EscapeDebug(s: string): (r: string)
    ensures |r| >= |s|
  {
    if |s| == 0 then ""
    else EscapeChar(s[0]) + EscapeDebug(s[1..])
  }

  /** The escape of one character. */
  function EscapeChar(c: char): (r: string)
    ensures IsPlain(c) ==> r == [c]
    ensures c == '"' ==> r == "\\\""
    ensures c == '\\' ==> r == "\\\\"
    ensures c == '\t' ==> r == "\\t"
    ensures c == '\r' ==> r == "\\r"
    ensures c == '\n' ==> r == "\\n"
  {
    if c == '"' then "\\\""
    else if c == '\\' then "\\\\"
    else if c == '\t' then "\\t"
    else if c == '\r' then "\\r"
    else if c == '\n' then "\\n"
    else [c]
  }

  /**
   * Characters that `{:?}` prints as they are: visible ASCII other than the
   * quote and the backslash.
   */
  predicate IsPlain(c: char) {
    ' ' <= c <= '~' && c != '"' && c != '\\'
  }

  /** Escaping works character by character: the escape of a concatenation is the concatenation of the escapes. */
  lemma {:induction false} EscapeDebugAppend(a: string, b: string)
    ensures EscapeDebug(a + b) == EscapeDebug(a) + EscapeDebug(b)
  {
    if |a| > 0 {
      assert (a + b)[0] == a[0];
      assert (a + b)[1..] == a[1..] + b;
      EscapeDebugAppend(a[1..], b);
    } else {
      assert a + b == b;
    }
  }

  /** A username without special characters is shown exactly as it is. */
  lemma {:induction false} EscapeDebugPlain(s: string)
    requires forall i | 0 <= i < |s| :: IsPlain(s[i])
    ensures EscapeDebug(s) == s
  {
    if |s| > 0 {
      EscapeDebugPlain(s[1..]);
      assert [s[0]] + s[1..] == s;
    }
  }

  /** The debug text does not depend on the password. */
  lemma DebugHidesPassword(username: string, p1: string, p2: string)
    ensures BasicAuthUser(username, p1).Debug() == BasicAuthUser(username, p2).Debug()
  {
  }

  /** A username without special characters appears verbatim, between quotes, in the debug text. */
  lemma DebugShowsUsername(username: string, password: string)
    requires forall i | 0 <= i < |username| :: IsPlain(username[i])
    ensures BasicAuthUser(username, password).Debug()
            == "BasicAuthUser { username: \"" + username + "\", password: \"...\" }"
  {
    EscapeDebugPlain(username);
  }

  /** `BasicAuthUser::new` (and `From<(U, P)>`, which calls it): stores both as given. */
  function NewBasicAuthUser(username: string, password: string): (u: BasicAuthUser)
    ensures u.username == username && u.password == password
  {
    BasicAuthUser(username, password)
  }

  /** Two users are equal exactly when username and password both are. */
  lemma BasicAuthUserEquality(u1: string, p1: string, u2: string, p2: string)
    ensures NewBasicAuthUser(u1, p1) == NewBasicAuthUser(u2, p2) <==> u1 == u2 && p1 == p2
  {
  }

  /** `DefaultBasicAuthAuthorizeError`. */
  datatype DefaultBasicAuthAuthorizeError<BE> = BasicAuth(cause: BE) | Invalid

  /** `DefaultBasicAuthAuthorizer`: a credential extractor and a fixed set of users. */
  datatype DefaultBasicAuthAuthorizer<BE> = DefaultBasicAuthAuthorizer(
    basicAuthExtractor: HeaderMap -> Result<(string, string), BE>,
    users: set<BasicAuthUser>)
  {

    /** `authorize`: extract the pair, then test membership of the user it names. */
    function Authorize(headers: HeaderMap): (r: Result<BasicAuthUser, DefaultBasicAuthAuthorizeError<BE>>)
      ensures basicAuthExtractor(headers).Err? ==>
                r == Err(BasicAuth(basicAuthExtractor(headers).error))
      ensures r.Ok? <==> basicAuthExtractor(headers).Ok?
                         && BasicAuthUser(basicAuthExtractor(headers).value.0, basicAuthExtractor(headers).value.1) in users
      ensures r.Ok? ==> r.value.username == basicAuthExtractor(headers).value.0
                        && r.value.password == basicAuthExtractor(headers).value.1
                        && r.value in users
      // an unknown user and a wrong password are the same error
      ensures basicAuthExtractor(headers).Ok? && r.Err? ==> r.error == Invalid
    {
      match basicAuthExtractor(headers)
      case Err(e) => Err(BasicAuth(e))
      case Ok(pair) =>
        var user := NewBasicAuthUser(pair.0, pair.1);
        if user in users then Ok(user) else Err(Invalid)
    }
  }

  /** The challenge every error response carries. */
  const BASIC_CHALLENGE: string := "Basic realm=\"restricted\", charset=\"UTF-8\""

  /** The error response: 401 with the same Basic challenge, whatever the error. */
  function BasicAuthErrorResponse<BE>(e: DefaultBasicAuthAuthorizeError<BE>): (r: Response)
    ensures r.status == UNAUTHORIZED
    ensures r.headers == [(WWW_AUTHENTICATE, BASIC_CHALLENGE)]
  {
    Response(UNAUTHORIZED, [(WWW_AUTHENTICATE, BASIC_CHALLENGE)])
  }

  /** A known username with a wrong password is refused. */
  lemma WrongPasswordRefused<BE>(a: DefaultBasicAuthAuthorizer<BE>, headers: HeaderMap, goodPassword: string)
    requires a.basicAuthExtractor(headers).Ok?
    requires BasicAuthUser(a.basicAuthExtractor(headers).value.0, goodPassword) in a.users
    requires forall u | u in a.users && u.username == a.basicAuthExtractor(headers).value.0 :: u.password == goodPassword
    requires a.basicAuthExtractor(headers).value.1 != goodPassword
    ensures a.Authorize(headers) == Err(Invalid)
  {
  }
}
