/** The bearer-token middleware `authenticateToken`, the same in both
    server revisions (server.mjs and server.js). */
module Auth {
  import opened Wrappers
  import opened JsStrings

  /** `authHeader && authHeader.split(' ')[1]`, kept only when truthy: the
      second space-separated word of the header, whatever the first word
      is. */
  function BearerToken(header: Option<string>): (t: Option<string>)
    ensures t.Some? ==> Truthy(header) && Truthy(t) && ' ' !in t.value
    ensures t.Some? ==> exists k | 0 <= k < |header.value| :: header.value[k] == ' '
  {
    if !Truthy(header) then None
    else
      var parts := Split(header.value, ' ');
      if |parts| < 2 || parts[1] == "" then None
      else
        SpaceWhenSplit(header.value);
        Some(parts[1])
  }

  /** A string that splits into two or more pieces holds a space. */
  lemma {:induction false} SpaceWhenSplit(s: string)
    requires |Split(s, ' ')| >= 2
    ensures exists k | 0 <= k < |s| :: s[k] == ' '
  {
    if forall k | 0 <= k < |s| :: s[k] != ' ' {
      SplitWithoutSep(s, ' ');
    }
  }

  /** `"<scheme> <token>"`, and more words after the token, yield the token. */
  lemma BearerTokenOfHeader(scheme: string, token: string, rest: string)
    requires ' ' !in scheme && ' ' !in token && token != ""
    ensures BearerToken(Some(scheme + " " + token)) == Some(token)
    ensures BearerToken(Some(scheme + " " + token + " " + rest)) == Some(token)
  {
    SplitWithoutSep(token, ' ');
    SplitAtFirstSep(scheme, token, ' ');
    SplitAtFirstSep(token, rest, ' ');
    SplitAtFirstSep(scheme, token + " " + rest, ' ');
    assert scheme + " " + token + " " + rest == scheme + [' '] + (token + [' '] + rest);
  }

  /** A header of one word, or with nothing after its first space, carries
      no token. */
  lemma NoTokenWithoutSecondWord(word: string)
    requires ' ' !in word
    ensures BearerToken(Some(word)) == None
    ensures BearerToken(Some(word + " ")) == None
  {
    SplitWithoutSep(word, ' ');
    SplitAtFirstSep(word, "", ' ');
    assert word + " " == word + [' '] + "";
  }

  /** What the middleware does with a request. */
  datatype AuthResult =
    | Authenticated(email: string)
    | Unauthorized(status: int, message: string)

  /** `authenticateToken`: 401 without a token, 401 when `jwt.verify` refuses
      it, and otherwise the e-mail claim of the token. `verify` is
      `jwt.verify` with the server's secret (None: it fails). */
  function Authenticate(header: Option<string>, verify: string -> Option<string>): (r: AuthResult)
    ensures r.Unauthorized? ==> r.status == 401
    ensures r.Authenticated? <==> BearerToken(header).Some? && verify(BearerToken(header).value).Some?
    ensures r.Authenticated? ==> r.email == verify(BearerToken(header).value).value
  {
    match BearerToken(header)
    case None => Unauthorized(401, "Authentication token required")
    case Some(token) =>
      match verify(token)
      case None => Unauthorized(401, "Invalid or expired token")
      case Some(email) => Authenticated(email)
  }
}
