/** The credential check every tool runs first (`_get_api_key`): the
    Firecrawl API key is the bearer token of the request's `authorization`
    header, and it must carry the service's `fc-` prefix. */
module Auth {
  import opened Wrappers
  import opened Text

  /** Header names are looked up lower-cased; the map holds them that way. */
  const AuthorizationHeader: string := "authorization"
  /** Compared against the lower-cased header value. */
  const BearerPrefix: string := "bearer "
  /** Compared case-sensitively against the token. */
  const TokenPrefix: string := "fc-"

  const MalformedHeader: string := "Authorization header missing or malformed"
  const InvalidTokenFormat: string := "Invalid Firecrawl API token format"

  /** `headers.get(name, default)`. */
  function HeaderOr(headers: map<string, string>, name: string, default: string): string
  {
    if name in headers then headers[name] else default
  }

  /** The value the check inspects: a missing header reads as the empty string. */
  function AuthorizationOf(headers: map<string, string>): string
  {
    HeaderOr(headers, AuthorizationHeader, "")
  }

  /** An independent statement of the scheme test: the word "bearer" in any
      mix of upper and lower case, then exactly one space character. */
  predicate IsBearerScheme(s: string)
  {
    && |s| >= 7
    && s[0] in "bB" && s[1] in "eE" && s[2] in "aA"
    && s[3] in "rR" && s[4] in "eE" && s[5] in "rR"
    && s[6] == ' '
  }

  /** The source's test, lower-case the value and compare with "bearer ",
      accepts exactly the values that open with a bearer scheme. */
  lemma BearerTestIsCaseInsensitive(s: string)
    ensures StartsWith(Lower(s), BearerPrefix) <==> IsBearerScheme(s)
  {
    if |s| >= 7 {
      LowerCharOnto(s[0], 'b');
      LowerCharOnto(s[1], 'e');
      LowerCharOnto(s[2], 'a');
      LowerCharOnto(s[3], 'r');
      LowerCharOnto(s[4], 'e');
      LowerCharOnto(s[5], 'r');
      var l := Lower(s);
      assert l[..7] == [l[0], l[1], l[2], l[3], l[4], l[5], l[6]];
      assert BearerPrefix == ['b', 'e', 'a', 'r', 'e', 'r', ' '];
    }
  }

  /** Once the scheme test passes, the first space is the one closing the
      scheme, so `split(" ", 1)` yields the scheme word and everything after it. */
  lemma SchemeSplit(s: string)
    requires IsBearerScheme(s)
    ensures SplitOnce(s, ' ') == [s[..6], s[7..]]
  {
    SplitAtFirst(s, ' ', 6);
  }

  /** `_get_api_key`, with the request's headers passed explicitly. */
  function ExtractToken(headers: map<string, string>): (r: Result<string, string>)
    ensures var auth := AuthorizationOf(headers);
      r.Success? <==> IsBearerScheme(auth) && StartsWith(auth[7..], TokenPrefix)
    ensures var auth := AuthorizationOf(headers);
      r.Success? ==> auth == auth[..7] + r.value && StartsWith(r.value, TokenPrefix)
    ensures !IsBearerScheme(AuthorizationOf(headers)) ==> r == Failure(MalformedHeader)
    ensures var auth := AuthorizationOf(headers);
      IsBearerScheme(auth) && !StartsWith(auth[7..], TokenPrefix) ==> r == Failure(InvalidTokenFormat)
  {
    var auth := AuthorizationOf(headers);
    BearerTestIsCaseInsensitive(auth);
    if !StartsWith(Lower(auth), BearerPrefix) then
      Failure(MalformedHeader)
    else
      SchemeSplit(auth);
      var token := SplitOnce(auth, ' ')[1];
      if !StartsWith(token, TokenPrefix) then
        Failure(InvalidTokenFormat)
      else
        Success(token)
  }

  /** Round trip: a header built from any spelling of the bearer scheme and a
      well-formed token gives that token back, spaces inside it included. */
  lemma {:induction false} TokenRoundTrip(scheme: string, token: string)
    requires IsBearerScheme(scheme) && |scheme| == 7
    requires StartsWith(token, TokenPrefix)
    ensures ExtractToken(map[AuthorizationHeader := scheme + token]) == Success(token)
  {
    var auth := scheme + token;
    assert AuthorizationOf(map[AuthorizationHeader := auth]) == auth;
    assert auth[7..] == token;
  }

  /** A token without the exact lower-case `fc-` prefix, the empty token
      included, is refused with the token-format message. */
  lemma {:induction false} BadTokenRejected(scheme: string, token: string)
    requires IsBearerScheme(scheme) && |scheme| == 7
    requires !StartsWith(token, TokenPrefix)
    ensures ExtractToken(map[AuthorizationHeader := scheme + token]) == Failure(InvalidTokenFormat)
  {
    var auth := scheme + token;
    assert AuthorizationOf(map[AuthorizationHeader := auth]) == auth;
    assert auth[7..] == token;
  }

  /** A request without the header is treated like one whose header is empty. */
  lemma MissingHeaderRejected(headers: map<string, string>)
    requires AuthorizationHeader !in headers
    ensures ExtractToken(headers) == Failure(MalformedHeader)
    ensures ExtractToken(headers) == ExtractToken(headers[AuthorizationHeader := ""])
  {
  }

  /** The scheme test ignores case; the token-prefix test does not. */
  lemma MixedCaseSchemeAccepted()
    ensures ExtractToken(map[AuthorizationHeader := "bEaReR fc-key 2"]) == Success("fc-key 2")
  {
    assert "bEaReR fc-key 2" == "bEaReR " + "fc-key 2";
    TokenRoundTrip("bEaReR ", "fc-key 2");
  }

  lemma UpperCaseTokenPrefixRejected()
    ensures ExtractToken(map[AuthorizationHeader := "Bearer FC-key"]) == Failure(InvalidTokenFormat)
  {
    assert "Bearer FC-key" == "Bearer " + "FC-key";
    assert "FC-key"[..3][0] == 'F';
    BadTokenRejected("Bearer ", "FC-key");
  }

  /** A header holding only the scheme yields the empty token, which is refused. */
  lemma EmptyTokenRejected()
    ensures ExtractToken(map[AuthorizationHeader := "Bearer "]) == Failure(InvalidTokenFormat)
  {
    assert "Bearer " == "Bearer " + "";
    BadTokenRejected("Bearer ", "");
  }
}
