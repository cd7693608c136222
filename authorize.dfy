/** The login initiator: builds the consent URL of the identity provider and
    redirects the browser to it. */
module Authorize {
  import opened Js
  import opened Http

  const ScopeList := ["openid", "email", "offline_access", "XboxLive.signin"]
  /** The scope requested at consent time, the list joined by spaces. */
  const Scope := Join(ScopeList, " ")
  const AuthorizePath := "/oauth2/v2.0/authorize"

  /** The query parameters of the consent URL, in the order they are given. */
  function AuthorizeParams(clientId: string, redirectUri: string): Form {
    [ ("client_id", clientId),
      ("response_type", "code"),
      ("redirect_uri", redirectUri),
      ("response_mode", "query"),
      ("scope", Scope),
      ("prompt", "select_account") ]
  }

  predicate ConfigComplete(env: Env) {
    Truthy(env.clientId) && Truthy(env.tenantId) && Truthy(env.baseUrl)
  }

  /** The route handler. `encode` is `URLSearchParams.toString`. The answer
      depends on the environment and the encoder alone. */
  function BeginLogin(env: Env, encode: Form -> string): (r: Response)
    ensures r.Redirect? <==> ConfigComplete(env)
    ensures !r.Redirect? ==> r == Text(500, "Missing OAuth environment variables")
    ensures r.Redirect? ==>
      && r.status == 302
      && r.setCookie == None
      && r.location == Authority + env.tenantId.value + AuthorizePath + "?"
                       + encode(AuthorizeParams(env.clientId.value, RedirectUri(env.baseUrl.value)))
  {
    if !ConfigComplete(env) then
      Text(500, "Missing OAuth environment variables")
    else
      var redirectUri := RedirectUri(env.baseUrl.value);
      var params := AuthorizeParams(env.clientId.value, redirectUri);
      Redirect(302, Authority + env.tenantId.value + AuthorizePath + "?" + encode(params), None)
  }

  /** The index of the first occurrence of `c` in `s`. */
  function IndexOf(s: string, c: char): (r: Option<nat>)
    ensures r.None? <==> c !in s
    ensures r.Some? ==> r.value < |s| && s[r.value] == c && c !in s[..r.value]
  {
    if s == [] then None
    else if s[0] == c then Some(0)
    else
      var t := IndexOf(s[1..], c);
      if t.None? then None
      else
        assert s[..t.value + 1] == [s[0]] + s[1..][..t.value];
        Some(t.value + 1)
  }

  /** The query string of a URL: everything after its first `?`. */
  function QueryOf(url: string): Option<string> {
    match IndexOf(url, '?')
    case None => None
    case Some(i) => Some(url[i + 1..])
  }

  /** The tenant segment of a URL on the authority: the text between the
      authority prefix and the next `/`. */
  function TenantOf(url: string): Option<string> {
    if |url| < |Authority| || url[..|Authority|] != Authority then None
    else
      var rest := url[|Authority|..];
      match IndexOf(rest, '/')
      case None => None
      case Some(i) => Some(rest[..i])
  }

  /** The first `c` of `a + [c] + b`, when `a` has none, is at `|a|`. */
  lemma FirstOccurrence(a: string, c: char, b: string)
    requires c !in a
    ensures IndexOf(a + [c] + b, c) == Some(|a|)
  {
    var s := a + [c] + b;
    assert s[|a|] == c;
    assert s[..|a|] == a;
  }

  /** The characters the URL relies on: neither fixed part holds a `?`,
      and the path starts with `/`. */
  lemma UrlConstants()
    ensures '?' !in Authority && '?' !in AuthorizePath
    ensures |AuthorizePath| > 0 && AuthorizePath[0] == '/'
  {
  }

  /** The query of `head?q` is `q` when `head` has no `?`. */
  lemma {:induction false} QueryAfter(head: string, q: string)
    requires '?' !in head
    ensures QueryOf(head + "?" + q) == Some(q)
  {
    FirstOccurrence(head, '?', q);
    assert (head + ['?'] + q)[|head| + 1..] == q;
  }

  /** The tenant segment of `<authority><tenant><path>?<q>` is the tenant
      when it holds no `/` and the path starts with one. */
  lemma {:induction false} TenantBefore(tenant: string, path: string, q: string)
    requires '/' !in tenant && |path| > 0 && path[0] == '/'
    ensures TenantOf(Authority + tenant + path + "?" + q) == Some(tenant)
  {
    var rest := path + "?" + q;
    var url := Authority + tenant + path + "?" + q;
    assert url == Authority + (tenant + rest);
    assert url[..|Authority|] == Authority;
    assert url[|Authority|..] == tenant + rest;
    assert tenant + rest == tenant + ['/'] + rest[1..];
    FirstOccurrence(tenant, '/', rest[1..]);
    assert (tenant + rest)[..|tenant|] == tenant;
  }

  /** The encoded parameters can be read back from the redirect: they are
      the query of the location, whenever the tenant holds no `?`. */
  lemma {:induction false} QueryIsEncodedParams(env: Env, encode: Form -> string)
    requires ConfigComplete(env)
    requires '?' !in env.tenantId.value
    ensures QueryOf(BeginLogin(env, encode).location)
            == Some(encode(AuthorizeParams(env.clientId.value, RedirectUri(env.baseUrl.value))))
  {
    var head := Authority + env.tenantId.value + AuthorizePath;
    var q := encode(AuthorizeParams(env.clientId.value, RedirectUri(env.baseUrl.value)));
    UrlConstants();
    assert '?' !in head by {
      assert head == Authority + (env.tenantId.value + AuthorizePath);
      assert '?' !in env.tenantId.value + AuthorizePath;
    }
    QueryAfter(head, q);
  }

  /** The tenant can be read back from the redirect whenever it holds no `/`. */
  lemma {:induction false} TenantIsRecoverable(env: Env, encode: Form -> string)
    requires ConfigComplete(env)
    requires '/' !in env.tenantId.value
    ensures TenantOf(BeginLogin(env, encode).location) == Some(env.tenantId.value)
  {
    UrlConstants();
    TenantBefore(env.tenantId.value, AuthorizePath,
                 encode(AuthorizeParams(env.clientId.value, RedirectUri(env.baseUrl.value))));
  }

  /** The scope string is exactly the four scopes, in their order, with one
      space between neighbours. */
  lemma ScopeIsExact()
    ensures Scope == "openid" + " " + "email" + " " + "offline_access" + " " + "XboxLive.signin"
  {
    var l := ScopeList;
    assert l[1..][1..][1..] == ["XboxLive.signin"];
    assert l[1..][1..] == ["offline_access", "XboxLive.signin"];
    assert l[1..] == ["email", "offline_access", "XboxLive.signin"];
  }

  /** The consent URL carries the redirect URI it is given. */
  lemma ParamsRedirectUri(clientId: string, redirectUri: string)
    ensures FormValue(AuthorizeParams(clientId, redirectUri), "redirect_uri") == Some(redirectUri)
  {
    FormValueFirst(AuthorizeParams(clientId, redirectUri), 2, "redirect_uri");
  }

  /** Nothing but the client id, the tenant and the base URL reaches the
      answer: the secret and the run mode are ignored. */
  lemma IgnoresSecretAndMode(env: Env, encode: Form -> string, secret: Option<string>, mode: Option<string>)
    ensures BeginLogin(env, encode) == BeginLogin(env.(clientSecret := secret, nodeEnv := mode), encode)
  {
  }
}
