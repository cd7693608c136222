/** Properties of the routes taken together: what the profile page makes
    of the cookie the callback writes, and of the cookie it writes itself. */
module Flow {
  import opened Js
  import opened Http
  import opened Session
  import Authorize
  import Callback
  import opened Profile

  /** As written, the callback stores the expiry under `expiresAt` while the
      page reads `accessExpiresAt`: the first page view after a sign-in
      always refreshes, however long the new token is valid. */
  lemma LoginCookieAlwaysRefreshed(code: Option<string>, env: Env, now: int, lib: Callback.Lib, up: Callback.Upstream,
                                   t: int, resp: RefreshResponse, later: int)
    requires Callback.AllStagesPass(code, env, lib, up)
    requires RoundTrips(lib.cookie)
    ensures var login := Callback.CompleteLogin(code, env, now, lib, up);
      var v := ViewOf(Some(Encode(lib.cookie, login.outcome.payload)), lib.cookie, env, t, resp, later);
      && login.outcome.payload.accessExpiresAt.None?
      && v.request == (if RefreshConfigComplete(env) then
                         Some(TokenRequest(env.tenantId.value,
                           RefreshForm(env.clientId.value, env.clientSecret.value, Some(up.token.refreshToken))))
                       else None)
  {
    var login := Callback.CompleteLogin(code, env, now, lib, up);
    Callback.SignedInSession(code, env, now, lib, up);
    var p := login.outcome.payload;
    assert Decode(lib.cookie, Encode(lib.cookie, p)) == Some(p);
    assert !FarFromExpiry(p, t);
  }

  /** The payload the callback evidently means to write: the expiry under
      the name the page reads. */
  function CorrectedSessionPayload(email: string, name: string, profile: Callback.ProfileResponse,
                                   tok: Callback.TokenResponse, now: int): (p: CookiePayload)
    ensures p.accessExpiresAt == Some(now + tok.expiresIn * 1000)
    ensures p == Callback.SessionPayload(email, name, profile, tok, now).(expiresAt := None, accessExpiresAt := p.accessExpiresAt)
  {
    Callback.SessionPayload(email, name, profile, tok, now).(expiresAt := None, accessExpiresAt := Some(now + tok.expiresIn * 1000))
  }

  /** With the corrected payload, a view more than five minutes before the
      expiry makes no call, rewrites nothing and renders the signed-in user. */
  lemma CorrectedCookieKeptWhileFresh(email: string, name: string, profile: Callback.ProfileResponse,
                                      tok: Callback.TokenResponse, now: int, codec: Codec,
                                      env: Env, t: int, resp: RefreshResponse, later: int)
    requires RoundTrips(codec)
    requires now + tok.expiresIn * 1000 - t > FiveMinutesMs
    ensures var p := CorrectedSessionPayload(email, name, profile, tok, now);
      ViewOf(Some(Encode(codec, p)), codec, env, t, resp, later)
        == View(None, None, Welcome(Some(name), Some(email), Some(tok.accessToken)))
  {
    var p := CorrectedSessionPayload(email, name, profile, tok, now);
    assert Decode(codec, Encode(codec, p)) == Some(p);
    assert FarFromExpiry(p, t);
  }

  /** A rewritten cookie carries the new tokens and the old email and name,
      but neither the Minecraft uuid nor the username, even when the cookie
      read had them. */
  lemma RewriteDropsIdentity(raw: Option<string>, codec: Codec, env: Env, now: int, resp: RefreshResponse, later: int)
    requires RoundTrips(codec)
    requires ViewOf(raw, codec, env, now, resp, later).rewrite.Some?
    ensures var p := Decode(codec, raw.value).value;
      var c := ViewOf(raw, codec, env, now, resp, later).rewrite.value;
      && Decode(codec, c.value) == Some(RefreshedPayload(p, resp, later))
      && RefreshedPayload(p, resp, later).uuid.None?
      && RefreshedPayload(p, resp, later).username.None?
      && RefreshedPayload(p, resp, later).email == p.email
      && RefreshedPayload(p, resp, later).name == p.name
  {
    var p := Decode(codec, raw.value).value;
    var u := RefreshedPayload(p, resp, later);
    assert Decode(codec, Encode(codec, u)) == Some(u);
  }

  /** A provider that answers with the same access token gets nothing
      written: the new refresh token and expiry are not kept, so the next
      view refreshes again. */
  lemma SameAccessTokenNotPersisted(raw: Option<string>, codec: Codec, env: Env, now: int, resp: RefreshResponse, later: int)
    requires Truthy(raw) && Decode(codec, raw.value).Some?
    requires !FarFromExpiry(Decode(codec, raw.value).value, now)
    requires RefreshConfigComplete(env) && !Truthy(resp.error)
    requires Decode(codec, raw.value).value.accessToken == Some(resp.accessToken)
    ensures var v := ViewOf(raw, codec, env, now, resp, later);
      v.request.Some? && v.rewrite.None? && v.page.Welcome?
  {
  }

  /** After a view that rewrote the cookie, the next view within the new
      token's lifetime (minus five minutes) makes no call and writes nothing. */
  lemma {:induction false} SecondViewIsQuiet(raw: Option<string>, codec: Codec, env: Env, now: int, resp: RefreshResponse, later: int,
                                             t: int, env': Env, resp': RefreshResponse, later': int)
    requires RoundTrips(codec)
    requires ViewOf(raw, codec, env, now, resp, later).rewrite.Some?
    requires later + resp.expiresIn * 1000 - t > FiveMinutesMs
    ensures var c := ViewOf(raw, codec, env, now, resp, later).rewrite.value;
      var v := ViewOf(Some(c.value), codec, env', t, resp', later');
      v.request.None? && v.rewrite.None? && v.page.Welcome?
  {
    var p := Decode(codec, raw.value).value;
    var u := RefreshIfNeeded(p, now, env, resp, later).outcome.payload;
    assert u == RefreshedPayload(p, resp, later);
    var c := ViewOf(raw, codec, env, now, resp, later).rewrite.value;
    assert c.value == Encode(codec, u);
    assert Decode(codec, Encode(codec, u)) == Some(u);
    assert FarFromExpiry(u, t);
  }

  /** The consent scope and the refresh scope are the same string, and it
      differs from the scope of the code exchange. */
  lemma ScopeStrings()
    ensures Authorize.Scope == RefreshScope
    ensures Authorize.Scope != Callback.CodeExchangeScope
  {
    Authorize.ScopeIsExact();
    assert Authorize.ScopeList == RefreshScopeList;
    assert Authorize.Scope[7] == 'e';
    assert Callback.CodeExchangeScope[7] == 'p';
  }

  /** The code exchange asks for a different scope from the one consented
      to and the one used on refresh; those two agree. */
  lemma ScopesDisagree(code: Option<string>, env: Env, now: int, lib: Callback.Lib, up: Callback.Upstream,
                       p: CookiePayload, t: int, resp: RefreshResponse, later: int)
    requires |Callback.CompleteLogin(code, env, now, lib, up).calls| >= 1
    requires RefreshIfNeeded(p, t, env, resp, later).request.Some?
    ensures var exchange := Callback.CompleteLogin(code, env, now, lib, up).calls[0];
      var refresh := RefreshIfNeeded(p, t, env, resp, later).request.value;
      && exchange.TokenRequest? && refresh.TokenRequest?
      && FormValue(exchange.form, "scope") == Some("openid profile email offline_access")
      && FormValue(refresh.form, "scope") == Some(Authorize.Scope)
      && Authorize.Scope == RefreshScope
      && Authorize.Scope != "openid profile email offline_access"
  {
    Callback.CodeExchangeFirst(code, env, now, lib, up);
    Callback.ExchangeFormValues(env.clientId.value, code.value, RedirectUri(env.baseUrl.value), env.clientSecret.value);
    RefreshFormScope(env.clientId.value, env.clientSecret.value, p.refreshToken);
    ScopeStrings();
  }

  /** The code is redeemed with the same redirect URI the consent URL
      carried, as the provider requires. */
  lemma RedirectUrisAgree(code: Option<string>, env: Env, now: int, lib: Callback.Lib, up: Callback.Upstream)
    requires |Callback.CompleteLogin(code, env, now, lib, up).calls| >= 1
    ensures var exchange := Callback.CompleteLogin(code, env, now, lib, up).calls[0];
      && exchange.TokenRequest?
      && FormValue(exchange.form, "redirect_uri")
         == FormValue(Authorize.AuthorizeParams(env.clientId.value, RedirectUri(env.baseUrl.value)), "redirect_uri")
         == Some(env.baseUrl.value + "/api/auth/microsoft/callback")
  {
    Callback.CodeExchangeFirst(code, env, now, lib, up);
    Callback.ExchangeFormValues(env.clientId.value, code.value, RedirectUri(env.baseUrl.value), env.clientSecret.value);
    Authorize.ParamsRedirectUri(env.clientId.value, RedirectUri(env.baseUrl.value));
  }
}
