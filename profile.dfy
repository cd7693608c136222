/** The profile page: reads the session cookie, refreshes the Microsoft
    access token when it is close to expiry, and rewrites the cookie when
    the token changed. */
module Profile {
  import opened Js
  import opened Http
  import opened Session

  /** The refresh threshold: five minutes, in milliseconds. */
  const FiveMinutesMs := 5 * 60 * 1000
  /** The lifetime of a rewritten cookie: thirty days, in seconds. */
  const ThirtyDays := 60 * 60 * 24 * 30

  const RefreshScopeList := ["openid", "email", "offline_access", "XboxLive.signin"]
  const RefreshScope := Join(RefreshScopeList, " ")

  /** The token endpoint's answer to a refresh. */
  datatype RefreshResponse = RefreshResponse(
    error: Option<string>,
    accessToken: string,
    refreshToken: string,
    expiresIn: int)

  /** The guard: more than five minutes left before `accessExpiresAt`. An
      absent `accessExpiresAt` makes the difference NaN, and NaN compares
      false, so such a payload is refreshed. */
  predicate FarFromExpiry(p: CookiePayload, now: int) {
    p.accessExpiresAt.Some? && p.accessExpiresAt.value - now > FiveMinutesMs
  }

  predicate RefreshConfigComplete(env: Env) {
    Truthy(env.clientId) && Truthy(env.clientSecret) && Truthy(env.tenantId)
  }

  /** The refresh form, in the order it is given. An absent refresh token
      is sent as the string "undefined". */
  function RefreshForm(clientId: string, secret: string, refreshToken: Option<string>): Form {
    [ ("client_id", clientId),
      ("client_secret", secret),
      ("grant_type", "refresh_token"),
      ("refresh_token", StringOf(refreshToken)),
      ("scope", RefreshScope) ]
  }

  /** The scope the provider reads from the refresh form. */
  lemma RefreshFormScope(clientId: string, secret: string, refreshToken: Option<string>)
    ensures FormValue(RefreshForm(clientId, secret, refreshToken), "scope") == Some(RefreshScope)
  {
    FormValueFirst(RefreshForm(clientId, secret, refreshToken), 4, "scope");
  }

  /** The object the refresh returns: new tokens and expiry, the email and
      the name of the old payload, nothing else. */
  function RefreshedPayload(p: CookiePayload, resp: RefreshResponse, later: int): CookiePayload {
    CookiePayload(
      email := p.email, name := p.name,
      uuid := None, username := None,
      accessToken := Some(resp.accessToken), refreshToken := Some(resp.refreshToken),
      expiresAt := None, accessExpiresAt := Some(later + resp.expiresIn * 1000))
  }

  /** A returned payload, or the message of the error thrown. */
  datatype Outcome = Returned(payload: CookiePayload) | Threw(message: string)

  /** The call made (if any) and the outcome. */
  datatype Refresh = Refresh(request: Option<Request>, outcome: Outcome)

  /** `refreshAccessTokenIfNeeded`. `now` is the clock read by the guard and
      `later` the one read after the token endpoint answered. */
  function RefreshIfNeeded(p: CookiePayload, now: int, env: Env, resp: RefreshResponse, later: int): (r: Refresh)
    // far from expiry: the same payload, no call, whatever the environment
    ensures FarFromExpiry(p, now) ==> r == Refresh(None, Returned(p))
    // otherwise the configuration is checked before anything is sent
    ensures !FarFromExpiry(p, now) && !RefreshConfigComplete(env) ==>
      r == Refresh(None, Threw("Missing OAuth environment variables"))
    ensures r.request.Some? <==> !FarFromExpiry(p, now) && RefreshConfigComplete(env)
    ensures r.request.Some? ==>
      r.request.value == TokenRequest(env.tenantId.value,
        RefreshForm(env.clientId.value, env.clientSecret.value, p.refreshToken))
    // an error member in the answer is fatal
    ensures r.request.Some? && Truthy(resp.error) ==> r.outcome == Threw("Failed to refresh access token")
    ensures r.request.Some? && !Truthy(resp.error) ==>
      && r.outcome.Returned?
      && r.outcome.payload.accessToken == Some(resp.accessToken)
      && r.outcome.payload.refreshToken == Some(resp.refreshToken)
      && r.outcome.payload.accessExpiresAt == Some(later + resp.expiresIn * 1000)
      && r.outcome.payload.email == p.email
      && r.outcome.payload.name == p.name
      && r.outcome.payload.uuid.None? && r.outcome.payload.username.None?
      && r.outcome.payload.expiresAt.None?
  {
    if FarFromExpiry(p, now) then
      Refresh(None, Returned(p))
    else if !RefreshConfigComplete(env) then
      Refresh(None, Threw("Missing OAuth environment variables"))
    else
      var request := TokenRequest(env.tenantId.value,
                       RefreshForm(env.clientId.value, env.clientSecret.value, p.refreshToken));
      if Truthy(resp.error) then
        Refresh(Some(request), Threw("Failed to refresh access token"))
      else
        Refresh(Some(request), Returned(RefreshedPayload(p, resp, later)))
  }

  /** A cookie as `cookies().set` is given it. */
  datatype Cookie = Cookie(
    name: string, value: string, httpOnly: bool, path: string,
    maxAge: int, sameSite: string, secure: bool)

  /** The cookie the page writes after a refresh. */
  function SessionCookie(value: string, env: Env): Cookie {
    Cookie(CookieName, value, true, "/", ThirtyDays, "lax", IsProduction(env))
  }

  /** What the page does: send the browser to the login page, or render
      the name, the email and the access token. */
  datatype Page = ToLogin | Welcome(name: Option<string>, email: Option<string>, accessToken: Option<string>)

  /** Everything one page view does. */
  datatype View = View(request: Option<Request>, rewrite: Option<Cookie>, page: Page)

  /** One page view, given the raw cookie. */
  function ViewOf(raw: Option<string>, codec: Codec, env: Env, now: int, resp: RefreshResponse, later: int): (v: View)
    // no cookie, a cookie that does not decode, or a refresh that throws: to the login page
    ensures v.page == ToLogin <==>
      || !Truthy(raw)
      || Decode(codec, raw.value).None?
      || RefreshIfNeeded(Decode(codec, raw.value).value, now, env, resp, later).outcome.Threw?
    ensures v.request.Some? ==> Truthy(raw) && Decode(codec, raw.value).Some?
    ensures Truthy(raw) && Decode(codec, raw.value).Some? ==>
      var p := Decode(codec, raw.value).value;
      var refresh := RefreshIfNeeded(p, now, env, resp, later);
      && v.request == refresh.request
      && (refresh.outcome.Returned? ==>
            var u := refresh.outcome.payload;
            && v.page == Welcome(u.name, u.email, u.accessToken)
            // rewritten exactly when the access token changed
            && (v.rewrite.Some? <==> u.accessToken != p.accessToken)
            && (v.rewrite.Some? ==> v.rewrite.value == SessionCookie(Encode(codec, u), env)))
    ensures v.page == ToLogin ==> v.rewrite.None?
  {
    if !Truthy(raw) then View(None, None, ToLogin)
    else
      match Decode(codec, raw.value)
      case None => View(None, None, ToLogin)
      case Some(p) =>
        var refresh := RefreshIfNeeded(p, now, env, resp, later);
        match refresh.outcome
        case Threw(_) => View(refresh.request, None, ToLogin)
        case Returned(u) =>
          var rewrite := if u.accessToken != p.accessToken then Some(SessionCookie(Encode(codec, u), env)) else None;
          View(refresh.request, rewrite, Welcome(u.name, u.email, u.accessToken))
  }

  /** The cookies of one request: what the browser sent, then what the
      page sets. */
  class CookieStore {
    var values: map<string, string>
    var written: map<string, Cookie>

    constructor (sent: map<string, string>)
      ensures values == sent && written == map[]
    {
      values := sent;
      written := map[];
    }

    /** `cookies().get(name)?.value` */
    method Get(name: string) returns (v: Option<string>)
      ensures v == if name in values then Some(values[name]) else None
    {
      v := if name in values then Some(values[name]) else None;
    }

    /** `cookies().set(c)`: later reads see the new value. */
    method Set(c: Cookie)
      modifies this
      ensures values == old(values)[c.name := c.value]
      ensures written == old(written)[c.name := c]
    {
      values := values[c.name := c.value];
      written := written[c.name := c];
    }
  }

  function RawCookie(values: map<string, string>): Option<string> {
    if CookieName in values then Some(values[CookieName]) else None
  }

  /** The page handler, step by step. */
  method ProfilePage(store: CookieStore, codec: Codec, env: Env, now: int, resp: RefreshResponse, later: int)
    returns (page: Page, request: Option<Request>)
    modifies store
    ensures var v := ViewOf(RawCookie(old(store.values)), codec, env, now, resp, later);
      && page == v.page
      && request == v.request
      && (v.rewrite.None? ==> store.values == old(store.values) && store.written == old(store.written))
      && (v.rewrite.Some? ==>
            && store.values == old(store.values)[CookieName := v.rewrite.value.value]
            && store.written == old(store.written)[CookieName := v.rewrite.value])
  {
    var raw := store.Get(CookieName);
    if !Truthy(raw) {
      return ToLogin, None;
    }
    var decoded := Decode(codec, raw.value);
    if decoded.None? {
      return ToLogin, None;
    }
    var payload := decoded.value;
    var refresh := RefreshIfNeeded(payload, now, env, resp, later);
    request := refresh.request;
    if refresh.outcome.Threw? {
      page := ToLogin;
      return;
    }
    var updatedPayload := refresh.outcome.payload;
    if updatedPayload.accessToken != payload.accessToken {
      store.Set(SessionCookie(Encode(codec, updatedPayload), env));
    }
    page := Welcome(updatedPayload.name, updatedPayload.email, updatedPayload.accessToken);
  }

  /** The comparison is strict: with exactly five minutes left the token
      is refreshed. */
  lemma RefreshAtExactlyFiveMinutes(p: CookiePayload, now: int, env: Env, resp: RefreshResponse, later: int)
    requires p.accessExpiresAt == Some(now + 300000)
    requires RefreshConfigComplete(env)
    ensures RefreshIfNeeded(p, now, env, resp, later).request.Some?
  {
  }

  /** A refreshed payload is left alone by every guard that finds more
      than five minutes left on the new expiry: refreshing twice in a row
      happens only when the provider grants five minutes or less. */
  lemma {:induction false} RefreshedPayloadIsStable(p: CookiePayload, now: int, env: Env, resp: RefreshResponse, later: int,
                                                     t: int, env': Env, resp': RefreshResponse, later': int)
    requires RefreshIfNeeded(p, now, env, resp, later).outcome.Returned?
    requires RefreshIfNeeded(p, now, env, resp, later).request.Some?
    requires later + resp.expiresIn * 1000 - t > FiveMinutesMs
    ensures var u := RefreshIfNeeded(p, now, env, resp, later).outcome.payload;
      RefreshIfNeeded(u, t, env', resp', later') == Refresh(None, Returned(u))
  {
    var u := RefreshIfNeeded(p, now, env, resp, later).outcome.payload;
    assert u.accessExpiresAt == Some(later + resp.expiresIn * 1000);
    assert FarFromExpiry(u, t);
  }
}
