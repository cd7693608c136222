/** The configuration the routes read and the HTTP messages they send and
    answer with, reduced to the parts that vary. */
module Http {
  import opened Js

  /** The process environment; every variable may be unset. */
  datatype Env = Env(
    clientId: Option<string>,      // MICROSOFT_CLIENT_ID
    clientSecret: Option<string>,  // MICROSOFT_CLIENT_SECRET
    tenantId: Option<string>,      // MICROSOFT_TENANT_ID
    baseUrl: Option<string>,       // NEXTAUTH_URL
    nodeEnv: Option<string>)       // NODE_ENV

  predicate IsProduction(env: Env) {
    env.nodeEnv == Some("production")
  }

  const CookieName := "ms_auth"
  const CallbackPath := "/api/auth/microsoft/callback"
  const Authority := "https://login.microsoftonline.com/"

  /** The redirect URI both routes register: the base URL and the callback path. */
  function RedirectUri(baseUrl: string): string {
    baseUrl + CallbackPath
  }

  /** A form or query string, as the ordered entries given to `URLSearchParams`. */
  type Form = seq<(string, string)>

  /** The value of the first entry named `key`, as `URLSearchParams.get` finds it. */
  function FormValue(form: Form, key: string): (r: Option<string>)
    ensures r.Some? <==> exists i :: 0 <= i < |form| && form[i].0 == key
    ensures r.Some? ==> exists i :: 0 <= i < |form| && form[i] == (key, r.value)
  {
    if form == [] then None
    else if form[0].0 == key then Some(form[0].1)
    else FormValue(form[1..], key)
  }

  /** The value found for `key` is that of its first entry. */
  lemma {:induction false} FormValueFirst(form: Form, i: nat, key: string)
    requires i < |form| && form[i].0 == key
    requires forall j :: 0 <= j < i ==> form[j].0 != key
    ensures FormValue(form, key) == Some(form[i].1)
  {
    if i > 0 {
      FormValueFirst(form[1..], i - 1, key);
    }
  }

  /** An outbound call. The fixed parts of each call (endpoint, headers,
      constant JSON members) are named in the comments; the record keeps
      what depends on earlier answers. */
  datatype Request =
      // POST <Authority><tenant>/oauth2/v2.0/token, form-encoded
    | TokenRequest(tenant: string, form: Form)
      // POST https://user.auth.xboxlive.com/user/authenticate,
      // AuthMethod RPS, SiteName user.auth.xboxlive.com, RelyingParty http://auth.xboxlive.com,
      // TokenType JWT
    | XboxAuthRequest(rpsTicket: string)
      // POST https://xsts.auth.xboxlive.com/xsts/authorize,
      // SandboxId RETAIL, RelyingParty rp://api.minecraftservices.com/, TokenType JWT
    | XstsRequest(userToken: string)
      // POST https://api.minecraftservices.com/authentication/login_with_xbox
    | McLoginRequest(identityToken: string)
      // GET https://api.minecraftservices.com/minecraft/profile
    | ProfileRequest(authorization: string)

  /** What a route handler answers. `Crash` is an exception that escapes the
      handler; the framework then answers with its own error page. */
  datatype Response =
    | Text(status: int, body: string)
    | Redirect(status: int, location: string, setCookie: Option<string>)
    | Crash
}
