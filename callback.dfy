/** The OAuth callback: exchanges the authorization code for Microsoft
    tokens and chains them through Xbox Live, XSTS and Minecraft services,
    stores the account and sets the session cookie. Every upstream answer
    is an input; the result records the calls made, in order. */
module Callback {
  import opened Js
  import opened Http
  import opened Session

  /** The scope sent with the code exchange (not the one asked for at consent). */
  const CodeExchangeScope := "openid profile email offline_access"

  /** The token endpoint's answer. Only `error` is checked; the other
      members are taken as the provider documents them. `others` stands for
      the members the handler never reads (`error_description`, say), which
      still reach the error message through `JSON.stringify`. */
  datatype TokenResponse = TokenResponse(
    error: Option<string>,
    idToken: string,
    accessToken: string,
    refreshToken: string,
    expiresIn: int,
    others: string)

  /** The claims of the identity token that are read. */
  datatype IdClaims = IdClaims(email: Option<string>, preferredUsername: Option<string>, name: Option<string>)

  /** What `jwt.decode` does with the identity token: it throws, returns
      `null`, or returns the claims. */
  datatype Decoded = DecodeThrew | DecodedNull | Claims(claims: IdClaims)

  /** `DisplayClaims.xui[i]`; a `null` entry reads like one without `uhs`. */
  datatype XuiClaim = XuiClaim(uhs: Option<string>)
  datatype DisplayClaims = DisplayClaims(xui: Option<seq<XuiClaim>>)
  datatype XboxResponse = XboxResponse(token: Option<string>, displayClaims: Option<DisplayClaims>)
  /** The answers of the XSTS, Minecraft login and profile calls: the members
      that are checked, and `others` for the rest (`XErr`, `errorMessage`,
      and so on), which only the failure messages show. */
  datatype XstsResponse = XstsResponse(token: Option<string>, others: string)
  datatype McAuthResponse = McAuthResponse(accessToken: Option<string>, others: string)
  datatype ProfileResponse = ProfileResponse(id: Option<string>, name: Option<string>, others: string)

  /** The answers of the five upstream calls. */
  datatype Upstream = Upstream(
    token: TokenResponse,
    xbox: XboxResponse,
    xsts: XstsResponse,
    mc: McAuthResponse,
    profile: ProfileResponse)

  /** The library calls of the handler. */
  datatype Lib = Lib(
    decodeJwt: string -> Decoded,           // jwt.decode
    tokenJson: TokenResponse -> string,     // JSON.stringify of each answer
    xstsJson: XstsResponse -> string,
    mcJson: McAuthResponse -> string,
    profileJson: ProfileResponse -> string,
    cookie: Codec)

  /** The row kept per Minecraft account. */
  datatype Account = Account(refreshToken: string, email: string)

  /** Where the chain stopped. */
  datatype Failure =
    | NoCode | MissingConfig | ProviderToken | IdTokenDecode | IdTokenNull
    | XboxAuth | XstsAuth | MinecraftAuth | ProfileFetch

  datatype Outcome =
    | Failed(failure: Failure, response: Response)
    | SignedIn(uuid: string, account: Account, payload: CookiePayload, response: Response)

  datatype Login = Login(calls: seq<Request>, outcome: Outcome)

  /** How many upstream calls have been made when a failure is detected:
      each stage is reached only after every earlier one passed. */
  function CallsBefore(f: Failure): nat {
    match f
    case NoCode => 0
    case MissingConfig => 0
    case ProviderToken => 1
    case IdTokenDecode => 1
    case IdTokenNull => 1
    case XboxAuth => 2
    case XstsAuth => 3
    case MinecraftAuth => 4
    case ProfileFetch => 5
  }

  predicate ConfigComplete(env: Env) {
    Truthy(env.clientId) && Truthy(env.clientSecret) && Truthy(env.tenantId) && Truthy(env.baseUrl)
  }

  /** The form of the code exchange, in the order it is given. */
  function CodeExchangeForm(clientId: string, code: string, redirectUri: string, secret: string): Form {
    [ ("client_id", clientId),
      ("scope", CodeExchangeScope),
      ("code", code),
      ("redirect_uri", redirectUri),
      ("grant_type", "authorization_code"),
      ("client_secret", secret) ]
  }

  /** The scope and the redirect URI the provider reads from the exchange form. */
  lemma ExchangeFormValues(clientId: string, code: string, redirectUri: string, secret: string)
    ensures FormValue(CodeExchangeForm(clientId, code, redirectUri, secret), "scope") == Some(CodeExchangeScope)
    ensures FormValue(CodeExchangeForm(clientId, code, redirectUri, secret), "redirect_uri") == Some(redirectUri)
  {
    var form := CodeExchangeForm(clientId, code, redirectUri, secret);
    FormValueFirst(form, 1, "scope");
    FormValueFirst(form, 3, "redirect_uri");
  }

  /** `decoded.email ?? decoded.preferred_username ?? ""` */
  function EmailOf(c: IdClaims): string {
    Coalesce(c.email, Coalesce(c.preferredUsername, ""))
  }

  /** `decoded.name ?? ""` */
  function NameOf(c: IdClaims): string {
    Coalesce(c.name, "")
  }

  /** `xboxAuthData.DisplayClaims?.xui?.[0]?.uhs` */
  function UserHash(x: XboxResponse): Option<string> {
    if x.displayClaims.None? then None
    else
      match x.displayClaims.value.xui
      case None => None
      case Some(xui) => if xui == [] then None else xui[0].uhs
  }

  predicate XboxPasses(x: XboxResponse) {
    Truthy(x.token) && Truthy(UserHash(x))
  }

  predicate ProfilePasses(p: ProfileResponse) {
    Truthy(p.id) && Truthy(p.name)
  }

  /** The credential Minecraft services accept from Xbox Live. */
  function IdentityToken(userHash: string, xstsToken: string): string {
    "XBL3.0 x=" + userHash + ";" + xstsToken
  }

  /** The session object of the callback, as written: the expiry goes
      under `expiresAt`. */
  function SessionPayload(email: string, name: string, profile: ProfileResponse, tok: TokenResponse, now: int): CookiePayload {
    CookiePayload(
      email := Some(email), name := Some(name),
      uuid := profile.id, username := profile.name,
      accessToken := Some(tok.accessToken), refreshToken := Some(tok.refreshToken),
      expiresAt := Some(now + tok.expiresIn * 1000), accessExpiresAt := None)
  }

  /** The entries of the `Set-Cookie` header before the empty one is filtered. */
  function CookieAttributes(value: string, maxAge: int, secure: bool): seq<string> {
    [ "ms_auth=" + value,
      "Path=/",
      "HttpOnly",
      "Max-Age=" + DecimalString(maxAge),
      "SameSite=Lax",
      if secure then "Secure" else "" ]
  }

  function SetCookieHeader(value: string, maxAge: int, secure: bool): string {
    Join(FilterTruthy(CookieAttributes(value, maxAge, secure)), "; ")
  }

  /** The answer of a completed sign-in: a redirect to the profile page
      (`NextResponse.redirect` with its default status 307) carrying the
      session cookie. */
  function ProfileRedirect(env: Env, cookieValue: string, maxAge: int): Response
    requires Truthy(env.baseUrl)
  {
    Redirect(307, env.baseUrl.value + "/profile", Some(SetCookieHeader(cookieValue, maxAge, IsProduction(env))))
  }

  /** Everything the chain needs to reach its end. */
  predicate AllStagesPass(code: Option<string>, env: Env, lib: Lib, up: Upstream) {
    && Truthy(code)
    && ConfigComplete(env)
    && !Truthy(up.token.error)
    && lib.decodeJwt(up.token.idToken).Claims?
    && XboxPasses(up.xbox)
    && Truthy(up.xsts.token)
    && Truthy(up.mc.accessToken)
    && ProfilePasses(up.profile)
  }

  /** The condition under which the chain stops with `f`: every earlier
      check passed and the check of `f` did not. */
  predicate FailsAt(f: Failure, code: Option<string>, env: Env, lib: Lib, up: Upstream) {
    var decoded := lib.decodeJwt(up.token.idToken);
    match f
    case NoCode => !Truthy(code)
    case MissingConfig => Truthy(code) && !ConfigComplete(env)
    case ProviderToken => Truthy(code) && ConfigComplete(env) && Truthy(up.token.error)
    case IdTokenDecode => Truthy(code) && ConfigComplete(env) && !Truthy(up.token.error) && decoded.DecodeThrew?
    case IdTokenNull => Truthy(code) && ConfigComplete(env) && !Truthy(up.token.error) && decoded.DecodedNull?
    case XboxAuth =>
      Truthy(code) && ConfigComplete(env) && !Truthy(up.token.error) && decoded.Claims?
      && !XboxPasses(up.xbox)
    case XstsAuth =>
      Truthy(code) && ConfigComplete(env) && !Truthy(up.token.error) && decoded.Claims?
      && XboxPasses(up.xbox) && !Truthy(up.xsts.token)
    case MinecraftAuth =>
      Truthy(code) && ConfigComplete(env) && !Truthy(up.token.error) && decoded.Claims?
      && XboxPasses(up.xbox) && Truthy(up.xsts.token) && !Truthy(up.mc.accessToken)
    case ProfileFetch =>
      Truthy(code) && ConfigComplete(env) && !Truthy(up.token.error) && decoded.Claims?
      && XboxPasses(up.xbox) && Truthy(up.xsts.token) && Truthy(up.mc.accessToken)
      && !ProfilePasses(up.profile)
  }

  /** The answer for each failure: its status and its message, with the
      upstream answer embedded where the handler embeds it. */
  function FailureResponse(f: Failure, lib: Lib, up: Upstream): Response {
    match f
    case NoCode => Text(400, "No authorization code provided")
    case MissingConfig => Text(500, "Missing environment variables")
    case ProviderToken => Text(500, "OAuth Error: " + lib.tokenJson(up.token))
    case IdTokenDecode => Text(500, "Failed to decode ID token")
    case IdTokenNull => Crash  // `decoded.email` on null throws outside the try block
    case XboxAuth => Text(500, "Xbox Live Authentication failed")
    case XstsAuth => Text(500, "XSTS Authentication failed: " + lib.xstsJson(up.xsts))
    case MinecraftAuth => Text(500, "Minecraft Authentication failed: " + lib.mcJson(up.mc))
    case ProfileFetch => Text(500, "Failed to get Minecraft profile: " + lib.profileJson(up.profile))
  }

  /** The five upstream calls of a full run, in order. A run that stops
      early makes a prefix of them; the placeholders "" are never sent,
      since a call is made only once the value it needs has been checked. */
  function PlannedCalls(code: Option<string>, env: Env, up: Upstream): seq<Request> {
    [ TokenRequest(Coalesce(env.tenantId, ""),
        CodeExchangeForm(Coalesce(env.clientId, ""), Coalesce(code, ""),
                         RedirectUri(Coalesce(env.baseUrl, "")), Coalesce(env.clientSecret, ""))),
      XboxAuthRequest("d=" + up.token.accessToken),
      XstsRequest(Coalesce(up.xbox.token, "")),
      McLoginRequest(IdentityToken(Coalesce(UserHash(up.xbox), ""), Coalesce(up.xsts.token, ""))),
      ProfileRequest("Bearer " + Coalesce(up.mc.accessToken, "")) ]
  }

  /** The handler's validation chain, with its early exits. */
  function CompleteLogin(code: Option<string>, env: Env, now: int, lib: Lib, up: Upstream): (r: Login)
    ensures r.outcome.SignedIn? <==> AllStagesPass(code, env, lib, up)
    // a failure is attributed to the stage that failed, answered with that
    // stage's message, and made no call of any later stage
    ensures r.outcome.Failed? ==>
      && FailsAt(r.outcome.failure, code, env, lib, up)
      && r.outcome.response == FailureResponse(r.outcome.failure, lib, up)
      && |r.calls| == CallsBefore(r.outcome.failure)
    ensures r.outcome.SignedIn? ==> |r.calls| == 5
  {
    if !Truthy(code) then
      Login([], Failed(NoCode, FailureResponse(NoCode, lib, up)))
    else if !ConfigComplete(env) then
      Login([], Failed(MissingConfig, FailureResponse(MissingConfig, lib, up)))
    else
      var redirectUri := RedirectUri(env.baseUrl.value);
      var tok := up.token;
      var c1 := [TokenRequest(env.tenantId.value,
                   CodeExchangeForm(env.clientId.value, code.value, redirectUri, env.clientSecret.value))];
      if Truthy(tok.error) then
        Login(c1, Failed(ProviderToken, FailureResponse(ProviderToken, lib, up)))
      else
        match lib.decodeJwt(tok.idToken)
        case DecodeThrew =>
          Login(c1, Failed(IdTokenDecode, FailureResponse(IdTokenDecode, lib, up)))
        case DecodedNull =>
          // `decoded.email` on null throws outside the try block
          Login(c1, Failed(IdTokenNull, FailureResponse(IdTokenNull, lib, up)))
        case Claims(claims) =>
          var userEmail := EmailOf(claims);
          var userName := NameOf(claims);
          var c2 := c1 + [XboxAuthRequest("d=" + tok.accessToken)];
          if !XboxPasses(up.xbox) then
            Login(c2, Failed(XboxAuth, FailureResponse(XboxAuth, lib, up)))
          else
            var xboxToken := up.xbox.token.value;
            var userHash := UserHash(up.xbox).value;
            var c3 := c2 + [XstsRequest(xboxToken)];
            if !Truthy(up.xsts.token) then
              Login(c3, Failed(XstsAuth, FailureResponse(XstsAuth, lib, up)))
            else
              var c4 := c3 + [McLoginRequest(IdentityToken(userHash, up.xsts.token.value))];
              if !Truthy(up.mc.accessToken) then
                Login(c4, Failed(MinecraftAuth, FailureResponse(MinecraftAuth, lib, up)))
              else
                var c5 := c4 + [ProfileRequest("Bearer " + up.mc.accessToken.value)];
                if !ProfilePasses(up.profile) then
                  Login(c5, Failed(ProfileFetch, FailureResponse(ProfileFetch, lib, up)))
                else
                  var payload := SessionPayload(userEmail, userName, up.profile, tok, now);
                  Login(c5, SignedIn(up.profile.id.value, Account(tok.refreshToken, userEmail), payload,
                                     ProfileRedirect(env, Encode(lib.cookie, payload), tok.expiresIn)))
  }

  /** Whatever the outcome, the calls made are the first ones of the plan,
      in its order: a stage is called only after every earlier one. */
  lemma CallsArePlannedPrefix(code: Option<string>, env: Env, now: int, lib: Lib, up: Upstream)
    ensures var calls := CompleteLogin(code, env, now, lib, up).calls;
      |calls| <= 5 && calls == PlannedCalls(code, env, up)[..|calls|]
  {
    var plan := PlannedCalls(code, env, up);
    assert plan[..0] == [];
    assert plan[..1] == [plan[0]];
    assert plan[..2] == [plan[0], plan[1]];
    assert plan[..3] == [plan[0], plan[1], plan[2]];
    assert plan[..4] == [plan[0], plan[1], plan[2], plan[3]];
    assert plan[..5] == plan;
  }

  /** The inputs decide where a chain stops: no two stages can both be the
      one that failed. */
  lemma FailureIsAttributable(f: Failure, g: Failure, code: Option<string>, env: Env, lib: Lib, up: Upstream)
    requires FailsAt(f, code, env, lib, up) && FailsAt(g, code, env, lib, up)
    ensures f == g
  {
  }

  /** A run completes exactly when it fails at no stage. */
  lemma CompletesUnlessSomeStageFails(code: Option<string>, env: Env, lib: Lib, up: Upstream)
    ensures AllStagesPass(code, env, lib, up) <==> forall f :: !FailsAt(f, code, env, lib, up)
  {
    if !AllStagesPass(code, env, lib, up) {
      var decoded := lib.decodeJwt(up.token.idToken);
      var f :=
        if !Truthy(code) then NoCode
        else if !ConfigComplete(env) then MissingConfig
        else if Truthy(up.token.error) then ProviderToken
        else if decoded.DecodeThrew? then IdTokenDecode
        else if decoded.DecodedNull? then IdTokenNull
        else if !XboxPasses(up.xbox) then XboxAuth
        else if !Truthy(up.xsts.token) then XstsAuth
        else if !Truthy(up.mc.accessToken) then MinecraftAuth
        else ProfileFetch;
      assert FailsAt(f, code, env, lib, up);
    }
  }

  /** A failure injected at any stage stops the chain there: the answer is
      that stage's, and no later stage is called. */
  lemma StopsAtFailingStage(f: Failure, code: Option<string>, env: Env, now: int, lib: Lib, up: Upstream)
    requires FailsAt(f, code, env, lib, up)
    ensures var r := CompleteLogin(code, env, now, lib, up);
      && r.outcome == Failed(f, FailureResponse(f, lib, up))
      && |r.calls| == CallsBefore(f)
  {
    var r := CompleteLogin(code, env, now, lib, up);
    CompletesUnlessSomeStageFails(code, env, lib, up);
    FailureIsAttributable(f, r.outcome.failure, code, env, lib, up);
  }

  /** The first call is the code exchange, made only once the code and the
      configuration were found; its form carries them in their order. */
  lemma CodeExchangeFirst(code: Option<string>, env: Env, now: int, lib: Lib, up: Upstream)
    requires |CompleteLogin(code, env, now, lib, up).calls| >= 1
    ensures Truthy(code) && ConfigComplete(env)
    ensures CompleteLogin(code, env, now, lib, up).calls[0]
            == TokenRequest(env.tenantId.value,
                 CodeExchangeForm(env.clientId.value, code.value, RedirectUri(env.baseUrl.value), env.clientSecret.value))
  {
  }

  /** Two XSTS refusals that differ in any member (a different `XErr`, say)
      are told apart by their messages, as long as `JSON.stringify` tells
      the answers apart. */
  lemma XstsRefusalsDistinguished(code: Option<string>, env: Env, now: int, lib: Lib, up: Upstream, up': Upstream)
    requires FailsAt(XstsAuth, code, env, lib, up) && FailsAt(XstsAuth, code, env, lib, up')
    requires up.xsts != up'.xsts
    requires forall a: XstsResponse, b: XstsResponse :: lib.xstsJson(a) == lib.xstsJson(b) ==> a == b
    ensures CompleteLogin(code, env, now, lib, up).outcome.response
            != CompleteLogin(code, env, now, lib, up').outcome.response
  {
    StopsAtFailingStage(XstsAuth, code, env, now, lib, up);
    StopsAtFailingStage(XstsAuth, code, env, now, lib, up');
    var prefix := "XSTS Authentication failed: ";
    var m := prefix + lib.xstsJson(up.xsts);
    var m' := prefix + lib.xstsJson(up'.xsts);
    assert m[|prefix|..] == lib.xstsJson(up.xsts);
    assert m'[|prefix|..] == lib.xstsJson(up'.xsts);
  }

  /** The Minecraft identity token is sent only once the XSTS token was
      found, and it is `XBL3.0 x=<user hash>;<XSTS token>`. */
  lemma IdentityTokenAfterXsts(code: Option<string>, env: Env, now: int, lib: Lib, up: Upstream)
    requires |CompleteLogin(code, env, now, lib, up).calls| >= 4
    ensures XboxPasses(up.xbox) && Truthy(up.xsts.token)
    ensures CompleteLogin(code, env, now, lib, up).calls[3]
            == McLoginRequest("XBL3.0 x=" + UserHash(up.xbox).value + ";" + up.xsts.token.value)
  {
  }

  /** The email is the `email` claim, else `preferred_username`, else
      empty; an empty claim is kept, not passed over. */
  lemma EmailFallback(c: IdClaims)
    ensures c.email.Some? ==> EmailOf(c) == c.email.value
    ensures c.email.None? && c.preferredUsername.Some? ==> EmailOf(c) == c.preferredUsername.value
    ensures c.email.None? && c.preferredUsername.None? ==> EmailOf(c) == ""
    ensures NameOf(c) == if c.name.Some? then c.name.value else ""
  {
  }

  /** A completed sign-in: the account row, the session payload and the
      redirect with its cookie, all from the upstream answers. */
  lemma SignedInSession(code: Option<string>, env: Env, now: int, lib: Lib, up: Upstream)
    requires AllStagesPass(code, env, lib, up)
    ensures var r := CompleteLogin(code, env, now, lib, up);
      var claims := lib.decodeJwt(up.token.idToken).claims;
      && r.outcome.SignedIn?
      && r.outcome.uuid == up.profile.id.value
      && r.outcome.account == Account(up.token.refreshToken, EmailOf(claims))
      && r.outcome.payload.email == Some(EmailOf(claims))
      && r.outcome.payload.name == Some(NameOf(claims))
      && r.outcome.payload.uuid == up.profile.id
      && r.outcome.payload.username == up.profile.name
      && r.outcome.payload.accessToken == Some(up.token.accessToken)
      && r.outcome.payload.refreshToken == Some(up.token.refreshToken)
      && r.outcome.payload.expiresAt == Some(now + up.token.expiresIn * 1000)
      && r.outcome.payload.accessExpiresAt.None?
      && r.outcome.response
         == Redirect(307, env.baseUrl.value + "/profile",
                     Some(SetCookieHeader(Encode(lib.cookie, r.outcome.payload), up.token.expiresIn, IsProduction(env))))
  {
  }

  /** The `Set-Cookie` header in full: the five fixed entries joined by
      `"; "`, and `Secure` last only when asked for. */
  lemma SetCookieHeaderShape(value: string, maxAge: int, secure: bool)
    ensures SetCookieHeader(value, maxAge, secure)
            == "ms_auth=" + value + "; " + "Path=/" + "; " + "HttpOnly" + "; " + "Max-Age=" + DecimalString(maxAge)
               + "; " + "SameSite=Lax" + (if secure then "; " + "Secure" else "")
  {
    var dec := DecimalString(maxAge);
    var fixed := ["ms_auth=" + value, "Path=/", "HttpOnly", "Max-Age=" + dec, "SameSite=Lax"];
    var last := if secure then "Secure" else "";
    assert CookieAttributes(value, maxAge, secure) == fixed + [last];
    FilterJoinLast(fixed, last, "; ");
    Join5("ms_auth=" + value, "Path=/", "HttpOnly", "Max-Age=" + dec, "SameSite=Lax", "; ");
  }

  /** The account table, updated in place by the handler. */
  class UserTable {
    var users: map<string, Account>

    constructor ()
      ensures users == map[]
    {
      users := map[];
    }

    /** Insert or update the row of `id`; no other row changes. */
    method Upsert(id: string, account: Account)
      modifies this
      ensures users == old(users)[id := account]
      ensures forall k :: k in old(users) && k != id ==> k in users && users[k] == old(users)[k]
    {
      users := users[id := account];
    }
  }

  /** The route handler: the validation chain, then the upsert, then the
      redirect. The table changes only when every stage passed. */
  method HandleCallback(table: UserTable, code: Option<string>, env: Env, now: int, lib: Lib, up: Upstream)
    returns (response: Response, calls: seq<Request>)
    modifies table
    ensures response == CompleteLogin(code, env, now, lib, up).outcome.response
    ensures calls == CompleteLogin(code, env, now, lib, up).calls
    ensures !AllStagesPass(code, env, lib, up) ==> table.users == old(table.users)
    ensures AllStagesPass(code, env, lib, up) ==>
      var claims := lib.decodeJwt(up.token.idToken).claims;
      table.users == old(table.users)[up.profile.id.value := Account(up.token.refreshToken, EmailOf(claims))]
  {
    var login := CompleteLogin(code, env, now, lib, up);
    calls := login.calls;
    response := login.outcome.response;
    if login.outcome.SignedIn? {
      table.Upsert(login.outcome.uuid, login.outcome.account);
    }
  }
}
