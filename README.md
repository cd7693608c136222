# Microsoft → Xbox Live → Minecraft sign-in, modelled in Dafny

This project models the sign-in logic of a desktop Minecraft launcher's web
front end. There are three routes:

- **the login initiator** builds the Microsoft consent URL and answers 302;
- **the OAuth callback** exchanges the authorization code for Microsoft
  tokens and chains them through Xbox Live, XSTS and Minecraft services.
  It then upserts the account row and sets the `ms_auth` session cookie;
- **the profile page** decodes that cookie and refreshes the Microsoft
  access token when it has five minutes or less left. It rewrites the
  cookie when the token changed.

Every network exchange is replaced by its answer, given as an input. Each
route's result lists the upstream calls it made, in order. So "stage N
failed and no later stage was called" is a statement about that list. The
library calls (`jwt.decode`, `JSON.stringify`/`JSON.parse`, base64 through
`Buffer`, `URLSearchParams.toString`) are function-typed inputs. The clock
(`Date.now()`) and the environment (`process.env`, `NODE_ENV`) are
parameters too.

JavaScript details are kept where the code depends on them:

- truthiness: `!x` holds for `undefined`, `null` and `""`;
- `??` falls back only on `null`/`undefined`, so an empty claim is kept;
- `DisplayClaims?.xui?.[0]?.uhs` is an optional chain;
- an absent refresh token goes into the refresh form as the string
  `"undefined"`;
- `filter(Boolean)` and `join("; ")` build the `Set-Cookie` header;
- `NaN > x` is false, so a payload without `accessExpiresAt` is always
  refreshed.

Files:

- `js.dfy`: the JavaScript helpers, and a decimal printer with its parser.
- `http.dfy`: the environment, the outbound requests and the route answers.
- `session.dfy`: the cookie payload and its codec.
- `authorize.dfy`, `callback.dfy`, `profile.dfy`: one module per route.
- `flow.dfy`: properties that span the routes.

## Model

| member | source | states |
|---|---|---|
| `Authorize.BeginLogin` | src/app/api/auth/microsoft/route.ts:4-36 | A redirect happens exactly when the client id, tenant id and base URL are all set. Otherwise the answer is 500 "Missing OAuth environment variables". The redirect is a 302 to `https://login.microsoftonline.com/<tenant>/oauth2/v2.0/authorize?` plus the encoded parameters, and it sets no cookie |
| `Authorize.QueryIsEncodedParams` | src/app/api/auth/microsoft/route.ts:25-34 | The query of the redirect location is exactly the encoded parameter list: `client_id`, `response_type=code`, `redirect_uri` = base + `/api/auth/microsoft/callback`, `response_mode=query`, `scope`, `prompt=select_account`. This needs the tenant to hold no `?` |
| `Authorize.TenantIsRecoverable` | src/app/api/auth/microsoft/route.ts:34 | When the tenant holds no `/`, it can be read back from the location as the path segment after the authority |
| `Authorize.ScopeIsExact` | src/app/api/auth/microsoft/route.ts:18-23 | The scope is `openid email offline_access XboxLive.signin`, in that order, one space apart |
| `Authorize.IgnoresSecretAndMode` | src/app/api/auth/microsoft/route.ts:5-9 | The answer is a function of the client id, tenant and base URL alone. The secret and NODE_ENV do not change it |
| `Callback.CompleteLogin` | src/app/api/auth/microsoft/callback/route.ts:5-177 | Sign-in completes exactly when every stage passes. A failure holds the condition of the stage that failed (all earlier checks passed), that stage's status and message, and as many calls as there are earlier stages (`CallsBefore`). A completed sign-in made all five calls. Which calls they are is stated by `Callback.CallsArePlannedPrefix` |
| `Callback.CallsArePlannedPrefix` | src/app/api/auth/microsoft/callback/route.ts:25-125 | The calls are always a prefix of the five planned ones: token exchange, Xbox with `d=<access token>`, XSTS with the Xbox token, Minecraft with the identity token, profile with `Bearer <token>` |
| `Callback.CodeExchangeFirst` | src/app/api/auth/microsoft/callback/route.ts:6-39 | A first call is made only with a code and all four variables set. It is the code exchange at the tenant's token endpoint, with the form `client_id`, `scope`, `code`, `redirect_uri`, `grant_type=authorization_code`, `client_secret` |
| `Callback.StopsAtFailingStage` | src/app/api/auth/microsoft/callback/route.ts:6-129 | A failure injected at any stage ends the chain with that stage's answer, after `CallsBefore(stage)` calls: 0 for no code or missing configuration, 1 for token or identity-token failures, 2 Xbox, 3 XSTS, 4 Minecraft, 5 profile |
| `Callback.FailureIsAttributable` | src/app/api/auth/microsoft/callback/route.ts:6-129 | At most one stage's failure condition holds for any inputs, so the error kind is determined |
| `Callback.CompletesUnlessSomeStageFails` | src/app/api/auth/microsoft/callback/route.ts:6-129 | Every run either passes all stages or meets one stage's failure condition |
| `Callback.XstsRefusalsDistinguished` | src/app/api/auth/microsoft/callback/route.ts:98-100 | Two XSTS refusals that differ in any member get different messages, given a `JSON.stringify` that tells answers apart |
| `Callback.IdentityTokenAfterXsts` | src/app/api/auth/microsoft/callback/route.ts:98-110 | The Minecraft login is sent only after the Xbox and XSTS checks passed. Its identity token is `XBL3.0 x=<uhs>;<XSTS token>` |
| `Callback.EmailFallback` | src/app/api/auth/microsoft/callback/route.ts:56-57 | The email is `email`, else `preferred_username`, else `""`. The name is `name`, else `""`. An empty claim is kept |
| `Callback.SignedInSession` | src/app/api/auth/microsoft/callback/route.ts:131-176 | On success, the account row is (refresh_token, email) under the profile id. The payload holds the email and name, the profile id and name verbatim as uuid and username, the Microsoft access and refresh tokens, and `expiresAt = now + expires_in*1000`, with no `accessExpiresAt`. The answer is a 307 redirect to `<base>/profile` whose `Set-Cookie` header carries that encoded payload, with `Max-Age` set to `expires_in` |
| `Callback.SetCookieHeaderShape` | src/app/api/auth/microsoft/callback/route.ts:162-174 | The header is `ms_auth=<v>; Path=/; HttpOnly; Max-Age=<expires_in>; SameSite=Lax`, with `; Secure` appended only in production. The filter removes only the empty entry |
| `Callback.UserTable.Upsert` | src/app/api/auth/microsoft/callback/route.ts:135-146 | The row of the id becomes the given account. Every other row is unchanged |
| `Callback.HandleCallback` | src/app/api/auth/microsoft/callback/route.ts:5-177 | The answer and calls are those of the chain. The table is unchanged unless every stage passed. It then gains exactly `uuid ↦ (refresh_token, email)` |
| `Profile.RefreshIfNeeded` | src/app/profile/page.tsx:16-71 | With more than 300000 ms left, the same payload comes back with no call and no configuration check. Otherwise a missing client id, secret or tenant throws before any call. If all are set, one refresh request is sent. An `error` member in its answer throws. Success returns the new tokens, `accessExpiresAt = later + expires_in*1000`, and the old email and name. uuid, username and `expiresAt` are dropped |
| `Profile.RefreshAtExactlyFiveMinutes` | src/app/profile/page.tsx:18 | The comparison is strict: with exactly 300000 ms left and the client id, secret and tenant set, the refresh request is sent |
| `Profile.RefreshedPayloadIsStable` | src/app/profile/page.tsx:17-20 | A just-refreshed payload passes any later guard that finds more than five minutes left on the new expiry, with no call |
| `Profile.ViewOf` | src/app/profile/page.tsx:73-113 | The page goes to `/login` exactly when the cookie is missing or empty, fails to decode, or the refresh throws. The request is made only after a successful decode. The cookie is rewritten exactly when the access token changed. It is then written as `ms_auth`, httpOnly, path `/`, maxAge 2592000, sameSite lax, and secure iff production |
| `Profile.ProfilePage` | src/app/profile/page.tsx:73-113 | The imperative page handler has the view's page and request. The cookie store changes only by the rewrite, when there is one |
| `Profile.CookieStore.Get` | src/app/profile/page.tsx:75 | It returns the value sent for the name, if any |
| `Profile.CookieStore.Set` | src/app/profile/page.tsx:104-112 | It records the cookie, and later reads see its value |
| `Flow.LoginCookieAlwaysRefreshed` | src/app/api/auth/microsoft/callback/route.ts:149-157 | The cookie of a completed sign-in has no `accessExpiresAt`. With the configuration set, the first profile view always sends a refresh request, whatever the expiry and time |
| `Flow.CorrectedSessionPayload` | src/app/api/auth/microsoft/callback/route.ts:149-157 | The corrected payload stores `now + expires_in*1000` under `accessExpiresAt` and keeps the other members |
| `Flow.CorrectedCookieKeptWhileFresh` | src/app/profile/page.tsx:17-20 | With the corrected payload, a view more than five minutes before expiry makes no call, rewrites nothing and renders the user |
| `Flow.RewriteDropsIdentity` | src/app/profile/page.tsx:64-70 | A rewritten cookie decodes to the refreshed payload: the old email and name, with no uuid and no username |
| `Flow.SameAccessTokenNotPersisted` | src/app/profile/page.tsx:99 | A refresh that returns the same access token writes nothing, although a request was made |
| `Flow.SecondViewIsQuiet` | src/app/profile/page.tsx:99-113 | After a rewrite, the next view within the new lifetime (minus five minutes) makes no call and writes nothing |
| `Flow.ScopesDisagree` | src/app/api/auth/microsoft/callback/route.ts:32 | The code exchange sends `openid profile email offline_access`. The consent and refresh scope is `openid email offline_access XboxLive.signin`, and those two agree |
| `Flow.RedirectUrisAgree` | src/app/api/auth/microsoft/callback/route.ts:22 | The code exchange's `redirect_uri` equals the consent URL's: base + `/api/auth/microsoft/callback` |
| `Js.FilterTruthy` | src/app/api/auth/microsoft/callback/route.ts:172 | `filter(Boolean)` keeps exactly the non-empty entries and never lengthens the list |
| `Js.FilterJoinLast` | src/app/api/auth/microsoft/callback/route.ts:164-173 | When only the last entry can be empty, filter-then-join adds that entry and its separator exactly when it is non-empty |
| `Js.DecimalRoundTrip` | src/app/api/auth/microsoft/callback/route.ts:168 | The `Max-Age` digits are a well-formed decimal that reads back as `expires_in` |

## Findings

| source | as written | input that shows it | evidently intended | confidence | as-written member | corrected member |
|---|---|---|---|---|---|---|
| src/app/api/auth/microsoft/callback/route.ts:156 | The callback stores the expiry as `expiresAt`. The profile type and guard read `accessExpiresAt` (src/app/profile/page.tsx:11, 18), so the guard compares NaN | Any successful sign-in, e.g. `expires_in = 3600`, then the profile page at the same instant: a refresh request is sent | The cookie stores the expiry under the name the guard reads. A fresh login cookie is then left alone for its first 55 minutes | high (not executed) | `Flow.LoginCookieAlwaysRefreshed` | `Flow.CorrectedSessionPayload` |

The callback model keeps the field name as written, so that its members
describe the code. The corrected payload and its property
(`Flow.CorrectedCookieKeptWhileFresh`) sit beside it in `flow.dfy`.

## Behaviour worth knowing

- **Identity-token decode.** A decode failure is answered "Failed to
  decode ID token" only when `jwt.decode` throws. When it returns `null`,
  `decoded.email` throws outside the `try`, and the request ends in the
  framework's own error (`Crash`, failure `IdTokenNull`).
- **Upstream answers in error messages.** The token, XSTS, Minecraft and
  profile failures embed the upstream answer. The Xbox failure has a fixed
  message.
- **Scopes.** The code exchange asks for a different scope than consent
  and refresh do (`Flow.ScopesDisagree`).
- **Refresh keeps email and name only.** A refreshed cookie keeps email and
  name and drops uuid and username (`Flow.RewriteDropsIdentity`).
- **Cookie written only on a new token.** A refresh that returns the same
  access token is not written back (`Flow.SameAccessTokenNotPersisted`).
- **Cookie lifetime.** The login cookie lives `expires_in` seconds. A
  rewritten cookie lives 30 days.
- **The first view after sign-in writes a cookie.** That view always
  refreshes (`Flow.LoginCookieAlwaysRefreshed`), and a refresh that brings
  a new access token rewrites the cookie from within the page render at
  src/app/profile/page.tsx:104. That is exactly the `cookies().set` call
  that throws in a Server Component (see "Cookie write during render"
  under Left out). `Flow.RewriteDropsIdentity` and `Flow.SecondViewIsQuiet`
  describe the write the page asks for, taken as succeeding.

## Left out

- **Transport.** HTTP transport, `fetch`/`await`, endpoints and headers are
  left out. Each request keeps only the parts that depend on earlier
  answers; the fixed JSON members are named in comments. A `fetch` that
  rejects (a network failure) is not modelled. Neither is a `.json()` that
  rejects on a body that is not JSON. That can happen at
  src/app/api/auth/microsoft/callback/route.ts:41, 74, 96, 112 and 125,
  where it would end in the framework's 500 rather than the stage's
  message. It can also happen at src/app/profile/page.tsx:52, where it
  would lead to `/login`. The answer records hold parsed JSON only, so
  they cannot express either case.
- **Library calls.** `jwt.decode`, `JSON.stringify`, `JSON.parse`, base64
  and `URLSearchParams.toString` are function-typed inputs. The cookie
  round trip is the hypothesis `Session.RoundTrips`, not a fact. Each
  `JSON.stringify` sees the checked members of each answer plus an
  `others` member standing for the rest, as raw text. Whether two
  different answers give two different texts is a hypothesis where a lemma
  needs it (`Callback.XstsRefusalsDistinguished`).
- **Unchecked token members.** `id_token`, `access_token`, `refresh_token`
  and `expires_in` are taken as present with their documented types. What
  the code does when they are absent (`d=undefined`, NaN expiry) is not
  modelled.
- **Numbers.** `expires_in` is an integer. Floating-point arithmetic and
  number formatting beyond integers are left out.
- **Cookie JSON types.** The cookie's JSON members are taken with their
  declared types. A cookie that parses to `null` is folded into "does not
  decode"; both lead to `/login`. One that parses to a member of another
  type is not modelled.
- **Prisma.** Only the upsert is modelled, as a map update. Its failures
  (which would end the request in an error) and its schema are left out.
- **Framework plumbing.** The Next.js `cookies()`/`redirect()` machinery
  is left out, and so is how the browser stores and expires a `Set-Cookie`
  header; the flow lemmas hand the cookie value straight back.
- **Cookie write during render.** In the App Router, `cookies().set`
  throws when called while a Server Component renders. The rewrite at
  src/app/profile/page.tsx:104-112 is modelled as the write the page asks
  for, and the model takes it to succeed.
- **Redirect URL parsing.** `NextResponse.redirect` passes its URL through
  `new URL`, which normalises it and throws on an unparsable
  `NEXTAUTH_URL`. In the callback that happens after the upsert at
  src/app/api/auth/microsoft/callback/route.ts:135-146. The model's
  locations are the raw concatenations, and that late throw is not
  modelled.
- **Redirect status.** The callback's 307 is `NextResponse.redirect`'s
  default status, not a value written in the source.
- **Logging.** `console.error` at src/app/profile/page.tsx:60 is left out.
- **Rendering.** The JSX at src/app/profile/page.tsx:116-148 is modelled
  only as the three values it shows (name, email, access token).
- **Other files.** src/app/login/page.tsx, src/components/Logout.tsx,
  src/components/LaunchButton.tsx, electron/main.js and src/lib/authConfig.ts
  are presentational or unused. They are not part of this model.
- **Token verification.** The identity token is not verified, in the code
  or the model.
