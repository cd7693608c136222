/** The session cookie: a JSON object, base64-encoded. */
module Session {
  import opened Js

  /** The properties either writer of the `ms_auth` cookie may store. A
      property the writer leaves out (or that `JSON.stringify` drops because
      it is `undefined`) is None. The callback writes `expiresAt`; the
      profile page reads and writes `accessExpiresAt`. */
  datatype CookiePayload = CookiePayload(
    email: Option<string>,
    name: Option<string>,
    uuid: Option<string>,
    username: Option<string>,
    accessToken: Option<string>,
    refreshToken: Option<string>,
    expiresAt: Option<int>,
    accessExpiresAt: Option<int>)

  /** The library calls the cookie goes through. */
  datatype Codec = Codec(
    stringify: CookiePayload -> string,      // JSON.stringify
    parse: string -> Option<CookiePayload>,  // JSON.parse; None when it throws
    toBase64: string -> string,              // Buffer.from(s).toString("base64")
    fromBase64: string -> string)            // Buffer.from(s, "base64").toString("utf-8")

  function Encode(c: Codec, p: CookiePayload): string {
    c.toBase64(c.stringify(p))
  }

  function Decode(c: Codec, raw: string): Option<CookiePayload> {
    c.parse(c.fromBase64(raw))
  }

  /** What the libraries are relied on to provide: decoding an encoded
      payload gives it back, and an encoding is never empty (it is the
      base64 form of a non-empty JSON text). Lemmas that need this take it
      as a hypothesis. */
  ghost predicate RoundTrips(c: Codec) {
    forall p :: Encode(c, p) != "" && Decode(c, Encode(c, p)) == Some(p)
  }
}
