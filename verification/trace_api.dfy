/**
 * Calls to the backend API (`lib/auth/trace-api.ts`): the signing-key
 * table read from the environment, the choice of the active key, the
 * short-lived JSON Web Token (RFC 7519) minted for the signed-in user, and
 * the decision flow of `callTraceApi`.
 *
 * Foreign calls are parameters: `JSON.parse` (`parseJson`, `None` where it
 * throws), the HMAC signature (`sign`), the session lookup (`session`), the
 * clock (`nowMs`) and `fetch` (`fetch`).
 */
module TraceApi {
  import opened Common
  import opened Text
  import opened Numbers

  /** The environment variables the module reads. */
  datatype Env = Env(apiUrl: Option<string>, rawKeys: Option<string>, activeKid: Option<string>)

  /** `KEY_MAP`: null unless the key variable is set and parses. */
  function KeyMap(env: Env, parseJson: string -> Option<map<string, string>>): (r: Option<map<string, string>>)
    ensures !Truthy(env.rawKeys) ==> r.None?
    ensures Truthy(env.rawKeys) ==> r == parseJson(env.rawKeys.value)
  {
    if Truthy(env.rawKeys) then parseJson(env.rawKeys.value) else None
  }

  datatype ActiveKey = ActiveKey(kid: string, secret: string)

  /** `getActiveKey`: the active kid and its secret, when both are present and non-empty. */
  function GetActiveKey(keyMap: Option<map<string, string>>, activeKid: Option<string>): (r: Option<ActiveKey>)
    ensures r.Some? <==> (keyMap.Some? && Truthy(activeKid) && activeKid.value in keyMap.value
                          && keyMap.value[activeKid.value] != "")
    ensures r.Some? ==> r.value.kid == activeKid.value && r.value.secret == keyMap.value[activeKid.value]
  {
    if keyMap.None? || !Truthy(activeKid) then None
    else
      var kid := activeKid.value;
      if kid !in keyMap.value || keyMap.value[kid] == "" then None
      else Some(ActiveKey(kid, keyMap.value[kid]))
  }

  /** The session user: `session?.user?.id` and the `handle` added by the auth callbacks. */
  datatype User = User(id: Option<string>, handle: Option<string>)

  /** The registered and private claims (sections 4.1 and 4.3 of RFC 7519); `handle` may be null. */
  datatype Claims = Claims(sub: string, handle: Option<string>, iss: string, aud: string, iat: int, exp: int, ver: int)

  /** The JOSE header: HS256 (section 3.2 of RFC 7518), type JWT, and the key id (section 4.1.4 of RFC 7515). */
  datatype Header = Header(alg: string, typ: string, kid: string)

  const Lifetime: int := 5 * 60

  /** `Math.floor(Date.now() / 1000)` */
  function Seconds(nowMs: int): (s: int)
    ensures s * 1000 <= nowMs < s * 1000 + 1000
  {
    nowMs / 1000
  }

  /** What `signApiJwtForCurrentUser` hands to the signer, or nothing. */
  datatype Unsigned = Unsigned(header: Header, claims: Claims, secret: string)

  function TokenParts(user: Option<User>, key: Option<ActiveKey>, nowMs: int): (r: Option<Unsigned>)
    ensures r.None? <==> user.None? || !Truthy(user.value.id) || key.None?
    ensures r.Some? ==>
      var c := r.value.claims;
      && c.sub == user.value.id.value && c.handle == user.value.handle
      && c.iss == "trace-nextjs" && c.aud == "trace-api" && c.ver == 1
      && c.iat == Seconds(nowMs) && c.exp == c.iat + 300
      && r.value.header == Header("HS256", "JWT", key.value.kid)
      && r.value.secret == key.value.secret
  {
    if user.None? || !Truthy(user.value.id) then None
    else if key.None? then None
    else
      var now := Seconds(nowMs);
      Some(Unsigned(
        Header("HS256", "JWT", key.value.kid),
        Claims(user.value.id.value, user.value.handle, "trace-nextjs", "trace-api", now, now + Lifetime, 1),
        key.value.secret))
  }

  /** The signed token, or null (`None`) when there is no user id or no active key; never a failure. */
  function MintToken(user: Option<User>, key: Option<ActiveKey>, nowMs: int, sign: Unsigned -> string): (r: Option<string>)
    ensures r.Some? <==> TokenParts(user, key, nowMs).Some?
    ensures r.Some? ==> r.value == sign(TokenParts(user, key, nowMs).value)
  {
    match TokenParts(user, key, nowMs)
    case None => None
    case Some(u) => Some(sign(u))
  }

  /**
   * The acceptance window a verifier applies to a token for this API:
   * issuer and audience match, not used before issue, and rejected from
   * the expiry time on (section 4.1.4 of RFC 7519).
   */
  predicate AcceptableAt(c: Claims, t: int) {
    c.iss == "trace-nextjs" && c.aud == "trace-api" && c.iat <= t < c.exp
  }

  /**
   * A minted token is acceptable exactly during the 300 seconds starting
   * at its issue second, which includes the moment it was minted.
   */
  lemma TokenWindow(user: Option<User>, key: Option<ActiveKey>, nowMs: int, t: int)
    requires TokenParts(user, key, nowMs).Some?
    ensures var c := TokenParts(user, key, nowMs).value.claims;
      (AcceptableAt(c, t) <==> Seconds(nowMs) <= t < Seconds(nowMs) + 300)
      && AcceptableAt(c, nowMs / 1000)
  {
  }

  /** The caller's options: `authRequired` plus the `RequestInit` fields the helper touches. */
  datatype Options = Options(authRequired: Option<bool>, headers: map<string, string>, httpMethod: Option<string>, body: Option<string>)

  /** The request `fetch` receives. */
  datatype Request = Request(url: string, headers: map<string, string>, httpMethod: Option<string>, body: Option<string>, cache: string)

  /** A response: status, status text, and the body text (`None` where reading it fails). */
  datatype Response = Response(status: int, statusText: string, body: Option<string>)

  /** Either the returned response or the thrown error, with the request sent, if any. */
  datatype Outcome =
    | Returned(sent: Request, response: Response)
    | Threw(message: string, request: Option<Request>)

  const UrlUnsetMessage: string := "TRACE_API_URL is not set"
  const AuthRequiredMessage: string := "User must be authenticated to call this endpoint"

  /** `res.ok` */
  predicate Ok(res: Response) {
    200 <= res.status <= 299
  }

  /** The error a non-2xx response raises. */
  function ErrorMessage(res: Response): (m: string)
    ensures StartsWith(m, "Trace API error ")
  {
    var text := OrElse(res.body, "");
    "Trace API error " + IntToString(res.status) + " " + res.statusText + ": " + (if text != "" then text else "No body")
  }

  /** The request built for `path`: the caller's init, the bearer header when a token exists, no caching. */
  function BuildRequest(base: string, path: string, options: Options, token: Option<string>): (r: Request)
    ensures r.url == base + path && r.cache == "no-store"
    ensures r.httpMethod == options.httpMethod && r.body == options.body
    ensures Truthy(token) ==> r.headers == options.headers["Authorization" := "Bearer " + token.value]
    ensures !Truthy(token) ==> r.headers == options.headers
  {
    var headers := if Truthy(token) then options.headers["Authorization" := "Bearer " + token.value] else options.headers;
    Request(base + path, headers, options.httpMethod, options.body, "no-store")
  }

  /** The token `callTraceApi` obtains for the signed-in user, if any. */
  function CallToken(env: Env, parseJson: string -> Option<map<string, string>>, user: Option<User>, nowMs: int,
                     sign: Unsigned -> string): Option<string>
  {
    MintToken(user, GetActiveKey(KeyMap(env, parseJson), env.activeKid), nowMs, sign)
  }

  /**
   * `callTraceApi(path, options)`: an unset URL or a missing required token
   * throws before sending; otherwise exactly one request goes out, a 2xx
   * response is returned and any other throws the error naming it.
   */
  function CallTraceApi(env: Env, parseJson: string -> Option<map<string, string>>, path: string, options: Options,
                        user: Option<User>, nowMs: int, sign: Unsigned -> string,
                        fetch: Request -> Response): (r: Outcome)
    ensures !Truthy(env.apiUrl) ==> r == Threw(UrlUnsetMessage, None)
    ensures var token := CallToken(env, parseJson, user, nowMs, sign);
      Truthy(env.apiUrl) && !Truthy(token) && options.authRequired == Some(true) ==> r == Threw(AuthRequiredMessage, None)
    ensures var token := CallToken(env, parseJson, user, nowMs, sign);
      Truthy(env.apiUrl) && (Truthy(token) || options.authRequired != Some(true)) ==>
        var sent := BuildRequest(env.apiUrl.value, path, options, token);
        && (Ok(fetch(sent)) ==> r == Returned(sent, fetch(sent)))
        && (!Ok(fetch(sent)) ==> r == Threw(ErrorMessage(fetch(sent)), Some(sent)))
    ensures r.Returned? ==> Ok(r.response) && r.response == fetch(r.sent)
  {
    if !Truthy(env.apiUrl) then Threw(UrlUnsetMessage, None)
    else
      var token := CallToken(env, parseJson, user, nowMs, sign);
      if !Truthy(token) && options.authRequired == Some(true) then Threw(AuthRequiredMessage, None)
      else
        var req := BuildRequest(env.apiUrl.value, path, options, token);
        var res := fetch(req);
        if Ok(res) then Returned(req, res) else Threw(ErrorMessage(res), Some(req))
  }

  /** An unset base URL fails the same way whoever is signed in, and before anything is sent. */
  lemma UrlCheckedFirst(env: Env, parseJson: string -> Option<map<string, string>>, path: string, options: Options,
                        u1: Option<User>, u2: Option<User>, nowMs: int, sign: Unsigned -> string, fetch: Request -> Response)
    requires !Truthy(env.apiUrl)
    ensures CallTraceApi(env, parseJson, path, options, u1, nowMs, sign, fetch)
         == CallTraceApi(env, parseJson, path, options, u2, nowMs, sign, fetch)
  {
  }

  /**
   * With the URL set, the request carries "Bearer <token>" exactly when a
   * token was minted; without one, `authRequired` fails before sending and
   * otherwise the call goes out with the caller's headers unchanged.
   */
  lemma AuthorizationIffToken(env: Env, parseJson: string -> Option<map<string, string>>, path: string, options: Options,
                              user: Option<User>, nowMs: int, sign: Unsigned -> string, fetch: Request -> Response)
    requires Truthy(env.apiUrl)
    ensures var key := GetActiveKey(KeyMap(env, parseJson), env.activeKid);
      var token := MintToken(user, key, nowMs, sign);
      var r := CallTraceApi(env, parseJson, path, options, user, nowMs, sign, fetch);
      && (Truthy(token) ==>
            && (r.Returned? || r.request.Some?)
            && (if r.Returned? then r.sent else r.request.value).headers["Authorization"] == "Bearer " + token.value)
      && (!Truthy(token) && options.authRequired == Some(true) ==> r == Threw(AuthRequiredMessage, None))
      && (!Truthy(token) && options.authRequired != Some(true) ==>
            (if r.Returned? then r.sent else r.request.value).headers == options.headers)
  {
  }

  /** A failed response's error names its status and text, and falls back to "No body". */
  lemma ErrorNamesStatus(res: Response)
    requires OrElse(res.body, "") == ""
    ensures ErrorMessage(res) == "Trace API error " + IntToString(res.status) + " " + res.statusText + ": No body"
  {
  }

  /** A signed-in user and a configured key always yield a token. */
  lemma SignedInUserGetsToken(env: Env, parseJson: string -> Option<map<string, string>>, user: User, nowMs: int,
                              sign: Unsigned -> string)
    requires Truthy(user.id)
    requires Truthy(env.rawKeys) && Truthy(env.activeKid)
    requires parseJson(env.rawKeys.value).Some?
    requires var m := parseJson(env.rawKeys.value).value; env.activeKid.value in m && m[env.activeKid.value] != ""
    ensures MintToken(Some(user), GetActiveKey(KeyMap(env, parseJson), env.activeKid), nowMs, sign).Some?
  {
  }
}
