/** The `/auth` routes: the login redirect, the OAuth 2.0 authorization-code
    callback (section 4.1 of RFC 6749), logout and verify. The Discord
    services and the token codec are outside calls to these handlers and
    arrive as functions; a service answers an object, `None` for `null`, or
    the error it throws. */
module AuthController {
  import opened Values
  import opened HttpError
  import opened AppConfig
  import opened DiscordApi
  import opened DiscordAuth
  import opened IsAuthenticated
  import opened Express

  const TokenNull := "Token não definido"
  const ProfileNull := "Dados do usuário não disponível"
  const EncodeFailed := "Erro ao gerar token"
  const CallbackPath := "/auth/callback"
  /** Six days, in milliseconds. */
  const SessionMaxAge := 518400000

  /** A service as the callback awaits it. */
  type Service = Value -> Result<Option<Record>, Err>

  /** A modelled service seen as the callback sees it: it never answers `null`. */
  function Lift(r: Result<Record, Err>): (s: Result<Option<Record>, Err>)
    ensures s.Ok? <==> r.Ok?
    ensures r.Ok? ==> s.value == Some(r.value)
    ensures r.Fail? ==> s.error == r.error
  {
    match r
    case Ok(v) => Ok(Some(v))
    case Fail(e) => Fail(e)
  }

  /** How the callback ends: signed in with a session token, or refused with
      the message of the error that stopped it. */
  datatype Callback = SignedIn(token: string) | Refused(message: string)

  /** The claims the session token carries: every field of the token reply,
      with `sub` set to the profile's id. */
  function Claims(tokenReply: Record, profile: Record): (c: Record)
    ensures c.Keys == tokenReply.Keys + {"sub"}
    ensures c["sub"] == Get(profile, "id")
    ensures forall k :: k in tokenReply && k != "sub" ==> c[k] == tokenReply[k]
  {
    tokenReply["sub" := Get(profile, "id")]
  }

  /** The `/callback` funnel: the `error` parameter, then the token exchange
      for `code`, then the profile for the reply's `access_token`, then the
      codec's encoding of the claims. Each step's failure stops the funnel
      with its message. */
  function CallbackOutcome(error: Value, code: Value, requestToken: Service, fetchAuthUser: Service,
                           encode: Record -> Option<string>): (r: Callback)
    ensures Truthy(error) ==> r == Refused(ToText(error))
    ensures !Truthy(error) && requestToken(code).Fail? ==> r == Refused(requestToken(code).error.message)
    ensures !Truthy(error) && requestToken(code) == Ok(None) ==> r == Refused(TokenNull)
    ensures !Truthy(error) && requestToken(code).Ok? && requestToken(code).value.Some? ==>
      var reply := requestToken(code).value.value;
      var fetched := fetchAuthUser(Get(reply, "access_token"));
      (fetched.Fail? ==> r == Refused(fetched.error.message))
      && (fetched == Ok(None) ==> r == Refused(ProfileNull))
      && (fetched.Ok? && fetched.value.Some? ==>
            var sealed := encode(Claims(reply, fetched.value.value));
            (sealed.Some? && sealed.value != "" ==> r == SignedIn(sealed.value))
            && (sealed.None? || sealed == Some("") ==> r == Refused(EncodeFailed)))
    ensures r.SignedIn? ==>
      (!Truthy(error) && r.token != ""
       && requestToken(code).Ok? && requestToken(code).value.Some?
       && var reply := requestToken(code).value.value;
          fetchAuthUser(Get(reply, "access_token")).Ok? && fetchAuthUser(Get(reply, "access_token")).value.Some?
          && encode(Claims(reply, fetchAuthUser(Get(reply, "access_token")).value.value)) == Some(r.token))
  {
    if Truthy(error) then
      TextOfTruthy(error);
      Refused(NewHttpError(400, ToText(error)).message)
    else
      match requestToken(code)
      case Fail(e) => Refused(e.message)
      case Ok(None) => Refused(TokenNull)
      case Ok(Some(reply)) =>
        match fetchAuthUser(Get(reply, "access_token"))
        case Fail(e) => Refused(e.message)
        case Ok(None) => Refused(ProfileNull)
        case Ok(Some(profile)) =>
          match encode(Claims(reply, profile))
          case Some(token) => if token != "" then SignedIn(token) else Refused(EncodeFailed)
          case None => Refused(EncodeFailed)
  }

  lemma TextOfTruthy(v: Value)
    requires Truthy(v)
    ensures ToText(v) != ""
  {
  }

  /** With the `error` parameter set, neither Discord nor the codec is asked:
      the outcome is the same whatever they would answer. */
  lemma ErrorParamSkipsExchange(error: Value, code: Value, requestToken1: Service, fetchAuthUser1: Service,
                                encode1: Record -> Option<string>, requestToken2: Service,
                                fetchAuthUser2: Service, encode2: Record -> Option<string>)
    requires Truthy(error)
    ensures CallbackOutcome(error, code, requestToken1, fetchAuthUser1, encode1)
         == CallbackOutcome(error, code, requestToken2, fetchAuthUser2, encode2)
  {
  }

  /** Each step's empty answer stops the funnel with that step's message. */
  lemma EmptyStepMessages(code: Value, reply: Record, profile: Record, requestToken: Service,
                          fetchAuthUser: Service, encode: Record -> Option<string>)
    ensures requestToken(code) == Ok(None) ==>
      CallbackOutcome(Undefined, code, requestToken, fetchAuthUser, encode) == Refused(TokenNull)
    ensures requestToken(code) == Ok(Some(reply)) && fetchAuthUser(Get(reply, "access_token")) == Ok(None) ==>
      CallbackOutcome(Undefined, code, requestToken, fetchAuthUser, encode) == Refused(ProfileNull)
    ensures (requestToken(code) == Ok(Some(reply)) && fetchAuthUser(Get(reply, "access_token")) == Ok(Some(profile))
             && (encode(Claims(reply, profile)) == None || encode(Claims(reply, profile)) == Some(""))) ==>
      CallbackOutcome(Undefined, code, requestToken, fetchAuthUser, encode) == Refused(EncodeFailed)
  {
  }

  /** With the modelled Discord services, a callback without `code` is
      refused with the token exchange's own message and nothing is posted. */
  lemma CallbackWithoutCode(cfg: Config, post: string -> Outcome, get: string -> Outcome,
                            encode: Record -> Option<string>)
    ensures CallbackOutcome(Undefined, Undefined,
                            c => Lift(RequestToken(cfg, c, post)),
                            t => Lift(FetchAuthUser(t, get)), encode)
         == Refused(CodeMissing)
  {
    assert Lift(RequestToken(cfg, Undefined, post)) == Fail(Err(400, CodeMissing));
  }

  /** When neither service answers `null`, a refusal carries the `error`
      parameter, the message of an error a service raised, or the codec's
      message. */
  lemma RefusalsOfNonNullServices(error: Value, code: Value, requestToken: Service, fetchAuthUser: Service,
                                  encode: Record -> Option<string>)
    requires requestToken(code) != Ok(None)
    requires requestToken(code).Ok? ==> fetchAuthUser(Get(requestToken(code).value.value, "access_token")) != Ok(None)
    requires requestToken(code).Fail? ==> requestToken(code).error.message != ""
    requires requestToken(code).Ok? ==> var t := Get(requestToken(code).value.value, "access_token");
      fetchAuthUser(t).Fail? ==> fetchAuthUser(t).error.message != ""
    ensures var r := CallbackOutcome(error, code, requestToken, fetchAuthUser, encode);
      r.Refused? ==> r.message != ""
    ensures var r := CallbackOutcome(error, code, requestToken, fetchAuthUser, encode);
      r.Refused? ==>
        (Truthy(error) && r.message == ToText(error))
        || (!Truthy(error) && requestToken(code).Fail? && r.message == requestToken(code).error.message)
        || (!Truthy(error) && requestToken(code).Ok?
            && var t := Get(requestToken(code).value.value, "access_token");
               fetchAuthUser(t).Fail? && r.message == fetchAuthUser(t).error.message)
        || (!Truthy(error) && requestToken(code).Ok?
            && var reply := requestToken(code).value.value;
               fetchAuthUser(Get(reply, "access_token")).Ok?
               && var sealed := encode(Claims(reply, fetchAuthUser(Get(reply, "access_token")).value.value));
                  (sealed.None? || sealed == Some("")) && r.message == EncodeFailed)
  {
    if Truthy(error) {
      TextOfTruthy(error);
    }
  }

  /** With the modelled Discord services the two `null` checks never fire:
      a refusal carries the `error` parameter, the message of a 400 the
      services raised, or the codec's message. */
  lemma RefusalsWithModelledServices(cfg: Config, error: Value, code: Value, post: string -> Outcome,
                                     get: string -> Outcome, encode: Record -> Option<string>)
    ensures var r := CallbackOutcome(error, code,
                                     c => Lift(RequestToken(cfg, c, post)),
                                     t => Lift(FetchAuthUser(t, get)), encode);
      r.Refused? ==>
        (Truthy(error) && r.message == ToText(error))
        || (!Truthy(error) && RequestToken(cfg, code, post).Fail?
            && r.message == RequestToken(cfg, code, post).error.message
            && RequestToken(cfg, code, post).error.status == 400)
        || (!Truthy(error) && RequestToken(cfg, code, post).Ok?
            && var t := Get(RequestToken(cfg, code, post).value, "access_token");
               FetchAuthUser(t, get).Fail? && r.message == FetchAuthUser(t, get).error.message
               && FetchAuthUser(t, get).error.status == 400)
        || (!Truthy(error) && RequestToken(cfg, code, post).Ok?
            && var reply := RequestToken(cfg, code, post).value;
               FetchAuthUser(Get(reply, "access_token"), get).Ok?
               && var sealed := encode(Claims(reply, FetchAuthUser(Get(reply, "access_token"), get).value));
                  (sealed.None? || sealed == Some("")) && r.message == EncodeFailed)
    ensures var r := CallbackOutcome(error, code,
                                     c => Lift(RequestToken(cfg, c, post)),
                                     t => Lift(FetchAuthUser(t, get)), encode);
      r.Refused? ==> r.message != ""
  {
    var requestToken: Service := c => Lift(RequestToken(cfg, c, post));
    var fetchAuthUser: Service := t => Lift(FetchAuthUser(t, get));
    var rt := RequestToken(cfg, code, post);
    assert requestToken(code) == Lift(rt);
    if rt.Ok? {
      var t := Get(rt.value, "access_token");
      assert fetchAuthUser(t) == Lift(FetchAuthUser(t, get));
    }
    RefusalsOfNonNullServices(error, code, requestToken, fetchAuthUser, encode);
  }

  /** The session cookie's options: http-only, secure exactly in production,
      same-site strict, six days. */
  function SessionCookie(cfg: Config): (o: CookieOptions)
    ensures o.httpOnly && o.sameSite == Some("strict") && o.maxAge == Some(SessionMaxAge)
    ensures o.secure <==> cfg.state == "production"
  {
    CookieOptions(true, cfg.state == "production", Some("strict"), Some(SessionMaxAge))
  }

  /** The options `/logout` clears the cookie with. */
  function ClearedCookie(cfg: Config): (o: CookieOptions)
    ensures o.httpOnly && o.sameSite == None && o.maxAge == None
    ensures o.secure <==> cfg.state == "production"
  {
    CookieOptions(true, cfg.state == "production", None, None)
  }

  /** `GET /login`: a redirect to the authorize URL. */
  method Login(res: Response, cfg: Config)
    modifies res
    ensures res.statusCode == 302 && res.location == Some(GetOAuthUrl(cfg))
    ensures StartsWith(res.location.value, AuthorizeUrl + ScopeParam + "&")
    ensures res.cookies == old(res.cookies) && res.payload == old(res.payload)
  {
    AuthorizeUrlBeginsWithScope(cfg);
    res.Redirect(GetOAuthUrl(cfg));
  }

  /** `GET /callback`: every path ends in a redirect to the front end's
      callback page; success first sets the session cookie, failure names its
      message in the `error` parameter. */
  method HandleCallback(res: Response, cfg: Config, error: Value, code: Value, requestToken: Service,
                        fetchAuthUser: Service, encode: Record -> Option<string>)
    modifies res
    ensures res.statusCode == 302 && res.payload == old(res.payload)
    ensures match CallbackOutcome(error, code, requestToken, fetchAuthUser, encode)
      case SignedIn(token) =>
        res.cookies == old(res.cookies) + [CookieSet(cfg.cookieName, token, SessionCookie(cfg))]
        && res.location == Some(cfg.frontendUrl + CallbackPath)
      case Refused(message) =>
        res.cookies == old(res.cookies)
        && res.location == Some(cfg.frontendUrl + CallbackPath + "?error=" + message)
  {
    var outcome := CallbackOutcome(error, code, requestToken, fetchAuthUser, encode);
    match outcome
    case SignedIn(token) =>
      res.Cookie(cfg.cookieName, token, SessionCookie(cfg));
      res.Redirect(cfg.frontendUrl + CallbackPath);
    case Refused(message) =>
      res.Redirect(cfg.frontendUrl + CallbackPath + "?error=" + message);
  }

  /** `POST /logout`: clears the session cookie and answers 200. */
  method Logout(res: Response, cfg: Config)
    modifies res
    ensures res.cookies == old(res.cookies) + [CookieCleared(cfg.cookieName, ClearedCookie(cfg))]
    ensures res.statusCode == 200 && res.payload == StatusPayload(200)
    ensures res.location == old(res.location)
  {
    res.ClearCookie(cfg.cookieName, ClearedCookie(cfg));
    res.SendStatus(200);
  }

  /** `POST /verify` behind the gate: 200 exactly when the gate passes;
      otherwise the gate's 401 goes to the responder and nothing is sent. */
  method Verify(req: Request, res: Response, cfg: Config, parse: string -> map<string, string>,
                decode: string -> Option<Record>) returns (next: Option<Err>)
    modifies req, res
    ensures next.None? <==> Gate(req.cookieHeader, cfg.cookieName, parse, decode).Ok?
    ensures next.None? ==> res.statusCode == 200 && res.payload == StatusPayload(200)
    ensures next.Some? ==>
      (next.value.status == 401 && res.payload == old(res.payload) && res.statusCode == old(res.statusCode))
  {
    next := Authenticate(req, cfg.cookieName, parse, decode);
    if next.None? {
      res.SendStatus(200);
    }
  }
}
