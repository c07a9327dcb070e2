/** The OAuth2 client for Discord (authorization-code grant of RFC 6749,
    section 4.1): the authorize URL, the token and refresh requests, and the
    profile of the signed-in user. Replies of the HTTP client are inputs:
    `post` maps a form-encoded request body to the outcome of posting it to
    the token endpoint, `get` maps an Authorization header to the outcome of
    reading the current user. */
module DiscordAuth {
  import opened Values
  import opened HttpError
  import opened FormEncoding
  import opened AppConfig
  import opened DiscordApi

  const AuthorizeUrl := "https://discord.com/oauth2/authorize?"
  const ScopeWords: seq<string> := ["guilds.join", "identify", "email"]

  const CodeMissing := "Code não definido"
  const TokenFailed := "Erro ao solicitar token"
  const RefreshMissing := "RefreshToken não definido"
  const RefreshFailed := "Erro ao da refresh no token"
  const AccessTokenMissing := "Token não definido"
  const ProfileFailed := "Erro ao buscar dados do usuário autenticado"

  /** The query of the authorize URL, in the order the service lists it. */
  function AuthorizeParams(cfg: Config): seq<(string, string)>
  {
    [("scope", JoinWith(ScopeWords, ' ')), ("redirect_uri", cfg.redirectUrl),
     ("client_id", cfg.clientId), ("response_type", "code")]
  }

  /** `getOAuthUrl`: the authorize endpoint followed by the form-encoded query,
      which reads back as exactly the four parameters in order. */
  function GetOAuthUrl(cfg: Config): (url: string)
    ensures StartsWith(url, AuthorizeUrl)
    ensures ParseQuery(url[|AuthorizeUrl|..]) == Some(AuthorizeParams(cfg))
  {
    ParseSerialize(AuthorizeParams(cfg));
    AuthorizeUrl + Serialize(AuthorizeParams(cfg))
  }

  /** The scope is the three words separated by spaces; serialized, each
      space becomes `+`. */
  lemma ScopeText()
    ensures JoinWith(ScopeWords, ' ') == "guilds.join identify email"
    ensures JoinWith(ScopeWords, '+') == "guilds.join+identify+email"
  {
  }

  lemma ScopePairSerialization()
    ensures SerializePair(("scope", JoinWith(ScopeWords, ' '))) == "scope=" + JoinWith(ScopeWords, '+')
  {
    ScopeWordsUnreserved();
    EncodeSpaceJoined(ScopeWords);
    ScopeNameUnreserved();
  }

  /** The scope words need no escaping. */
  lemma ScopeWordsUnreserved()
    ensures forall k :: 0 <= k < |ScopeWords| ==> AllUnreserved(ScopeWords[k])
  {
    assert AllUnreserved(ScopeWords[0]);
    assert AllUnreserved(ScopeWords[1]);
    assert AllUnreserved(ScopeWords[2]);
  }

  lemma ScopeNameUnreserved()
    ensures Encode("scope") == "scope"
  {
    assert AllUnreserved("scope");
    EncodeUnreserved("scope");
  }

  /** The scope parameter as the authorize URL carries it. */
  const ScopeParam := "scope=guilds.join+identify+email"

  lemma ScopeParamLiteral()
    ensures "scope=" + "guilds.join+identify+email" == ScopeParam
  {
  }

  /** The scope parameter serializes with its spaces written as `+`. */
  lemma ScopeParamText(cfg: Config)
    ensures SerializePair(AuthorizeParams(cfg)[0]) == ScopeParam
  {
    ScopeText();
    ScopePairSerialization();
    ScopeParamLiteral();
  }

  /** The authorize URL begins with that scope, as its first parameter. */
  lemma AuthorizeUrlBeginsWithScope(cfg: Config)
    ensures StartsWith(GetOAuthUrl(cfg), AuthorizeUrl + ScopeParam + "&")
  {
    var ps := AuthorizeParams(cfg);
    FirstPairPrefix(ps);
    ScopeParamText(cfg);
    PrefixUnderPrefix(AuthorizeUrl, Serialize(ps), ScopeParam + "&");
    assert AuthorizeUrl + (ScopeParam + "&") == AuthorizeUrl + ScopeParam + "&";
  }

  /** The body of the authorization-code exchange (RFC 6749, section 4.1.3). */
  function TokenRequestParams(cfg: Config, code: string): seq<(string, string)>
  {
    [("client_id", cfg.clientId), ("client_secret", cfg.clientSecret),
     ("grant_type", "authorization_code"), ("redirect_uri", cfg.redirectUrl), ("code", code)]
  }

  /** The body of the refresh request (RFC 6749, section 6). */
  function RefreshRequestParams(cfg: Config, refreshToken: string): seq<(string, string)>
  {
    [("client_id", cfg.clientId), ("client_secret", cfg.clientSecret),
     ("grant_type", "refresh_token"), ("refresh_token", refreshToken)]
  }

  /** The `catch` of every Discord call: a thrown error becomes a 400 carrying
      its own message, or `fallback` when that message is empty. */
  function Normalise(message: string, fallback: string): (e: Err)
    requires fallback != ""
    ensures e.status == 400
    ensures e.message == (if message != "" then message else fallback)
  {
    NewHttpError(400, if message != "" then message else fallback)
  }

  /** The token endpoint's reply: the body of a 200 reply with an object body;
      anything else is the fixed failure message. */
  function TokenReply(o: Outcome, fallback: string): (r: Result<Record, Err>)
    requires fallback != ""
    ensures r.Ok? <==> o.Received? && o.status == 200 && o.data.ObjectBody?
    ensures r.Ok? ==> r.value == o.data.fields
    ensures r.Fail? ==> r.error == Err(400, fallback)
  {
    match o
    case ClientFailure => Fail(Normalise("", fallback))
    case Received(status, data) =>
      if status != 200 || !data.ObjectBody? then Fail(Normalise("", fallback))
      else Ok(data.fields)
  }

  /** `requestToken(code)`: no request without a code; otherwise the
      form-encoded exchange body is posted and the reply normalised. */
  function RequestToken(cfg: Config, code: Value, post: string -> Outcome): (r: Result<Record, Err>)
    ensures !Truthy(code) ==> r == Fail(Err(400, CodeMissing))
    ensures Truthy(code) ==> r == TokenReply(post(Serialize(TokenRequestParams(cfg, ToText(code)))), TokenFailed)
    ensures r.Fail? ==> r.error.status == 400 && r.error.message != ""
  {
    if !Truthy(code) then Fail(Normalise(CodeMissing, TokenFailed))
    else TokenReply(post(Serialize(TokenRequestParams(cfg, ToText(code)))), TokenFailed)
  }

  /** `refreshToken(refreshToken)`: the same pattern with the refresh grant. */
  function RefreshToken(cfg: Config, refreshToken: Value, post: string -> Outcome): (r: Result<Record, Err>)
    ensures !Truthy(refreshToken) ==> r == Fail(Err(400, RefreshMissing))
    ensures Truthy(refreshToken) ==> r == TokenReply(post(Serialize(RefreshRequestParams(cfg, ToText(refreshToken)))), RefreshFailed)
    ensures r.Fail? ==> r.error.status == 400 && r.error.message != ""
  {
    if !Truthy(refreshToken) then Fail(Normalise(RefreshMissing, RefreshFailed))
    else TokenReply(post(Serialize(RefreshRequestParams(cfg, ToText(refreshToken)))), RefreshFailed)
  }

  /** Without a code (or refresh token) the reply of the endpoint plays no
      part: nothing is sent. */
  lemma NoRequestWithoutCredential(cfg: Config, v: Value, post1: string -> Outcome, post2: string -> Outcome)
    requires !Truthy(v)
    ensures RequestToken(cfg, v, post1) == RequestToken(cfg, v, post2)
    ensures RefreshToken(cfg, v, post1) == RefreshToken(cfg, v, post2)
  {
  }

  /** What the token endpoint receives reads back as the grant's parameters,
      in order. */
  lemma RequestBodiesParse(cfg: Config, credential: string)
    ensures ParseQuery(Serialize(TokenRequestParams(cfg, credential))) == Some(TokenRequestParams(cfg, credential))
    ensures ParseQuery(Serialize(RefreshRequestParams(cfg, credential))) == Some(RefreshRequestParams(cfg, credential))
  {
    ParseSerialize(TokenRequestParams(cfg, credential));
    ParseSerialize(RefreshRequestParams(cfg, credential));
  }

  function BearerHeader(token: Value): string
  {
    "Bearer " + ToText(token)
  }

  /** The profile the service returns: exactly these four keys. */
  function AuthUser(data: Record, avatar: Image): (u: Record)
    ensures u.Keys == {"id", "username", "avatar_url", "email"}
    ensures u["id"] == Get(data, "id") && u["username"] == Get(data, "username")
    ensures u["email"] == Get(data, "email") && u["avatar_url"] == Str(ImageUrl(avatar))
  {
    map["id" := Get(data, "id"), "username" := Get(data, "username"),
        "avatar_url" := Str(ImageUrl(avatar)), "email" := Get(data, "email")]
  }

  /** `fetchAuthUser(token)` as written: the avatar format is computed before
      the avatar is tested, so a user without an avatar (`null`) fails. A
      `null` body already fails when its `avatar` is read; another falsy body
      reads `avatar` as `undefined` and fails at `startsWith`. */
  function FetchAuthUserAsWritten(token: Value, get: string -> Outcome): (r: Result<Record, Err>)
    ensures r.Fail? ==> r.error.status == 400 && r.error.message != ""
    ensures !Truthy(token) ==> r == Fail(Err(400, AccessTokenMissing))
    ensures Truthy(token) && get(BearerHeader(token)) == ClientFailure ==> r == Fail(Err(400, ProfileFailed))
    ensures Truthy(token) && get(BearerHeader(token)).Received? && get(BearerHeader(token)).data.NullBody? ==>
      r == Fail(Err(400, NullBodyRead))
    ensures Truthy(token) && get(BearerHeader(token)).Received? && !get(BearerHeader(token)).data.NullBody? ==>
      var data := Fields(get(BearerHeader(token)).data);
      var avatar := Get(data, "avatar");
      (r.Ok? <==> avatar.Str?)
      && (avatar == Str("") ==> r == Ok(AuthUser(data, DefaultAvatar)))
      && (avatar.Str? && avatar.s != "" ==> r == Ok(AuthUser(data, Custom(Avatars, ToText(Get(data, "id")), avatar.s))))
      && (!avatar.Str? ==> r == Fail(Err(400, CallStartsWith(avatar, "data.avatar", "a_").error)))
  {
    if !Truthy(token) then Fail(Normalise(AccessTokenMissing, ProfileFailed))
    else
      match get(BearerHeader(token))
      case ClientFailure => Fail(Normalise("", ProfileFailed))
      case Received(_, body) =>
        if body.NullBody? then Fail(Normalise(NullBodyRead, ProfileFailed))
        else
          var data := Fields(body);
          match ResolveImageAsWritten(Avatars, ToText(Get(data, "id")), Get(data, "avatar"), "data.avatar")
          case Fail(message) => Fail(Normalise(message, ProfileFailed))
          case Ok(avatar) => Ok(AuthUser(data, avatar))
  }

  /** The TypeError of reading `avatar` from a `null` body. */
  const NullBodyRead := "Cannot read properties of null (reading 'avatar')"

  /** `fetchAuthUser(token)` as evidently intended: a user without an avatar
      gets the default avatar URL. */
  function FetchAuthUser(token: Value, get: string -> Outcome): (r: Result<Record, Err>)
    ensures r.Fail? ==> r.error.status == 400 && r.error.message != ""
    ensures !Truthy(token) ==> r == Fail(Err(400, AccessTokenMissing))
    ensures Truthy(token) && get(BearerHeader(token)) == ClientFailure ==> r == Fail(Err(400, ProfileFailed))
    ensures Truthy(token) && get(BearerHeader(token)).Received? && get(BearerHeader(token)).data.NullBody? ==>
      r == Fail(Err(400, NullBodyRead))
    ensures Truthy(token) && get(BearerHeader(token)).Received? && !get(BearerHeader(token)).data.NullBody? ==>
      var data := Fields(get(BearerHeader(token)).data);
      var avatar := Get(data, "avatar");
      (r.Ok? <==> !Truthy(avatar) || avatar.Str?)
      && (!Truthy(avatar) ==> r == Ok(AuthUser(data, DefaultAvatar)))
      && (avatar.Str? && avatar.s != "" ==> r == Ok(AuthUser(data, Custom(Avatars, ToText(Get(data, "id")), avatar.s))))
      && (Truthy(avatar) && !avatar.Str? ==> r == Fail(Err(400, CallStartsWith(avatar, "data.avatar", "a_").error)))
    ensures FetchAuthUserAsWritten(token, get).Ok? ==> r == FetchAuthUserAsWritten(token, get)
  {
    if !Truthy(token) then Fail(Normalise(AccessTokenMissing, ProfileFailed))
    else
      match get(BearerHeader(token))
      case ClientFailure => Fail(Normalise("", ProfileFailed))
      case Received(_, body) =>
        if body.NullBody? then Fail(Normalise(NullBodyRead, ProfileFailed))
        else
          var data := Fields(body);
          match ResolveImage(Avatars, ToText(Get(data, "id")), Get(data, "avatar"), "data.avatar")
          case Fail(message) => Fail(Normalise(message, ProfileFailed))
          case Ok(avatar) => Ok(AuthUser(data, avatar))
  }

  /** A profile with `avatar: null`: the written service answers 400 with the
      TypeError's message, the intended one the default avatar URL. */
  lemma NullAvatarProfile(token: Value, get: string -> Outcome, data: Record)
    requires Truthy(token) && "avatar" in data && data["avatar"] == Null
    requires get(BearerHeader(token)) == Received(200, ObjectBody(data))
    ensures FetchAuthUserAsWritten(token, get)
      == Fail(Err(400, "Cannot read properties of null (reading 'startsWith')"))
    ensures FetchAuthUser(token, get) == Ok(AuthUser(data, DefaultAvatar))
  {
    NullHashThrows(Avatars, ToText(Get(data, "id")), "data.avatar");
  }
}
