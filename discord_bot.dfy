/** The lookup of a bot account on Discord by its id. `get` maps the request
    path to the outcome of reading it with the bot's credentials. */
module DiscordBot {
  import opened Values
  import opened HttpError
  import opened DiscordApi
  import DiscordAuth

  const IdMissing := "Id do bot não definido"
  const LookupFailed := "Erro ao buscar dados do bot"
  const NotABot := "Esse id não é de um bot"

  function UserPath(id: Value): string
  {
    "/users/" + ToText(id)
  }

  /** The bot as the service returns it: exactly these four keys, the
      username suffixed with `#` and the discriminator. */
  function BotProfile(data: Record, avatar: Image, banner: Image): (b: Record)
    ensures b.Keys == {"id", "username", "avatar_url", "banner_url"}
    ensures b["id"] == Get(data, "id")
    ensures b["username"] == Str(ToText(Get(data, "username")) + "#" + ToText(Get(data, "discriminator")))
    ensures b["avatar_url"] == Str(ImageUrl(avatar)) && b["banner_url"] == Str(ImageUrl(banner))
  {
    map["id" := Get(data, "id"),
        "username" := Str(ToText(Get(data, "username")) + "#" + ToText(Get(data, "discriminator"))),
        "avatar_url" := Str(ImageUrl(avatar)),
        "banner_url" := Str(ImageUrl(banner))]
  }

  /** The guards before the images: a missing id, a failed call, a reply
      other than 200 or without a body, and a user that is not a bot. */
  function Account(id: Value, get: string -> Outcome): (r: Result<Record, Err>)
    ensures !Truthy(id) ==> r == Fail(Err(400, IdMissing))
    ensures Truthy(id) ==>
      var o := get(UserPath(id));
      (r.Ok? <==> o.Received? && o.status == 200 && o.data.ObjectBody? && Truthy(Get(o.data.fields, "bot")))
    ensures r.Ok? ==> get(UserPath(id)).data == ObjectBody(r.value)
    ensures Truthy(id) && (get(UserPath(id)).ClientFailure? || get(UserPath(id)).status != 200) ==> r == Fail(Err(400, LookupFailed))
    ensures Truthy(id) && get(UserPath(id)).Received? && !get(UserPath(id)).data.ObjectBody? ==> r == Fail(Err(400, LookupFailed))
    ensures Truthy(id) ==>
      var o := get(UserPath(id));
      (o.Received? && o.status == 200 && o.data.ObjectBody? && !Truthy(Get(o.data.fields, "bot"))
       ==> r == Fail(Err(400, NotABot)))
    ensures r.Fail? ==> r.error.status == 400
  {
    if !Truthy(id) then Fail(DiscordAuth.Normalise(IdMissing, LookupFailed))
    else
      match get(UserPath(id))
      case ClientFailure => Fail(DiscordAuth.Normalise("", LookupFailed))
      case Received(status, body) =>
        if status != 200 || !body.ObjectBody? then Fail(DiscordAuth.Normalise("", LookupFailed))
        else if !Truthy(Get(body.fields, "bot")) then Fail(DiscordAuth.Normalise(NotABot, LookupFailed))
        else Ok(body.fields)
  }

  /** `getBotById(id)` as written: both image formats are computed before the
      hashes are tested, so a bot without an avatar or without a banner
      (`null`) fails. */
  function GetBotByIdAsWritten(id: Value, get: string -> Outcome): (r: Result<Record, Err>)
    ensures r.Fail? ==> r.error.status == 400
    ensures Account(id, get).Fail? ==> r == Account(id, get)
    ensures r.Ok? ==> r.value.Keys == {"id", "username", "avatar_url", "banner_url"}
    ensures Account(id, get).Ok? ==>
      var data := Account(id, get).value;
      var owner := ToText(Get(data, "id"));
      var avatar := ResolveImageAsWritten(Avatars, owner, Get(data, "avatar"), "data.avatar");
      var banner := ResolveImageAsWritten(Banners, owner, Get(data, "banner"), "data.banner");
      (r.Ok? <==> avatar.Ok? && banner.Ok?)
      && (r.Ok? ==> r.value == BotProfile(data, avatar.value, banner.value))
      && (avatar.Fail? ==> r == Fail(Err(400, avatar.error)))
      && (avatar.Ok? && banner.Fail? ==> r == Fail(Err(400, banner.error)))
  {
    match Account(id, get)
    case Fail(e) => Fail(e)
    case Ok(data) =>
      var owner := ToText(Get(data, "id"));
      match ResolveImageAsWritten(Avatars, owner, Get(data, "avatar"), "data.avatar")
      case Fail(message) => Fail(DiscordAuth.Normalise(message, LookupFailed))
      case Ok(avatar) =>
        match ResolveImageAsWritten(Banners, owner, Get(data, "banner"), "data.banner")
        case Fail(message) => Fail(DiscordAuth.Normalise(message, LookupFailed))
        case Ok(banner) => Ok(BotProfile(data, avatar, banner))
  }

  /** `getBotById(id)` as evidently intended: a missing avatar or banner gives
      the default avatar URL. */
  function GetBotById(id: Value, get: string -> Outcome): (r: Result<Record, Err>)
    ensures r.Fail? ==> r.error.status == 400
    ensures Account(id, get).Fail? ==> r == Account(id, get)
    ensures r.Ok? ==> r.value.Keys == {"id", "username", "avatar_url", "banner_url"}
    ensures Account(id, get).Ok? ==>
      var data := Account(id, get).value;
      var owner := ToText(Get(data, "id"));
      (!Truthy(Get(data, "avatar")) && !Truthy(Get(data, "banner"))
       ==> r == Ok(BotProfile(data, DefaultAvatar, DefaultAvatar)))
      && (Get(data, "avatar").Str? && Get(data, "avatar").s != "" && Get(data, "banner").Str? && Get(data, "banner").s != ""
       ==> r == Ok(BotProfile(data, Custom(Avatars, owner, Get(data, "avatar").s), Custom(Banners, owner, Get(data, "banner").s))))
      && (Get(data, "avatar").Str? && Get(data, "avatar").s != "" && !Truthy(Get(data, "banner"))
       ==> r == Ok(BotProfile(data, Custom(Avatars, owner, Get(data, "avatar").s), DefaultAvatar)))
      && (!Truthy(Get(data, "avatar")) && Get(data, "banner").Str? && Get(data, "banner").s != ""
       ==> r == Ok(BotProfile(data, DefaultAvatar, Custom(Banners, owner, Get(data, "banner").s))))
    ensures Account(id, get).Ok? ==>
      var data := Account(id, get).value;
      var owner := ToText(Get(data, "id"));
      var avatar := ResolveImage(Avatars, owner, Get(data, "avatar"), "data.avatar");
      var banner := ResolveImage(Banners, owner, Get(data, "banner"), "data.banner");
      (r.Ok? <==> avatar.Ok? && banner.Ok?)
      && (r.Ok? ==> r.value == BotProfile(data, avatar.value, banner.value))
      && (avatar.Fail? ==> r == Fail(Err(400, avatar.error)))
      && (avatar.Ok? && banner.Fail? ==> r == Fail(Err(400, banner.error)))
    ensures GetBotByIdAsWritten(id, get).Ok? ==> r == GetBotByIdAsWritten(id, get)
  {
    match Account(id, get)
    case Fail(e) => Fail(e)
    case Ok(data) =>
      var owner := ToText(Get(data, "id"));
      match ResolveImage(Avatars, owner, Get(data, "avatar"), "data.avatar")
      case Fail(message) => Fail(DiscordAuth.Normalise(message, LookupFailed))
      case Ok(avatar) =>
        match ResolveImage(Banners, owner, Get(data, "banner"), "data.banner")
        case Fail(message) => Fail(DiscordAuth.Normalise(message, LookupFailed))
        case Ok(banner) => Ok(BotProfile(data, avatar, banner))
  }

  /** A bot with a custom avatar and `banner: null`: the written service answers
      400 with the TypeError's message, the intended one the default URL for
      the banner. */
  lemma NullBannerBot(id: Value, get: string -> Outcome, data: Record, hash: string)
    requires Truthy(id) && get(UserPath(id)) == Received(200, ObjectBody(data))
    requires "bot" in data && data["bot"] == Bool(true)
    requires "avatar" in data && data["avatar"] == Str(hash) && hash != ""
    requires "banner" in data && data["banner"] == Null
    ensures GetBotByIdAsWritten(id, get)
      == Fail(Err(400, "Cannot read properties of null (reading 'startsWith')"))
    ensures GetBotById(id, get)
      == Ok(BotProfile(data, Custom(Avatars, ToText(Get(data, "id")), hash), DefaultAvatar))
  {
    NullHashThrows(Banners, ToText(Get(data, "id")), "data.banner");
  }
}
