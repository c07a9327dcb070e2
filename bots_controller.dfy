/** The `/bots` routes over the bot table: the paged listing, one bot by id,
    and the create, update and delete handlers that run behind the
    authentication gate. A protected handler receives the claims the gate
    attached (`req.auth`); `parseInt` and the Discord transport are outside
    calls and arrive as functions. */
module BotsController {
  import opened Values
  import opened HttpError
  import opened BotModel
  import opened DiscordApi
  import DiscordBot
  import opened BotRepository
  import opened Express

  const BotNotFound := "O bot não foi encontrado"
  const UpdateForbidden := "Você não está autorizado a atualizar esse bot"
  const DeleteForbidden := "Você não está autorizado a deletar esse bot"
  const DefaultTake := 10
  const DefaultSkip := 0

  // ----- GET / -----

  /** `parseInt(text) || fallback`: the parsed integer, unless the text does
      not parse or parses to 0. */
  function OrDefault(parsed: Option<int>, fallback: int): (n: int)
    ensures parsed.Some? && parsed.value != 0 ==> n == parsed.value
    ensures parsed.None? || parsed.value == 0 ==> n == fallback
  {
    if parsed.Some? && parsed.value != 0 then parsed.value else fallback
  }

  /** The page size the listing uses: never 0, so a listing of a non-empty
      table never asks for an empty page by default. */
  lemma TakeIsNeverZero(parsed: Option<int>)
    ensures OrDefault(parsed, DefaultTake) != 0
    ensures parsed.None? ==> OrDefault(parsed, DefaultTake) == 10
  {
  }

  /** The unconstrained filter the listing counts and pages with. */
  lemma NoFilter()
    ensures WhereClause(map[]) == map[]
  {
    assert forall k :: k in WhereClause(map[]) ==> Get(map[], k).Bool?;
  }

  /** Without constraints every row passes, in table order. */
  lemma {:induction false} FilterNothing(rows: seq<Record>)
    ensures Filter(rows, map[]) == rows
  {
    if rows != [] {
      FilterNothing(rows[1..]);
    }
  }

  function ListBody(total: int, data: seq<Record>, skip: int, take: int): (j: Json)
    ensures j.JsonObject? && j.fields.Keys == {"total", "data", "skip", "take"}
    ensures j.fields["total"] == JsonScalar(Num(total)) && j.fields["data"] == RecordsJson(data)
    ensures j.fields["skip"] == JsonScalar(Num(skip)) && j.fields["take"] == JsonScalar(Num(take))
  {
    JsonObject(map["total" := JsonScalar(Num(total)), "data" := RecordsJson(data),
                   "skip" := JsonScalar(Num(skip)), "take" := JsonScalar(Num(take))])
  }

  /** `GET /`: the size of the whole table, and the page `offset`/`limit`
      select from it (defaults 0 and 10), echoing the page bounds used. The
      total does not depend on the page asked for. */
  function ListBots(rows: seq<Record>, limit: Value, offset: Value, parseInt: Value -> Option<int>): (a: Answer)
    ensures var take := OrDefault(parseInt(limit), DefaultTake);
      var skip := OrDefault(parseInt(offset), DefaultSkip);
      (skip < 0 ==> a == NextError(Err(0, NegativeSkip)))
      && (skip >= 0 ==> a == JsonAnswer(ListBody(|rows|, Page(rows, skip, take).value, skip, take)))
  {
    var take := OrDefault(parseInt(limit), DefaultTake);
    var skip := OrDefault(parseInt(offset), DefaultSkip);
    var total := CountAllBots(rows, map[]);
    NoFilter();
    FilterNothing(rows);
    FilterSize(rows, map[]);
    match FindAllBots(rows, map[], Some(Pagination(skip, take)))
    case Fail(e) => NextError(e)
    case Ok(data) => JsonAnswer(ListBody(total, data, skip, take))
  }

  // ----- GET /:id -----

  /** `GET /:id`: the stored bot, or 400 when there is none. */
  function GetBot(store: BotStore, botId: string): (a: Answer)
    reads store
    ensures botId == "" ==> a == NextError(Err(400, IdMissing))
    ensures botId != "" && Locate(store.rows, botId).None? ==> a == NextError(Err(400, BotNotFound))
    ensures botId != "" && Locate(store.rows, botId).Some? ==>
      a == JsonAnswer(RecordJson(store.rows[Locate(store.rows, botId).value]))
  {
    match store.FindOne(botId)
    case Fail(e) => NextError(e)
    case Ok(None) => NextError(NewHttpError(400, BotNotFound))
    case Ok(Some(bot)) => JsonAnswer(RecordJson(bot))
  }

  // ----- POST / -----

  function ConflictMessage(botId: string): string
  {
    "O bot " + botId + " já existe"
  }

  /** The validated body with the name and image URLs Discord reports. */
  function WithProfile(value: Record, profile: Record): (r: Record)
    ensures r.Keys == value.Keys + {"username", "avatarUrl", "bannerUrl"}
    ensures r["username"] == Get(profile, "username")
    ensures r["avatarUrl"] == Get(profile, "avatar_url") && r["bannerUrl"] == Get(profile, "banner_url")
    ensures forall k :: k in value && k !in {"username", "avatarUrl", "bannerUrl"} ==> r[k] == value[k]
  {
    value["username" := Get(profile, "username")]["avatarUrl" := Get(profile, "avatar_url")]
         ["bannerUrl" := Get(profile, "banner_url")]
  }

  /** The id a valid creation body names. */
  function CreatedId(body: Entries, conv: Converters): (id: string)
    requires Validate(CreateSchema, body, conv).Ok?
    ensures Lookup(body, "botId") == Str(id) && id != ""
    ensures Get(Validate(CreateSchema, body, conv).value, "botId") == Str(id)
  {
    CreateRequirements(body, conv);
    CreateValue(body, conv);
    Lookup(body, "botId").s
  }

  /** The Discord lookup `POST /` awaits: the bot's profile or the error
      it throws. */
  type BotLookup = Value -> Result<Record, Err>

  /** The modelled lookup, `getBotById` over the Discord transport `get`. */
  function DiscordLookup(get: string -> Outcome): BotLookup
  {
    id => DiscordBot.GetBotById(id, get)
  }

  /** What `POST /` stores: the record to insert, or the error that stops it. */
  function CreatePlan(rows: seq<Record>, body: Entries, conv: Converters, lookup: BotLookup): (r: Result<Record, Err>)
    ensures Validate(CreateSchema, body, conv).Fail? ==>
      r == Fail(Err(400, Validate(CreateSchema, body, conv).error))
    ensures Validate(CreateSchema, body, conv).Ok? && Locate(rows, CreatedId(body, conv)).Some? ==>
      r == Fail(Err(409, ConflictMessage(CreatedId(body, conv))))
    ensures r.Ok? ==>
      Validate(CreateSchema, body, conv).Ok? && Locate(rows, CreatedId(body, conv)).None?
      && lookup(Str(CreatedId(body, conv))).Ok?
      && r.value == WithProfile(Validate(CreateSchema, body, conv).value, lookup(Str(CreatedId(body, conv))).value)
      && KeyOf(r.value) == Str(CreatedId(body, conv))
    ensures Validate(CreateSchema, body, conv).Ok? && Locate(rows, CreatedId(body, conv)).None? ==>
      (r.Fail? <==> lookup(Str(CreatedId(body, conv))).Fail?)
      && (r.Fail? ==> r.error == lookup(Str(CreatedId(body, conv))).error)
  {
    match Validate(CreateSchema, body, conv)
    case Fail(message) => Fail(NewHttpError(400, message))
    case Ok(value) =>
      var botId := CreatedId(body, conv);
      if Locate(rows, botId).Some? then Fail(NewHttpError(409, ConflictMessage(botId)))
      else
        match lookup(Str(botId))
        case Fail(e) => Fail(e)
        case Ok(profile) => Ok(WithProfile(value, profile))
  }

  /** A bot that is already listed is refused with 409 before Discord is
      asked: the outcome is the same whatever Discord would answer. */
  lemma ConflictSkipsDiscord(rows: seq<Record>, body: Entries, conv: Converters,
                             lookup1: BotLookup, lookup2: BotLookup)
    requires Validate(CreateSchema, body, conv).Ok?
    requires exists i :: 0 <= i < |rows| && KeyOf(rows[i]) == Lookup(body, "botId")
    ensures CreatePlan(rows, body, conv, lookup1) == CreatePlan(rows, body, conv, lookup2)
    ensures CreatePlan(rows, body, conv, lookup1) == Fail(Err(409, "O bot " + Lookup(body, "botId").s + " já existe"))
  {
    var id := CreatedId(body, conv);
    assert Locate(rows, id).Some?;
  }

  /** The stored record keeps the owner and description the body gives:
      `ownerId` is taken as sent, never compared with the caller. */
  lemma CreatedRecordKeepsBody(rows: seq<Record>, body: Entries, conv: Converters, lookup: BotLookup)
    requires CreatePlan(rows, body, conv, lookup).Ok?
    ensures var r := CreatePlan(rows, body, conv, lookup).value;
      "botId" in r && r["botId"] == Lookup(body, "botId")
      && "ownerId" in r && r["ownerId"] == Lookup(body, "ownerId")
      && "shortDescription" in r && r["shortDescription"] == Lookup(body, "shortDescription")
      && "isSlashCommands" in r && r["isSlashCommands"].Bool?
  {
    CreateValue(body, conv);
  }

  /** `POST /`: validate, refuse a listed id, ask Discord for the bot, add its
      name and images to the validated value and store it. The table changes
      only on success, by exactly the new row. */
  method CreateBot(store: BotStore, body: Entries, conv: Converters, lookup: BotLookup) returns (a: Answer)
    requires store.Valid()
    modifies store
    ensures store.Valid()
    ensures var plan := CreatePlan(old(store.rows), body, conv, lookup);
      (plan.Fail? ==> a == NextError(plan.error) && store.rows == old(store.rows))
      && (plan.Ok? ==> a == JsonAnswer(RecordJson(plan.value)) && store.rows == old(store.rows) + [plan.value])
  {
    var validation := Validate(CreateSchema, body, conv);
    if validation.Fail? {
      return NextError(NewHttpError(400, validation.error));
    }
    var value := validation.value;
    var botId := CreatedId(body, conv);
    var existing := store.FindOne(botId);
    if existing.value.Some? {
      return NextError(NewHttpError(409, ConflictMessage(botId)));
    }
    var discord := lookup(Str(botId));
    if discord.Fail? {
      return NextError(discord.error);
    }
    value := value["username" := Get(discord.value, "username")];
    value := value["avatarUrl" := Get(discord.value, "avatar_url")];
    value := value["bannerUrl" := Get(discord.value, "banner_url")];
    assert KeyOf(value) == Str(botId);
    assert Locate(store.rows, botId).None?;
    var created := store.Create(Some(value));
    return JsonAnswer(RecordJson(created.value));
  }

  // ----- PUT /:id and DELETE /:id -----

  /** The guards `PUT` and `DELETE` share: the bot must exist and belong to
      the caller. The result is the bot's position. */
  function OwnedBot(rows: seq<Record>, sub: Value, botId: string, forbidden: string): (r: Result<nat, Err>)
    ensures botId == "" ==> r == Fail(Err(400, IdMissing))
    ensures botId != "" && Locate(rows, botId).None? ==> r == Fail(Err(400, BotNotFound))
    ensures (botId != "" && Locate(rows, botId).Some? && Get(rows[Locate(rows, botId).value], "ownerId") != sub
             && forbidden != "") ==> r == Fail(Err(401, forbidden))
    ensures r.Ok? <==> botId != "" && Locate(rows, botId).Some? && Get(rows[Locate(rows, botId).value], "ownerId") == sub
    ensures r.Ok? ==> r.value == Locate(rows, botId).value
  {
    if botId == "" then Fail(NewHttpError(400, IdMissing))
    else
      match Locate(rows, botId)
      case None => Fail(NewHttpError(400, BotNotFound))
      case Some(i) =>
        if Get(rows[i], "ownerId") != sub then Fail(NewHttpError(401, forbidden))
        else Ok(i)
  }

  /** What `PUT /:id` writes: the validated update, or the error that stops
      it. The guards run before the payload is looked at. */
  function UpdatePlan(rows: seq<Record>, sub: Value, botId: string, body: Entries, conv: Converters): (r: Result<Record, Err>)
    ensures OwnedBot(rows, sub, botId, UpdateForbidden).Fail? ==> r == Fail(OwnedBot(rows, sub, botId, UpdateForbidden).error)
    ensures OwnedBot(rows, sub, botId, UpdateForbidden).Ok? && Validate(UpdateSchema, body, conv).Fail? ==>
      r == Fail(Err(400, Validate(UpdateSchema, body, conv).error))
    ensures r.Ok? ==> OwnedBot(rows, sub, botId, UpdateForbidden).Ok? && Validate(UpdateSchema, body, conv) == Ok(r.value)
  {
    match OwnedBot(rows, sub, botId, UpdateForbidden)
    case Fail(e) => Fail(e)
    case Ok(_) =>
      match Validate(UpdateSchema, body, conv)
      case Fail(message) => Fail(NewHttpError(400, message))
      case Ok(value) => Ok(value)
  }

  /** A caller who does not own the bot is refused with 401 whatever the
      payload, valid or not. */
  lemma ForeignUpdateIgnoresPayload(rows: seq<Record>, sub: Value, botId: string, body1: Entries,
                                    body2: Entries, conv: Converters)
    requires botId != "" && Locate(rows, botId).Some?
    requires Get(rows[Locate(rows, botId).value], "ownerId") != sub
    ensures UpdatePlan(rows, sub, botId, body1, conv) == UpdatePlan(rows, sub, botId, body2, conv)
    ensures UpdatePlan(rows, sub, botId, body1, conv) == Fail(Err(401, UpdateForbidden))
  {
  }

  /** A permitted update keeps the row's key: the update schema has no
      `botId`. */
  lemma UpdateKeepsKey(rows: seq<Record>, sub: Value, botId: string, body: Entries, conv: Converters)
    requires UpdatePlan(rows, sub, botId, body, conv).Ok?
    ensures var i := Locate(rows, botId).value;
      KeyOf(Merge(rows[i], UpdatePlan(rows, sub, botId, body, conv).value)) == Str(botId)
  {
    UpdateValueHasNoBotId(body, conv);
  }

  /** `PUT /:id`: after the guards and validation, the validated fields are
      written into the bot's row; nothing changes otherwise. */
  method UpdateBot(store: BotStore, auth: Record, botId: string, body: Entries, conv: Converters) returns (a: Answer)
    requires store.Valid()
    modifies store
    ensures store.Valid()
    ensures var plan := UpdatePlan(old(store.rows), Get(auth, "sub"), botId, body, conv);
      (plan.Fail? ==> a == NextError(plan.error) && store.rows == old(store.rows))
      && (plan.Ok? ==>
            var i := Locate(old(store.rows), botId).value;
            var row := Merge(old(store.rows)[i], plan.value);
            a == JsonAnswer(RecordJson(row)) && store.rows == old(store.rows)[i := row])
  {
    var userId := Get(auth, "sub");
    var found := store.FindOne(botId);
    if found.Fail? {
      return NextError(found.error);
    }
    if found.value.None? {
      return NextError(NewHttpError(400, BotNotFound));
    }
    var bot := found.value.value;
    LocateUnique(store.rows, botId, Locate(store.rows, botId).value);
    if Get(bot, "ownerId") != userId {
      return NextError(NewHttpError(401, UpdateForbidden));
    }
    var validation := Validate(UpdateSchema, body, conv);
    if validation.Fail? {
      return NextError(NewHttpError(400, validation.error));
    }
    UpdateValueHasNoBotId(body, conv);
    var updated := store.Update(botId, Some(validation.value));
    return JsonAnswer(RecordJson(updated.value));
  }

  /** `DELETE /:id`: after the guards, the bot's row is removed and answered. */
  method DeleteBot(store: BotStore, auth: Record, botId: string) returns (a: Answer)
    requires store.Valid()
    modifies store
    ensures store.Valid()
    ensures var guard := OwnedBot(old(store.rows), Get(auth, "sub"), botId, DeleteForbidden);
      (guard.Fail? ==> a == NextError(guard.error) && store.rows == old(store.rows))
      && (guard.Ok? ==>
            a == JsonAnswer(RecordJson(old(store.rows)[guard.value]))
            && store.rows == Remove(old(store.rows), guard.value))
    ensures a.JsonAnswer? ==> store.FindOne(botId) == Ok(None)
  {
    var userId := Get(auth, "sub");
    var found := store.FindOne(botId);
    if found.Fail? {
      return NextError(found.error);
    }
    if found.value.None? {
      return NextError(NewHttpError(400, BotNotFound));
    }
    var bot := found.value.value;
    LocateUnique(store.rows, botId, Locate(store.rows, botId).value);
    if Get(bot, "ownerId") != userId {
      return NextError(NewHttpError(401, DeleteForbidden));
    }
    var deleted := store.Delete(botId);
    return JsonAnswer(RecordJson(deleted.value));
  }
}
