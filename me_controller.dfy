/** The `/me` routes, both behind the authentication gate: the caller's
    Discord profile and the caller's bots. Each handler receives the claims
    the gate attached (`req.auth`). */
module MeController {
  import opened Values
  import opened HttpError
  import opened DiscordApi
  import opened DiscordAuth
  import UserRepository
  import opened Express

  /** `GET /profile`: the profile `fetchAuthUser` answers for the session's
      Discord access token, sent as it is; its error otherwise. */
  function Profile(auth: Record, get: string -> Outcome): (a: Answer)
    ensures var fetched := FetchAuthUser(Get(auth, "access_token"), get);
      (fetched.Ok? ==> a == JsonAnswer(RecordJson(fetched.value)))
      && (fetched.Fail? ==> a == NextError(fetched.error))
    ensures a.NextError? ==> a.error.status == 400
    ensures !Truthy(Get(auth, "access_token")) ==> a == NextError(Err(400, AccessTokenMissing))
  {
    match FetchAuthUser(Get(auth, "access_token"), get)
    case Ok(data) => JsonAnswer(RecordJson(data))
    case Fail(e) => NextError(e)
  }

  function OwnedBody(total: int, data: seq<Record>): (j: Json)
    ensures j.JsonObject? && j.fields.Keys == {"total", "data"}
    ensures j.fields["total"] == JsonScalar(Num(total)) && j.fields["data"] == RecordsJson(data)
  {
    JsonObject(map["total" := JsonScalar(Num(total)), "data" := RecordsJson(data)])
  }

  /** `GET /bots`: the bots owned by the session's `sub`, with their number.
      The number is the length of the list sent with it, and the list holds
      exactly the owner's rows. */
  function MyBots(rows: seq<Record>, auth: Record): (a: Answer)
    ensures var owner := Get(auth, "sub");
      (UserRepository.OwnerOf(owner).Fail? ==> a == NextError(UserRepository.OwnerOf(owner).error))
      && (UserRepository.OwnerOf(owner).Ok? ==>
            var data := UserRepository.FindAllBots(rows, owner).value;
            a == JsonAnswer(OwnedBody(|data|, data))
            && forall x :: x in data <==> x in rows && Get(x, "ownerId") == owner)
  {
    var userId := Get(auth, "sub");
    match UserRepository.FindAllBots(rows, userId)
    case Fail(e) => NextError(e)
    case Ok(data) =>
      UserRepository.CountIsListingSize(rows, userId);
      var total := UserRepository.CountAllBots(rows, userId).value;
      JsonAnswer(OwnedBody(total, data))
  }
}
