/** The bots of one owner, read from the bot table. */
module UserRepository {
  import opened Values
  import opened HttpError
  import opened BotRepository

  const UserIdMissing := "Id do usuário não definido"
  const InvalidOwner := "Argument `ownerId`: Invalid value provided. Expected String."

  function OwnerClause(userId: string): map<string, Value>
  {
    map["ownerId" := Str(userId)]
  }

  /** The guard both queries share: a falsy id is refused, a non-string one is
      refused by the database. */
  function OwnerOf(userId: Value): (r: Result<string, Err>)
    ensures !Truthy(userId) ==> r == Fail(Err(400, UserIdMissing))
    ensures Truthy(userId) && !userId.Str? ==> r == Fail(Err(0, InvalidOwner))
    ensures r.Ok? <==> userId.Str? && userId.s != ""
    ensures r.Ok? ==> r.value == userId.s
  {
    if !Truthy(userId) then Fail(NewHttpError(400, UserIdMissing))
    else if !userId.Str? then Fail(Err(0, InvalidOwner))
    else Ok(userId.s)
  }

  /** `findAllBots(userId)`: exactly the rows owned by `userId`, in table order. */
  function FindAllBots(rows: seq<Record>, userId: Value): (r: Result<seq<Record>, Err>)
    ensures r.Fail? <==> OwnerOf(userId).Fail?
    ensures r.Fail? ==> r.error == OwnerOf(userId).error
    ensures r.Ok? ==> forall x :: x in r.value <==> x in rows && Get(x, "ownerId") == userId
  {
    match OwnerOf(userId)
    case Fail(e) => Fail(e)
    case Ok(owner) =>
      var found := Filter(rows, OwnerClause(owner));
      assert forall x :: Matches(x, OwnerClause(owner)) <==> Get(x, "ownerId") == Str(owner);
      Ok(found)
  }

  /** `countAllBots(userId)`: the number of rows owned by `userId`. */
  function CountAllBots(rows: seq<Record>, userId: Value): (r: Result<nat, Err>)
    ensures r.Fail? <==> OwnerOf(userId).Fail?
    ensures r.Fail? ==> r.error == OwnerOf(userId).error
    ensures r.Ok? ==> r.value == |set i | 0 <= i < |rows| && Get(rows[i], "ownerId") == userId|
  {
    match OwnerOf(userId)
    case Fail(e) => Fail(e)
    case Ok(owner) =>
      FilterSize(rows, OwnerClause(owner));
      assert MatchingPositions(rows, OwnerClause(owner))
        == set i | 0 <= i < |rows| && Get(rows[i], "ownerId") == userId;
      Ok(|Filter(rows, OwnerClause(owner))|)
  }

  /** The count is the size of the listing, for every table and id. */
  lemma CountIsListingSize(rows: seq<Record>, userId: Value)
    ensures CountAllBots(rows, userId).Ok? <==> FindAllBots(rows, userId).Ok?
    ensures CountAllBots(rows, userId).Ok? ==>
      CountAllBots(rows, userId).value == |FindAllBots(rows, userId).value|
  {
    if OwnerOf(userId).Ok? {
      FilterSize(rows, OwnerClause(OwnerOf(userId).value));
    }
  }
}
