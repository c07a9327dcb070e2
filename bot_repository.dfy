/** The bot table and the repository over it. The table is a sequence of
    records in the order the database returns them, each keyed by a distinct
    string `botId`. Errors the database raises carry no status (they reach
    the responder as 500); their wording here is representative. */
module BotRepository {
  import opened Values
  import opened HttpError

  const IdMissing := "Id do Bot não definido"
  const BodyMissing := "Body não definido"
  const RecordToDeleteMissing := "Record to delete does not exist."
  const RecordToUpdateMissing := "Record to update not found."
  const UniqueViolation := "Unique constraint failed on the fields: (`botId`)"
  const InvalidKey := "Argument `botId` must be a string."
  const NegativeSkip := "Invalid value for skip argument: Value can only be positive."
  const SkipUnbound := "skip is not defined"

  function KeyOf(row: Record): Value
  {
    Get(row, "botId")
  }

  /** Every row has a string key and no two rows share one. */
  predicate WellKeyed(rows: seq<Record>)
  {
    (forall i :: 0 <= i < |rows| ==> KeyOf(rows[i]).Str?)
    && (forall i, j :: 0 <= i < j < |rows| ==> KeyOf(rows[i]) != KeyOf(rows[j]))
  }

  /** The position of the row keyed `botId`. */
  function Locate(rows: seq<Record>, botId: string): (r: Option<nat>)
    ensures r.Some? ==> r.value < |rows| && KeyOf(rows[r.value]) == Str(botId)
    ensures r.None? <==> forall i :: 0 <= i < |rows| ==> KeyOf(rows[i]) != Str(botId)
  {
    if rows == [] then None
    else if KeyOf(rows[0]) == Str(botId) then Some(0)
    else
      match Locate(rows[1..], botId)
      case Some(i) => Some(i + 1)
      case None => None
  }

  /** In a well-keyed table the row with a given key is the only one. */
  lemma LocateUnique(rows: seq<Record>, botId: string, i: int)
    requires WellKeyed(rows) && 0 <= i < |rows| && KeyOf(rows[i]) == Str(botId)
    ensures Locate(rows, botId) == Some(i)
  {
  }

  function Remove(rows: seq<Record>, i: nat): (r: seq<Record>)
    requires i < |rows|
    ensures |r| == |rows| - 1
  {
    rows[..i] + rows[i + 1..]
  }

  /** Removing a row keeps the table well keyed and leaves no row with the
      removed key; every other row stays. */
  lemma {:induction false} RemoveKeepsKeys(rows: seq<Record>, i: nat)
    requires WellKeyed(rows) && i < |rows|
    ensures WellKeyed(Remove(rows, i))
    ensures Locate(Remove(rows, i), KeyOf(rows[i]).s).None?
    ensures forall j :: 0 <= j < |rows| && j != i ==> rows[j] in Remove(rows, i)
  {
    var r := Remove(rows, i);
    assert forall j :: 0 <= j < |r| ==> r[j] == (if j < i then rows[j] else rows[j + 1]);
    forall j | 0 <= j < |rows| && j != i
      ensures rows[j] in r
    {
      if j < i { assert r[j] == rows[j]; } else { assert r[j - 1] == rows[j]; }
    }
  }

  /** Appending a row whose key is new keeps the table well keyed, and the
      new row is found under its key. */
  lemma AppendKeepsKeys(rows: seq<Record>, row: Record)
    requires WellKeyed(rows) && KeyOf(row).Str? && Locate(rows, KeyOf(row).s).None?
    ensures WellKeyed(rows + [row])
    ensures Locate(rows + [row], KeyOf(row).s) == Some(|rows|)
  {
    LocateUnique(rows + [row], KeyOf(row).s, |rows|);
  }

  /** Overwriting a row with one whose key belongs to no other row keeps the
      table well keyed. */
  lemma ReplaceKeepsKeys(rows: seq<Record>, i: nat, row: Record)
    requires WellKeyed(rows) && i < |rows| && KeyOf(row).Str?
    requires forall j :: 0 <= j < |rows| && j != i ==> KeyOf(rows[j]) != KeyOf(row)
    ensures WellKeyed(rows[i := row])
    ensures Locate(rows[i := row], KeyOf(row).s) == Some(i)
  {
    LocateUnique(rows[i := row], KeyOf(row).s, i);
  }

  /** The prisma `update` of one record: the supplied fields replace the
      record's, every other field is kept. */
  function Merge(row: Record, fields: Record): (m: Record)
    ensures m.Keys == row.Keys + fields.Keys
    ensures forall k :: k in fields ==> m[k] == fields[k]
    ensures forall k :: k in row && k !in fields ==> m[k] == row[k]
  {
    row + fields
  }

  class BotStore {
    var rows: seq<Record>

    ghost predicate Valid()
      reads this
    {
      WellKeyed(rows)
    }

    constructor(initial: seq<Record>)
      requires WellKeyed(initial)
      ensures Valid() && rows == initial
    {
      rows := initial;
    }

    /** `findOne(botId)`: the row keyed `botId`, if any. */
    function FindOne(botId: string): (r: Result<Option<Record>, Err>)
      reads this
      ensures botId == "" ==> r == Fail(Err(400, IdMissing))
      ensures botId != "" ==> r.Ok?
      ensures r.Ok? ==> (r.value.Some? <==> exists i :: 0 <= i < |rows| && KeyOf(rows[i]) == Str(botId))
      ensures r.Ok? && r.value.Some? ==> r.value.value in rows && KeyOf(r.value.value) == Str(botId)
      ensures r.Ok? && r.value.Some? ==> r.value.value == rows[Locate(rows, botId).value]
    {
      if botId == "" then Fail(NewHttpError(400, IdMissing))
      else
        match Locate(rows, botId)
        case Some(i) => Ok(Some(rows[i]))
        case None => Ok(None)
    }

    /** `delete(botId)`: removes the row keyed `botId` and answers it. */
    method Delete(botId: string) returns (r: Result<Record, Err>)
      requires Valid()
      modifies this
      ensures Valid()
      ensures botId == "" ==> r == Fail(Err(400, IdMissing)) && rows == old(rows)
      ensures botId != "" && Locate(old(rows), botId).None? ==>
        r == Fail(Err(0, RecordToDeleteMissing)) && rows == old(rows)
      ensures botId != "" && Locate(old(rows), botId).Some? ==>
        var i := Locate(old(rows), botId).value;
        r == Ok(old(rows)[i]) && rows == Remove(old(rows), i)
      ensures r.Ok? ==> FindOne(botId) == Ok(None)
    {
      if botId == "" {
        r := Fail(NewHttpError(400, IdMissing));
        return;
      }
      var at := Locate(rows, botId);
      if at.None? {
        r := Fail(Err(0, RecordToDeleteMissing));
        return;
      }
      var i := at.value;
      RemoveKeepsKeys(rows, i);
      r := Ok(rows[i]);
      rows := Remove(rows, i);
    }

    /** `create(body)`: stores the body as a new row and answers it. */
    method Create(body: Option<Record>) returns (r: Result<Record, Err>)
      requires Valid()
      modifies this
      ensures Valid()
      ensures body.None? ==> r == Fail(Err(400, BodyMissing)) && rows == old(rows)
      ensures body.Some? && !KeyOf(body.value).Str? ==> r == Fail(Err(0, InvalidKey)) && rows == old(rows)
      ensures body.Some? && KeyOf(body.value).Str? && Locate(old(rows), KeyOf(body.value).s).Some? ==>
        r == Fail(Err(0, UniqueViolation)) && rows == old(rows)
      ensures body.Some? && KeyOf(body.value).Str? && Locate(old(rows), KeyOf(body.value).s).None? ==>
        r == Ok(body.value) && rows == old(rows) + [body.value]
      ensures r.Ok? <==> rows != old(rows)
      ensures r.Ok? ==> body.Some? && r.value == body.value && rows == old(rows) + [body.value]
      ensures r.Ok? && KeyOf(r.value).s != "" ==> FindOne(KeyOf(r.value).s) == Ok(Some(r.value))
    {
      if body.None? {
        r := Fail(NewHttpError(400, BodyMissing));
        return;
      }
      var row := body.value;
      if !KeyOf(row).Str? {
        r := Fail(Err(0, InvalidKey));
        return;
      }
      if Locate(rows, KeyOf(row).s).Some? {
        r := Fail(Err(0, UniqueViolation));
        return;
      }
      AppendKeepsKeys(rows, row);
      rows := rows + [row];
      r := Ok(row);
    }

    /** `update(botId, body)`: writes the supplied fields into the row keyed
        `botId`; no other row and no other field changes. */
    method Update(botId: string, body: Option<Record>) returns (r: Result<Record, Err>)
      requires Valid()
      modifies this
      ensures Valid()
      ensures botId == "" ==> r == Fail(Err(400, IdMissing)) && rows == old(rows)
      ensures botId != "" && body.None? ==> r == Fail(Err(400, BodyMissing)) && rows == old(rows)
      ensures botId != "" && body.Some? && Locate(old(rows), botId).None? ==>
        r == Fail(Err(0, RecordToUpdateMissing)) && rows == old(rows)
      ensures r.Fail? ==> rows == old(rows)
      ensures r.Ok? ==> body.Some? && Locate(old(rows), botId).Some?
      ensures r.Ok? ==>
        var i := Locate(old(rows), botId).value;
        r.value == Merge(old(rows)[i], body.value) && rows == old(rows)[i := r.value]
      ensures botId != "" && body.Some? && Locate(old(rows), botId).Some? && "botId" !in body.value ==> r.Ok?
    {
      if botId == "" {
        r := Fail(NewHttpError(400, IdMissing));
        return;
      }
      if body.None? {
        r := Fail(NewHttpError(400, BodyMissing));
        return;
      }
      var at := Locate(rows, botId);
      if at.None? {
        r := Fail(Err(0, RecordToUpdateMissing));
        return;
      }
      var i := at.value;
      var merged := Merge(rows[i], body.value);
      if !KeyOf(merged).Str? {
        r := Fail(Err(0, InvalidKey));
        return;
      }
      if KeyOf(merged) != KeyOf(rows[i]) && Locate(rows, KeyOf(merged).s).Some? {
        r := Fail(Err(0, UniqueViolation));
        return;
      }
      ReplaceKeepsKeys(rows, i, merged);
      rows := rows[i := merged];
      r := Ok(merged);
    }
  }

  // ----- the listing queries -----

  /** The equality filter the listing builds: `isPromoted` and `isPending`
      constrain only when the supplied value is a boolean. */
  function WhereClause(filters: Record): (w: map<string, Value>)
  {
    map k | k in {"isPromoted", "isPending"} && Get(filters, k).Bool? :: Get(filters, k)
  }

  /** The `where` object as the repository assembles it, field by field. */
  method BuildWhere(filters: Record) returns (w: map<string, Value>)
    ensures w == WhereClause(filters)
    ensures w.Keys <= {"isPromoted", "isPending"}
    ensures "isPromoted" in w <==> Get(filters, "isPromoted").Bool?
    ensures "isPending" in w <==> Get(filters, "isPending").Bool?
    ensures forall k :: k in w ==> w[k] == Get(filters, k)
  {
    w := map[];
    if Get(filters, "isPromoted").Bool? {
      w := w["isPromoted" := Get(filters, "isPromoted")];
    }
    if Get(filters, "isPending").Bool? {
      w := w["isPending" := Get(filters, "isPending")];
    }
  }

  predicate Matches(row: Record, w: map<string, Value>)
  {
    forall k :: k in w ==> Get(row, k) == w[k]
  }

  /** The rows that satisfy every equality of `w`, in table order. */
  function Filter(rows: seq<Record>, w: map<string, Value>): (r: seq<Record>)
    ensures |r| <= |rows|
    ensures forall x :: x in r ==> x in rows && Matches(x, w)
    ensures forall x :: x in rows && Matches(x, w) ==> x in r
  {
    if rows == [] then []
    else (if Matches(rows[0], w) then [rows[0]] else []) + Filter(rows[1..], w)
  }

  /** The positions of the table whose rows pass the filter. */
  function MatchingPositions(rows: seq<Record>, w: map<string, Value>): set<int>
  {
    set i | 0 <= i < |rows| && Matches(rows[i], w)
  }

  /** Filtering distributes over concatenation. */
  lemma {:induction false} FilterAppend(xs: seq<Record>, ys: seq<Record>, w: map<string, Value>)
    ensures Filter(xs + ys, w) == Filter(xs, w) + Filter(ys, w)
  {
    if xs != [] {
      assert (xs + ys)[1..] == xs[1..] + ys;
      FilterAppend(xs[1..], ys, w);
    } else {
      assert xs + ys == ys;
    }
  }

  /** Extending the table by one row adds its position when that row passes. */
  lemma PositionsSnoc(rows: seq<Record>, w: map<string, Value>)
    requires rows != []
    ensures MatchingPositions(rows, w)
         == MatchingPositions(rows[..|rows| - 1], w)
          + (if Matches(rows[|rows| - 1], w) then {|rows| - 1} else {})
  {
    var n := |rows| - 1;
    var init := rows[..n];
    forall i | 0 <= i < n
      ensures init[i] == rows[i]
    {
    }
  }

  /** The filter keeps one row per matching position. */
  lemma {:induction false} FilterSize(rows: seq<Record>, w: map<string, Value>)
    ensures |Filter(rows, w)| == |MatchingPositions(rows, w)|
    decreases |rows|
  {
    if rows != [] {
      var n := |rows| - 1;
      var init, last := rows[..n], rows[n];
      FilterSize(init, w);
      assert rows == init + [last];
      FilterAppend(init, [last], w);
      PositionsSnoc(rows, w);
      assert n !in MatchingPositions(init, w);
    }
  }

  /** A page of `xs`: `skip` rows left out, then at most `take` rows; a negative
      `take` counts from the end. A negative `skip` is refused. */
  function Page(xs: seq<Record>, skip: int, take: int): (r: Result<seq<Record>, Err>)
    ensures r.Fail? <==> skip < 0
    ensures r.Fail? ==> r.error == Err(0, NegativeSkip)
    ensures r.Ok? ==> |r.value| <= |xs| && |r.value| <= (if take < 0 then -take else take)
    ensures r.Ok? && skip >= |xs| ==> r.value == []
    ensures r.Ok? && take >= 0 && skip + take <= |xs| ==> r.value == xs[skip..skip + take]
    ensures r.Ok? && take >= 0 && skip <= |xs| < skip + take ==> r.value == xs[skip..]
    ensures r.Ok? && take < 0 && skip <= |xs| ==>
      |r.value| == (if -take < |xs| - skip then -take else |xs| - skip)
      && r.value == xs[|xs| - skip - |r.value|..|xs| - skip]
  {
    if skip < 0 then Fail(Err(0, NegativeSkip))
    else
      var from := if skip < |xs| then skip else |xs|;
      if take >= 0 then
        var upto := if from + take < |xs| then from + take else |xs|;
        Ok(xs[from..upto])
      else
        var upto := |xs| - from;
        var start := if upto + take > 0 then upto + take else 0;
        Ok(xs[start..upto])
  }

  datatype Pagination = Pagination(skip: int, take: int)

  /** `findAllBots({filters, pagination})`: a page of the filtered rows.
      Without pagination the default refers to unbound names and throws. */
  function FindAllBots(rows: seq<Record>, filters: Record, pagination: Option<Pagination>): (r: Result<seq<Record>, Err>)
    ensures pagination.None? ==> r == Fail(Err(0, SkipUnbound))
    ensures pagination.Some? ==> r == Page(Filter(rows, WhereClause(filters)), pagination.value.skip, pagination.value.take)
    ensures r.Ok? ==> forall x :: x in r.value ==> x in rows && Matches(x, WhereClause(filters))
  {
    match pagination
    case None => Fail(Err(0, SkipUnbound))
    case Some(p) => Page(Filter(rows, WhereClause(filters)), p.skip, p.take)
  }

  /** `countAllBots({filters})`: how many rows pass the same filter. */
  function CountAllBots(rows: seq<Record>, filters: Record): (n: nat)
    ensures n == |MatchingPositions(rows, WhereClause(filters))|
    ensures n <= |rows|
  {
    FilterSize(rows, WhereClause(filters));
    |Filter(rows, WhereClause(filters))|
  }

  /** The count covers every page: no page is larger, and the first page of
      at least that size is the whole filtered set. */
  lemma CountBoundsPages(rows: seq<Record>, filters: Record, p: Pagination)
    requires p.skip >= 0
    ensures FindAllBots(rows, filters, Some(p)).Ok?
    ensures |FindAllBots(rows, filters, Some(p)).value| <= CountAllBots(rows, filters)
    ensures p.skip == 0 && p.take >= CountAllBots(rows, filters) ==>
      FindAllBots(rows, filters, Some(p)).value == Filter(rows, WhereClause(filters))
  {
    FilterSize(rows, WhereClause(filters));
  }

  /** Consecutive pages tile the filtered set: the page after `k` rows
      continues where the first `k` rows end. */
  lemma PagesTile(xs: seq<Record>, k: nat, m: nat)
    ensures Page(xs, 0, k).Ok? && Page(xs, k, m).Ok? && Page(xs, 0, k + m).Ok?
    ensures Page(xs, 0, k).value + Page(xs, k, m).value == Page(xs, 0, k + m).value
  {
    if k + m <= |xs| {
      assert xs[0..k] + xs[k..k + m] == xs[0..k + m];
    } else if k <= |xs| {
      assert xs[0..k] + xs[k..] == xs[0..];
    } else {
      assert xs[0..] + [] == xs[0..];
    }
  }
}
