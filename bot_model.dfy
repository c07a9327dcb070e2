/** The two request-body schemas of the bot listing (`botCreate`, `botUpdate`),
    and the validation the schema library performs with its default options:
    every schema key is checked in declaration order, then any key the schema
    does not know is refused; the first failure is the one reported; strings
    of `true`/`false`, numbers and dates are converted. */
module BotModel {
  import opened Values

  /** A request body: an object's own properties, in order. */
  type Entries = seq<(string, Value)>

  /** The value of property `k` of the body, `undefined` when it has none. */
  function Lookup(e: Entries, k: string): (v: Value)
    ensures v != Undefined ==> exists i :: 0 <= i < |e| && e[i] == (k, v)
    ensures (forall i :: 0 <= i < |e| ==> e[i].0 != k) ==> v == Undefined
  {
    if e == [] then Undefined
    else if e[0].0 == k then e[0].1
    else Lookup(e[1..], k)
  }

  datatype Kind =
    | Text(min: Option<nat>, max: Option<nat>)
    | Flag
    | Number
    | Timestamp

  datatype Field = Field(name: string, kind: Kind, required: bool, default: Option<Value>)

  type Schema = seq<Field>

  /** How strings that stand for numbers and dates are read. */
  datatype Converters = Converters(number: string -> Option<int>, date: string -> Option<int>)

  const CreateSchema: Schema := [
    Field("botId", Text(None, None), true, None),
    Field("ownerId", Text(None, None), true, None),
    Field("shortDescription", Text(Some(10), Some(140)), true, None),
    Field("description", Text(None, None), false, None),
    Field("isSlashCommands", Flag, false, Some(Bool(false)))
  ]

  const UpdateSchema: Schema := [
    Field("ownerId", Text(None, None), false, None),
    Field("username", Text(None, None), false, None),
    Field("shortDescription", Text(Some(10), Some(140)), false, None),
    Field("description", Text(None, None), false, None),
    Field("isVerifiedBot", Flag, false, None),
    Field("isSlashCommands", Flag, false, None),
    Field("authorId", Text(None, None), false, None),
    Field("authorUsername", Text(None, None), false, None),
    Field("isPending", Flag, false, None),
    Field("isPromoted", Flag, false, None),
    Field("totalVotes", Number, false, None),
    Field("lastVoteAt", Timestamp, false, None)
  ]

  const MaxSafeInteger := 9007199254740991

  /** Length in UTF-16 code units, as `String.prototype.length` counts. */
  function Utf16Length(s: string): (n: nat)
    ensures |s| <= n <= 2 * |s|
  {
    if s == [] then 0 else (if s[0] as int >= 0x10000 then 2 else 1) + Utf16Length(s[1..])
  }

  function Lower(c: char): char
  {
    if 'A' <= c <= 'Z' then (c as int + 32) as char else c
  }

  /** ASCII case-insensitive equality with a lower-case word. */
  predicate SameWordIgnoringCase(s: string, word: string)
  {
    |s| == |word| && forall i :: 0 <= i < |s| ==> Lower(s[i]) == word[i]
  }

  function Quoted(name: string): (q: string)
    ensures |q| == |name| + 2 && q[0] == '"'
  {
    "\"" + name + "\""
  }

  /** A validation message: the quoted key, then what is wrong with it. */
  function Says(name: string, complaint: string): (m: string)
    ensures StartsWith(m, Quoted(name))
  {
    var m := Quoted(name) + complaint;
    assert m[..|Quoted(name)|] == Quoted(name);
    m
  }

  // ----- the declared constraints, stated directly -----

  predicate Accepts(kind: Kind, v: Value, conv: Converters)
  {
    match kind
    case Text(min, max) =>
      v.Str? && v.s != ""
      && (min.Some? ==> min.value <= Utf16Length(v.s))
      && (max.Some? ==> Utf16Length(v.s) <= max.value)
    case Flag =>
      v.Bool? || (v.Str? && (SameWordIgnoringCase(v.s, "true") || SameWordIgnoringCase(v.s, "false")))
    case Number =>
      (v.Num? && -MaxSafeInteger <= v.n <= MaxSafeInteger)
      || (v.Str? && conv.number(v.s).Some? && -MaxSafeInteger <= conv.number(v.s).value <= MaxSafeInteger)
    case Timestamp =>
      v.Date? || v.Num? || (v.Str? && conv.date(v.s).Some?)
  }

  predicate FieldHolds(f: Field, v: Value, conv: Converters)
  {
    if v == Undefined then !f.required else Accepts(f.kind, v, conv)
  }

  predicate Declared(schema: Schema, k: string)
  {
    exists j :: 0 <= j < |schema| && schema[j].name == k
  }

  /** A body conforms when every declared field holds and no other key is present. */
  predicate Conforms(schema: Schema, e: Entries, conv: Converters)
  {
    (forall j :: 0 <= j < |schema| ==> FieldHolds(schema[j], Lookup(e, schema[j].name), conv))
    && (forall i :: 0 <= i < |e| ==> Declared(schema, e[i].0))
  }

  /** The type a validated value of each kind has. */
  predicate Typed(kind: Kind, v: Value)
  {
    match kind
    case Text(min, max) =>
      v.Str? && v.s != ""
      && (min.Some? ==> min.value <= Utf16Length(v.s))
      && (max.Some? ==> Utf16Length(v.s) <= max.value)
    case Flag => v.Bool?
    case Number => v.Num?
    case Timestamp => v.Date?
  }

  // ----- the validator -----

  /** One present value against its kind: the converted value, or the
      library's default message for the first rule it breaks. */
  function CheckKind(name: string, kind: Kind, v: Value, conv: Converters): (r: Result<Value, string>)
    requires v != Undefined
    ensures r.Ok? <==> Accepts(kind, v, conv)
    ensures r.Ok? && kind.Text? ==> r.value == v
    ensures r.Ok? ==> Typed(kind, r.value)
    ensures r.Fail? ==> StartsWith(r.error, Quoted(name))
  {
    match kind
    case Text(min, max) =>
      if !v.Str? then Fail(Says(name, " must be a string"))
      else if v.s == "" then Fail(Says(name, " is not allowed to be empty"))
      else if min.Some? && Utf16Length(v.s) < min.value then
        Fail(Says(name, " length must be at least " + NatText(min.value) + " characters long"))
      else if max.Some? && Utf16Length(v.s) > max.value then
        Fail(Says(name, " length must be less than or equal to " + NatText(max.value) + " characters long"))
      else Ok(v)
    case Flag =>
      if v.Bool? then Ok(v)
      else if v.Str? && SameWordIgnoringCase(v.s, "true") then Ok(Bool(true))
      else if v.Str? && SameWordIgnoringCase(v.s, "false") then Ok(Bool(false))
      else Fail(Says(name, " must be a boolean"))
    case Number =>
      var n :=
        if v.Num? then Some(v.n)
        else if v.Str? then conv.number(v.s)
        else None;
      if n.None? then Fail(Says(name, " must be a number"))
      else if n.value < -MaxSafeInteger || MaxSafeInteger < n.value then Fail(Says(name, " must be a safe number"))
      else Ok(Num(n.value))
    case Timestamp =>
      if v.Date? then Ok(v)
      else if v.Num? then Ok(Date(v.n))
      else if v.Str? && conv.date(v.s).Some? then Ok(Date(conv.date(v.s).value))
      else Fail(Says(name, " must be a valid date"))
  }

  /** One schema key: a missing required key is refused, a missing optional
      key takes its default (if any), a present one is checked. */
  function CheckField(f: Field, v: Value, conv: Converters): (r: Result<Option<Value>, string>)
    ensures r.Ok? <==> FieldHolds(f, v, conv)
    ensures v == Undefined && f.required ==> r == Fail(Says(f.name, " is required"))
    ensures v == Undefined && !f.required ==> r == Ok(f.default)
    ensures r.Fail? ==> StartsWith(r.error, Quoted(f.name))
  {
    if v == Undefined then
      if f.required then Fail(Says(f.name, " is required")) else Ok(f.default)
    else
      match CheckKind(f.name, f.kind, v, conv)
      case Ok(w) => Ok(Some(w))
      case Fail(m) => Fail(m)
  }

  /** The schema keys in order; the validated value holds each key that was
      present or has a default. */
  function CheckFields(schema: Schema, e: Entries, conv: Converters): (r: Result<Record, string>)
    ensures r.Ok? <==> forall j :: 0 <= j < |schema| ==> FieldHolds(schema[j], Lookup(e, schema[j].name), conv)
    ensures r.Fail? ==> |r.error| > 0 && r.error[0] == '"'
  {
    if schema == [] then Ok(map[])
    else
      var f := schema[0];
      match CheckField(f, Lookup(e, f.name), conv)
      case Fail(m) => Fail(m)
      case Ok(w) =>
        match CheckFields(schema[1..], e, conv)
        case Fail(m) => Fail(m)
        case Ok(rest) =>
          assert forall j :: 1 <= j < |schema| ==> schema[j] == schema[1..][j - 1];
          Ok(if w.Some? then rest[f.name := w.value] else rest)
  }

  /** Field `j` is the first of the schema whose entry does not hold. */
  predicate FirstFailing(schema: Schema, e: Entries, conv: Converters, j: int)
  {
    0 <= j < |schema| && !FieldHolds(schema[j], Lookup(e, schema[j].name), conv)
    && forall i :: 0 <= i < j ==> FieldHolds(schema[i], Lookup(e, schema[i].name), conv)
  }

  /** A failed check of the fields reports the first field, in schema order,
      that does not hold, with that field's own message. */
  lemma {:induction false} CheckFieldsReportsFirstFailure(schema: Schema, e: Entries, conv: Converters)
    requires CheckFields(schema, e, conv).Fail?
    ensures exists j ::
      FirstFailing(schema, e, conv, j)
      && CheckFields(schema, e, conv).error == CheckField(schema[j], Lookup(e, schema[j].name), conv).error
  {
    var f := schema[0];
    if CheckField(f, Lookup(e, f.name), conv).Fail? {
      assert FirstFailing(schema, e, conv, 0);
    } else {
      var tail := schema[1..];
      CheckFieldsReportsFirstFailure(tail, e, conv);
      var j :| FirstFailing(tail, e, conv, j)
        && CheckFields(tail, e, conv).error == CheckField(tail[j], Lookup(e, tail[j].name), conv).error;
      assert schema[j + 1] == tail[j];
      forall i | 0 <= i < j + 1
        ensures FieldHolds(schema[i], Lookup(e, schema[i].name), conv)
      {
        if i > 0 {
          assert schema[i] == tail[i - 1];
        }
      }
      assert FirstFailing(schema, e, conv, j + 1);
    }
  }

  /** Entry `i` is the first of the body whose key the schema does not declare. */
  predicate FirstUndeclared(schema: Schema, e: Entries, i: int)
  {
    0 <= i < |e| && !Declared(schema, e[i].0)
    && forall i' :: 0 <= i' < i ==> Declared(schema, e[i'].0)
  }

  /** The first key of the body the schema does not declare. */
  function UnknownKey(schema: Schema, e: Entries): (r: Option<string>)
    ensures r.None? <==> forall i :: 0 <= i < |e| ==> Declared(schema, e[i].0)
    ensures r.Some? ==> !Declared(schema, r.value) && exists i :: 0 <= i < |e| && e[i].0 == r.value
  {
    if e == [] then None
    else if !Declared(schema, e[0].0) then Some(e[0].0)
    else
      var r := UnknownKey(schema, e[1..]);
      assert forall i :: 1 <= i < |e| ==> e[i] == e[1..][i - 1];
      r
  }

  /** The key reported as unknown is the first undeclared one of the body. */
  lemma {:induction false} UnknownKeyIsFirst(schema: Schema, e: Entries)
    requires UnknownKey(schema, e).Some?
    ensures exists i :: FirstUndeclared(schema, e, i) && e[i].0 == UnknownKey(schema, e).value
  {
    if Declared(schema, e[0].0) {
      var tail := e[1..];
      UnknownKeyIsFirst(schema, tail);
      var i :| FirstUndeclared(schema, tail, i) && tail[i].0 == UnknownKey(schema, tail).value;
      assert e[i + 1] == tail[i];
      forall i' | 0 <= i' < i + 1
        ensures Declared(schema, e[i'].0)
      {
        if i' > 0 {
          assert e[i'] == tail[i' - 1];
        }
      }
      assert FirstUndeclared(schema, e, i + 1);
    } else {
      assert FirstUndeclared(schema, e, 0);
    }
  }

  /** `schema.validate(body)`: the validated value, or the first error's
      message: the first field in schema order that does not hold, else the
      first key of the body the schema does not declare. */
  function Validate(schema: Schema, e: Entries, conv: Converters): (r: Result<Record, string>)
    ensures r.Ok? <==> Conforms(schema, e, conv)
    ensures r.Fail? ==>
      (exists j :: FirstFailing(schema, e, conv, j)
         && r.error == CheckField(schema[j], Lookup(e, schema[j].name), conv).error
         && StartsWith(r.error, Quoted(schema[j].name)))
      || ((forall j :: 0 <= j < |schema| ==> FieldHolds(schema[j], Lookup(e, schema[j].name), conv))
          && exists i :: FirstUndeclared(schema, e, i) && r.error == Says(e[i].0, " is not allowed"))
  {
    match CheckFields(schema, e, conv)
    case Fail(m) =>
      CheckFieldsReportsFirstFailure(schema, e, conv);
      Fail(m)
    case Ok(value) =>
      match UnknownKey(schema, e)
      case Some(k) =>
        UnknownKeyIsFirst(schema, e);
        Fail(Says(k, " is not allowed"))
      case None => Ok(value)
  }

  // ----- what the validated value holds -----

  predicate DistinctNames(schema: Schema)
  {
    forall i, j :: 0 <= i < j < |schema| ==> schema[i].name != schema[j].name
  }

  /** The validated value's entry for one schema key: the converted value if
      the body has the key, else the default if the key has one, else nothing. */
  predicate Holds(f: Field, e: Entries, conv: Converters, value: Record)
  {
    var v := Lookup(e, f.name);
    if v != Undefined then
      FieldHolds(f, v, conv) && f.name in value && value[f.name] == CheckKind(f.name, f.kind, v, conv).value
    else
      (f.name in value <==> f.default.Some?) && (f.default.Some? ==> value[f.name] == f.default.value)
  }

  lemma {:induction false} CheckFieldsValue(schema: Schema, e: Entries, conv: Converters)
    requires DistinctNames(schema)
    requires CheckFields(schema, e, conv).Ok?
    ensures forall j :: 0 <= j < |schema| ==> Holds(schema[j], e, conv, CheckFields(schema, e, conv).value)
    ensures forall k :: k in CheckFields(schema, e, conv).value ==> Declared(schema, k)
  {
    if schema != [] {
      var f, tail := schema[0], schema[1..];
      var value := CheckFields(schema, e, conv).value;
      var rest := CheckFields(tail, e, conv).value;
      CheckFieldsValue(tail, e, conv);
      forall j | 1 <= j < |schema|
        ensures Holds(schema[j], e, conv, value)
      {
        assert schema[j] == tail[j - 1];
        assert schema[j].name != f.name;
      }
      forall k | k in value
        ensures Declared(schema, k)
      {
        if k != f.name {
          assert k in rest;
          var j :| 0 <= j < |tail| && tail[j].name == k;
          assert schema[j + 1] == tail[j];
        }
      }
    }
  }

  /** A successful validation: the body conforms, and the value holds exactly
      the declared keys that were given (converted) or defaulted. */
  lemma ValidatedValue(schema: Schema, e: Entries, conv: Converters)
    requires DistinctNames(schema)
    requires Validate(schema, e, conv).Ok?
    ensures Conforms(schema, e, conv)
    ensures forall j :: 0 <= j < |schema| ==> Holds(schema[j], e, conv, Validate(schema, e, conv).value)
    ensures forall k :: k in Validate(schema, e, conv).value ==> Declared(schema, k)
  {
    CheckFieldsValue(schema, e, conv);
  }

  // ----- the two schemas -----

  lemma CreateNamesDistinct()
    ensures DistinctNames(CreateSchema)
  {
  }

  lemma UpdateNamesDistinct()
    ensures DistinctNames(UpdateSchema)
  {
    forall i, j | 0 <= i < j < |UpdateSchema|
      ensures UpdateSchema[i].name != UpdateSchema[j].name
    {
      var a, b := UpdateSchema[i].name, UpdateSchema[j].name;
      assert |a| != |b| || a[0] != b[0];
    }
  }

  /** Creation needs a non-empty string `botId` and `ownerId` and a
      `shortDescription` of 10 to 140 characters; `description`, when given, is
      a non-empty string. */
  lemma CreateRequirements(e: Entries, conv: Converters)
    requires Validate(CreateSchema, e, conv).Ok?
    ensures Lookup(e, "botId").Str? && Lookup(e, "botId").s != ""
    ensures Lookup(e, "ownerId").Str? && Lookup(e, "ownerId").s != ""
    ensures Lookup(e, "shortDescription").Str?
      && 10 <= Utf16Length(Lookup(e, "shortDescription").s) <= 140
    ensures Lookup(e, "description") == Undefined || (Lookup(e, "description").Str? && Lookup(e, "description").s != "")
  {
    assert FieldHolds(CreateSchema[0], Lookup(e, "botId"), conv);
    assert FieldHolds(CreateSchema[1], Lookup(e, "ownerId"), conv);
    assert FieldHolds(CreateSchema[2], Lookup(e, "shortDescription"), conv);
    assert FieldHolds(CreateSchema[3], Lookup(e, "description"), conv);
  }

  /** The created value keeps the given strings and has `isSlashCommands`:
      false when absent, the converted flag when given. */
  lemma CreateValue(e: Entries, conv: Converters)
    requires Validate(CreateSchema, e, conv).Ok?
    ensures var value := Validate(CreateSchema, e, conv).value;
      "botId" in value && value["botId"] == Lookup(e, "botId")
      && "ownerId" in value && value["ownerId"] == Lookup(e, "ownerId")
      && "shortDescription" in value && value["shortDescription"] == Lookup(e, "shortDescription")
      && "isSlashCommands" in value && value["isSlashCommands"].Bool?
      && (Lookup(e, "isSlashCommands") == Undefined ==> value["isSlashCommands"] == Bool(false))
  {
    CreateNamesDistinct();
    ValidatedValue(CreateSchema, e, conv);
    var value := Validate(CreateSchema, e, conv).value;
    assert Holds(CreateSchema[0], e, conv, value);
    assert Holds(CreateSchema[1], e, conv, value);
    assert Holds(CreateSchema[2], e, conv, value);
    assert Holds(CreateSchema[4], e, conv, value);
  }

  /** A body without `botId` is refused with that key's message, whatever
      else it holds. */
  lemma CreateWithoutBotId(e: Entries, conv: Converters)
    requires Lookup(e, "botId") == Undefined
    ensures Validate(CreateSchema, e, conv) == Fail("\"botId\" is required")
  {
    var f := CreateSchema[0];
    assert f.name == "botId" && f.required;
    FirstFieldDecides(CreateSchema, e, conv);
    BotIdRequiredText();
  }

  lemma BotIdRequiredText()
    ensures Says("botId", " is required") == "\"botId\" is required"
  {
  }

  /** When the first field of the schema fails, its message is the answer,
      whatever the rest of the body holds. */
  lemma FirstFieldDecides(schema: Schema, e: Entries, conv: Converters)
    requires schema != [] && CheckField(schema[0], Lookup(e, schema[0].name), conv).Fail?
    ensures Validate(schema, e, conv) == Fail(CheckField(schema[0], Lookup(e, schema[0].name), conv).error)
  {
  }

  /** Every update key is optional: the empty body validates to the empty value. */
  lemma UpdateAllOptional(conv: Converters)
    ensures Validate(UpdateSchema, [], conv) == Ok(map[])
  {
    assert forall j :: 0 <= j < |UpdateSchema| ==> !UpdateSchema[j].required && UpdateSchema[j].default.None?;
    UpdateEmptyFields(UpdateSchema, conv);
  }

  lemma {:induction false} UpdateEmptyFields(schema: Schema, conv: Converters)
    requires forall j :: 0 <= j < |schema| ==> !schema[j].required && schema[j].default.None?
    ensures CheckFields(schema, [], conv) == Ok(map[])
  {
    if schema != [] {
      UpdateEmptyFields(schema[1..], conv);
    }
  }

  /** The update schema has no `botId`: a body carrying one is refused. */
  lemma UpdateRefusesBotId(e: Entries, conv: Converters)
    requires Lookup(e, "botId") != Undefined
    ensures Validate(UpdateSchema, e, conv).Fail?
  {
    UpdateLacksBotId();
    UndeclaredKeyRefused(UpdateSchema, e, conv, "botId");
  }

  /** A body carrying a key the schema does not declare is refused. */
  lemma UndeclaredKeyRefused(schema: Schema, e: Entries, conv: Converters, k: string)
    requires Lookup(e, k) != Undefined && !Declared(schema, k)
    ensures Validate(schema, e, conv).Fail?
  {
    var i :| 0 <= i < |e| && e[i] == (k, Lookup(e, k));
  }

  /** A validated update never carries `botId`, so it cannot re-key a row. */
  lemma UpdateValueHasNoBotId(e: Entries, conv: Converters)
    requires Validate(UpdateSchema, e, conv).Ok?
    ensures "botId" !in Validate(UpdateSchema, e, conv).value
  {
    UpdateNamesDistinct();
    UpdateLacksBotId();
    UndeclaredKeyAbsent(UpdateSchema, e, conv, "botId");
  }

  lemma UpdateLacksBotId()
    ensures !Declared(UpdateSchema, "botId")
  {
    forall j | 0 <= j < |UpdateSchema|
      ensures UpdateSchema[j].name != "botId"
    {
      assert |UpdateSchema[j].name| != 5;
    }
  }

  lemma UndeclaredKeyAbsent(schema: Schema, e: Entries, conv: Converters, k: string)
    requires DistinctNames(schema) && Validate(schema, e, conv).Ok? && !Declared(schema, k)
    ensures k !in Validate(schema, e, conv).value
  {
    ValidatedValue(schema, e, conv);
  }

  /** Every key of a validated value has its kind's type. */
  lemma ValueTyped(schema: Schema, e: Entries, conv: Converters, j: int)
    requires DistinctNames(schema)
    requires Validate(schema, e, conv).Ok?
    requires 0 <= j < |schema| && schema[j].name in Validate(schema, e, conv).value
    requires schema[j].default.Some? ==> Typed(schema[j].kind, schema[j].default.value)
    ensures Typed(schema[j].kind, Validate(schema, e, conv).value[schema[j].name])
  {
    ValidatedValue(schema, e, conv);
    assert Holds(schema[j], e, conv, Validate(schema, e, conv).value);
  }

  /** Updated `totalVotes` is a number and `lastVoteAt` a date. */
  lemma UpdateNumberAndDate(e: Entries, conv: Converters)
    requires Validate(UpdateSchema, e, conv).Ok?
    ensures var value := Validate(UpdateSchema, e, conv).value;
      ("totalVotes" in value ==> value["totalVotes"].Num?)
      && ("lastVoteAt" in value ==> value["lastVoteAt"].Date?)
  {
    UpdateNamesDistinct();
    var value := Validate(UpdateSchema, e, conv).value;
    if "totalVotes" in value { ValueTyped(UpdateSchema, e, conv, 10); }
    if "lastVoteAt" in value { ValueTyped(UpdateSchema, e, conv, 11); }
  }

  /** Updated listing flags are booleans. */
  lemma UpdateListingFlags(e: Entries, conv: Converters)
    requires Validate(UpdateSchema, e, conv).Ok?
    ensures var value := Validate(UpdateSchema, e, conv).value;
      ("isPending" in value ==> value["isPending"].Bool?)
      && ("isPromoted" in value ==> value["isPromoted"].Bool?)
  {
    UpdateNamesDistinct();
    var value := Validate(UpdateSchema, e, conv).value;
    if "isPending" in value { ValueTyped(UpdateSchema, e, conv, 8); }
    if "isPromoted" in value { ValueTyped(UpdateSchema, e, conv, 9); }
  }

  /** Updated bot flags are booleans. */
  lemma UpdateBotFlags(e: Entries, conv: Converters)
    requires Validate(UpdateSchema, e, conv).Ok?
    ensures var value := Validate(UpdateSchema, e, conv).value;
      ("isVerifiedBot" in value ==> value["isVerifiedBot"].Bool?)
      && ("isSlashCommands" in value ==> value["isSlashCommands"].Bool?)
  {
    UpdateNamesDistinct();
    var value := Validate(UpdateSchema, e, conv).value;
    if "isVerifiedBot" in value { ValueTyped(UpdateSchema, e, conv, 4); }
    if "isSlashCommands" in value { ValueTyped(UpdateSchema, e, conv, 5); }
  }

  /** An updated `shortDescription` keeps the creation bounds. */
  lemma UpdateShortDescription(e: Entries, conv: Converters)
    requires Validate(UpdateSchema, e, conv).Ok?
    ensures var value := Validate(UpdateSchema, e, conv).value;
      "shortDescription" in value ==>
        value["shortDescription"].Str? && 10 <= Utf16Length(value["shortDescription"].s) <= 140
  {
    UpdateNamesDistinct();
    var value := Validate(UpdateSchema, e, conv).value;
    if "shortDescription" in value { ValueTyped(UpdateSchema, e, conv, 2); }
  }
}
