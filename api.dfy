/** The request handlers of api.js: what each one sends to the hotel table
    and the status it answers with, and the construction of the
    UpdateItem parameters (`updateHotel`, lines 63-90). The table itself,
    `marshall`/`unmarshall` and `JSON.stringify` are not modelled: the
    outcome of the awaited store call is an input. */
module Api {
  import opened Wrappers
  import opened Text

  /** A value `JSON.parse` can produce. An object's members are listed in
      the order `Object.keys` enumerates them, one per property name. */
  datatype Json =
    | Null
    | Bool(b: bool)
    | Number(n: real)
    | Str(s: string)
    | Arr(items: seq<Json>)
    | Obj(members: seq<(string, Json)>)

  /** `Object.keys(body)` with `body[key]` beside each key. `Object.keys`
      throws on `null`; booleans and numbers have no own keys; a string or
      an array has its indices as keys. */
  function Entries(body: Json): (r: Option<seq<(string, Json)>>)
    ensures r.None? <==> body == Null
  {
    match body
    case Null => None
    case Bool(_) => Some([])
    case Number(_) => Some([])
    case Str(s) => Some(seq(|s|, i requires 0 <= i < |s| => (Numeral(i), Str([s[i]]))))
    case Arr(items) => Some(seq(|items|, i requires 0 <= i < |items| => (Numeral(i), items[i])))
    case Obj(members) => Some(members)
  }

  // ---------------------------------------------------------------------
  // UpdateItem parameters

  /** A placeholder: a fixed prefix followed by the key's index in
      decimal, as the template literals `#key${index}` and the like. */
  function Placeholder(prefix: string, i: nat): string { prefix + Numeral(i) }

  function NamePlaceholder(i: nat): string { Placeholder("#key", i) }

  /** The value placeholder the expression refers to... */
  function ExpressionValuePlaceholder(i: nat): string { Placeholder(":values", i) }

  /** ...and the one the value map defines. */
  function ValuePlaceholder(i: nat): string { Placeholder(":value", i) }

  /** Different indices give different placeholders. */
  lemma PlaceholderInjective(prefix: string, i: nat, j: nat)
    ensures Placeholder(prefix, i) == Placeholder(prefix, j) <==> i == j
  {
    NumeralInjective(i, j);
    assert Placeholder(prefix, i)[|prefix|..] == Numeral(i);
    assert Placeholder(prefix, j)[|prefix|..] == Numeral(j);
  }

  /** The placeholders of the first `k` keys. */
  function Placeholders(prefix: string, k: nat): set<string> {
    if k == 0 then {} else Placeholders(prefix, k - 1) + {Placeholder(prefix, k - 1)}
  }

  /** A later key's placeholder is not among the earlier ones. */
  lemma {:induction false} NotYetNumbered(prefix: string, k: nat, j: nat)
    requires k <= j
    ensures Placeholder(prefix, j) !in Placeholders(prefix, k)
  {
    if k > 0 {
      NotYetNumbered(prefix, k - 1, j);
      PlaceholderInjective(prefix, k - 1, j);
    }
  }

  lemma GrowsByOne<V>(m: map<string, V>, key: string, v: V)
    requires key !in m
    ensures |m[key := v]| == |m| + 1
  {
    assert m[key := v].Keys == m.Keys + {key};
  }

  /** The `reduce` over the keys that builds a placeholder map, after `k`
      keys: one entry per key, under that key's placeholder. */
  function Numbered<V>(prefix: string, vals: seq<V>, k: nat): (m: map<string, V>)
    requires k <= |vals|
    ensures m.Keys == Placeholders(prefix, k) && |m| == k
  {
    if k == 0 then map[]
    else
      var before := Numbered(prefix, vals, k - 1);
      var p := Placeholder(prefix, k - 1);
      NotYetNumbered(prefix, k - 1, k - 1);
      GrowsByOne(before, p, vals[k - 1]);
      before[p := vals[k - 1]]
  }

  /** Key `i` is under its own placeholder: no later key overwrites it. */
  lemma {:induction false} NumberedAt<V>(prefix: string, vals: seq<V>, k: nat, i: nat)
    requires i < k <= |vals|
    ensures Placeholder(prefix, i) in Numbered(prefix, vals, k)
    ensures Numbered(prefix, vals, k)[Placeholder(prefix, i)] == vals[i]
  {
    var before := Numbered(prefix, vals, k - 1);
    assert Numbered(prefix, vals, k) == before[Placeholder(prefix, k - 1) := vals[k - 1]];
    if i < k - 1 {
      NumberedAt(prefix, vals, k - 1, i);
      PlaceholderInjective(prefix, i, k - 1);
    }
  }


  function KeysOf(entries: seq<(string, Json)>): seq<string> {
    seq(|entries|, i requires 0 <= i < |entries| => entries[i].0)
  }

  function ValuesOf(entries: seq<(string, Json)>): seq<Json> {
    seq(|entries|, i requires 0 <= i < |entries| => entries[i].1)
  }

  /** ExpressionAttributeNames: `#key{i}` to the i-th key. */
  function Names(entries: seq<(string, Json)>): map<string, string> {
    Numbered("#key", KeysOf(entries), |entries|)
  }

  /** ExpressionAttributeValues before `marshall`: `:value{i}` to the
      value of the i-th key. */
  function Values(entries: seq<(string, Json)>): map<string, Json> {
    Numbered(":value", ValuesOf(entries), |entries|)
  }

  function Clause(i: nat): string {
    NamePlaceholder(i) + " = " + ExpressionValuePlaceholder(i)
  }

  /** `SET ${objKeys.map(...)}`: the array is rendered by `toString`, that
      is joined with "," and no space. */
  function UpdateExpression(count: nat): string {
    "SET " + Join(seq(count, i requires 0 <= i < count => Clause(i)), ',')
  }

  /** `{ hotel_id: event.pathParameters.hotel_id }`, the key of every
      single-item request (before `marshall`). */
  function HotelKey(hotelId: string): (key: map<string, string>)
    ensures key.Keys == {"hotel_id"} && key["hotel_id"] == hotelId
  {
    map["hotel_id" := hotelId]
  }

  datatype UpdateParams = UpdateParams(
    key: map<string, string>,
    updateExpression: string,
    names: map<string, string>,
    values: map<string, Json>)

  function BuildUpdateParams(hotelId: string, entries: seq<(string, Json)>): UpdateParams {
    UpdateParams(HotelKey(hotelId), UpdateExpression(|entries|), Names(entries), Values(entries))
  }

  /** The maps have one entry per key of the body: the i-th key under
      `#key{i}` and its value under `:value{i}`, and nothing else. */
  lemma UpdateMaps(hotelId: string, entries: seq<(string, Json)>)
    ensures var p := BuildUpdateParams(hotelId, entries);
      |p.names| == |entries| && |p.values| == |entries|
      && (forall i :: 0 <= i < |entries| ==>
            NamePlaceholder(i) in p.names && p.names[NamePlaceholder(i)] == entries[i].0
            && ValuePlaceholder(i) in p.values && p.values[ValuePlaceholder(i)] == entries[i].1)
  {
    forall i | 0 <= i < |entries|
      ensures NamePlaceholder(i) in Names(entries) && Names(entries)[NamePlaceholder(i)] == entries[i].0
      ensures ValuePlaceholder(i) in Values(entries) && Values(entries)[ValuePlaceholder(i)] == entries[i].1
    {
      NumberedAt("#key", KeysOf(entries), |entries|, i);
      NumberedAt(":value", ValuesOf(entries), |entries|, i);
    }
  }

  /** No `:values{i}` is among the first `k` `:value{j}` placeholders:
      they differ in the character after ":value". */
  lemma {:induction false} NoExpressionValueDefined(i: nat, k: nat)
    ensures ExpressionValuePlaceholder(i) !in Placeholders(":value", k)
  {
    if k > 0 {
      NoExpressionValueDefined(i, k - 1);
      assert ExpressionValuePlaceholder(i)[6] == 's';
      assert ValuePlaceholder(k - 1)[6] == Numeral(k - 1)[0];
    }
  }

  /** The latent mismatch: no value placeholder written in the expression
      is a key of the value map, whatever the body, so every clause refers
      to a value the request does not define. */
  lemma ValuePlaceholderMismatch(hotelId: string, entries: seq<(string, Json)>, i: nat)
    ensures ExpressionValuePlaceholder(i) !in BuildUpdateParams(hotelId, entries).values
  {
    NoExpressionValueDefined(i, |entries|);
  }

  lemma ClauseHasNoComma(i: nat)
    ensures ',' !in Clause(i)
  {
    var d := Numeral(i);
    assert forall j :: 0 <= j < |d| ==> IsDigit(d[j]);
    assert Clause(i) == "#key" + d + " = :values" + d;
  }

  /** The expression is "SET " followed by one `#key{i} = :values{i}`
      clause per key, in key order, separated by single commas; with no
      keys it is "SET " alone and both maps are empty. */
  lemma UpdateExpressionClauses(hotelId: string, entries: seq<(string, Json)>)
    ensures var p := BuildUpdateParams(hotelId, entries);
      |p.updateExpression| >= 4 && p.updateExpression[..4] == "SET "
      && (entries == [] ==> p.updateExpression == "SET " && p.names == map[] && p.values == map[])
      && (entries != [] ==> Split(p.updateExpression[4..], ',') == seq(|entries|, i requires 0 <= i < |entries| => Clause(i)))
  {
    var n := |entries|;
    var clauses := seq(n, i requires 0 <= i < n => Clause(i));
    var e := UpdateExpression(n);
    assert e == "SET " + Join(clauses, ',');
    assert e[4..] == Join(clauses, ',');
    if n > 0 {
      forall i | 0 <= i < n ensures ',' !in clauses[i] {
        ClauseHasNoComma(i);
      }
      JoinThenSplit(clauses, ',');
    }
  }

  lemma TwoClauses(c0: string, c1: string)
    requires c0 == Clause(0) && c1 == Clause(1)
    ensures UpdateExpression(2) == "SET " + c0 + [','] + c1
  {
    var clauses := seq(2, i requires 0 <= i < 2 => Clause(i));
    assert clauses[1..] == [c1];
    assert Join(clauses[1..], ',') == c1;
    assert Join(clauses, ',') == c0 + [','] + c1;
  }

  /** The two clauses spell out the expected text. The texts are parameters
      fixed by `requires`, as in `Normalize.TrimExample`, so that no
      recursive function is unfolded on them. */
  lemma SameText(expression: string, c0: string, c1: string)
    requires expression == "SET #key0 = :values0,#key1 = :values1"
    requires c0 == "#key0 = :values0" && c1 == "#key1 = :values1"
    ensures "SET " + c0 + [','] + c1 == expression
  {
  }

  /** The expression for a body with two keys. */
  lemma UpdateExpressionExample()
    ensures UpdateExpression(2) == "SET #key0 = :values0,#key1 = :values1"
  {
    var expression := "SET #key0 = :values0,#key1 = :values1";
    assert Numeral(0) == "0" && Numeral(1) == "1";
    var c0, c1 := Clause(0), Clause(1);
    assert c0 == "#key0 = :values0" && c1 == "#key1 = :values1";
    TwoClauses(c0, c1);
    SameText(expression, c0, c1);
  }

  lemma FirstTwo<V>(prefix: string, vals: seq<V>)
    requires |vals| == 2
    ensures Numbered(prefix, vals, 2) == map[prefix + "0" := vals[0], prefix + "1" := vals[1]]
  {
    assert Numeral(0) == "0" && Numeral(1) == "1";
    var m := Numbered(prefix, vals, 2);
    assert Placeholder(prefix, 0) == prefix + "0" && Placeholder(prefix, 1) == prefix + "1";
    assert Placeholders(prefix, 1) == {prefix + "0"};
    assert Placeholders(prefix, 2) == {prefix + "0", prefix + "1"};
    NumberedAt(prefix, vals, 2, 0);
    NumberedAt(prefix, vals, 2, 1);
  }

  /** The name map for the body `{"name": "Ocean", "stars": 5}`. */
  lemma NamesExample()
    ensures Names([("name", Str("Ocean")), ("stars", Number(5.0))]) == map["#key0" := "name", "#key1" := "stars"]
  {
    var entries := [("name", Str("Ocean")), ("stars", Number(5.0))];
    var keys := KeysOf(entries);
    assert keys[0] == "name" && keys[1] == "stars";
    FirstTwo("#key", keys);
    assert "#key" + "0" == "#key0" && "#key" + "1" == "#key1";
  }

  /** The value map for the same body. */
  lemma ValuesExample()
    ensures Values([("name", Str("Ocean")), ("stars", Number(5.0))]) == map[":value0" := Str("Ocean"), ":value1" := Number(5.0)]
  {
    var entries := [("name", Str("Ocean")), ("stars", Number(5.0))];
    var values := ValuesOf(entries);
    assert values[0] == Str("Ocean") && values[1] == Number(5.0);
    FirstTwo(":value", values);
    assert ":value" + "0" == ":value0" && ":value" + "1" == ":value1";
  }

  // ---------------------------------------------------------------------
  // Handlers

  datatype Handler = GetHotel | CreateHotel | UpdateHotel | DeleteHotel | GetAllHotels

  /** What `JSON.parse(event.body)` gives. */
  datatype Parsed = Parsed(value: Json) | SyntaxError

  /** The parts of the event the handlers read: the parsed body and
      `event.pathParameters.hotel_id` (`None` when either is missing). */
  datatype Event = Event(body: Parsed, hotelId: Option<string>)

  /** The request a handler sends to the table. */
  datatype StoreRequest =
    | GetItem(key: map<string, string>)
    | PutItem(item: Json)
    | UpdateItem(params: UpdateParams)
    | DeleteItem(key: map<string, string>)
    | Scan

  datatype Response = Response(statusCode: nat, message: string)

  /** A handler either returns its response or lets an exception escape. */
  datatype Outcome = Returned(response: Response) | Escaped

  /** JavaScript's falsy values among the ones `JSON.parse` gives. */
  predicate Falsy(j: Json) {
    j == Null || j == Bool(false) || j == Number(0.0) || j == Str("")
  }

  /** Code that runs before the `try`, where an exception is not caught:
      `JSON.parse` in createHotel and updateHotel, and `Object.keys` in
      updateHotel. */
  predicate EscapesBeforeTry(h: Handler, event: Event) {
    || ((h == CreateHotel || h == UpdateHotel) && event.body.SyntaxError?)
    || (h == UpdateHotel && event.body == Parsed(Null))
  }

  /** The request built inside the `try`, or `None` when building it throws
      there (no hotel id to put in the key). */
  function RequestOf(h: Handler, event: Event): Option<StoreRequest>
    requires !EscapesBeforeTry(h, event)
  {
    match h
    case GetAllHotels => Some(Scan)
    case CreateHotel =>
      var body := event.body.value;
      Some(PutItem(if Falsy(body) then Obj([]) else body))
    case GetHotel =>
      if event.hotelId.None? then None else Some(GetItem(HotelKey(event.hotelId.value)))
    case DeleteHotel =>
      if event.hotelId.None? then None else Some(DeleteItem(HotelKey(event.hotelId.value)))
    case UpdateHotel =>
      if event.hotelId.None? then None
      else Some(UpdateItem(BuildUpdateParams(event.hotelId.value, Entries(event.body.value).value)))
  }

  function SuccessMessage(h: Handler): string {
    match h
    case GetHotel => "successfully retrieved hotel."
    case CreateHotel => "successfully created hotel."
    case UpdateHotel => "successfully updated hotel."
    case DeleteHotel => "successfully deleted hotel."
    case GetAllHotels => "successfully retrieved hotels."
  }

  function FailureMessage(h: Handler): string {
    match h
    case GetHotel => "Failed to get Hotel"
    case CreateHotel => "Failed to create Hotel"
    case UpdateHotel => "Failed to update Hotel"
    case DeleteHotel => "Failed to deleted Hotel"
    case GetAllHotels => "Failed to retrieve all Hotels"
  }

  /** One handler call. `storeSucceeds` says whether the awaited
      `db.send(...)` (and the unmarshalling after it) completes. The
      response starts at 200 and is set to 500 only by the catch block. */
  method Handle(h: Handler, event: Event, storeSucceeds: bool)
    returns (out: Outcome, sent: Option<StoreRequest>)
    ensures out == Escaped <==> EscapesBeforeTry(h, event)
    ensures out == Escaped ==> sent == None
    ensures out.Returned? ==> sent == RequestOf(h, event)
    ensures out.Returned? ==>
      (out.response.statusCode == 200 <==> sent.Some? && storeSucceeds)
      && (out.response.statusCode == 200 || out.response.statusCode == 500)
      && out.response.message == if out.response.statusCode == 200 then SuccessMessage(h) else FailureMessage(h)
  {
    sent := None;
    if (h == CreateHotel || h == UpdateHotel) && event.body.SyntaxError? {
      out := Escaped;
      return;
    }
    if h == UpdateHotel && Entries(event.body.value).None? {
      out := Escaped;
      return;
    }
    var response := Response(200, "");
    sent := RequestOf(h, event);
    if sent.Some? && storeSucceeds {
      response := response.(message := SuccessMessage(h));
    } else {
      response := response.(statusCode := 500);
      response := response.(message := FailureMessage(h));
    }
    out := Returned(response);
  }

  /** Get, update and delete address the same item: the key is the single
      field `hotel_id` from the path, in all three. */
  lemma SameKeyEverywhere(event: Event, body: Json)
    requires event.hotelId.Some? && body != Null
    ensures var id := event.hotelId.value;
      RequestOf(GetHotel, event) == Some(GetItem(HotelKey(id)))
      && RequestOf(DeleteHotel, event) == Some(DeleteItem(HotelKey(id)))
      && RequestOf(UpdateHotel, event.(body := Parsed(body))).value.params.key == HotelKey(id)
  {
  }
}
