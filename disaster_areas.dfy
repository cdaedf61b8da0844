/**
 * The disaster-area routes: the create and update payload schemas, and the
 * five handlers of `registerDisasterAreaRoutes`. The repository that stores
 * the areas is not part of this model; each handler takes the outcome the
 * repository gives as an input, and reports which repository call it made,
 * so that "the repository was never reached" is `calls == []`.
 */
module DisasterAreas {
  import opened Js
  import opened Schema
  import opened Http

  // ---------------------------------------------------------------------
  // Payload schemas
  // ---------------------------------------------------------------------

  /** The create schema, in declaration order. */
  const CreateShape: Shape := [
    FieldSpec("name", Str(1), true),
    FieldSpec("township", Str(0), false),
    FieldSpec("county", Str(0), false),
    FieldSpec("center_lat", Num(-90.0, 90.0), true),
    FieldSpec("center_lng", Num(-180.0, 180.0), true),
    FieldSpec("bounds", Box, false),
    FieldSpec("grid_size", PosInt, false),
    FieldSpec("status", Str(0), false),
    FieldSpec("description", Str(0), false)
  ]

  /** The update schema: the create fields with the same rules, all optional. */
  const UpdateShape: Shape := [
    FieldSpec("name", Str(1), false),
    FieldSpec("township", Str(0), false),
    FieldSpec("county", Str(0), false),
    FieldSpec("center_lat", Num(-90.0, 90.0), false),
    FieldSpec("center_lng", Num(-180.0, 180.0), false),
    FieldSpec("bounds", Box, false),
    FieldSpec("grid_size", PosInt, false),
    FieldSpec("status", Str(0), false),
    FieldSpec("description", Str(0), false)
  ]

  predicate ValidCreate(body: Json)
  {
    Conforms(body, CreateShape)
  }

  predicate ValidUpdate(body: Json)
  {
    Conforms(body, UpdateShape)
  }

  predicate TextIfPresent(f: map<string, Json>, k: string)
  {
    k in f ==> f[k].JStr?
  }

  predicate InRangeIfPresent(f: map<string, Json>, k: string, lo: real, hi: real)
  {
    k in f ==> f[k].JNum? && lo <= f[k].n <= hi
  }

  /** The payload rules written out one field at a time, every field optional:
      a non-empty name, a latitude in [-90, 90], a longitude in [-180, 180],
      a whole grid size of at least 1, bounds with four numbers and no order
      between them, and free text for the rest. */
  predicate FieldRules(body: Json)
  {
    body.JObj? &&
    var f := body.fields;
    ("name" in f ==> f["name"].JStr? && |f["name"].s| >= 1)
    && TextIfPresent(f, "township") && TextIfPresent(f, "county")
    && InRangeIfPresent(f, "center_lat", -90.0, 90.0)
    && InRangeIfPresent(f, "center_lng", -180.0, 180.0)
    && ("bounds" in f ==>
          f["bounds"].JObj? && IsNumberAt(f["bounds"].fields, "north")
          && IsNumberAt(f["bounds"].fields, "south") && IsNumberAt(f["bounds"].fields, "east")
          && IsNumberAt(f["bounds"].fields, "west"))
    && ("grid_size" in f ==> f["grid_size"].JNum? && IsWholeNumber(f["grid_size"].n) && f["grid_size"].n >= 1.0)
    && TextIfPresent(f, "status") && TextIfPresent(f, "description")
  }

  /** Name, latitude and longitude are the keys a create payload must carry. */
  predicate HasCreateKeys(body: Json)
  {
    body.JObj? && "name" in body.fields && "center_lat" in body.fields && "center_lng" in body.fields
  }

  /** A whole number above zero is at least one. */
  lemma WholePositiveIsAtLeastOne(x: real)
    requires IsWholeNumber(x) && x > 0.0
    ensures x >= 1.0
  {
    assert x.Floor > 0;
  }

  /** The update schema is `CreateSchema.partial()`. */
  lemma UpdateShapeIsPartial()
    ensures UpdateShape == Partial(CreateShape)
  {
    var s, p := CreateShape, Partial(CreateShape);
    assert forall i :: 0 <= i < |p| ==> p[i] == s[i].(required := false);
  }

  /** The update schema accepts exactly the bodies that keep the field rules. */
  lemma UpdateAcceptance(body: Json)
    ensures ValidUpdate(body) <==> FieldRules(body)
  {
    var p := UpdateShape;
    if body.JObj? {
      var f := body.fields;
      if ValidUpdate(body) {
        assert FieldOk(f, p[0]) && FieldOk(f, p[1]) && FieldOk(f, p[2]);
        assert FieldOk(f, p[3]) && FieldOk(f, p[4]) && FieldOk(f, p[5]);
        assert FieldOk(f, p[6]) && FieldOk(f, p[7]) && FieldOk(f, p[8]);
        if "grid_size" in f {
          WholePositiveIsAtLeastOne(f["grid_size"].n);
        }
      }
      if FieldRules(body) {
        forall i | 0 <= i < |p| ensures FieldOk(f, p[i]) {
          assert i in {0, 1, 2, 3, 4, 5, 6, 7, 8};
        }
      }
    }
  }

  /** The create schema accepts exactly the bodies that keep the field rules
      and carry name, latitude and longitude. */
  lemma CreateAcceptance(body: Json)
    ensures ValidCreate(body) <==> FieldRules(body) && HasCreateKeys(body)
  {
    UpdateAcceptance(body);
    UpdateShapeIsPartial();
    FullIsPartialPlusRequired(body, CreateShape);
    if body.JObj? {
      var s := CreateShape;
      assert HasRequired(body, s) <==> HasCreateKeys(body) by {
        if HasCreateKeys(body) {
          forall i | 0 <= i < |s| && s[i].required ensures s[i].key in body.fields {
            assert i in {0, 3, 4} by {
              assert i in {0, 1, 2, 3, 4, 5, 6, 7, 8};
            }
          }
        }
        if HasRequired(body, s) {
          assert s[0].required && s[3].required && s[4].required;
        }
      }
    }
  }

  /** An accepted create payload is also an accepted update payload, and
      the empty object is an accepted update payload. */
  lemma CreateIsUpdate(body: Json)
    ensures ValidCreate(body) ==> ValidUpdate(body)
    ensures ValidUpdate(JObj(map[]))
  {
    UpdateShapeIsPartial();
    PartialIsWeaker(body, CreateShape);
  }

  // ---------------------------------------------------------------------
  // Parsed payloads
  // ---------------------------------------------------------------------

  datatype Bounds = Bounds(north: real, south: real, east: real, west: real)

  /** `parsed.data`: the schema fields of the body, unknown keys dropped. */
  datatype AreaInput = AreaInput(
    name: Option<string>,
    township: Option<string>,
    county: Option<string>,
    center_lat: Option<real>,
    center_lng: Option<real>,
    bounds: Option<Bounds>,
    grid_size: Option<int>,
    status: Option<string>,
    description: Option<string>)

  /** What a parsed payload guarantees about its values. */
  predicate WellFormed(d: AreaInput)
  {
    (d.name.Some? ==> |d.name.value| >= 1)
    && (d.center_lat.Some? ==> -90.0 <= d.center_lat.value <= 90.0)
    && (d.center_lng.Some? ==> -180.0 <= d.center_lng.value <= 180.0)
    && (d.grid_size.Some? ==> d.grid_size.value >= 1)
  }

  /** A parsed create payload carries the three required fields. */
  predicate Complete(d: AreaInput)
  {
    d.name.Some? && d.center_lat.Some? && d.center_lng.Some?
  }

  function TextAt(f: map<string, Json>, k: string): Option<string>
  {
    if k in f && f[k].JStr? then Some(f[k].s) else None
  }

  function NumberAt(f: map<string, Json>, k: string): Option<real>
  {
    if k in f && f[k].JNum? then Some(f[k].n) else None
  }

  function WholeAt(f: map<string, Json>, k: string): Option<int>
  {
    if k in f && f[k].JNum? then Some(f[k].n.Floor) else None
  }

  function BoundsAt(f: map<string, Json>, k: string): Option<Bounds>
  {
    if k in f && Satisfies(f[k], Box) then
      var b := f[k].fields;
      Some(Bounds(b["north"].n, b["south"].n, b["east"].n, b["west"].n))
    else None
  }

  function Extract(f: map<string, Json>): AreaInput
  {
    AreaInput(
      TextAt(f, "name"), TextAt(f, "township"), TextAt(f, "county"),
      NumberAt(f, "center_lat"), NumberAt(f, "center_lng"),
      BoundsAt(f, "bounds"), WholeAt(f, "grid_size"),
      TextAt(f, "status"), TextAt(f, "description"))
  }

  /** `d` holds exactly the body's values for the schema keys, and nothing
      for a schema key the body lacks; every other key of the body, and every
      key of `bounds` besides the four corners, is dropped. */
  predicate Carries(f: map<string, Json>, d: AreaInput)
  {
    (forall k :: k in SchemaKeys && k != "bounds" ==>
       Slot(d, k) == (if k in f then Some(f[k]) else None))
    && (d.bounds.Some? <==> "bounds" in f)
    && ("bounds" in f ==>
          Satisfies(f["bounds"], Box) && d.bounds.Some?
          && f["bounds"].fields["north"] == JNum(d.bounds.value.north)
          && f["bounds"].fields["south"] == JNum(d.bounds.value.south)
          && f["bounds"].fields["east"] == JNum(d.bounds.value.east)
          && f["bounds"].fields["west"] == JNum(d.bounds.value.west))
  }

  /** The fields read out of a body that keeps the field rules are the body's. */
  lemma ExtractCarries(f: map<string, Json>)
    requires FieldRules(JObj(f))
    ensures Carries(f, Extract(f))
  {
  }

  /** `UpdateSchema.safeParse(body)`. */
  function ParseUpdate(body: Json): (r: Result<AreaInput, seq<string>>)
    ensures r.Ok? <==> ValidUpdate(body)
    ensures r.Err? ==> r.error != [] && r.error == Check(body, UpdateShape)
    ensures r.Ok? ==> WellFormed(r.value) && body.JObj? && Carries(body.fields, r.value)
  {
    var issues := Check(body, UpdateShape);
    if issues != [] then Err(issues)
    else
      UpdateAcceptance(body);
      ExtractCarries(body.fields);
      Ok(Extract(body.fields))
  }

  /** `CreateSchema.safeParse(body)`. */
  function ParseCreate(body: Json): (r: Result<AreaInput, seq<string>>)
    ensures r.Ok? <==> ValidCreate(body)
    ensures r.Err? ==> r.error != [] && r.error == Check(body, CreateShape)
    ensures r.Ok? ==> WellFormed(r.value) && Complete(r.value) && body.JObj? && Carries(body.fields, r.value)
  {
    var issues := Check(body, CreateShape);
    if issues != [] then Err(issues)
    else
      CreateAcceptance(body);
      ExtractCarries(body.fields);
      Ok(Extract(body.fields))
  }

  // Writing a parsed payload back as a JSON object, for the round trips.

  function TextJson(o: Option<string>): Option<Json>
  {
    if o.Some? then Some(JStr(o.value)) else None
  }

  function NumberJson(o: Option<real>): Option<Json>
  {
    if o.Some? then Some(JNum(o.value)) else None
  }

  function WholeJson(o: Option<int>): Option<Json>
  {
    if o.Some? then Some(JNum(o.value as real)) else None
  }

  function BoundsJson(o: Option<Bounds>): Option<Json>
  {
    if o.Some? then
      var b := o.value;
      Some(JObj(map["north" := JNum(b.north), "south" := JNum(b.south),
                    "east" := JNum(b.east), "west" := JNum(b.west)]))
    else None
  }

  /** The JSON value `d` holds for the schema key `k`, if it holds one. */
  function Slot(d: AreaInput, k: string): Option<Json>
  {
    if k == "name" then TextJson(d.name)
    else if k == "township" then TextJson(d.township)
    else if k == "county" then TextJson(d.county)
    else if k == "center_lat" then NumberJson(d.center_lat)
    else if k == "center_lng" then NumberJson(d.center_lng)
    else if k == "bounds" then BoundsJson(d.bounds)
    else if k == "grid_size" then WholeJson(d.grid_size)
    else if k == "status" then TextJson(d.status)
    else if k == "description" then TextJson(d.description)
    else None
  }

  const SchemaKeys: set<string> :=
    {"name", "township", "county", "center_lat", "center_lng", "bounds", "grid_size", "status", "description"}

  /** The JSON object with exactly the fields `d` holds. */
  function Encode(d: AreaInput): Json
  {
    JObj(map k | k in SchemaKeys && Slot(d, k).Some? :: Slot(d, k).value)
  }

  /** Reading the fields back out of the JSON form gives `d`. */
  lemma ExtractEncode(d: AreaInput)
    ensures Extract(Encode(d).fields) == d
  {
    var f := Encode(d).fields;
    assert TextAt(f, "name") == d.name;
    assert TextAt(f, "township") == d.township;
    assert TextAt(f, "county") == d.county;
    assert NumberAt(f, "center_lat") == d.center_lat;
    assert NumberAt(f, "center_lng") == d.center_lng;
    assert BoundsAt(f, "bounds") == d.bounds;
    assert WholeAt(f, "grid_size") == d.grid_size;
    assert TextAt(f, "status") == d.status;
    assert TextAt(f, "description") == d.description;
  }

  /** The JSON form of a well-formed payload keeps the field rules. */
  lemma EncodeKeepsRules(d: AreaInput)
    requires WellFormed(d)
    ensures FieldRules(Encode(d))
  {
    var f := Encode(d).fields;
    if "grid_size" in f {
      assert f["grid_size"] == JNum(d.grid_size.value as real);
    }
  }

  /** Parsing the JSON form of a well-formed payload as an update gives the
      payload back. */
  lemma UpdateRoundTrip(d: AreaInput)
    requires WellFormed(d)
    ensures ParseUpdate(Encode(d)) == Ok(d)
  {
    ExtractEncode(d);
    EncodeKeepsRules(d);
    UpdateAcceptance(Encode(d));
  }

  /** Parsing the JSON form of a well-formed, complete payload as a create
      gives the payload back. */
  lemma CreateRoundTrip(d: AreaInput)
    requires WellFormed(d) && Complete(d)
    ensures ParseCreate(Encode(d)) == Ok(d)
  {
    var body := Encode(d);
    ExtractEncode(d);
    EncodeKeepsRules(d);
    assert "name" in body.fields && "center_lat" in body.fields && "center_lng" in body.fields;
    CreateAcceptance(body);
    assert Check(body, CreateShape) == [];
  }

  /** Moving one coordinate of an accepted create payload keeps it accepted
      exactly while the coordinate stays in range: the limits ±90 and ±180
      themselves are accepted, anything beyond them is not. */
  lemma CoordinateRange(body: Json, x: real)
    requires ValidCreate(body)
    ensures ValidCreate(JObj(body.fields["center_lat" := JNum(x)])) <==> -90.0 <= x <= 90.0
    ensures ValidCreate(JObj(body.fields["center_lng" := JNum(x)])) <==> -180.0 <= x <= 180.0
  {
    CreateAcceptance(body);
    CreateAcceptance(JObj(body.fields["center_lat" := JNum(x)]));
    CreateAcceptance(JObj(body.fields["center_lng" := JNum(x)]));
  }

  // ---------------------------------------------------------------------
  // Handlers
  // ---------------------------------------------------------------------

  /** A stored disaster area as the repository returns it. */
  datatype Area = Area(id: string, data: AreaInput)

  /** A call a handler makes into the repository. */
  datatype RepoCall =
    | ListCall
    | CreateCall(input: AreaInput)
    | GetCall(id: string)
    | UpdateCall(id: string, patch: AreaInput)
    | DeleteCall(id: string)

  /** What `updateDisasterArea` gives back: the updated row, nothing (no row
      has that id), or an error it throws. A thrown value without a message
      is `Failed("")`. */
  datatype UpdateResult = Updated(area: Area) | NotFound | Failed(message: string)

  /** A handler either sends a reply or lets an error propagate to the
      framework's error handler. */
  datatype Outcome = Send(reply: Reply<Area>) | Rethrow(message: string)

  /** The repository calls a handler made, in order, and how it ended. */
  datatype Handled = Handled(calls: seq<RepoCall>, outcome: Outcome)

  const InvalidPayload := "Invalid payload"
  const NotFoundMessage := "Not found"
  const InvalidFieldName := "Invalid field name"

  /** GET /disaster-areas: the repository's list, as it gives it. */
  function HandleList(areas: seq<Area>): (h: Handled)
    ensures h.calls == [ListCall]
    ensures h.outcome.Send? && h.outcome.reply.status == 200
    ensures h.outcome.reply.body == Records(areas)
  {
    Handled([ListCall], Send(Reply(200, Records(areas))))
  }

  /** POST /disaster-areas. `created` is the row the repository returns when
      it is called. */
  function HandleCreate(body: Json, created: Area): (h: Handled)
    ensures h.outcome.Send?
    ensures h.calls == [] <==> !ValidCreate(body)
    ensures !ValidCreate(body) ==>
              h.outcome.reply.status == 400
              && h.outcome.reply.body.Error? && h.outcome.reply.body.message == InvalidPayload
              && h.outcome.reply.body.issues == Some(Check(body, CreateShape))
              && h.outcome.reply.body.issues.value != []
    ensures ValidCreate(body) ==>
              h.calls == [CreateCall(ParseCreate(body).value)]
              && h.outcome.reply == Reply(201, Record(created))
  {
    match ParseCreate(body)
    case Err(issues) => Handled([], Send(Reply(400, Error(InvalidPayload, Some(issues)))))
    case Ok(input) => Handled([CreateCall(input)], Send(Reply(201, Record(created))))
  }

  /** GET /disaster-areas/:id. `found` is what the repository returns. */
  function HandleGet(id: string, found: Option<Area>): (h: Handled)
    ensures h.calls == [GetCall(id)] && h.outcome.Send?
    ensures h.outcome.reply.status == 404 <==> found.None?
    ensures found.None? ==> h.outcome.reply.body == Error(NotFoundMessage, None)
    ensures found.Some? ==> h.outcome.reply == Reply(200, Record(found.value))
  {
    var reply := if found.None? then Reply(404, Error(NotFoundMessage, None))
                 else Reply(200, Record(found.value));
    Handled([GetCall(id)], Send(reply))
  }

  /** The update handler's catch block: an error whose message mentions an
      invalid field name becomes a 400 reply, any other error propagates
      unchanged. An empty message is falsy and propagates. */
  function Catch(message: string): (o: Outcome)
    ensures o.Rethrow? <==> !Contains(message, InvalidFieldName)
    ensures o.Rethrow? ==> o.message == message
    ensures o.Send? ==> o.reply == Reply(400, Error(InvalidFieldName, None))
  {
    IncludesIffOccurs(message, InvalidFieldName);
    if |message| > 0 && Includes(message, InvalidFieldName)
    then Send(Reply(400, Error(InvalidFieldName, None)))
    else Rethrow(message)
  }

  /** PUT /disaster-areas/:id. `result` is what the repository gives back
      when it is called. */
  function HandleUpdate(id: string, body: Json, result: UpdateResult): (h: Handled)
    ensures h.calls == [] <==> !ValidUpdate(body)
    ensures ValidUpdate(body) ==> h.calls == [UpdateCall(id, ParseUpdate(body).value)]
    ensures !ValidUpdate(body) ==>
              h.outcome.Send? && h.outcome.reply.status == 400
              && h.outcome.reply.body.Error? && h.outcome.reply.body.message == InvalidPayload
              && h.outcome.reply.body.issues == Some(Check(body, UpdateShape))
              && h.outcome.reply.body.issues.value != []
    ensures h.outcome.Rethrow? <==>
              ValidUpdate(body) && result.Failed? && !Contains(result.message, InvalidFieldName)
    ensures h.outcome.Rethrow? ==> h.outcome.message == result.message
    ensures h.outcome.Send? ==> h.outcome.reply.status in {200, 400, 404}
    ensures h.outcome.Send? && h.outcome.reply.status == 200 <==> ValidUpdate(body) && result.Updated?
    ensures h.outcome.Send? && h.outcome.reply.status == 404 <==> ValidUpdate(body) && result.NotFound?
    ensures ValidUpdate(body) && result.Updated? ==> h.outcome.reply == Reply(200, Record(result.area))
    ensures ValidUpdate(body) && result.NotFound? ==> h.outcome.reply.body == Error(NotFoundMessage, None)
    ensures ValidUpdate(body) && result.Failed? && Contains(result.message, InvalidFieldName) ==>
              h.outcome == Send(Reply(400, Error(InvalidFieldName, None)))
  {
    match ParseUpdate(body)
    case Err(issues) => Handled([], Send(Reply(400, Error(InvalidPayload, Some(issues)))))
    case Ok(patch) =>
      var outcome :=
        match result
        case NotFound => Send(Reply(404, Error(NotFoundMessage, None)))
        case Updated(area) => Send(Reply(200, Record(area)))
        case Failed(message) => Catch(message);
      Handled([UpdateCall(id, patch)], outcome)
  }

  /** DELETE /disaster-areas/:id. `deleted` is what the repository reports. */
  function HandleDelete(id: string, deleted: bool): (h: Handled)
    ensures h.calls == [DeleteCall(id)] && h.outcome.Send?
    ensures h.outcome.reply.status in {204, 404}
    ensures h.outcome.reply.status == 204 <==> deleted
    ensures deleted ==> h.outcome.reply.body == Empty
    ensures !deleted ==> h.outcome.reply.body == Error(NotFoundMessage, None)
  {
    var reply := if deleted then Reply(204, Empty) else Reply(404, Error(NotFoundMessage, None));
    Handled([DeleteCall(id)], Send(reply))
  }

  /** A rejected payload never reaches the repository: the handler makes no
      call, and its reply is the same whatever the repository would have
      answered. */
  lemma InvalidPayloadNeverReachesRepository(id: string, body: Json, created1: Area, created2: Area,
                                            result1: UpdateResult, result2: UpdateResult)
    ensures !ValidCreate(body) ==>
              HandleCreate(body, created1).calls == [] && HandleCreate(body, created1) == HandleCreate(body, created2)
    ensures !ValidUpdate(body) ==>
              HandleUpdate(id, body, result1).calls == [] && HandleUpdate(id, body, result1) == HandleUpdate(id, body, result2)
  {
  }
}
