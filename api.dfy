/** The two ingest routes of src/api.js. `POST /ingest` checks the content,
    defaults the source to `'api'`, turns a comma-separated tags string into a
    list of trimmed pieces, and hands the thought to `ingestThought`.
    `POST /webhooks/ingest` hands the body to `handleIngest`. Each route turns
    what the handler throws into a 500 response. */
module Api {
  import opened Wrappers
  import opened Json
  import opened JsString
  import opened Storage
  import opened Webhook

  /** What a route sends: the status code and the JSON body. */
  datatype Response = Response(status: nat, body: JsValue)

  const ApiSource: JsValue := Str("api")

  function ErrorBody(message: string): JsValue {
    Obj(map["error" := Str(message)])
  }

  function SuccessBody(thoughtId: int): JsValue {
    Obj(map["success" := Bool(true), "thoughtId" := Num(thoughtId)])
  }

  function ReceivedBody(): JsValue {
    Obj(map["received" := Bool(true), "processed" := Bool(true)])
  }

  function ReceivedErrorBody(message: string): JsValue {
    Obj(map["received" := Bool(true), "error" := Str(message)])
  }

  /** The message of the TypeError raised by `tags.split` when `tags` is
      neither an array nor a string. */
  function SplitError(tags: JsValue): string {
    if tags.Null? then "Cannot read properties of null (reading 'split')"
    else if tags.Undefined? then "Cannot read properties of undefined (reading 'split')"
    else "tags.split is not a function"
  }

  /** `pieces.map(t => t.trim())`. */
  function TrimAll(pieces: seq<string>): (r: seq<JsValue>)
    ensures |r| == |pieces|
    ensures forall i :: 0 <= i < |pieces| ==> r[i] == Str(Trim(pieces[i]))
  {
    seq(|pieces|, i requires 0 <= i < |pieces| => Str(Trim(pieces[i])))
  }

  /** `s.split(',').map(t => t.trim())`. */
  function TrimmedPieces(s: string): (r: seq<JsValue>)
    ensures |r| == Count(s, ',') + 1
  {
    TrimAll(Split(s, ','))
  }

  /** `Array.isArray(tags) ? tags : tags.split(',').map(t => t.trim())`:
      an array is kept as it is, a string becomes one trimmed tag per
      comma-separated piece, and any other value has no `split` and throws. */
  function NormaliseTags(tags: JsValue): (r: Result<JsValue, string>)
    ensures r.Ok? <==> tags.Arr? || tags.Str?
    ensures r.Ok? ==> r.value.Arr?
    ensures tags.Arr? ==> r == Ok(tags)
    ensures tags.Str? ==> |r.value.items| == Count(tags.s, ',') + 1
    ensures r.Err? ==> r.error == SplitError(tags)
  {
    match tags
    case Arr(_) => Ok(tags)
    case Str(s) => Ok(Arr(TrimmedPieces(s)))
    case _ => Err(SplitError(tags))
  }

  /** The `/ingest` route up to its call of `ingestThought`: the request to
      forward, or the response that ends the route there. Metadata is not
      forwarded. */
  function PrepareIngest(body: JsValue): (r: Result<IngestRequest, Response>)
    ensures r.Ok? ==> Truthy(r.value.content) && r.value.tags.Arr? && r.value.metadata.Undefined?
    ensures r.Err? ==> r.error.status == 400 || r.error.status == 500
  {
    if body.Undefined? || body.Null? then Err(Response(500, ErrorBody(DestructureError("content"))))
    else
      var content := Get(body, "content").value;
      var source := OrDefault(Get(body, "source").value, ApiSource);
      var tags := OrDefault(Get(body, "tags").value, NoTags);
      if !Truthy(content) then Err(Response(400, ErrorBody(ContentRequired)))
      else
        match NormaliseTags(tags)
        case Err(e) => Err(Response(500, ErrorBody(e)))
        case Ok(t) => Ok(IngestRequest(content, source, t, Undefined))
  }

  /** `POST /ingest` on the store file. */
  function PostIngestSpec(engine: Engine, f: StoreFile, body: JsValue, now: int): (StoreFile, Response) {
    var prepared := PrepareIngest(body);
    if prepared.Err? then (f, prepared.error)
    else
      var (f', r) := IngestSpec(engine, f, prepared.value, now);
      if r.Err? then (f', Response(500, ErrorBody(r.error)))
      else (f', Response(200, SuccessBody(r.value.lastID)))
  }

  /** `POST /webhooks/ingest` on the store file. */
  function PostWebhookSpec(engine: Engine, f: StoreFile, body: JsValue, now: int): (StoreFile, Response) {
    var (f', r) := HandleIngestSpec(engine, f, body, now);
    if r.Err? then (f', Response(500, ReceivedErrorBody(r.error)))
    else (f', Response(200, ReceivedBody()))
  }

  /** The server, reduced to the handler its two ingest routes call. */
  class ApiServer {
    const handler: WebhookHandler

    constructor (handler: WebhookHandler)
      ensures this.handler == handler
    {
      this.handler := handler;
    }

    /** The body of the `POST /ingest` route. */
    method PostIngest(body: JsValue, now: int) returns (res: Response)
      requires handler.db.Valid()
      modifies handler.db
      ensures handler.db.Valid()
      ensures (handler.db.file, res) == PostIngestSpec(handler.db.engine, old(handler.db.file), body, now)
    {
      var prepared := PrepareIngest(body);
      if prepared.Err? {
        return prepared.error;
      }
      var result := handler.IngestThought(prepared.value, now);
      if result.Err? {
        return Response(500, ErrorBody(result.error));
      }
      res := Response(200, SuccessBody(result.value.lastID));
    }

    /** The body of the `POST /webhooks/ingest` route. */
    method PostWebhookIngest(body: JsValue, now: int) returns (res: Response)
      requires handler.db.Valid()
      modifies handler.db
      ensures handler.db.Valid()
      ensures (handler.db.file, res) == PostWebhookSpec(handler.db.engine, old(handler.db.file), body, now)
    {
      var result := handler.HandleIngest(body, now);
      if result.Err? {
        return Response(500, ReceivedErrorBody(result.error));
      }
      res := Response(200, ReceivedBody());
    }
  }

  // ---------------------------------------------------------------------
  // What the routes guarantee
  // ---------------------------------------------------------------------

  /** `/ingest` answers 400 "Content is required", and inserts nothing,
      exactly when the body's content is falsy. */
  lemma IngestRejectsFalsyContent(engine: Engine, f: StoreFile, props: map<string, JsValue>, now: int)
    ensures var (f', res) := PostIngestSpec(engine, f, Obj(props), now);
      && (res.status == 400 <==> !Truthy(Prop(props, "content")))
      && (res.status == 400 ==> f' == f && res.body == ErrorBody("Content is required"))
  {
    var (f', res) := PostIngestSpec(engine, f, Obj(props), now);
    var prepared := PrepareIngest(Obj(props));
    if prepared.Ok? {
      var r := IngestSpec(engine, f, prepared.value, now).1;
      assert res.status == (if r.Err? then 500 else 200);
    }
  }

  /** A string of tags becomes the trimmed pieces between its commas: for any
      way of writing `s` as comma-free pieces joined by commas, the tags are
      those pieces, trimmed, in order, empty ones included. */
  lemma StringTagsAreTrimmedPieces(s: string, pieces: seq<string>)
    requires |pieces| >= 1 && Join(pieces, ',') == s
    requires forall i :: 0 <= i < |pieces| ==> ',' !in pieces[i]
    ensures NormaliseTags(Str(s)) == Ok(Arr(TrimAll(pieces)))
  {
    SplitJoin(pieces, ',');
    assert Split(s, ',') == pieces;
    assert TrimmedPieces(s) == TrimAll(pieces);
  }

  /** The number of tags from a string is its number of commas plus one, and
      the untrimmed pieces join back to the string. */
  lemma StringTagsCount(s: string)
    ensures var r := NormaliseTags(Str(s));
      && r.Ok? && r.value.Arr? && |r.value.items| == Count(s, ',') + 1
      && Join(Split(s, ','), ',') == s
      && forall i :: 0 <= i < |r.value.items| ==> r.value.items[i] == Str(Trim(Split(s, ',')[i]))
  {
    JoinSplit(s, ',');
  }

  /** A character between two spaces trims to itself. */
  lemma TrimSpaced(c: char)
    requires !IsTrimmable(c)
    ensures Trim([' ', c, ' ']) == [c]
  {
    var s := [' ', c, ' '];
    assert TrimStart(s) == TrimStart(s[1..]) == s[1..];
    assert TrimEnd(s[1..]) == s[1..2];
  }

  /** A single non-blank character trims to itself. */
  lemma TrimSingle(c: char)
    requires !IsTrimmable(c)
    ensures Trim([c]) == [c]
  {
  }

  lemma JoinOfThree(a: string, b: string, c: string)
    ensures Join([a, b, c], ',') == a + "," + b + "," + c
  {
    assert [a, b, c][1..] == [b, c] && [b, c][1..] == [c];
    assert Join([b, c], ',') == b + "," + c;
    assert a + "," + (b + "," + c) == a + "," + b + "," + c;
  }

  lemma TrimAllOfThree(a: string, b: string, c: string)
    ensures TrimAll([a, b, c]) == [Str(Trim(a)), Str(Trim(b)), Str(Trim(c))]
  {
    var r := TrimAll([a, b, c]);
    assert |r| == 3 && r[0] == Str(Trim(a)) && r[1] == Str(Trim(b)) && r[2] == Str(Trim(c));
    ThreeElements(r, Str(Trim(a)), Str(Trim(b)), Str(Trim(c)));
  }

  lemma ThreeElements<T>(r: seq<T>, x: T, y: T, z: T)
    requires |r| == 3 && r[0] == x && r[1] == y && r[2] == z
    ensures r == [x, y, z]
  {
  }

  lemma ThreeStringTags(s: string, a: string, b: string, c: string)
    requires Join([a, b, c], ',') == s
    requires ',' !in a && ',' !in b && ',' !in c
    ensures NormaliseTags(Str(s)) == Ok(Arr([Str(Trim(a)), Str(Trim(b)), Str(Trim(c))]))
  {
    StringTagsAreTrimmedPieces(s, [a, b, c]);
    TrimAllOfThree(a, b, c);
  }

  /** Three one-character tags written `x, y ,z` become `[x, y, z]`. */
  lemma SpacedCommaTags(x: char, y: char, z: char)
    requires !IsTrimmable(x) && !IsTrimmable(y) && !IsTrimmable(z)
    requires x != ',' && y != ',' && z != ','
    ensures NormaliseTags(Str([x, ',', ' ', y, ' ', ',', z])) == Ok(Arr([Str([x]), Str([y]), Str([z])]))
  {
    var a, b, c := [x], [' ', y, ' '], [z];
    JoinOfThree(a, b, c);
    assert a + "," + b + "," + c == [x, ',', ' ', y, ' ', ',', z];
    ThreeStringTags([x, ',', ' ', y, ' ', ',', z], a, b, c);
    TrimSingle(x);
    TrimSpaced(y);
    TrimSingle(z);
  }

  /** `"a, b ,c"` becomes `["a", "b", "c"]`. */
  lemma CommaTagsExample(s: string)
    requires s == "a, b ,c"
    ensures NormaliseTags(Str(s)) == Ok(Arr([Str("a"), Str("b"), Str("c")]))
  {
    SpacedCommaTags('a', 'b', 'c');
  }

  /** An array of tags reaches the store as it was sent. */
  lemma ArrayTagsPassThrough(engine: Engine, f: StoreFile, props: map<string, JsValue>, items: seq<JsValue>, now: int)
    requires WellFormed(f) && Truthy(Prop(props, "content"))
    requires "tags" in props && props["tags"] == Arr(items)
    ensures var (f', res) := PostIngestSpec(engine, f, Obj(props), now);
      res.status == 200 ==> |f'.thoughts| == |f.thoughts| + 1 && f'.thoughts[|f.thoughts|].tags == Stringify(Arr(items))
  {
    var prepared := PrepareIngest(Obj(props));
    assert prepared == Ok(IngestRequest(Prop(props, "content"), OrDefault(Prop(props, "source"), ApiSource), Arr(items), Undefined));
    IngestThoughtAppendsOneRow(engine, f, prepared.value, now);
  }

  /** A successful `/ingest` stored exactly one row, with the body's content,
      source `'api'` when none was given, tags `[]` when none were given and
      metadata `{}`; its `thoughtId` is that row's id, which no earlier row
      has. */
  lemma IngestReturnsStoredId(engine: Engine, f: StoreFile, props: map<string, JsValue>, now: int)
    requires WellFormed(f)
    ensures var (f', res) := PostIngestSpec(engine, f, Obj(props), now);
      && WellFormed(f')
      && (res.status == 200 ==>
            && |f'.thoughts| == |f.thoughts| + 1
            && f'.thoughts[..|f.thoughts|] == f.thoughts
            && var row := f'.thoughts[|f.thoughts|];
               && res.body == SuccessBody(row.id)
               && row.content == Prop(props, "content")
               && ("source" !in props ==> row.source == Str("api"))
               && ("tags" !in props ==> row.tags == Stringify(Arr([])))
               && row.metadata == Stringify(Obj(map[]))
               && (forall i :: 0 <= i < |f.thoughts| ==> f.thoughts[i].id != row.id))
      && (res.status != 200 ==> f'.thoughts == f.thoughts)
  {
    var prepared := PrepareIngest(Obj(props));
    if prepared.Ok? {
      IngestThoughtAppendsOneRow(engine, f, prepared.value, now);
    }
  }

  /** Whatever the handler throws while `/ingest` runs becomes a 500 response
      carrying only the message: no `success` and no `thoughtId`. */
  lemma IngestErrorsMapTo500(engine: Engine, f: StoreFile, body: JsValue, now: int)
    ensures var (f', res) := PostIngestSpec(engine, f, body, now);
      && (res.status == 200 || res.status == 400 || res.status == 500)
      && (res.status != 200 ==> res.body.Obj? && "success" !in res.body.props && "thoughtId" !in res.body.props)
      && (var p := PrepareIngest(body);
          p.Ok? && IngestSpec(engine, f, p.value, now).1.Err? ==>
            res == Response(500, ErrorBody(IngestSpec(engine, f, p.value, now).1.error)))
  {
  }

  /** `/webhooks/ingest` answers 500 exactly when `handleIngest` throws, with
      `received: true` and the error's message; otherwise 200 with
      `received` and `processed`. A comma-separated tags string is not split
      on this route. */
  lemma WebhookErrorsMapTo500(engine: Engine, f: StoreFile, body: JsValue, now: int)
    ensures var (f', res) := PostWebhookSpec(engine, f, body, now);
      var r := HandleIngestSpec(engine, f, body, now).1;
      && (res.status == 500 <==> r.Err?)
      && (r.Err? ==> res.body == ReceivedErrorBody(r.error))
      && (r.Ok? ==> res == Response(200, ReceivedBody()))
      && (res.body.Obj? && res.body.props["received"] == Bool(true))
  {
  }
}
