/** The webhook handler of src/openclaw/webhook-handler.js: validation and
    defaults of an ingest webhook, the single insert of a thought, and the two
    reads of the thoughts table. Each operation is one call of the `Database`
    gateway, so it opens and closes one connection. */
module Webhook {
  import opened Wrappers
  import opened Json
  import opened Storage
  import Sqlite

  /** The object `ingestThought` destructures. */
  datatype IngestRequest = IngestRequest(content: JsValue, source: JsValue, tags: JsValue, metadata: JsValue)

  const ContentRequired: string := "Content is required"
  const WebhookSource: JsValue := Str("openclaw")
  const NoTags: JsValue := Arr([])
  const NoMetadata: JsValue := Obj(map[])
  const DefaultLimit: int := 10

  /** `handleIngest` up to its call of `ingestThought`: destructure the body
      with its defaults, reject falsy content, and keep `tags` only when it
      is an array. */
  function PrepareWebhook(data: JsValue): (r: Result<IngestRequest, string>)
    ensures r.Ok? ==> Truthy(r.value.content) && r.value.tags.Arr?
  {
    if data.Undefined? || data.Null? then Err(DestructureError("content"))
    else
      var content := Get(data, "content").value;
      var source := OrDefault(Get(data, "source").value, WebhookSource);
      var tags := OrDefault(Get(data, "tags").value, NoTags);
      var metadata := OrDefault(Get(data, "metadata").value, NoMetadata);
      if !Truthy(content) then Err(ContentRequired)
      else Ok(IngestRequest(content, source, if tags.Arr? then tags else NoTags, metadata))
  }

  /** The INSERT `ingestThought` sends: its own defaults for `tags` and
      `metadata`, both serialised; `now` is the `datetime('now')` reading. */
  function InsertStatement(req: IngestRequest, now: int): (s: Statement)
    ensures s.InsertThought?
  {
    InsertThought(
      req.content, req.source,
      Stringify(OrDefault(req.tags, NoTags)), Stringify(OrDefault(req.metadata, NoMetadata)),
      now)
  }

  /** `ingestThought(req)` on the store file. */
  function IngestSpec(engine: Engine, f: StoreFile, req: IngestRequest, now: int): (StoreFile, Result<RunInfo, string>) {
    RunSpec(engine, f, InsertStatement(req, now))
  }

  /** `handleIngest(data)` on the store file: a rejected body leaves the file
      as it was. */
  function HandleIngestSpec(engine: Engine, f: StoreFile, data: JsValue, now: int): (StoreFile, Result<RunInfo, string>) {
    var prepared := PrepareWebhook(data);
    if prepared.Err? then (f, Err(prepared.error)) else IngestSpec(engine, f, prepared.value, now)
  }

  /** The `limit` parameter after its default. */
  function RecentLimit(limit: Option<int>): int {
    if limit.None? then DefaultLimit else limit.value
  }

  /** The LIKE pattern of `searchThoughts(query)`. */
  function SearchPattern(query: string): string {
    "%" + query + "%"
  }

  class WebhookHandler {
    const db: Database

    constructor (db: Database)
      ensures this.db == db
    {
      this.db := db;
    }

    /** `ingestThought({ content, source, tags, metadata })`. */
    method IngestThought(req: IngestRequest, now: int) returns (r: Result<RunInfo, string>)
      requires db.Valid()
      modifies db
      ensures db.Valid()
      ensures (db.file, r) == IngestSpec(db.engine, old(db.file), req, now)
      ensures db.opens == old(db.opens) + 1 && db.closes == old(db.closes) + 1
    {
      r := db.Run(InsertStatement(req, now));
    }

    /** `handleIngest(data)`: a rejected body throws before any connection is
        opened. */
    method HandleIngest(data: JsValue, now: int) returns (r: Result<RunInfo, string>)
      requires db.Valid()
      modifies db
      ensures db.Valid()
      ensures (db.file, r) == HandleIngestSpec(db.engine, old(db.file), data, now)
      ensures PrepareWebhook(data).Err? ==> db.opens == old(db.opens) && db.closes == old(db.closes)
      ensures PrepareWebhook(data).Ok? ==> db.opens == old(db.opens) + 1 && db.closes == old(db.closes) + 1
    {
      var prepared := PrepareWebhook(data);
      if prepared.Err? {
        return Err(prepared.error);
      }
      r := IngestThought(prepared.value, now);
    }

    /** `getRecentThoughts(limit)`; `None` is an absent argument. */
    method GetRecentThoughts(limit: Option<int>) returns (r: Result<seq<Thought>, string>)
      requires db.Valid()
      modifies db
      ensures db.Valid()
      ensures (db.file, r) == QuerySpec(db.engine, old(db.file), Recent(RecentLimit(limit)))
      ensures db.opens == old(db.opens) + 1 && db.closes == old(db.closes) + 1
    {
      r := db.Query(Recent(RecentLimit(limit)));
    }

    /** `searchThoughts(query)`. */
    method SearchThoughts(query: string) returns (r: Result<seq<Thought>, string>)
      requires db.Valid()
      modifies db
      ensures db.Valid()
      ensures (db.file, r) == QuerySpec(db.engine, old(db.file), Matching(SearchPattern(query)))
      ensures db.opens == old(db.opens) + 1 && db.closes == old(db.closes) + 1
    {
      r := db.Query(Matching(SearchPattern(query)));
    }
  }

  // ---------------------------------------------------------------------
  // What the handler guarantees
  // ---------------------------------------------------------------------

  /** `handleIngest` goes on to the insert exactly when the body is an
      object-like value with truthy content; otherwise it throws "Content is
      required" (or, for an undefined or null body, the destructuring
      TypeError) and the store is untouched. */
  lemma HandleIngestRejectsFalsyContent(engine: Engine, f: StoreFile, data: JsValue, now: int)
    ensures PrepareWebhook(data).Ok? <==> !data.Undefined? && !data.Null? && Truthy(Get(data, "content").value)
    ensures var (f', r) := HandleIngestSpec(engine, f, data, now);
      && (!data.Undefined? && !data.Null? && !Truthy(Get(data, "content").value) ==>
            f' == f && r == Err(ContentRequired))
      && (data.Undefined? || data.Null? ==> f' == f && r == Err(DestructureError("content")))
  {
  }

  /** The defaults of `handleIngest` replace an absent property only: a
      supplied value, even `""` or `null`, is kept as it is, except that a
      `tags` value that is not an array becomes `[]`. */
  lemma WebhookDefaults(props: map<string, JsValue>)
    requires Truthy(Prop(props, "content"))
    ensures var r := PrepareWebhook(Obj(props));
      && r.Ok?
      && r.value.content == Prop(props, "content")
      && (Prop(props, "source").Undefined? ==> r.value.source == Str("openclaw"))
      && (!Prop(props, "source").Undefined? ==> r.value.source == Prop(props, "source"))
      && (Prop(props, "metadata").Undefined? ==> r.value.metadata == Obj(map[]))
      && (!Prop(props, "metadata").Undefined? ==> r.value.metadata == Prop(props, "metadata"))
      && (Prop(props, "tags").Arr? ==> r.value.tags == Prop(props, "tags"))
      && (!Prop(props, "tags").Arr? ==> r.value.tags == Arr([]))
  {
  }

  /** The value of a property that a lemma on the stored row talks about. */
  ghost predicate Supplied(props: map<string, JsValue>, key: string, v: JsValue) {
    key in props && props[key] == v
  }

  /** A comma-separated `tags` string sent to the webhook is not split: the
      stored row's tags are the serialisation of `[]`. */
  lemma WebhookDiscardsStringTags(engine: Engine, f: StoreFile, props: map<string, JsValue>, s: string, now: int)
    requires Truthy(Prop(props, "content")) && Supplied(props, "tags", Str(s))
    ensures var (f', r) := HandleIngestSpec(engine, f, Obj(props), now);
      r.Ok? ==> |f'.thoughts| == |f.thoughts| + 1 && f'.thoughts[|f.thoughts|].tags == Stringify(Arr([]))
  {
  }

  /** `ingestThought` performs one insert: on success it appends exactly one
      row, holding the request's content and source, the serialised tags and
      metadata (or `[]` and `{}` when absent) and the clock reading, under the
      returned `lastID`, which no earlier row has; every earlier row is left
      as it was. On failure no row changes. */
  lemma IngestThoughtAppendsOneRow(engine: Engine, f: StoreFile, req: IngestRequest, now: int)
    requires WellFormed(f)
    ensures var (f', r) := IngestSpec(engine, f, req, now);
      && WellFormed(f')
      && (r.Ok? ==>
            && f'.thoughts[..|f.thoughts|] == f.thoughts
            && f'.thoughts == f.thoughts + [Thought(r.value.lastID, req.content, req.source,
                  Stringify(OrDefault(req.tags, Arr([]))), Stringify(OrDefault(req.metadata, Obj(map[]))), now)]
            && (forall i :: 0 <= i < |f.thoughts| ==> f.thoughts[i].id != r.value.lastID))
      && (r.Err? ==> f'.thoughts == f.thoughts)
      && f'.migrations == f.migrations
  {
    InsertAppendsOneFreshRow(engine, f, InsertStatement(req, now));
    var (f', r) := IngestSpec(engine, f, req, now);
    if r.Ok? {
      assert (f.thoughts + [f'.thoughts[|f.thoughts|]])[..|f.thoughts|] == f.thoughts;
    }
  }

  /** A webhook with truthy content stores exactly one row with that content,
      `'openclaw'` as source when none was given, and a fresh id. */
  lemma HandleIngestStoresOneRow(engine: Engine, f: StoreFile, props: map<string, JsValue>, now: int)
    requires WellFormed(f) && Truthy(Prop(props, "content"))
    ensures var (f', r) := HandleIngestSpec(engine, f, Obj(props), now);
      && WellFormed(f')
      && (r.Ok? ==>
            && |f'.thoughts| == |f.thoughts| + 1
            && f'.thoughts[..|f.thoughts|] == f.thoughts
            && var row := f'.thoughts[|f.thoughts|];
               && row.id == r.value.lastID && row.content == Prop(props, "content") && row.createdAt == now
               && ("source" !in props ==> row.source == Str("openclaw"))
               && (forall i :: 0 <= i < |f.thoughts| ==> f.thoughts[i].id != row.id))
      && (r.Err? ==> f'.thoughts == f.thoughts)
  {
    WebhookDefaults(props);
    IngestThoughtAppendsOneRow(engine, f, PrepareWebhook(Obj(props)).value, now);
  }

  /** `getRecentThoughts(limit)`: `limit` defaults to 10; the rows come
      newest first, at most `limit` of them, all of them when there are no
      more than `limit`, and none left out is newer than one returned. A read
      changes no row. */
  lemma RecentThoughtsContract(engine: Engine, f: StoreFile, limit: Option<int>)
    ensures RecentLimit(None) == 10
    ensures var (f', r) := QuerySpec(engine, f, Recent(RecentLimit(limit)));
      var n := RecentLimit(limit);
      && f'.thoughts == f.thoughts && f'.migrations == f.migrations
      && (r.Ok? <==> ErrorOf(engine, f, SelectThoughts(Recent(n))).None?)
      && (r.Ok? ==>
            && NewestFirst(r.value)
            && multiset(r.value) <= multiset(f.thoughts)
            && (n >= 0 ==> |r.value| <= n)
            && (0 <= |f.thoughts| <= n ==> multiset(r.value) == multiset(f.thoughts))
            && (forall x, y :: x in r.value && y in multiset(f.thoughts) - multiset(r.value) ==> y.createdAt <= x.createdAt))
  {
    var n := RecentLimit(limit);
    var x := Execute(engine, f, SelectThoughts(Recent(n)));
    assert x.0.thoughts == f.thoughts && x.0.migrations == f.migrations;
    if x.1.None? {
      var rows := RecentRows(f.thoughts, n);
      assert QuerySpec(engine, f, Recent(n)) == (x.0, Ok(rows));
      assert n >= 0 ==> |rows| <= n;
    }
  }

  /** `searchThoughts(query)` returns the rows whose text content contains
      the query, ignoring ASCII case, each as often as it is stored, newest
      first; this holds when the query has no `%` or `_`, which LIKE would
      read as wildcards. */
  lemma SearchThoughtsContract(engine: Engine, f: StoreFile, query: string)
    requires Sqlite.NoWildcards(query)
    ensures var (f', r) := QuerySpec(engine, f, Matching(SearchPattern(query)));
      && f'.thoughts == f.thoughts
      && (r.Ok? ==>
            && NewestFirst(r.value)
            && forall t: Thought :: multiset(r.value)[t] ==
                 if t.content.Str? && Sqlite.ContainsFolded(t.content.s, query) then multiset(f.thoughts)[t] else 0)
  {
    var x := Execute(engine, f, SelectThoughts(Matching(SearchPattern(query))));
    assert x.0.thoughts == f.thoughts;
    SearchRowsContainQuery(f.thoughts, query);
  }

  lemma SearchRowsContainQuery(rows: seq<Thought>, query: string)
    requires Sqlite.NoWildcards(query)
    ensures var r := MatchingRows(rows, SearchPattern(query));
      forall t: Thought :: multiset(r)[t] ==
        if t.content.Str? && Sqlite.ContainsFolded(t.content.s, query) then multiset(rows)[t] else 0
  {
    var r := MatchingRows(rows, SearchPattern(query));
    forall t: Thought ensures multiset(r)[t] ==
      if t.content.Str? && Sqlite.ContainsFolded(t.content.s, query) then multiset(rows)[t] else 0
    {
      if t.content.Str? {
        Sqlite.SearchPatternMatches(query, t.content.s);
      }
    }
  }
}
