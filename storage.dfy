/** The storage layer of src/database.js: one SQLite file holding the thoughts
    table and the migrations bookkeeping table, reached through a connection
    that every operation opens and closes again. The SQL engine is abstract:
    an `Engine` says, for each statement, whether it is rejected and with
    which message. */
module Storage {
  import opened Wrappers
  import opened Json
  import opened JsString
  import Sqlite

  type Sql = string

  /** One file of the migrations directory: its name and the SQL it holds. */
  datatype MigrationFile = MigrationFile(name: string, sql: Sql)

  /** One row of the thoughts table. `content` and `source` are the bound
      values; `tags` and `metadata` are their `JSON.stringify` text;
      `createdAt` is the clock reading `datetime('now')` gave at insert. */
  datatype Thought = Thought(
    id: int,
    content: JsValue,
    source: JsValue,
    tags: Serialized,
    metadata: Serialized,
    createdAt: int)

  /** The SELECTs on the thoughts table: newest first with a LIMIT, newest
      first among the rows whose content is LIKE a pattern, and newest first
      among the rows created after a cutoff (the digest window). */
  datatype Query =
    | Recent(limit: int)
    | Matching(pattern: string)
    | CreatedAfter(cutoff: int)

  /** The statements the core sends to the engine. */
  datatype Statement =
    | CreateMigrationsTable
    | SelectApplied
    | RunMigration(file: string, sql: Sql)
    | RecordMigration(file: string)
    | InsertThought(content: JsValue, source: JsValue, tags: Serialized, metadata: Serialized, createdAt: int)
    | SelectThoughts(query: Query)

  /** A statement the engine was asked to run, and the error it raised, if any. */
  datatype Exec = Exec(stmt: Statement, error: Option<string>)

  /** The contents of the database file. `schema` lists the migration SQL the
      engine accepted, in order; `log` lists every statement sent to it. */
  datatype StoreFile = StoreFile(
    thoughts: seq<Thought>,
    nextId: int,
    hasMigrationsTable: bool,
    migrations: seq<string>,
    schema: seq<Sql>,
    log: seq<Exec>)

  /** Whether the engine rejects a statement on a given file, and with what
      message. Which statements fail (a constraint, a full disk, bad SQL) is a
      given of the model. */
  datatype Engine = Engine(rejects: (StoreFile, Statement) -> Option<string>)

  datatype Outcome = Done | Failed(message: string)

  /** What `run` resolves with: `this.lastID` and `this.changes`. */
  datatype RunInfo = RunInfo(lastID: int, changes: nat)

  const NoMigrationsTable: string := "SQLITE_ERROR: no such table: migrations"

  /** The invariant of a database file: without a migrations table there are
      no recorded migrations, and row ids are distinct and below the next id. */
  ghost predicate WellFormed(f: StoreFile) {
    && (!f.hasMigrationsTable ==> f.migrations == [])
    && (forall i :: 0 <= i < |f.thoughts| ==> f.thoughts[i].id < f.nextId)
    && (forall i, j :: 0 <= i < j < |f.thoughts| ==> f.thoughts[i].id != f.thoughts[j].id)
  }

  // ---------------------------------------------------------------------
  // Executing one statement (`_run` / `_all`)
  // ---------------------------------------------------------------------

  /** The change a statement the engine accepted makes to the file. */
  function Effect(f: StoreFile, s: Statement): StoreFile {
    match s
    case CreateMigrationsTable => f.(hasMigrationsTable := true)
    case RunMigration(_, sql) => f.(schema := f.schema + [sql])
    case RecordMigration(name) => f.(migrations := f.migrations + [name])
    case InsertThought(c, src, tags, meta, at) =>
      f.(thoughts := f.thoughts + [Thought(f.nextId, c, src, tags, meta, at)], nextId := f.nextId + 1)
    case _ => f
  }

  /** The error a statement raises on file `f`: reading or writing the
      migrations table before it exists always fails; otherwise the engine
      decides. */
  function ErrorOf(engine: Engine, f: StoreFile, s: Statement): Option<string> {
    if (s.SelectApplied? || s.RecordMigration?) && !f.hasMigrationsTable then Some(NoMigrationsTable)
    else engine.rejects(f, s)
  }

  /** Sends one statement: it is logged, and on success its effect is applied;
      on failure nothing else changes. */
  function Execute(engine: Engine, f: StoreFile, s: Statement): (r: (StoreFile, Option<string>))
    ensures r.1 == ErrorOf(engine, f, s)
    ensures r.0.log == f.log + [Exec(s, r.1)]
    ensures r.1.Some? ==> r.0 == f.(log := r.0.log)
    ensures r.1.None? ==> r.0 == Effect(f, s).(log := r.0.log)
  {
    var err := ErrorOf(engine, f, s);
    var logged := f.(log := f.log + [Exec(s, err)]);
    if err.Some? then (logged, err) else (Effect(logged, s), None)
  }

  lemma ExecuteWellFormed(engine: Engine, f: StoreFile, s: Statement)
    requires WellFormed(f)
    ensures WellFormed(Execute(engine, f, s).0)
  {
    var r := Execute(engine, f, s);
    if r.1.None? && s.InsertThought? {
      assert forall i :: 0 <= i < |f.thoughts| ==> r.0.thoughts[i] == f.thoughts[i];
    }
  }

  // ---------------------------------------------------------------------
  // ORDER BY created_at DESC
  // ---------------------------------------------------------------------

  ghost predicate NewestFirst(s: seq<Thought>) {
    forall i, j :: 0 <= i < j < |s| ==> s[i].createdAt >= s[j].createdAt
  }

  function InsertNewest(t: Thought, s: seq<Thought>): (r: seq<Thought>)
    requires NewestFirst(s)
    ensures NewestFirst(r)
    ensures multiset(r) == multiset(s) + multiset{t}
  {
    if s == [] || t.createdAt >= s[0].createdAt then
      NewestInFront(t, s);
      [t] + s
    else
      var rest := InsertNewest(t, s[1..]);
      NewestBehindHead(t, s, rest);
      [s[0]] + rest
  }

  /** A row no older than the head goes in front. */
  lemma NewestInFront(t: Thought, s: seq<Thought>)
    requires NewestFirst(s) && (s == [] || t.createdAt >= s[0].createdAt)
    ensures NewestFirst([t] + s)
  {
    assert forall k :: 0 <= k < |s| ==> s[k].createdAt <= t.createdAt;
    ConsNewestFirst(t, s);
  }

  /** An older row goes behind the head, into the tail. */
  lemma NewestBehindHead(t: Thought, s: seq<Thought>, rest: seq<Thought>)
    requires NewestFirst(s) && |s| > 0 && t.createdAt < s[0].createdAt
    requires NewestFirst(rest) && multiset(rest) == multiset(s[1..]) + multiset{t}
    ensures NewestFirst([s[0]] + rest)
    ensures multiset([s[0]] + rest) == multiset(s) + multiset{t}
  {
    assert s == [s[0]] + s[1..];
    HeadOverInsert(t, s, rest);
    ConsNewestFirst(s[0], rest);
  }

  /** The head of a newest-first sequence is no older than any row of the
      tail with an older row `t` added. */
  lemma HeadOverInsert(t: Thought, s: seq<Thought>, rest: seq<Thought>)
    requires NewestFirst(s) && |s| > 0 && t.createdAt < s[0].createdAt
    requires multiset(rest) == multiset(s[1..]) + multiset{t}
    ensures forall k :: 0 <= k < |rest| ==> rest[k].createdAt <= s[0].createdAt
  {
    forall k | 0 <= k < |rest| ensures rest[k].createdAt <= s[0].createdAt {
      assert rest[k] in multiset(rest);
      if rest[k] != t {
        assert rest[k] in multiset(s[1..]);
        NewestFirstHead(s, rest[k]);
      }
    }
  }

  /** No row after the first of a newest-first sequence is newer than it. */
  lemma NewestFirstHead(s: seq<Thought>, x: Thought)
    requires NewestFirst(s) && |s| > 0 && x in s[1..]
    ensures x.createdAt <= s[0].createdAt
  {
    var j :| 0 <= j < |s[1..]| && s[1..][j] == x;
    assert s[j + 1] == x;
  }

  /** A row no older than every row of a newest-first sequence can go in front. */
  lemma ConsNewestFirst(x: Thought, s: seq<Thought>)
    requires NewestFirst(s)
    requires forall k :: 0 <= k < |s| ==> s[k].createdAt <= x.createdAt
    ensures NewestFirst([x] + s)
  {
    var r := [x] + s;
    forall i, j | 0 <= i < j < |r| ensures r[i].createdAt >= r[j].createdAt {
      if i > 0 { assert r[i] == s[i - 1] && r[j] == s[j - 1]; }
      else { assert r[j] == s[j - 1]; }
    }
  }

  /** The rows in the order `ORDER BY created_at DESC` returns them. Rows with
      equal timestamps keep their table order: SQLite leaves that order open,
      and this is one of the orders it may choose. */
  function SortNewestFirst(rows: seq<Thought>): (r: seq<Thought>)
    ensures NewestFirst(r)
    ensures multiset(r) == multiset(rows)
  {
    if rows == [] then []
    else
      assert rows == [rows[0]] + rows[1..];
      InsertNewest(rows[0], SortNewestFirst(rows[1..]))
  }

  /** The rows for which `keep` holds, in table order. */
  function Keep(rows: seq<Thought>, keep: Thought -> bool): (r: seq<Thought>)
    ensures forall t :: multiset(r)[t] == if keep(t) then multiset(rows)[t] else 0
  {
    if rows == [] then []
    else
      assert rows == [rows[0]] + rows[1..];
      (if keep(rows[0]) then [rows[0]] else []) + Keep(rows[1..], keep)
  }

  // ---------------------------------------------------------------------
  // The SELECTs on the thoughts table
  // ---------------------------------------------------------------------

  /** Cutting a newest-first sequence after `k` rows: no row left out is newer
      than a row kept. */
  lemma NewestFirstCut(s: seq<Thought>, k: nat)
    requires NewestFirst(s) && k <= |s|
    ensures multiset(s) - multiset(s[..k]) == multiset(s[k..])
    ensures forall x, y :: x in s[..k] && y in s[k..] ==> y.createdAt <= x.createdAt
  {
    assert s == s[..k] + s[k..];
    forall x, y | x in s[..k] && y in s[k..] ensures y.createdAt <= x.createdAt {
      var i :| 0 <= i < k && s[..k][i] == x;
      var j :| 0 <= j < |s| - k && s[k..][j] == y;
      assert s[i] == x && s[k + j] == y;
    }
  }

  /** Rearranging rows keeps their number. */
  lemma SameLength(a: seq<Thought>, b: seq<Thought>)
    requires multiset(a) == multiset(b)
    ensures |a| == |b|
  {
    assert |a| == |multiset(a)| && |b| == |multiset(b)|;
  }

  /** `SELECT * FROM thoughts ORDER BY created_at DESC LIMIT limit`: the
      `limit` newest rows, newest first; a negative LIMIT is no limit. */
  function RecentRows(rows: seq<Thought>, limit: int): (r: seq<Thought>)
    ensures NewestFirst(r)
    ensures multiset(r) <= multiset(rows)
    ensures |r| == if limit < 0 || |rows| <= limit then |rows| else limit
    ensures limit < 0 || |rows| <= limit ==> multiset(r) == multiset(rows)
    ensures forall x, y :: x in r && y in multiset(rows) - multiset(r) ==> y.createdAt <= x.createdAt
  {
    var sorted := SortNewestFirst(rows);
    SameLength(sorted, rows);
    var k := if limit < 0 || |rows| <= limit then |rows| else limit;
    NewestFirstCut(sorted, k);
    assert sorted[..|rows|] == sorted;
    sorted[..k]
  }

  /** Whether a row's content is LIKE the pattern. Only text content is
      compared; see README for the conversions SQLite applies to others. */
  predicate ContentLike(t: Thought, pattern: string) {
    t.content.Str? && Sqlite.Like(pattern, t.content.s)
  }

  /** `SELECT * FROM thoughts WHERE content LIKE pattern ORDER BY created_at DESC`. */
  function MatchingRows(rows: seq<Thought>, pattern: string): (r: seq<Thought>)
    ensures NewestFirst(r)
    ensures forall t :: multiset(r)[t] == if ContentLike(t, pattern) then multiset(rows)[t] else 0
  {
    SortNewestFirst(Keep(rows, (t: Thought) => ContentLike(t, pattern)))
  }

  /** `SELECT * FROM thoughts WHERE created_at > cutoff ORDER BY created_at DESC`. */
  function RowsAfter(rows: seq<Thought>, cutoff: int): (r: seq<Thought>)
    ensures NewestFirst(r)
    ensures forall t :: multiset(r)[t] == if t.createdAt > cutoff then multiset(rows)[t] else 0
  {
    SortNewestFirst(Keep(rows, (t: Thought) => t.createdAt > cutoff))
  }

  function Answer(rows: seq<Thought>, q: Query): seq<Thought> {
    match q
    case Recent(limit) => RecentRows(rows, limit)
    case Matching(pattern) => MatchingRows(rows, pattern)
    case CreatedAfter(cutoff) => RowsAfter(rows, cutoff)
  }

  /** `query(sql, params)` on the file: the rows, or the engine's error. */
  function QuerySpec(engine: Engine, f: StoreFile, q: Query): (StoreFile, Result<seq<Thought>, string>) {
    var r := Execute(engine, f, SelectThoughts(q));
    if r.1.Some? then (r.0, Err(r.1.value)) else (r.0, Ok(Answer(r.0.thoughts, q)))
  }

  /** `run(sql, params)` on the file for an insert: the new row's id and one
      change, or the engine's error. */
  function RunSpec(engine: Engine, f: StoreFile, s: Statement): (StoreFile, Result<RunInfo, string>) {
    var r := Execute(engine, f, s);
    if r.1.Some? then (r.0, Err(r.1.value)) else (r.0, Ok(RunInfo(f.nextId, 1)))
  }

  /** An insert either appends exactly one row, with the inserted values and
      an id no earlier row has, and returns that id; or it fails and leaves
      the rows as they were. */
  lemma InsertAppendsOneFreshRow(engine: Engine, f: StoreFile, s: Statement)
    requires WellFormed(f) && s.InsertThought?
    ensures var (f', r) := RunSpec(engine, f, s);
      && WellFormed(f')
      && (r.Ok? <==> engine.rejects(f, s).None?)
      && (r.Ok? ==>
            && f'.thoughts == f.thoughts + [Thought(r.value.lastID, s.content, s.source, s.tags, s.metadata, s.createdAt)]
            && r.value.changes == 1
            && (forall i :: 0 <= i < |f.thoughts| ==> f.thoughts[i].id != r.value.lastID))
      && (r.Err? ==> f'.thoughts == f.thoughts && r.error == engine.rejects(f, s).value)
      && f'.migrations == f.migrations && f'.schema == f.schema
  {
    ExecuteWellFormed(engine, f, s);
  }

  // ---------------------------------------------------------------------
  // Migrations
  // ---------------------------------------------------------------------

  predicate IsSqlFile(name: string) { EndsWith(name, ".sql") }

  /** `files.filter(f => f.endsWith('.sql'))`. */
  function SqlFiles(dir: seq<MigrationFile>): (r: seq<MigrationFile>)
    ensures forall m :: m in r <==> m in dir && IsSqlFile(m.name)
  {
    if dir == [] then []
    else (if IsSqlFile(dir[0].name) then [dir[0]] else []) + SqlFiles(dir[1..])
  }

  ghost predicate NamesAscending(s: seq<MigrationFile>) {
    forall i, j :: 0 <= i < j < |s| ==> LexLe(s[i].name, s[j].name)
  }

  function InsertByName(m: MigrationFile, s: seq<MigrationFile>): (r: seq<MigrationFile>)
    requires NamesAscending(s)
    ensures NamesAscending(r)
    ensures multiset(r) == multiset(s) + multiset{m}
  {
    if s == [] || LexLe(m.name, s[0].name) then
      AscendingInFront(m, s);
      [m] + s
    else
      var rest := InsertByName(m, s[1..]);
      AscendingBehindHead(m, s, rest);
      [s[0]] + rest
  }

  /** A file that sorts no later than the head goes in front. */
  lemma AscendingInFront(m: MigrationFile, s: seq<MigrationFile>)
    requires NamesAscending(s) && (s == [] || LexLe(m.name, s[0].name))
    ensures NamesAscending([m] + s)
  {
    forall j | 0 <= j < |s| ensures LexLe(m.name, s[j].name) {
      if j > 0 { LexLeTransitive(m.name, s[0].name, s[j].name); }
    }
    ConsAscending(m, s);
  }

  /** A file that sorts after the head goes behind it, into the tail. */
  lemma AscendingBehindHead(m: MigrationFile, s: seq<MigrationFile>, rest: seq<MigrationFile>)
    requires NamesAscending(s) && |s| > 0 && !LexLe(m.name, s[0].name)
    requires NamesAscending(rest) && multiset(rest) == multiset(s[1..]) + multiset{m}
    ensures NamesAscending([s[0]] + rest)
    ensures multiset([s[0]] + rest) == multiset(s) + multiset{m}
  {
    assert s == [s[0]] + s[1..];
    LexLeTotal(m.name, s[0].name);
    forall k | 0 <= k < |rest| ensures LexLe(s[0].name, rest[k].name) {
      assert rest[k] in multiset(rest);
      if rest[k] != m {
        assert rest[k] in multiset(s[1..]);
        AscendingHead(s, rest[k]);
      }
    }
    ConsAscending(s[0], rest);
  }

  /** No file after the first of a name-sorted sequence sorts before it. */
  lemma AscendingHead(s: seq<MigrationFile>, x: MigrationFile)
    requires NamesAscending(s) && |s| > 0 && x in s[1..]
    ensures LexLe(s[0].name, x.name)
  {
    var j :| 0 <= j < |s[1..]| && s[1..][j] == x;
    assert s[j + 1] == x;
  }

  /** A file that sorts before every file of a name-sorted sequence can go in front. */
  lemma ConsAscending(x: MigrationFile, s: seq<MigrationFile>)
    requires NamesAscending(s)
    requires forall k :: 0 <= k < |s| ==> LexLe(x.name, s[k].name)
    ensures NamesAscending([x] + s)
  {
    var r := [x] + s;
    forall i, j | 0 <= i < j < |r| ensures LexLe(r[i].name, r[j].name) {
      if i > 0 { assert r[i] == s[i - 1] && r[j] == s[j - 1]; }
      else { assert r[j] == s[j - 1]; }
    }
  }

  /** `.sort()` on file names: ascending in the default string order. */
  function SortByName(files: seq<MigrationFile>): (r: seq<MigrationFile>)
    ensures NamesAscending(r)
    ensures multiset(r) == multiset(files)
  {
    if files == [] then []
    else
      assert files == [files[0]] + files[1..];
      InsertByName(files[0], SortByName(files[1..]))
  }

  /** The files of `files` whose name is not in `applied`, in the same order. */
  function Pending(applied: seq<string>, files: seq<MigrationFile>): (r: seq<MigrationFile>)
    ensures forall m :: m in r <==> m in files && m.name !in applied
    ensures NamesAscending(files) ==> NamesAscending(r)
  {
    if files == [] then []
    else
      var rest := Pending(applied, files[1..]);
      assert forall m :: m in rest ==> m in files[1..];
      var r := (if files[0].name in applied then [] else [files[0]]) + rest;
      assert NamesAscending(files) ==> NamesAscending(r) by {
        if NamesAscending(files) && files[0].name !in applied {
          forall k | 0 <= k < |rest| ensures LexLe(files[0].name, rest[k].name) {
            assert rest[k] in files[1..];
            var j :| 0 <= j < |files[1..]| && files[1..][j] == rest[k];
            assert files[j + 1] == rest[k];
          }
        }
      }
      r
  }

  /** A failure reports the error of the last statement sent. */
  ghost predicate ReportsLastError(f: StoreFile, out: Outcome) {
    out.Failed? ==> |f.log| > 0 && f.log[|f.log| - 1].error == Some(out.message)
  }

  /** The loop of `migrate`: each file not in `applied`, in order, has its SQL
      run and is then recorded; the first error stops the loop. Statements
      are only ever appended to the log, and a failure is the error of the
      last statement sent. */
  function RunPending(engine: Engine, f: StoreFile, applied: seq<string>, files: seq<MigrationFile>): (r: (StoreFile, Outcome))
    ensures |f.log| <= |r.0.log| && r.0.log[..|f.log|] == f.log
    ensures r.1.Failed? ==> |f.log| < |r.0.log|
    ensures ReportsLastError(r.0, r.1)
    decreases |files|
  {
    if files == [] then (f, Done)
    else if files[0].name in applied then RunPending(engine, f, applied, files[1..])
    else
      var ran := Execute(engine, f, RunMigration(files[0].name, files[0].sql));
      if ran.1.Some? then (ran.0, Failed(ran.1.value))
      else
        var recorded := Execute(engine, ran.0, RecordMigration(files[0].name));
        if recorded.1.Some? then (recorded.0, Failed(recorded.1.value))
        else RunPending(engine, recorded.0, applied, files[1..])
  }

  /** `migrate()` on an open connection: ensure the bookkeeping table, read
      the applied names once, return if there is no migrations directory,
      otherwise run the pending `.sql` files in name order. The CREATE TABLE
      is the first statement sent, and a failure is the error of the last. */
  function MigrateSpec(engine: Engine, f: StoreFile, dir: Option<seq<MigrationFile>>): (r: (StoreFile, Outcome))
    ensures |f.log| < |r.0.log| && r.0.log[..|f.log|] == f.log
    ensures r.0.log[|f.log|].stmt == CreateMigrationsTable
    ensures ReportsLastError(r.0, r.1)
  {
    var created := Execute(engine, f, CreateMigrationsTable);
    if created.1.Some? then
      assert created.0.log[|created.0.log| - 1] == Exec(CreateMigrationsTable, created.1);
      (created.0, Failed(created.1.value))
    else
      var selected := Execute(engine, created.0, SelectApplied);
      if selected.1.Some? then
        assert selected.0.log[|selected.0.log| - 1] == Exec(SelectApplied, selected.1);
        (selected.0, Failed(selected.1.value))
      else if dir.None? then (selected.0, Done)
      else
        var run := RunPending(engine, selected.0, selected.0.migrations, SortByName(SqlFiles(dir.value)));
        LogExtends(f.log, Exec(CreateMigrationsTable, None), Exec(SelectApplied, None), run.0.log);
        run
  }

  /** A log that extends `a + [x, y]` extends `a`, with `x` next. */
  lemma LogExtends(a: seq<Exec>, x: Exec, y: Exec, d: seq<Exec>)
    requires |a| + 2 <= |d| && d[..|a| + 2] == a + [x] + [y]
    ensures |a| < |d| && d[..|a|] == a && d[|a|] == x
  {
    assert d[..|a|] == (d[..|a| + 2])[..|a|];
    assert d[|a|] == (d[..|a| + 2])[|a|];
  }

  // ---------------------------------------------------------------------
  // The gateway object
  // ---------------------------------------------------------------------

  /** A `Database`: the file it opens, the engine behind it, and counts of the
      connections it has opened and closed. */
  class Database {
    const engine: Engine
    var file: StoreFile
    var opens: nat
    var closes: nat

    /** Between operations the file is well formed and no connection is open. */
    ghost predicate Valid()
      reads this
    {
      WellFormed(file) && opens == closes
    }

    /** Inside an operation: the file is well formed and exactly one
        connection is open. */
    ghost predicate Connected()
      reads this
    {
      WellFormed(file) && opens == closes + 1
    }

    constructor (engine: Engine, file: StoreFile)
      requires WellFormed(file)
      ensures Valid() && this.engine == engine && this.file == file
    {
      this.engine := engine;
      this.file := file;
      opens, closes := 0, 0;
    }

    /** `_run` / `_all`: one statement on the open connection. */
    method Exec(s: Statement) returns (err: Option<string>)
      requires Connected()
      modifies this`file
      ensures Connected()
      ensures (file, err) == Execute(engine, old(file), s)
    {
      ExecuteWellFormed(engine, file, s);
      var r := Execute(engine, file, s);
      file := r.0;
      err := r.1;
    }

    /** The body of the `try` in `migrate`. */
    method MigrateOnConnection(dir: Option<seq<MigrationFile>>) returns (outcome: Outcome)
      requires Connected()
      modifies this`file
      ensures Connected()
      ensures (file, outcome) == MigrateSpec(engine, old(file), dir)
    {
      var err := Exec(CreateMigrationsTable);
      if err.Some? {
        return Failed(err.value);
      }
      err := Exec(SelectApplied);
      if err.Some? {
        return Failed(err.value);
      }
      var applied := file.migrations;
      if dir.None? {
        return Done;
      }
      var files := SortByName(SqlFiles(dir.value));
      outcome := RunPendingFiles(applied, files);
    }

    /** The loop of `migrate()` over the sorted `.sql` files: each file not
        in `applied` has its SQL run and is then recorded; the first error
        ends the loop. */
    method RunPendingFiles(applied: seq<string>, files: seq<MigrationFile>) returns (outcome: Outcome)
      requires Connected()
      modifies this`file
      ensures Connected()
      ensures (file, outcome) == RunPending(engine, old(file), applied, files)
    {
      ghost var goal := RunPending(engine, file, applied, files);
      var i := 0;
      while i < |files|
        invariant 0 <= i <= |files|
        invariant Connected()
        invariant RunPending(engine, file, applied, files[i..]) == goal
      {
        var m := files[i];
        assert files[i..][0] == m && files[i..][1..] == files[i + 1..];
        if m.name !in applied {
          ghost var before := file;
          var err := ApplyFile(m);
          if err.Some? {
            assert RunPending(engine, before, applied, files[i..]) == (file, Failed(err.value));
            return Failed(err.value);
          }
          assert RunPending(engine, before, applied, files[i..]) == RunPending(engine, file, applied, files[i + 1..]);
        }
        i := i + 1;
      }
      assert files[i..] == [];
      return Done;
    }

    /** One pending file: run its SQL, then record its name; a failure of
        either stops there. */
    method ApplyFile(m: MigrationFile) returns (err: Option<string>)
      requires Connected()
      modifies this`file
      ensures Connected()
      ensures var ran := Execute(engine, old(file), RunMigration(m.name, m.sql));
        if ran.1.Some? then file == ran.0 && err == ran.1
        else (file, err) == Execute(engine, ran.0, RecordMigration(m.name))
    {
      err := Exec(RunMigration(m.name, m.sql));
      if err.None? {
        err := Exec(RecordMigration(m.name));
      }
    }

    /** `migrate()`: open a connection, run the migrations, and close the
      connection whether they succeeded or not. */
    method Migrate(dir: Option<seq<MigrationFile>>) returns (outcome: Outcome)
      requires Valid()
      modifies this
      ensures Valid()
      ensures (file, outcome) == MigrateSpec(engine, old(file), dir)
      ensures opens == old(opens) + 1 && closes == old(closes) + 1
    {
      opens := opens + 1;
      outcome := MigrateOnConnection(dir);
      closes := closes + 1;
    }

    /** `query(sql, params)` for a SELECT on the thoughts table. */
    method Query(q: Query) returns (r: Result<seq<Thought>, string>)
      requires Valid()
      modifies this
      ensures Valid()
      ensures (file, r) == QuerySpec(engine, old(file), q)
      ensures opens == old(opens) + 1 && closes == old(closes) + 1
    {
      opens := opens + 1;
      var err := Exec(SelectThoughts(q));
      if err.Some? {
        r := Err(err.value);
      } else {
        r := Ok(Answer(file.thoughts, q));
      }
      closes := closes + 1;
    }

    /** `run(sql, params)` for an INSERT into the thoughts table. */
    method Run(s: Statement) returns (r: Result<RunInfo, string>)
      requires Valid() && s.InsertThought?
      modifies this
      ensures Valid()
      ensures (file, r) == RunSpec(engine, old(file), s)
      ensures opens == old(opens) + 1 && closes == old(closes) + 1
    {
      opens := opens + 1;
      var id := file.nextId;
      var err := Exec(s);
      if err.Some? {
        r := Err(err.value);
      } else {
        r := Ok(RunInfo(id, 1));
      }
      closes := closes + 1;
    }
  }
}
