/** What `migrate()` guarantees, stated over `Storage.MigrateSpec`, the
    function the `Database.Migrate` method is proved to follow. */
module Migrations {
  import opened Wrappers
  import opened JsString
  import opened Storage

  function Names(files: seq<MigrationFile>): (r: seq<string>)
    ensures |r| == |files| && forall i :: 0 <= i < |files| ==> r[i] == files[i].name
  {
    seq(|files|, i requires 0 <= i < |files| => files[i].name)
  }

  function Sqls(files: seq<MigrationFile>): (r: seq<Sql>)
    ensures |r| == |files| && forall i :: 0 <= i < |files| ==> r[i] == files[i].sql
  {
    seq(|files|, i requires 0 <= i < |files| => files[i].sql)
  }

  /** The names of the migration files whose SQL was sent to the engine, in
      the order the log shows them. */
  function Runs(log: seq<Exec>): seq<string> {
    if log == [] then []
    else
      var last := log[|log| - 1];
      Runs(log[..|log| - 1]) + (if last.stmt.RunMigration? then [last.stmt.file] else [])
  }

  lemma RunsAppend(log: seq<Exec>, e: Exec)
    ensures Runs(log + [e]) == Runs(log) + (if e.stmt.RunMigration? then [e.stmt.file] else [])
  {
    assert (log + [e])[..|log|] == log;
  }

  /** The files a run of `migrate` over `dir` would take up, given the names
      already applied: the `.sql` files, sorted by name, minus the applied ones. */
  function PendingFiles(applied: seq<string>, dir: Option<seq<MigrationFile>>): seq<MigrationFile> {
    if dir.None? then [] else Pending(applied, SortByName(SqlFiles(dir.value)))
  }

  /** The pending files are `.sql` files of the directory that are not yet
      applied, and they are in ascending name order. */
  lemma PendingFilesFacts(applied: seq<string>, dir: Option<seq<MigrationFile>>)
    ensures var p := PendingFiles(applied, dir);
      && NamesAscending(p)
      && (forall m :: m in p ==> dir.Some? && m in dir.value && IsSqlFile(m.name) && m.name !in applied)
      && (dir.Some? ==> forall m :: m in dir.value && IsSqlFile(m.name) && m.name !in applied ==> m in p)
  {
    if dir.Some? {
      var sorted := SortByName(SqlFiles(dir.value));
      forall m | m in sorted ensures m in SqlFiles(dir.value) {
        assert m in multiset(sorted);
      }
      forall m | m in SqlFiles(dir.value) ensures m in sorted {
        assert m in multiset(SqlFiles(dir.value));
      }
    }
  }

  /** A run of `migrate` that failed after running and recording the first
      `k` pending files: the SQL of file `k` was sent and nothing after it;
      file `k` was not recorded; its SQL may or may not have taken effect. */
  ghost predicate FailedAt(f: StoreFile, f': StoreFile, p: seq<MigrationFile>, k: nat)
    requires k < |p|
  {
    && Runs(f'.log) == Runs(f.log) + Names(p[..k]) + [p[k].name]
    && f'.migrations == f.migrations + Names(p[..k])
    && (f'.schema == f.schema + Sqls(p[..k]) || f'.schema == f.schema + Sqls(p[..k]) + [p[k].sql])
  }

  /** A failed run over the pending files `p`: it stopped at the file whose
      index is the number of files it recorded. */
  ghost predicate StoppedAt(f: StoreFile, f': StoreFile, p: seq<MigrationFile>) {
    && |f.migrations| <= |f'.migrations| < |f.migrations| + |p|
    && FailedAt(f, f', p, |f'.migrations| - |f.migrations|)
  }

  /** A run that sent no migration SQL and recorded nothing. */
  ghost predicate NothingRan(f: StoreFile, f': StoreFile) {
    Runs(f'.log) == Runs(f.log) && f'.migrations == f.migrations && f'.schema == f.schema
  }

  /** Sending the SQL of one migration file. */
  lemma ExecuteRun(engine: Engine, f: StoreFile, m: MigrationFile)
    ensures var r := Execute(engine, f, RunMigration(m.name, m.sql));
      && r.0.thoughts == f.thoughts && r.0.nextId == f.nextId
      && r.0.hasMigrationsTable == f.hasMigrationsTable && r.0.migrations == f.migrations
      && r.0.schema == f.schema + (if r.1.None? then [m.sql] else [])
      && Runs(r.0.log) == Runs(f.log) + [m.name]
  {
    var r := Execute(engine, f, RunMigration(m.name, m.sql));
    RunsAppend(f.log, Exec(RunMigration(m.name, m.sql), r.1));
  }

  /** Sending the bookkeeping insert of one migration file. */
  lemma ExecuteRecord(engine: Engine, f: StoreFile, name: string)
    requires f.hasMigrationsTable
    ensures var r := Execute(engine, f, RecordMigration(name));
      && r.0.thoughts == f.thoughts && r.0.nextId == f.nextId
      && r.0.hasMigrationsTable && r.0.schema == f.schema
      && r.0.migrations == f.migrations + (if r.1.None? then [name] else [])
      && Runs(r.0.log) == Runs(f.log)
  {
    var r := Execute(engine, f, RecordMigration(name));
    RunsAppend(f.log, Exec(RecordMigration(name), r.1));
  }

  /** What `RunPending` promises; proved below by induction on the files. */
  ghost predicate PendingRunEffect(f: StoreFile, f': StoreFile, out: Outcome, p: seq<MigrationFile>) {
    && f'.thoughts == f.thoughts && f'.nextId == f.nextId && f'.hasMigrationsTable
    && (out.Done? ==>
          && Runs(f'.log) == Runs(f.log) + Names(p)
          && f'.migrations == f.migrations + Names(p)
          && f'.schema == f.schema + Sqls(p))
    && (out.Failed? ==> StoppedAt(f, f', p))
  }

  /** A run that failed at file `k` of `rest`, after one more file was run
      and recorded, failed at file `k + 1` of that file followed by `rest`. */
  lemma FailedAtCons(f: StoreFile, g: StoreFile, f': StoreFile, m: MigrationFile, rest: seq<MigrationFile>, k: nat)
    requires Runs(g.log) == Runs(f.log) + [m.name]
    requires g.migrations == f.migrations + [m.name]
    requires g.schema == f.schema + [m.sql]
    requires k < |rest| && FailedAt(g, f', rest, k)
    ensures FailedAt(f, f', [m] + rest, k + 1)
  {
    var p, q := [m] + rest, rest[..k];
    assert p[..k + 1] == [m] + q;
    assert p[k + 1] == rest[k];
    NamesCons(m, q);
    SqlsCons(m, q);
    Regroup(Runs(f.log), m.name, Names(q));
    Regroup(f.migrations, m.name, Names(q));
    Regroup(f.schema, m.sql, Sqls(q));
  }

  lemma Regroup<T>(a: seq<T>, x: T, b: seq<T>)
    ensures (a + [x]) + b == a + ([x] + b)
  {
  }

  lemma NamesCons(m: MigrationFile, q: seq<MigrationFile>)
    ensures Names([m] + q) == [m.name] + Names(q)
  {
    assert forall i :: 0 <= i < |q| + 1 ==> ([m] + q)[i].name == ([m.name] + Names(q))[i];
  }

  lemma SqlsCons(m: MigrationFile, q: seq<MigrationFile>)
    ensures Sqls([m] + q) == [m.sql] + Sqls(q)
  {
    assert forall i :: 0 <= i < |q| + 1 ==> ([m] + q)[i].sql == ([m.sql] + Sqls(q))[i];
  }

  lemma StoppedAtCons(f: StoreFile, g: StoreFile, f': StoreFile, m: MigrationFile, rest: seq<MigrationFile>)
    requires Runs(g.log) == Runs(f.log) + [m.name]
    requires g.migrations == f.migrations + [m.name]
    requires g.schema == f.schema + [m.sql]
    requires StoppedAt(g, f', rest)
    ensures StoppedAt(f, f', [m] + rest)
  {
    var k := |f'.migrations| - |g.migrations|;
    FailedAtCons(f, g, f', m, rest, k);
    assert |f'.migrations| - |f.migrations| == k + 1;
  }

  /** A run that sent the SQL of the first pending file and recorded
      nothing stopped at that file. */
  lemma StoppedAtFirst(f: StoreFile, f': StoreFile, m: MigrationFile, rest: seq<MigrationFile>)
    requires Runs(f'.log) == Runs(f.log) + [m.name]
    requires f'.migrations == f.migrations
    requires f'.schema == f.schema || f'.schema == f.schema + [m.sql]
    ensures StoppedAt(f, f', [m] + rest)
  {
    var p := [m] + rest;
    assert p[..0] == [];
    assert Names(p[..0]) == [] && Sqls(p[..0]) == [];
  }

  /** The same for a completed run. */
  lemma CompletedCons(f: StoreFile, g: StoreFile, f': StoreFile, m: MigrationFile, rest: seq<MigrationFile>)
    requires Runs(g.log) == Runs(f.log) + [m.name]
    requires g.migrations == f.migrations + [m.name]
    requires g.schema == f.schema + [m.sql]
    requires Runs(f'.log) == Runs(g.log) + Names(rest)
    requires f'.migrations == g.migrations + Names(rest)
    requires f'.schema == g.schema + Sqls(rest)
    ensures Runs(f'.log) == Runs(f.log) + Names([m] + rest)
    ensures f'.migrations == f.migrations + Names([m] + rest)
    ensures f'.schema == f.schema + Sqls([m] + rest)
  {
    NamesCons(m, rest);
    SqlsCons(m, rest);
    Regroup(Runs(f.log), m.name, Names(rest));
    Regroup(f.migrations, m.name, Names(rest));
    Regroup(f.schema, m.sql, Sqls(rest));
  }

  lemma {:induction false} RunPendingEffect(engine: Engine, f: StoreFile, applied: seq<string>, files: seq<MigrationFile>)
    requires f.hasMigrationsTable
    ensures var r := RunPending(engine, f, applied, files);
      PendingRunEffect(f, r.0, r.1, Pending(applied, files))
    decreases |files|, 1
  {
    if files == [] {
      assert Names([]) == [] && Sqls([]) == [];
    } else if files[0].name in applied {
      assert Pending(applied, files) == Pending(applied, files[1..]);
      assert RunPending(engine, f, applied, files) == RunPending(engine, f, applied, files[1..]);
      RunPendingEffect(engine, f, applied, files[1..]);
    } else {
      RunPendingHeadEffect(engine, f, applied, files);
    }
  }

  /** The step of `RunPendingEffect` for a first file that is not applied yet. */
  lemma {:induction false} RunPendingHeadEffect(engine: Engine, f: StoreFile, applied: seq<string>, files: seq<MigrationFile>)
    requires f.hasMigrationsTable && files != [] && files[0].name !in applied
    ensures var r := RunPending(engine, f, applied, files);
      PendingRunEffect(f, r.0, r.1, Pending(applied, files))
    decreases |files|, 0
  {
    var m := files[0];
    var rest := Pending(applied, files[1..]);
    assert Pending(applied, files) == [m] + rest;
    var ran := Execute(engine, f, RunMigration(m.name, m.sql));
    ExecuteRun(engine, f, m);
    if ran.1.Some? {
      StoppedAtFirst(f, ran.0, m, rest);
      return;
    }
    var recorded := Execute(engine, ran.0, RecordMigration(m.name));
    ExecuteRecord(engine, ran.0, m.name);
    if recorded.1.Some? {
      StoppedAtFirst(f, recorded.0, m, rest);
      return;
    }
    RunPendingEffect(engine, recorded.0, applied, files[1..]);
    var r := RunPending(engine, recorded.0, applied, files[1..]);
    if r.1.Done? {
      CompletedCons(f, recorded.0, r.0, m, rest);
    } else {
      StoppedAtCons(f, recorded.0, r.0, m, rest);
    }
  }

  /** What one `migrate()` does to the store, given the pending files `p`. */
  ghost predicate MigrationEffect(f: StoreFile, f': StoreFile, out: Outcome, p: seq<MigrationFile>) {
    && f'.thoughts == f.thoughts && f'.nextId == f.nextId
    && (out.Done? ==>
          && f'.hasMigrationsTable
          && Runs(f'.log) == Runs(f.log) + Names(p)
          && f'.migrations == f.migrations + Names(p)
          && f'.schema == f.schema + Sqls(p))
    && (out.Failed? ==> NothingRan(f, f') || StoppedAt(f, f', p))
  }

  /** Everything `migrate()` does to the store. It touches no thought; when it
      completes it has run and recorded every pending file, in order; when it
      fails, it either failed before any migration, or it stopped at one
      pending file `k`: files before `k` stay run and recorded, file `k` is
      not recorded, and no later file was attempted. */
  lemma MigrateEffect(engine: Engine, f: StoreFile, dir: Option<seq<MigrationFile>>)
    requires WellFormed(f)
    ensures var r := MigrateSpec(engine, f, dir);
      WellFormed(r.0) && MigrationEffect(f, r.0, r.1, PendingFiles(f.migrations, dir))
  {
    var created := Execute(engine, f, CreateMigrationsTable);
    RunsAppend(f.log, Exec(CreateMigrationsTable, created.1));
    if created.1.Some? {
      assert NothingRan(f, created.0);
      return;
    }
    var selected := Execute(engine, created.0, SelectApplied);
    RunsAppend(created.0.log, Exec(SelectApplied, selected.1));
    var g := selected.0;
    assert g.migrations == f.migrations && g.schema == f.schema && Runs(g.log) == Runs(f.log);
    assert g.thoughts == f.thoughts && g.nextId == f.nextId && g.hasMigrationsTable;
    if selected.1.Some? {
      assert NothingRan(f, g);
      return;
    }
    if dir.None? {
      assert PendingFiles(f.migrations, dir) == [];
      assert Names([]) == [] && Sqls([]) == [];
      return;
    }
    var p := PendingFiles(f.migrations, dir);
    var r := RunPending(engine, g, g.migrations, SortByName(SqlFiles(dir.value)));
    assert MigrateSpec(engine, f, dir) == r;
    RunPendingEffect(engine, g, g.migrations, SortByName(SqlFiles(dir.value)));
    RunEffectIsMigrationEffect(f, g, r.0, r.1, p);
  }

  /** A run of the pending files after the two bookkeeping statements, which
      changed nothing but the log, is the effect of the whole `migrate()`. */
  lemma RunEffectIsMigrationEffect(f: StoreFile, g: StoreFile, f': StoreFile, out: Outcome, p: seq<MigrationFile>)
    requires WellFormed(f)
    requires g.migrations == f.migrations && g.schema == f.schema && Runs(g.log) == Runs(f.log)
    requires g.thoughts == f.thoughts && g.nextId == f.nextId
    requires PendingRunEffect(g, f', out, p)
    ensures WellFormed(f') && MigrationEffect(f, f', out, p)
  {
  }

  lemma MigrateKeepsWellFormed(engine: Engine, f: StoreFile, dir: Option<seq<MigrationFile>>)
    requires WellFormed(f)
    ensures WellFormed(MigrateSpec(engine, f, dir).0)
  {
    MigrateEffect(engine, f, dir);
  }

  /** If `migrate()` completes over a directory, every `.sql` file in it is
      recorded as applied. */
  lemma MigrateRecordsEverySqlFile(engine: Engine, f: StoreFile, dir: seq<MigrationFile>)
    requires WellFormed(f)
    requires MigrateSpec(engine, f, Some(dir)).1.Done?
    ensures forall m :: m in dir && IsSqlFile(m.name) ==> m.name in MigrateSpec(engine, f, Some(dir)).0.migrations
  {
    var f' := MigrateSpec(engine, f, Some(dir)).0;
    MigrateEffect(engine, f, Some(dir));
    PendingFilesFacts(f.migrations, Some(dir));
    var p := PendingFiles(f.migrations, Some(dir));
    forall m | m in dir && IsSqlFile(m.name) ensures m.name in f'.migrations {
      if m.name !in f.migrations {
        var i :| 0 <= i < |p| && p[i] == m;
        assert Names(p)[i] == m.name;
      }
    }
  }

  lemma EmptyWithoutMembers(p: seq<MigrationFile>)
    requires forall m :: m !in p
    ensures |p| == 0
  {
    if |p| > 0 {
      FirstIsMember(p);
      assert false;
    }
  }

  lemma FirstIsMember(p: seq<MigrationFile>)
    requires |p| > 0
    ensures p[0] in p
  {
  }

  /** A `migrate()` with nothing pending sends no migration SQL, records
      nothing and leaves schema and thoughts alone, whether it completes or not. */
  lemma MigrateWithNothingPending(engine: Engine, f: StoreFile, dir: Option<seq<MigrationFile>>)
    requires WellFormed(f) && PendingFiles(f.migrations, dir) == []
    ensures var f' := MigrateSpec(engine, f, dir).0;
      NothingRan(f, f') && f'.thoughts == f.thoughts
  {
    MigrateEffect(engine, f, dir);
    assert Names([]) == [] && Sqls([]) == [];
  }

  /** A second `migrate()` after one that completed, over the same directory,
      sends no migration SQL, records nothing and leaves the schema alone,
      whether it completes or not. */
  lemma MigrateTwiceIsNoop(engine: Engine, f: StoreFile, dir: Option<seq<MigrationFile>>)
    requires WellFormed(f)
    requires MigrateSpec(engine, f, dir).1.Done?
    ensures var f1 := MigrateSpec(engine, f, dir).0;
      var f2 := MigrateSpec(engine, f1, dir).0;
      && Runs(f2.log) == Runs(f1.log)
      && f2.migrations == f1.migrations
      && f2.schema == f1.schema
      && f2.thoughts == f1.thoughts
  {
    var f1 := MigrateSpec(engine, f, dir).0;
    MigrateKeepsWellFormed(engine, f, dir);
    var p := PendingFiles(f1.migrations, dir);
    PendingFilesFacts(f1.migrations, dir);
    if dir.Some? {
      MigrateRecordsEverySqlFile(engine, f, dir.value);
    }
    assert forall m :: m !in p;
    EmptyWithoutMembers(p);
    MigrateWithNothingPending(engine, f1, dir);
  }

  /** The migration SQL sent between `f` and `f'` is that of a prefix of `p`. */
  ghost predicate RanPrefix(f: StoreFile, f': StoreFile, p: seq<MigrationFile>) {
    exists n :: 0 <= n <= |p| && Runs(f'.log) == Runs(f.log) + Names(p[..n])
  }

  lemma StoppedAtRanPrefix(f: StoreFile, f': StoreFile, p: seq<MigrationFile>)
    requires StoppedAt(f, f', p)
    ensures RanPrefix(f, f', p)
  {
    var k := |f'.migrations| - |f.migrations|;
    assert p[..k + 1] == p[..k] + [p[k]];
    assert Names(p[..k + 1]) == Names(p[..k]) + [p[k].name];
  }

  /** The migration SQL one `migrate()` sends is that of a prefix of the
      pending files. */
  lemma MigrateRunsPendingPrefix(engine: Engine, f: StoreFile, dir: Option<seq<MigrationFile>>)
    requires WellFormed(f)
    ensures RanPrefix(f, MigrateSpec(engine, f, dir).0, PendingFiles(f.migrations, dir))
  {
    var (f', out) := MigrateSpec(engine, f, dir);
    MigrateEffect(engine, f, dir);
    var p := PendingFiles(f.migrations, dir);
    if out.Done? {
      assert p[..|p|] == p;
    } else if NothingRan(f, f') {
      assert p[..0] == [] && Names(p[..0]) == [];
    } else {
      StoppedAtRanPrefix(f, f', p);
    }
  }

  /** `name` is not applied and is the name of a `.sql` file of `dir`. */
  ghost predicate UnappliedSqlFile(name: string, applied: seq<string>, dir: Option<seq<MigrationFile>>) {
    name !in applied && dir.Some? && exists m :: m in dir.value && m.name == name && IsSqlFile(m.name)
  }

  /** The migration SQL one `migrate()` sends is that of `.sql` files of the
      directory that were not applied before, in ascending name order; the
      runs logged before it are untouched. */
  lemma MigrateRunsInOrder(engine: Engine, f: StoreFile, dir: Option<seq<MigrationFile>>)
    requires WellFormed(f)
    ensures var f' := MigrateSpec(engine, f, dir).0;
      var before := Runs(f.log);
      && |before| <= |Runs(f'.log)| && Runs(f'.log)[..|before|] == before
      && var added := Runs(f'.log)[|before|..];
         && (forall i, j :: 0 <= i < j < |added| ==> LexLe(added[i], added[j]))
         && (forall i :: 0 <= i < |added| ==> UnappliedSqlFile(added[i], f.migrations, dir))
  {
    var f' := MigrateSpec(engine, f, dir).0;
    MigrateRunsPendingPrefix(engine, f, dir);
    PendingFilesFacts(f.migrations, dir);
    var p := PendingFiles(f.migrations, dir);
    var n :| 0 <= n <= |p| && Runs(f'.log) == Runs(f.log) + Names(p[..n]);
    PrefixRunsFacts(Runs(f.log), Runs(f'.log), p, n, f.migrations, dir);
  }

  /** The names of a prefix of the pending files, appended to the earlier
      runs, are in order and belong to unapplied `.sql` files of `dir`. */
  lemma PrefixRunsFacts(before: seq<string>, after: seq<string>, p: seq<MigrationFile>, n: nat,
                        applied: seq<string>, dir: Option<seq<MigrationFile>>)
    requires n <= |p| && after == before + Names(p[..n])
    requires NamesAscending(p)
    requires forall m :: m in p ==> dir.Some? && m in dir.value && IsSqlFile(m.name) && m.name !in applied
    ensures |before| <= |after| && after[..|before|] == before
    ensures var added := after[|before|..];
      && (forall i, j :: 0 <= i < j < |added| ==> LexLe(added[i], added[j]))
      && (forall i :: 0 <= i < |added| ==> UnappliedSqlFile(added[i], applied, dir))
  {
    var added := after[|before|..];
    assert after[..|before|] == before;
    assert added == Names(p[..n]);
    forall i | 0 <= i < |added| ensures UnappliedSqlFile(added[i], applied, dir) {
      assert added[i] == p[..n][i].name == p[i].name && p[i] in p;
      assert p[i] in dir.value && IsSqlFile(p[i].name);
    }
    forall i, j | 0 <= i < j < |added| ensures LexLe(added[i], added[j]) {
      assert added[i] == p[i].name && added[j] == p[j].name;
    }
  }

  /** Every bookkeeping row a `migrate()` writes follows, in the log, the
      successful run of that same file's SQL. */
  ghost predicate RecordsFollowRuns(log: seq<Exec>, from: nat) {
    forall j :: from <= j < |log| && log[j].stmt.RecordMigration? ==>
      && from < j
      && log[j - 1].stmt.RunMigration?
      && log[j - 1].stmt.file == log[j].stmt.file
      && log[j - 1].error.None?
  }

  lemma {:induction false} RunPendingRecordsFollowRuns(
    engine: Engine, f: StoreFile, applied: seq<string>, files: seq<MigrationFile>, from: nat)
    requires from <= |f.log| && RecordsFollowRuns(f.log, from)
    requires |f.log| > from ==> !f.log[|f.log| - 1].stmt.RunMigration?
    ensures var f' := RunPending(engine, f, applied, files).0;
      |f.log| <= |f'.log| && RecordsFollowRuns(f'.log, from)
    decreases |files|
  {
    if files == [] {
      return;
    }
    var m := files[0];
    if m.name in applied {
      assert RunPending(engine, f, applied, files) == RunPending(engine, f, applied, files[1..]);
      RunPendingRecordsFollowRuns(engine, f, applied, files[1..], from);
      return;
    }
    var ran := Execute(engine, f, RunMigration(m.name, m.sql));
    AppendKeepsRecordsFollowRuns(f.log, from, Exec(RunMigration(m.name, m.sql), ran.1));
    if ran.1.Some? {
      return;
    }
    var recorded := Execute(engine, ran.0, RecordMigration(m.name));
    AppendKeepsRecordsFollowRuns(ran.0.log, from, Exec(RecordMigration(m.name), recorded.1));
    if recorded.1.None? {
      assert RunPending(engine, f, applied, files) == RunPending(engine, recorded.0, applied, files[1..]);
      RunPendingRecordsFollowRuns(engine, recorded.0, applied, files[1..], from);
    }
  }

  /** Logging one more statement keeps bookkeeping rows behind their runs,
      when it is not a bookkeeping row or it follows the same file's
      successful run. */
  lemma AppendKeepsRecordsFollowRuns(log: seq<Exec>, from: nat, e: Exec)
    requires from <= |log| && RecordsFollowRuns(log, from)
    requires e.stmt.RecordMigration? ==>
      && from < |log| && log[|log| - 1].stmt.RunMigration?
      && log[|log| - 1].stmt.file == e.stmt.file && log[|log| - 1].error.None?
    ensures RecordsFollowRuns(log + [e], from)
  {
    var l := log + [e];
    forall j | from <= j < |l| && l[j].stmt.RecordMigration?
      ensures from < j && l[j - 1].stmt.RunMigration? && l[j - 1].stmt.file == l[j].stmt.file && l[j - 1].error.None?
    {
      if j < |log| {
        assert l[j] == log[j];
        if j > from { assert l[j - 1] == log[j - 1]; }
      } else {
        assert l[j - 1] == log[|log| - 1];
      }
    }
  }

  /** A file is recorded as applied only right after its SQL succeeded:
      in what one `migrate()` sends, every bookkeeping insert is immediately
      preceded by the successful run of the same file. */
  lemma MigrateRecordsOnlyAfterSuccess(engine: Engine, f: StoreFile, dir: Option<seq<MigrationFile>>)
    ensures var f' := MigrateSpec(engine, f, dir).0;
      |f.log| <= |f'.log| && RecordsFollowRuns(f'.log, |f.log|)
  {
    var created := Execute(engine, f, CreateMigrationsTable);
    if created.1.Some? {
      return;
    }
    var selected := Execute(engine, created.0, SelectApplied);
    if selected.1.Some? || dir.None? {
      return;
    }
    RunPendingRecordsFollowRuns(engine, selected.0, selected.0.migrations, SortByName(SqlFiles(dir.value)), |f.log|);
  }

  /** Without a migrations directory, `migrate()` only ensures the bookkeeping
      table: it sends the CREATE and the SELECT and nothing else, and the
      applied set, the schema and the thoughts stay as they were. */
  lemma MigrateWithoutDirectory(engine: Engine, f: StoreFile)
    requires WellFormed(f)
    ensures var (f', out) := MigrateSpec(engine, f, None);
      && f'.migrations == f.migrations && f'.schema == f.schema && f'.thoughts == f.thoughts
      && (out.Done? ==>
            && f'.hasMigrationsTable
            && f'.log == f.log + [Exec(CreateMigrationsTable, None), Exec(SelectApplied, None)])
  {
    MigrateEffect(engine, f, None);
  }

  /** The applied set only grows: every name recorded before `migrate()`,
      whether or not its file is still on disk, is still recorded after it,
      in the same place. */
  lemma MigrationsOnlyGrow(engine: Engine, f: StoreFile, dir: Option<seq<MigrationFile>>)
    requires WellFormed(f)
    ensures var f' := MigrateSpec(engine, f, dir).0;
      |f.migrations| <= |f'.migrations| && f'.migrations[..|f.migrations|] == f.migrations
  {
    MigrateEffect(engine, f, dir);
  }

  /** A `.sql` file of the directory whose name is not recorded has its SQL
      run again, and taking effect again, in the next `migrate()` that
      completes, whatever its SQL did before. */
  lemma UnrecordedFileRunsAgain(engine: Engine, f: StoreFile, dir: seq<MigrationFile>, m: MigrationFile)
    requires WellFormed(f) && m in dir && IsSqlFile(m.name) && m.name !in f.migrations
    requires MigrateSpec(engine, f, Some(dir)).1.Done?
    ensures var f' := MigrateSpec(engine, f, Some(dir)).0;
      && |Runs(f.log)| <= |Runs(f'.log)| && m.name in Runs(f'.log)[|Runs(f.log)|..]
      && |f.schema| <= |f'.schema| && m.sql in f'.schema[|f.schema|..]
  {
    var f' := MigrateSpec(engine, f, Some(dir)).0;
    MigrateEffect(engine, f, Some(dir));
    PendingFilesFacts(f.migrations, Some(dir));
    var p := PendingFiles(f.migrations, Some(dir));
    var i :| 0 <= i < |p| && p[i] == m;
    assert Runs(f'.log)[|Runs(f.log)|..] == Names(p);
    assert f'.schema[|f.schema|..] == Sqls(p);
    assert Names(p)[i] == m.name && Sqls(p)[i] == m.sql;
  }

  /** A completed `migrate()` over a directory holding one unrecorded `.sql`
      file runs exactly that file. */
  lemma OneFileMigrate(engine: Engine, f: StoreFile, m: MigrationFile)
    requires WellFormed(f) && IsSqlFile(m.name) && m.name !in f.migrations
    requires MigrateSpec(engine, f, Some([m])).1.Done?
    ensures var f' := MigrateSpec(engine, f, Some([m])).0;
      Runs(f'.log) == Runs(f.log) + [m.name] && f'.schema == f.schema + [m.sql]
  {
    assert SqlFiles([m]) == [m];
    assert SortByName([m]) == [m];
    assert Pending(f.migrations, [m]) == [m];
    MigrateEffect(engine, f, Some([m]));
    assert Names([m]) == [m.name] && Sqls([m]) == [m.sql];
  }

  /** A run that stopped at pending file `k` because the bookkeeping insert
      of that file was rejected: the SQL of the files up to and including
      `k` took effect, only the files before `k` are recorded, and the last
      statement sent is the insert for file `k`. */
  ghost predicate RecordFailedAt(f: StoreFile, f': StoreFile, p: seq<MigrationFile>, k: nat)
    requires k < |p|
  {
    && f'.migrations == f.migrations + Names(p[..k])
    && f'.schema == f.schema + Sqls(p[..k]) + [p[k].sql]
    && |f'.log| > 0 && f'.log[|f'.log| - 1].stmt == RecordMigration(p[k].name)
  }

  lemma RecordFailedAtCons(f: StoreFile, g: StoreFile, f': StoreFile, m: MigrationFile, rest: seq<MigrationFile>, k: nat)
    requires g.migrations == f.migrations + [m.name]
    requires g.schema == f.schema + [m.sql]
    requires k < |rest| && RecordFailedAt(g, f', rest, k)
    ensures RecordFailedAt(f, f', [m] + rest, k + 1)
  {
    var p, q := [m] + rest, rest[..k];
    assert p[..k + 1] == [m] + q;
    assert p[k + 1] == rest[k];
    NamesCons(m, q);
    SqlsCons(m, q);
    Regroup(f.migrations, m.name, Names(q));
    Regroup(f.schema, m.sql, Sqls(q));
  }

  /** A failed run whose last statement was the rejected bookkeeping insert
      of pending file `k`, the number of files it recorded: the SQL of that
      file, and of every file before it, had taken effect, and only the files
      before it are recorded. */
  ghost predicate FailedOnRecord(f: StoreFile, f': StoreFile, out: Outcome, p: seq<MigrationFile>)
    requires out.Failed? && |f'.log| > 0
  {
    var k := |f'.migrations| - |f.migrations|;
    0 <= k < |p| && RecordFailedAt(f, f', p, k)
  }

  /** If a run ended on a rejected bookkeeping insert, it stopped at the
      pending file whose index is the number of files it recorded. */
  ghost predicate StoppedOnRecord(f: StoreFile, f': StoreFile, out: Outcome, p: seq<MigrationFile>) {
    out.Failed? && |f'.log| > 0 && f'.log[|f'.log| - 1].stmt.RecordMigration? ==>
      FailedOnRecord(f, f', out, p)
  }

  /** When the loop over the files fails on a bookkeeping insert, it stopped
      at a pending file whose SQL had already taken effect. */
  lemma {:induction false} RunPendingRecordFailure(engine: Engine, f: StoreFile, applied: seq<string>, files: seq<MigrationFile>)
    requires f.hasMigrationsTable
    ensures var r := RunPending(engine, f, applied, files);
      StoppedOnRecord(f, r.0, r.1, Pending(applied, files))
    decreases |files|, 1
  {
    if files == [] {
    } else if files[0].name in applied {
      assert Pending(applied, files) == Pending(applied, files[1..]);
      assert RunPending(engine, f, applied, files) == RunPending(engine, f, applied, files[1..]);
      RunPendingRecordFailure(engine, f, applied, files[1..]);
    } else {
      RecordFailureHead(engine, f, applied, files);
    }
  }

  /** The step of `RunPendingRecordFailure` for a first file that is not
      applied yet. */
  lemma {:induction false} RecordFailureHead(engine: Engine, f: StoreFile, applied: seq<string>, files: seq<MigrationFile>)
    requires f.hasMigrationsTable && files != [] && files[0].name !in applied
    ensures var r := RunPending(engine, f, applied, files);
      StoppedOnRecord(f, r.0, r.1, Pending(applied, files))
    decreases |files|, 0
  {
    var m := files[0];
    var rest := Pending(applied, files[1..]);
    var p := [m] + rest;
    assert Pending(applied, files) == p;
    var ran := Execute(engine, f, RunMigration(m.name, m.sql));
    if ran.1.Some? {
      assert ran.0.log[|ran.0.log| - 1].stmt.RunMigration?;
      return;
    }
    var recorded := Execute(engine, ran.0, RecordMigration(m.name));
    ExecuteRun(engine, f, m);
    ExecuteRecord(engine, ran.0, m.name);
    if recorded.1.Some? {
      RecordRejectedFirst(f, recorded.0, m, rest);
      return;
    }
    var r := RunPending(engine, recorded.0, applied, files[1..]);
    assert RunPending(engine, f, applied, files) == r;
    RunPendingRecordFailure(engine, recorded.0, applied, files[1..]);
    StoppedOnRecordCons(f, recorded.0, r.0, r.1, m, rest);
  }

  /** The bookkeeping insert of the first pending file was rejected after its
      SQL took effect. */
  lemma RecordRejectedFirst(f: StoreFile, f': StoreFile, m: MigrationFile, rest: seq<MigrationFile>)
    requires f'.migrations == f.migrations && f'.schema == f.schema + [m.sql]
    requires |f'.log| > 0 && f'.log[|f'.log| - 1].stmt == RecordMigration(m.name)
    ensures RecordFailedAt(f, f', [m] + rest, 0)
  {
    var p := [m] + rest;
    assert p[..0] == [] && Names(p[..0]) == [] && Sqls(p[..0]) == [];
  }

  lemma StoppedOnRecordCons(f: StoreFile, g: StoreFile, f': StoreFile, out: Outcome, m: MigrationFile, rest: seq<MigrationFile>)
    requires g.migrations == f.migrations + [m.name]
    requires g.schema == f.schema + [m.sql]
    requires StoppedOnRecord(g, f', out, rest)
    ensures StoppedOnRecord(f, f', out, [m] + rest)
  {
    if out.Failed? && |f'.log| > 0 && f'.log[|f'.log| - 1].stmt.RecordMigration? {
      RecordFailedAtCons(f, g, f', m, rest, |f'.migrations| - |g.migrations|);
    }
  }

  /** A `migrate()` that fails on a rejected bookkeeping insert has already
      applied that file's SQL but not recorded the file. */
  lemma FailedRecordLeavesSqlApplied(engine: Engine, f: StoreFile, dir: Option<seq<MigrationFile>>)
    requires var r := MigrateSpec(engine, f, dir);
      r.1.Failed? && |r.0.log| > 0 && r.0.log[|r.0.log| - 1].stmt.RecordMigration?
    ensures var r := MigrateSpec(engine, f, dir);
      && FailedOnRecord(f, r.0, r.1, PendingFiles(f.migrations, dir))
      && ReportsLastError(r.0, r.1)
  {
    MigrateStoppedOnRecord(engine, f, dir);
  }

  /** `StoppedOnRecord` for a whole `migrate()`: the CREATE and the SELECT
      before the loop change neither the applied list nor the schema. */
  lemma MigrateStoppedOnRecord(engine: Engine, f: StoreFile, dir: Option<seq<MigrationFile>>)
    ensures var r := MigrateSpec(engine, f, dir);
      StoppedOnRecord(f, r.0, r.1, PendingFiles(f.migrations, dir))
  {
    var created := Execute(engine, f, CreateMigrationsTable);
    if created.1.Some? {
      return;
    }
    var selected := Execute(engine, created.0, SelectApplied);
    if selected.1.Some? || dir.None? {
      return;
    }
    var g := selected.0;
    assert g.migrations == f.migrations && g.schema == f.schema && g.hasMigrationsTable;
    var files := SortByName(SqlFiles(dir.value));
    var r := RunPending(engine, g, g.migrations, files);
    assert MigrateSpec(engine, f, dir) == r;
    RunPendingRecordFailure(engine, g, g.migrations, files);
    StoppedOnRecordSameStart(f, g, r.0, r.1, PendingFiles(f.migrations, dir));
  }

  lemma StoppedOnRecordSameStart(f: StoreFile, g: StoreFile, f': StoreFile, out: Outcome, p: seq<MigrationFile>)
    requires g.migrations == f.migrations && g.schema == f.schema
    requires StoppedOnRecord(g, f', out, p)
    ensures StoppedOnRecord(f, f', out, p)
  {
  }

  const DiskFull: string := "SQLITE_FULL: database or disk is full"
  /** An engine whose every bookkeeping insert fails. */
  const FullEngine: Engine := Engine((g: StoreFile, s: Statement) => if s.RecordMigration? then Some(DiskFull) else None)
  /** An engine that accepts everything. */
  const HealthyEngine: Engine := Engine((g: StoreFile, s: Statement) => None)

  /** With an engine that rejects nothing, the loop over pending files completes. */
  lemma {:induction false} HealthyRunPendingCompletes(f: StoreFile, applied: seq<string>, files: seq<MigrationFile>)
    requires f.hasMigrationsTable
    ensures RunPending(HealthyEngine, f, applied, files).1.Done?
    decreases |files|
  {
    if files != [] {
      var m := files[0];
      var ran := Execute(HealthyEngine, f, RunMigration(m.name, m.sql)).0;
      var recorded := Execute(HealthyEngine, ran, RecordMigration(m.name)).0;
      HealthyRunPendingCompletes(if m.name in applied then f else recorded, applied, files[1..]);
    }
  }

  /** `migrate()` fails only through an error of the engine: with one that
      rejects nothing it completes, on any file and any directory. */
  lemma HealthyMigrateCompletes(f: StoreFile, dir: Option<seq<MigrationFile>>)
    ensures MigrateSpec(HealthyEngine, f, dir).1.Done?
  {
    var created := Execute(HealthyEngine, f, CreateMigrationsTable).0;
    var selected := Execute(HealthyEngine, created, SelectApplied).0;
    if dir.Some? {
      HealthyRunPendingCompletes(selected, selected.migrations, SortByName(SqlFiles(dir.value)));
    }
  }

  /** On any well-formed file, a `migrate()` over a directory holding one
      unrecorded `.sql` file, whose bookkeeping insert fails, reports the
      error after the SQL took effect, and records nothing. */
  lemma FullDiskMigrate(f: StoreFile, m: MigrationFile)
    requires WellFormed(f) && IsSqlFile(m.name) && m.name !in f.migrations
    ensures var (f1, out1) := MigrateSpec(FullEngine, f, Some([m]));
      && out1 == Failed(DiskFull)
      && f1.schema == f.schema + [m.sql] && f1.migrations == f.migrations && WellFormed(f1)
  {
    assert SqlFiles([m]) == [m];
    assert SortByName([m]) == [m];
    var created := Execute(FullEngine, f, CreateMigrationsTable);
    var selected := Execute(FullEngine, created.0, SelectApplied);
    assert created.1.None? && selected.1.None?;
    var g := selected.0;
    assert g.hasMigrationsTable && g.migrations == f.migrations && g.schema == f.schema;
    var ran := Execute(FullEngine, g, RunMigration(m.name, m.sql));
    assert ran.1.None? && ran.0.schema == f.schema + [m.sql] && ran.0.migrations == f.migrations;
    var recorded := Execute(FullEngine, ran.0, RecordMigration(m.name));
    assert recorded.1 == Some(DiskFull) && recorded.0.schema == ran.0.schema && recorded.0.migrations == f.migrations;
    assert RunPending(FullEngine, g, g.migrations, [m]) == (recorded.0, Failed(DiskFull));
    assert MigrateSpec(FullEngine, f, Some([m])) == (recorded.0, Failed(DiskFull));
    MigrateKeepsWellFormed(FullEngine, f, Some([m]));
  }

  /** The migration SQL and its bookkeeping insert are two separate
      statements: when the insert fails, the SQL has taken effect but the file
      is not recorded, so the next `migrate()` that completes runs the same SQL
      again. */
  lemma MigrationIsNotAtomic(f: StoreFile, m: MigrationFile)
    requires WellFormed(f) && IsSqlFile(m.name) && m.name !in f.migrations
    ensures var f1 := MigrateSpec(FullEngine, f, Some([m])).0;
      var (f2, out2) := MigrateSpec(HealthyEngine, f1, Some([m]));
      && MigrateSpec(FullEngine, f, Some([m])).1.Failed?
      && f1.migrations == f.migrations
      && out2.Done?
      && Runs(f2.log) == Runs(f1.log) + [m.name]
      && f2.schema == f.schema + [m.sql, m.sql]
  {
    FullDiskMigrate(f, m);
    var f1 := MigrateSpec(FullEngine, f, Some([m])).0;
    HealthyMigrateCompletes(f1, Some([m]));
    OneFileMigrate(HealthyEngine, f1, m);
  }
}
