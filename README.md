# thought-system: the store, the ingest paths and the digest, in Dafny

The thought system captures short "thoughts" arriving from an OpenClaw
gateway webhook or a direct HTTP call, and stores them in a SQLite file. It
can read recent thoughts back or search them, and it sends a numbered digest
of them to a chat channel through the gateway. This project models these
four parts and proves what they promise:

- **The migration runner and the store gateway** (`storage.dfy`,
  `migrations.dfy`). `Storage.Database` is a class holding the
  database file as a value (`StoreFile`: thought rows, the next row id, the
  migrations bookkeeping table, the migration SQL that took effect, the log of
  statements sent) plus counters of connections opened and closed.
  - `Migrate` opens a connection, runs `MigrateOnConnection` and closes it.
    Its loop is `RunPendingFiles`, a `while` loop over all the sorted `.sql`
    files that skips the applied ones. The whole is proved to compute
    `MigrateSpec`.
  - `Query` and `Run` are one statement between an open and a close.
  - The SQL engine is abstract. An `Engine` decides, for every statement and
    file state, whether the statement fails and with what message, so every
    migration and every bookkeeping insert may fail.
- **The webhook handler** (`webhook.dfy`). `handleIngest` is modelled as a
  pure validation and defaulting step (`PrepareWebhook`). `ingestThought` is
  the single insert. `getRecentThoughts` and `searchThoughts` are the two
  reads. Each is a method of `Webhook.WebhookHandler`, which holds the
  `Database`.
- **The two ingest routes** (`api.dfy`). `POST /ingest` checks content,
  defaults the source to `'api'`, and splits and trims comma-separated tags.
  `POST /webhooks/ingest` delegates to `handleIngest`. Both routes map errors
  to status codes.
- **The OpenClaw client** (`client.dfy`):
  - its configuration defaults;
  - `sendMessage` behind its token gate;
  - the empty-digest guard of `sendDigest`;
  - `_formatDigest`, a `for` loop proved to build `DigestText`.

Supporting modules model the JavaScript and SQLite behaviour the code relies
on:

- `json.dfy`: JavaScript values, truthiness, destructuring with
  defaults, and the TypeError raised on `undefined`/`null`.
- `jsstring.dfy`: `split`, `join`, ECMAScript `trim`, the default `sort()`
  order (strings compared by their UTF-16 code units, surrogate pairs
  included), and decimal printing of numbers.
- `sqlite.dfy`: SQLite `LIKE` with `%`, `_` and ASCII case folding.
- `wrappers.dfy`: `Option` and `Result`.

Numbers are modelled as unbounded integers, since the core only uses ids,
limits, counts and statuses. The clock reading behind `datetime('now')` is a
caller-supplied integer (`now`). Each thought's `content` is stored as the
value it was bound as.

## Model

| member | source | states |
|---|---|---|
| `Storage.Database.Migrate` | src/database.js:29-71 | the new file and the outcome are `MigrateSpec` of the old file and the directory; exactly one connection is opened and closed, on success and on failure |
| `Storage.Database.MigrateOnConnection` | src/database.js:32-67 | creates the `migrations` table, reads the applied names, returns early without a directory, then runs the sorted `.sql` files; an error at any step is the outcome, and the result equals `MigrateSpec` |
| `Storage.Database.RunPendingFiles` | src/database.js:56-64 | the loop over the sorted `.sql` files runs each file not already applied and then records it, stopping at the first error; the new file and outcome equal `RunPending` |
| `Storage.Database.ApplyFile` | src/database.js:57-62 | one pending file: its SQL is sent first and its name is recorded only if that succeeded; a failure of either leaves the file as the engine left it and is returned |
| `Storage.Database.Query` | src/database.js:73-80 | the result is the engine's answer to the SELECT (`QuerySpec`); one connection is opened and closed whether the query succeeds or fails |
| `Storage.Database.Run` | src/database.js:82-89 | the result is `{lastID, changes}` or the engine's error (`RunSpec`); one connection is opened and closed on both paths |
| `Storage.Database.Exec` | src/database.js:91-107 | one statement is sent, only while one connection is open (`Connected`): it is logged, and it either takes effect or leaves the file unchanged and reports the engine's error |
| `Storage.Execute` | src/database.js:91-107 | a statement is appended to the log with its error; a rejected statement changes nothing else, an accepted one has exactly its effect |
| `Storage.ExecuteWellFormed` | src/database.js:34-40 | executing any statement keeps the file well formed (no bookkeeping rows without the bookkeeping table, ids below the next id) |
| `Storage.SqlFiles` | src/database.js:53 | exactly the directory entries whose name ends in `.sql` are kept |
| `Storage.SortByName` | src/database.js:54 | the result is in ascending order of the names' UTF-16 code units and is a permutation of its input |
| `Storage.InsertByName` | src/database.js:54 | inserting into a name-sorted list keeps it sorted and adds exactly that file |
| `Storage.Pending` | src/database.js:56-57 | a file is pending exactly when it is in the list and its name is not applied; sortedness is kept |
| `Storage.RunPending` | src/database.js:56-65 | the loop only appends to the log, and a failure is the error of the last statement it sent |
| `Storage.MigrateSpec` | src/database.js:32-65 | `migrate` only appends to the log, the CREATE TABLE is its first statement, and a failure is the error of the last statement sent |
| `Migrations.PendingFilesFacts` | src/database.js:47-57 | the pending files are sorted, are `.sql` files of an existing directory and not applied, and every such file is pending |
| `Migrations.RunPendingEffect` | src/database.js:56-65 | running the pending files either applies and records all of them in order or stops at one file, after which nothing later was attempted |
| `Migrations.MigrateEffect` | src/database.js:29-71 | on success every pending file's SQL was run, took effect and was recorded, in order; on failure either nothing ran or the run stopped at one pending file with all earlier ones recorded; thoughts are untouched |
| `Migrations.MigrateRecordsEverySqlFile` | src/database.js:52-65 | after a successful `migrate`, every `.sql` file of the directory is in the applied set |
| `Migrations.MigrateWithNothingPending` | src/database.js:56-57 | with nothing pending, no migration SQL runs and nothing is recorded |
| `Migrations.MigrateTwiceIsNoop` | src/database.js:43-44 | a second `migrate` after a successful one runs no migration SQL, records nothing and changes no schema or thought |
| `Migrations.MigrateRunsInOrder` | src/database.js:52-56 | the migration SQL run by one `migrate` belongs to `.sql` files of the directory that were not applied, in ascending name order, whatever the listing order |
| `Migrations.MigrateRecordsOnlyAfterSuccess` | src/database.js:61-62 | in the statements one `migrate` sends, each bookkeeping insert directly follows the successful run of that same file's SQL |
| `Migrations.MigrateWithoutDirectory` | src/database.js:34-50 | without a migrations directory the applied set, schema and thoughts are unchanged; on success only the table creation and the SELECT were sent |
| `Migrations.MigrationsOnlyGrow` | src/database.js:43-44 | the old applied list is a prefix of the new one, so no applied name is ever removed |
| `Migrations.UnrecordedFileRunsAgain` | src/database.js:52-62 | any `.sql` file of the directory whose name is not recorded is run by a `migrate` that completes: its name is among the files run and its SQL among the schema changes of that call |
| `Migrations.HealthyMigrateCompletes` | src/database.js:29-71 | when the engine rejects nothing, `migrate` completes |
| `Migrations.FailedRecordLeavesSqlApplied` | src/database.js:56-62 | for any engine, file and directory: when `migrate` fails on a bookkeeping insert, it stopped at some pending file `k`; the SQL of files `0..k` has taken effect, only files `0..k-1` are recorded, and the error reported is that insert's |
| `Migrations.FullDiskMigrate` | src/database.js:61-62 | on any well-formed file, with one unrecorded `.sql` file and an engine that rejects every bookkeeping insert, `migrate` fails with that error, the SQL has taken effect and nothing is recorded |
| `Migrations.MigrationIsNotAtomic` | src/database.js:61-62 | after such a failure, the next successful `migrate` runs the same SQL a second time |
| `Webhook.PrepareWebhook` | src/openclaw/webhook-handler.js:17-37 | an accepted webhook has truthy content and array tags |
| `Webhook.HandleIngestRejectsFalsyContent` | src/openclaw/webhook-handler.js:20-29 | `handleIngest` goes on exactly when the body is an object with truthy content; falsy content throws "Content is required", and `undefined`/`null` throws the destructuring TypeError; in both cases the store is untouched |
| `Webhook.WebhookDefaults` | src/openclaw/webhook-handler.js:20-25 | an absent source becomes `'openclaw'` and absent metadata becomes `{}`; supplied values, even falsy ones, are kept; tags are kept only when they are an array |
| `Webhook.WebhookDiscardsStringTags` | src/openclaw/webhook-handler.js:34 | a string `tags` value is stored as `[]` and is not split |
| `Webhook.IngestThoughtAppendsOneRow` | src/openclaw/webhook-handler.js:42-60 | a successful `ingestThought` appends exactly one row carrying its content, source, serialised tags and metadata (defaults `[]` and `{}`) and returns that row's id, which no earlier row has; earlier rows are unchanged; a failure changes no row |
| `Webhook.HandleIngestStoresOneRow` | src/openclaw/webhook-handler.js:17-60 | a successful webhook ingest appends exactly one row with the given content, the `'openclaw'` default source and a fresh id |
| `Webhook.WebhookHandler.IngestThought` | src/openclaw/webhook-handler.js:42-60 | the insert is one `run` call (one connection) computing `IngestSpec` |
| `Webhook.WebhookHandler.HandleIngest` | src/openclaw/webhook-handler.js:17-37 | a rejected body opens no connection; an accepted one makes exactly one insert |
| `Webhook.WebhookHandler.GetRecentThoughts` | src/openclaw/webhook-handler.js:65-70 | the result is the store's answer to the newest-first query with the given limit, or 10; one connection |
| `Webhook.WebhookHandler.SearchThoughts` | src/openclaw/webhook-handler.js:75-82 | the result is the store's answer to the newest-first query with pattern `%q%`; one connection |
| `Webhook.RecentThoughtsContract` | src/openclaw/webhook-handler.js:65-70 | the limit defaults to 10; the rows returned are newest first, drawn from the table, at most `limit` of them, all of them when the table has at most `limit` rows, and none is older than a row left out |
| `Webhook.SearchThoughtsContract` | src/openclaw/webhook-handler.js:75-82 | for a query without wildcards, the rows returned are newest first and are exactly the rows whose content contains the query, ignoring ASCII case |
| `Storage.RecentRows` | src/openclaw/webhook-handler.js:67 | `ORDER BY created_at DESC LIMIT n`: newest first, a sub-multiset of the rows, of length `min(n, rows)` (all rows when `n` is negative), and no row left out is newer than one kept |
| `Storage.MatchingRows` | src/openclaw/webhook-handler.js:77-79 | `WHERE content LIKE p ORDER BY created_at DESC`: newest first, and exactly the matching rows with their multiplicities |
| `Storage.RowsAfter` | src/cron/jobs.js:45-49 | `WHERE created_at > cutoff ORDER BY created_at DESC`: newest first, and exactly the rows newer than the cutoff with their multiplicities |
| `Storage.InsertAppendsOneFreshRow` | src/openclaw/webhook-handler.js:43-52 | an accepted INSERT appends exactly one row with a fresh id and reports one change; a rejected one changes no row |
| `Sqlite.SearchPatternMatches` | src/openclaw/webhook-handler.js:80 | for a query without wildcards, `%q%` matches a text exactly when the text contains `q`, ignoring ASCII case |
| `Sqlite.UnderscoreSearchMatchesAnyText` | src/openclaw/webhook-handler.js:80 | the search `_` is not escaped, so it matches every non-empty content |
| `Api.PrepareIngest` | src/api.js:44-54 | an accepted body has truthy content, array tags and no metadata; a refused one answers 400 or 500 |
| `Api.IngestRejectsFalsyContent` | src/api.js:46-48 | `/ingest` answers 400 "Content is required" exactly when the content is falsy, and then the store is untouched |
| `Api.NormaliseTags` | src/api.js:53 | array tags pass through unchanged; a string gives an array of one tag more than it has commas; any other value is the `split` TypeError |
| `Api.StringTagsAreTrimmedPieces` | src/api.js:53 | a tags string is cut at every comma and each piece is trimmed |
| `Api.StringTagsCount` | src/api.js:53 | a tags string gives one tag more than it has commas, each the trim of its piece, empty pieces included |
| `Api.CommaTagsExample` | src/api.js:53 | `"a, b ,c"` becomes `["a","b","c"]` |
| `Api.ArrayTagsPassThrough` | src/api.js:53 | array tags are stored as given |
| `Api.IngestReturnsStoredId` | src/api.js:50-56 | a 200 answer carries the id of the one row appended; that row has the given content, source `'api'` by default, tags `[]` by default and metadata `{}`; a non-200 answer appends no row |
| `Api.IngestErrorsMapTo500` | src/api.js:42-61 | `/ingest` answers 200, 400 or 500; an error answer has no `success` and no `thoughtId`; an insert error becomes 500 with its message |
| `Api.WebhookErrorsMapTo500` | src/api.js:31-39 | `/webhooks/ingest` answers 500 exactly when `handleIngest` throws, with `received: true` and the message; otherwise it answers `{received: true, processed: true}` |
| `Api.ApiServer.PostIngest` | src/api.js:42-61 | the route computes `PostIngestSpec` |
| `Api.ApiServer.PostWebhookIngest` | src/api.js:31-39 | the route computes `PostWebhookSpec` |
| `Client.NewClient` | src/openclaw/client.js:10-15 | each option is taken when set; otherwise the gateway URL is `OPENCLAW_URL` when set, else `http://localhost:8080`, the token is `OPENCLAW_TOKEN`, the channel `'telegram'` and the target `'8388779580'`; so a token is set exactly when the option or `OPENCLAW_TOKEN` is |
| `Client.SendMessage` | src/openclaw/client.js:20-52 | without a token no request is made and the result is `{skipped: true}`; with one exactly one request is made |
| `Client.RequestUsesDefaults` | src/openclaw/client.js:26-41 | the one request is a POST to `/api/v1/message/send` with the bearer token and the channel and target options, each falling back to the client's default |
| `Client.NonOkResponseThrows` | src/openclaw/client.js:43-50 | a non-ok response throws `HTTP <status>: <statusText>`; a rejected fetch rethrows its error; an ok response resolves to its JSON |
| `Client.HttpErrorShowsStatus` | src/openclaw/client.js:44 | the error message reads `HTTP `, the decimal status, `: ` and the status text |
| `Client.SendDigest` | src/openclaw/client.js:87-92 | an empty list sends nothing and resolves to `undefined`; otherwise the formatted digest goes to `sendMessage` |
| `Client.DigestSentAsOneMessage` | src/openclaw/client.js:90-91 | with a token, a non-empty digest is one request to the default channel and target |
| `Client.FormatDigest` | src/openclaw/client.js:94-103 | the loop builds exactly `DigestText`: the header followed by one entry per thought, joined by newlines |
| `Client.Entries` | src/openclaw/client.js:97-100 | one entry per thought, the i-th numbered i + 1, in input order |
| `Client.EntryShowsPreview` | src/openclaw/client.js:98-99 | an entry is its number, `. `, the first min(100, length) characters, and `...` exactly when the content is longer than 100 |
| `Client.DigestAppend` | src/openclaw/client.js:97-102 | one more thought adds a newline and its entry at the end |
| `Client.DigestBlankLine` | src/openclaw/client.js:95-102 | the digest is the title, an empty line and the entries; an empty list gives the title and one newline |
| `Client.DigestLines` | src/openclaw/client.js:95-102 | when no content has a newline, the digest's lines are the title, a blank line and the entries, in order |
| `Json.Get` | src/openclaw/webhook-handler.js:20-25 | destructuring throws exactly on `undefined` or `null` and otherwise reads the property |
| `JsString.JoinSplit` | src/api.js:53 | joining the pieces of `split` with the same separator gives back the string |
| `JsString.SplitJoin` | src/api.js:53 | splitting a join of separator-free pieces gives back the pieces |
| `JsString.Trim` | src/api.js:53 | the result is no longer than the input and neither starts nor ends with whitespace or a line terminator |
| `JsString.TrimIsSlice` | src/api.js:53 | the trimmed string is a slice of the input, and only whitespace and line terminators lie outside it |
| `JsString.TrimIdempotent` | src/api.js:53 | trimming twice is trimming once |
| `JsString.LexLeTotal` | src/database.js:54 | the name order `sort()` uses is total |
| `JsString.LexLeTransitive` | src/database.js:54 | the name order `sort()` uses is transitive |
| `JsString.SurrogatePairsSortFirst` | src/database.js:54 | a name starting with a character above U+FFFF sorts before one starting with a character in U+E000..U+FFFF, as UTF-16 comparison gives |
| `JsString.ParseNatToString` | src/openclaw/client.js:44 | the decimal text of a number reads back as that number |

## Left out

- HTTP plumbing is not modelled: Express setup, `listen`, JSON body parsing,
  `/health`, `/thoughts`, `/admin/update`, the 404 and error middleware.
  The updater and the entry point are not part of this model either; they
  are shell commands and start-up sequencing around the core. Of the cron
  jobs (src/cron/jobs.js), only the SELECT of the digest window is modelled
  (`Storage.RowsAfter`, with the cutoff `datetime('now', '-1 hour')` or
  `'-1 day'` as a parameter) and the digest they send (`Client.SendDigest`).
  Their scheduling and logging are not modelled.
- `registerCronJob` on the client is not modelled. It repeats `sendMessage`'s
  token gate and error path for a different URL.
- The filesystem and the environment are parameters and are never read.
  - The migrations directory is given as `Option<seq<MigrationFile>>`:
    `None` when it does not exist. Reading a file with `readFileSync` is
    assumed to succeed.
  - `readdirSync` throws when the path exists but is not a directory. That
    error is not modelled: an existing path is always a listable directory.
  - The constructor's default database path, and the directory it creates
    under `HOME`, are not modelled.
  - `OPENCLAW_URL` and `OPENCLAW_TOKEN` are the `Env` parameter.
- The SQL text is not modelled. Each statement is a constructor of
  `Statement`, and the engine that runs it is abstract. Whether a statement
  fails is decided by the `Engine` parameter.
- `CREATE TABLE IF NOT EXISTS` keeps an existing table. The SQL a migration
  runs is recorded in `schema` but is not interpreted.
- Migrations are assumed to change only the schema. A migration file that
  updates `thoughts` or deletes from `migrations` is outside the model, so
  the "thoughts are untouched" part of `Migrations.MigrateEffect` and
  `Migrations.MigrationsOnlyGrow` rely on this assumption. How the engine
  reads a SQL text is abstract. In particular, node-sqlite3's `run`
  prepares only the first statement of a multi-statement string, and a
  migration file is modelled as one statement.
- The clock is a parameter: `created_at` is the caller's `now`. Rows with equal
  `created_at` come back in table order. SQLite does not fix that order, so
  this is one allowed choice.
- `JSON.stringify` is kept abstract (`Json.Stringify`), and serialisations
  are compared for equality only.
- `LIKE` only matches string contents. SQLite's conversion of a number or
  another value to text before matching is not modelled.
- `Webhook.SearchThoughtsContract`: requires a query without `%` or `_`.
  `Sqlite.UnderscoreSearchMatchesAnyText` shows what an unescaped `_` does
  instead.
- `Storage.Database.Run`: only the INSERT into `thoughts` is accepted. It is
  the only statement the core sends through `run`.
- Console logging, and the async/Promise mechanics, are not modelled.
  Concurrent requests are not modelled either: each operation is one atomic
  call on the store.
- JavaScript numbers are modelled as unbounded integers, with no floating
  point. Strings are sequences of characters, so the UTF-16 code-unit details
  of `length` and `substring` are not modelled. The sort order of names does
  compare UTF-16 code units (`JsString.LexLe`).
- `_formatDigest` takes the contents as strings. `thought.content.substring`
  throws a TypeError when the content is not a string, and that error is not
  modelled.
- The V8 TypeError for destructuring `undefined` or `null` is approximated by
  one fixed message. A string `tags` value sent to `/ingest` always has
  `split`, so the TypeError `tags.split is not a function` is raised only for
  tags that are neither arrays nor strings. That error is modelled as a 500
  with a fixed message.
- `response.json()` is part of the `HttpResponse` value that `fetch` gives.
