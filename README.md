# ski_buddy run/turn store and its HTTP handlers, in Dafny

This project models the core of ski_buddy, a small web service that records ski runs and the turns made in them. Two source files form that core:

- `src/db.rs` is the SQLite store. It has two tables, `runs` and `turns`, each with an `AUTOINCREMENT` id. `init_db` creates the tables and seeds two demonstration runs with nine turns, but only when `runs` is empty. The file also holds the two inserts and the two ordered, decoding selects.
- `src/main.rs` holds the handlers built on the store:
  - `runs` lists every run with its turns;
  - `create_run` and `create_turn` store one row and answer 201 or 500;
  - `turns_get` refuses GET with 405.

The project has five modules, one per file:

| module | file | what it holds |
|---|---|---|
| `Wrappers` | `wrappers.dfy` | `Option` and `Result`. |
| `Rfc3339` | `rfc3339.dfy` | Date-time text as in section 5.6 of RFC 3339. It stands in for chrono's `DateTime::parse_from_rfc3339` and `to_rfc3339`: a parser that checks syntax and the calendar, and a canonical formatter. It proves that every formatted date-time parses back to itself. |
| `Collation` | `collation.dfy` | SQLite's BINARY collation on text and `ORDER BY` on one text column, as a sort proved to return a sorted permutation of its input. |
| `Db` | `db.dfy` | Stored rows and decoded records. The `try_map` closures that decode rows. The two selects as functions of the table contents, with lemmas saying what they list and in which order. The seed data. The `Store` class, which holds the tables, whether each exists yet, and each table's AUTOINCREMENT sequence. Its methods are `insert_run`, `insert_turn` and `init_db`. |
| `Api` | `api.dfy` | The four handlers. A handler ends either in a response (a status and a body) or in a panic from `unwrap` or `expect`. |

The store is a class because the source changes the database step by step. Its two read queries are functions of the current tables (`reads this`). What a query returns is stated once, by lemmas about those functions.

In two places the code behaves differently than one might expect. The model follows the code in both:

- A malformed timestamp in `create_run` or `create_turn` is not answered with a client error. `unwrap` panics and no response is written (`Api.CreateRun`, `Api.CreateTurn`).
- Runs and turns are ordered by their stored text under BINARY collation, not by the instant in time. These agree only while every stored text has the same shape (`Db.SelectRunsSpec`, `Db.SelectTurnsSpec`).

## Model

| member | source | states |
|---|---|---|
| Rfc3339.Parse | src/db.rs:241-246 | A parse that succeeds yields a valid date-time: the month is 1 to 12, the day exists in that month of that year, the hour is below 24, the minute below 60, the second at most 60, the nanoseconds below 10^9, and the offset under a day. |
| Rfc3339.ParseFormat | src/db.rs:340-341 | The text `to_rfc3339` writes for any valid date-time parses back to exactly that date-time (`Rfc3339.Format` is the model of `to_rfc3339`). Within the model, every timestamp stored from a date-time can therefore be decoded again. The source does not have this property at the edges of the year range, as described under "## Left out". |
| Rfc3339.ParseWholeSeconds | src/db.rs:102-103 | A literal `YYYY-MM-DDThh:mm:ssZ`, the shape of the seeded run times, parses to exactly the fields written in it, at offset zero. |
| Rfc3339.ParseTenths | src/db.rs:115-116 | A literal `YYYY-MM-DDThh:mm:ss.dZ`, the shape of the seeded turn times, parses to exactly its fields, with d tenths of a second. |
| Collation.TextLeTotal | src/db.rs:235 | Any two texts are comparable under BINARY collation. |
| Collation.TextLeTransitive | src/db.rs:235 | BINARY collation is transitive. |
| Collation.TextLeAntisymmetric | src/db.rs:235 | Two texts that each sort no later than the other are equal. |
| Collation.SortSpec | src/db.rs:235 | `Collation.Sort`, the model of `ORDER BY`, returns its input rows, each exactly as often as it occurs, arranged so that every row may precede every later row (ascending or descending). |
| Db.DecodeRun | src/db.rs:238-255 | Decoding a run row succeeds exactly when both stored times parse. On success it keeps the id and path, and both times are what the stored texts parse to. On failure the error is `ColumnDecode` naming `start_time` when that column fails, or `end_time` otherwise. |
| Db.DecodeTurn | src/db.rs:270-291 | Decoding a turn row succeeds exactly when both stored timestamps parse. On success every other column is copied unchanged. On failure the error names `timestamp_start` when it fails, or `timestamp_end` otherwise. |
| Db.TryMapSpec | src/db.rs:238-256 | `Db.TryMap`, fetching through a fallible row mapping, succeeds exactly when every row maps. It then returns one value per row, in row order. Otherwise it returns the error of the first row that fails, and every earlier row mapped. |
| Db.RowsOfRunCounts | src/db.rs:265 | `Db.RowsOfRun`, the model of `WHERE run_id = ?`, keeps every copy of each row of that run and no row of any other run. |
| Db.SelectRunsSpec | src/db.rs:230-258 | `Db.SelectRuns`, `get_runs` over the rows of `runs`, succeeds exactly when every stored run row decodes. It then lists the decoding of an arrangement of all run rows, each row once, sorted by start_time text, descending. Otherwise its error is the decoding error of a stored row. |
| Db.SelectRunsListsRows | src/db.rs:230-258 | A successful `get_runs` has one entry per stored row. Every stored row's decoding is listed, and every listed run is the decoding of a stored row. |
| Db.SelectTurnsSpec | src/db.rs:260-294 | `Db.SelectTurnsForRun`, `get_turns_for_run` over the rows of `turns`, succeeds exactly when every stored turn of that run decodes. It then lists the decodings of exactly that run's turn rows, sorted by timestamp_start text, ascending. Otherwise its error is the decoding error of one of that run's rows. |
| Db.SelectTurnsListsRows | src/db.rs:260-294 | A successful `get_turns_for_run` lists the decoding of every stored turn of the run, and only decodings of that run's rows. |
| Db.NoTurnsIsEmpty | src/db.rs:263-268 | A run that no turn row points at gets an empty list, not an error. |
| Db.OtherRunsTurnsUnchanged | src/db.rs:265 | Appending a turn under another run leaves this run's `get_turns_for_run` unchanged. |
| Db.StoredRunDecodes | src/main.rs:227-231 | A run row whose times were written by `to_rfc3339` decodes to exactly the run with those times. |
| Db.StoredTurnDecodes | src/db.rs:334-342 | A turn row as `insert_turn` writes it decodes to exactly the turn that was inserted. |
| Db.InsertedRunListed | src/db.rs:296-316 | After a run row written from two date-times is appended to a table that `get_runs` can read, `get_runs` still succeeds, lists one more run, and lists that run with those date-times. |
| Db.InsertedTurnListed | src/db.rs:318-346 | After `insert_turn` appends a row to a run whose turns can be read, that run's `get_turns_for_run` still succeeds and lists the inserted turn. |
| Db.SeedTurnTextDenotes | src/db.rs:116 | The literal `2024-02-20T10:00:01.2Z` parses to exactly the instant the seed table holds as the first seeded turn's end. |
| Db.FirstRunTextsParse | src/db.rs:100-105 | Both literal times bound for the first seeded run are RFC 3339 date-times. |
| Db.SecondRunTextsParse | src/db.rs:144-149 | Both literal times bound for the second seeded run are RFC 3339 date-times. |
| Db.SeedRunsReadBack | src/db.rs:99-150 | The two seeded run rows, holding the literal texts `init_db` binds, are read back by `get_runs` without error, as two runs. |
| Db.RunsStillDecode | src/db.rs:296-316 | Appending a run row that decodes to a table `get_runs` can read keeps `get_runs` successful. |
| Db.TurnsStillDecode | src/db.rs:318-346 | Appending a turn row that decodes keeps every run's `get_turns_for_run` successful. |
| Db.SeedTurnIds | src/db.rs:108-221 | Seeding writes nine turns, which take the next nine turn ids in the order they are written. |
| Db.SeedTurnsOfRun | src/db.rs:99-222 | The three seeded turns written after the first `insert_run` belong to the first seeded run, the six written after the second belong to the second, and no seeded turn belongs to any other run. |
| Db.SeedRowsOfRun | src/db.rs:108-142 | The seed turns written under one run id belong to that run and to no other. |
| Db.Store.constructor | src/db.rs:55 | A freshly connected database has no tables, no rows and both sequences at zero. |
| Db.Store.CreateTables | src/db.rs:58-89 | After both `CREATE TABLE IF NOT EXISTS` statements, both tables exist and no row has changed. |
| Db.Store.InsertRun | src/db.rs:296-316 | `insert_run` succeeds exactly when `runs` exists and the sequence is below i64::MAX. On success the returned id is one past every id handed out before, the strings are stored exactly as given, and the row is appended. On failure (`NoSuchTable` or `DatabaseFull`) nothing changes. |
| Db.Store.InsertTurn | src/db.rs:318-346 | `insert_turn` succeeds exactly when `turns` exists, its sequence is below i64::MAX, and, when foreign keys are enforced, the run exists. On success it returns the next id and appends the row with both timestamps stored as their RFC 3339 text. On failure the first unmet condition is reported and nothing changes. |
| Db.Store.GetRuns | src/db.rs:230-258 | Without a `runs` table the query fails with `NoSuchTable`. Otherwise it returns what `Db.SelectRunsSpec` describes for the current rows. |
| Db.Store.GetTurnsForRun | src/db.rs:260-294 | Without a `turns` table the query fails with `NoSuchTable`. Otherwise it returns what `Db.SelectTurnsSpec` describes for the current rows. |
| Db.Store.InsertSeedTurn | src/db.rs:108-118 | One seeding `insert_turn` call. On success it appends the next seed's row with the next id. On failure nothing changes. |
| Db.Store.InsertSeedTurns | src/db.rs:108-142 | A run's seeding `insert_turn(..).await?` calls, in order. They all succeed exactly when the turn sequence has room for all of them, and then they append the seeds' rows with consecutive ids. The rows present before are always kept. |
| Db.Store.SeedRun | src/db.rs:100-142 | `insert_run(..).await?` for one seeded run, then its turns under the returned id. Success requires room in both sequences. On success it appends exactly that run row and its turn rows. |
| Db.Store.Seed | src/db.rs:99-222 | The whole seeding block. It succeeds exactly when there is room for two runs and all the turns. It then appends the two run rows and their turns in source order, and it only ever appends. |
| Db.Store.InitDb | src/db.rs:58-227 | Both tables exist afterwards. If `runs` already had rows, nothing else changes and the result is Ok. If `runs` was empty, seeding succeeds exactly when both sequences have room, and `runs` then holds the two seed runs and `turns` gains the nine seed turns. Rows are only ever appended. |
| Db.InitDbTwice | src/db.rs:93-97 | Starting twice against a fresh database seeds exactly once: both calls succeed and the tables hold the two seed runs and nine seed turns. |
| Api.ViewRunFaithful | src/main.rs:169-183 | `Api.ViewRun` and `Api.ViewTurn` build the JSON entry of a run. The entry keeps its id and its turns, in order, with direction, metrics and smoothness unchanged. Every reported time is text that parses back to the stored date-time. |
| Api.AttachEach | src/main.rs:163-186 | The loop of `runs` succeeds exactly when every element's fetch succeeds. It then holds one combined entry per element, in order. Otherwise it returns the error of a failing fetch, and every fetch before that one succeeded. |
| Api.Runs | src/main.rs:160-186 | `runs` panics with "Failed to fetch runs" when `get_runs` fails. Otherwise it panics with "Failed to fetch turns" exactly when some listed run's turns cannot be fetched. In every other case it answers 200 with one entry per listed run, in `get_runs` order, each holding that run's `get_turns_for_run` turns. |
| Api.CreateRun | src/main.rs:216-236 | A start or end text that does not parse makes `create_run` panic in `unwrap` with nothing stored. With both parsed, it answers 201 exactly when `insert_run` can succeed, with the new id in the body and a row holding both times' canonical text and the fixed path. Otherwise it answers 500 with the cause, and nothing changes. |
| Api.StoreRun | src/main.rs:227-235 | The `insert_run` call of `create_run`: 201 with the new id and the appended row, or 500 with "Failed to create run" and the cause, leaving the table as it was. |
| Api.CreateTurn | src/main.rs:238-264 | A timestamp that does not parse makes `create_turn` panic with nothing stored. With both parsed, it answers 201 exactly when `insert_turn` can succeed, and the row carries every request field unchanged. Otherwise it answers 500 naming the missing table, the full sequence, or the foreign-key violation, and nothing changes. |
| Api.StoreTurn | src/main.rs:249-263 | The `insert_turn` call of `create_turn`: 201 with the new id and the appended row, or 500 with "Failed to create turn" and the cause, leaving the table as it was. |
| Api.TurnsGet | src/main.rs:266-272 | GET on the turns endpoint always answers 405, naming POST as the only allowed method. |

## Left out

- Connecting and file handling are not modelled: reading `DATABASE_URL`, creating the database file, opening the pool, and the `info!`/`warn!` logging. The model starts from a connected, empty database (`Db.Store.constructor`).
- Async execution, the connection pool and concurrent requests are not modelled. Each operation runs to completion on its own.
- Actix routing, CORS, the `index` handler and serde are not modelled. The `runs` handler's `_links` envelope (src/main.rs:188-212) is constant data and is left out; the model keeps only `data.runs`.
- Api.CreateRun: the model does not convert the parsed time to UTC (`with_timezone(&Utc)`). The stored text keeps the offset written in the request, where the source stores the same instant at offset `+00:00`. Converting needs calendar arithmetic across day, month and year boundaries, which is not modelled.
- Api.CreateTurn: does not convert to UTC either, for the same reason.
- Api.CreateRun, Api.CreateTurn: because the UTC conversion is left out, the model misses a failure of the source at the edges of the year range. A valid request time such as `9999-12-31T23:30:00-01:00` falls in UTC year 10000, and `0000-01-01T00:30:00+01:00` falls in year -1. chrono writes such a year with a sign (`+10000-01-01T00:30:00+00:00`), and `parse_from_rfc3339` on the read path (src/db.rs:241, src/db.rs:278) rejects that text. The insert still answers 201, but from then on `get_runs`, or that run's `get_turns_for_run`, fails with `ColumnDecode`, and every `runs` request panics (src/main.rs:161, src/main.rs:167). In the model every stored time keeps a year in 0 to 9999 and decodes again (`Rfc3339.ParseFormat`). The UTC year leaves that range exactly when the date is 0000-01-01 and hh*60+mm is below the offset, or the date is 9999-12-31 and hh*60+mm minus the offset is at least 1440.
- Db.DecodeRun: the decoded time keeps its written offset rather than being converted to UTC. Two texts that denote the same instant at different offsets decode to different values here.
- Db.DecodeTurn: does not convert to UTC, as for `Db.DecodeRun`.
- Rfc3339.Parse: only `T` and `t` are accepted between date and time. chrono also accepts a space there, which the model does not. A leap second is kept as second 60.
- The REAL columns `parallelness` and `closeness` are `real` values that are only copied. f64 rounding and SQLite's REAL storage are not modelled.
- Column affinity is not modelled. `DATETIME` columns hold exactly the text that was bound.
- Database errors other than a missing table, an exhausted AUTOINCREMENT sequence, an enforced foreign key and a column that fails to decode are not modelled. I/O errors, locking and corruption are outside the model. The `Display` text of an error is not modelled; a 500 body holds its context and the error value.
- Db.Store.CountRuns: `SELECT COUNT(*)` is the number of rows of `runs`. Its role, seeding only an empty table, is stated by `Db.Store.InitDb`.
- Db.SelectRunsSpec: rows with equal start_time text may come in any order, as in SQLite. The model fixes one such order and the lemma promises only sortedness and membership.
- Db.SelectTurnsSpec: ties on timestamp_start text are left unordered, as for runs.
- Db.Store.Seed: a failure part-way leaves the rows written before it, because the source runs no transaction. A crash of the process mid-seed is not modelled.
- Db.Store.InsertSeedTurns: the source writes out its nine `insert_turn(..).await?` calls one after another. The model walks the same calls, in the same order, from the tables `FirstRunTurns` and `SecondRunTurns` in a loop.
- The seed turn timestamps are given as the date-times their literal texts denote. `Rfc3339.ParseTenths` and `Rfc3339.ParseWholeSeconds` state that texts of those shapes parse to their fields.
- Whether SQLite enforces the `FOREIGN KEY` clause depends on the connection's pragma, which the source never sets. The model takes it as the `enforceForeignKeys` parameter of the store.
- The `#[cfg(test)]` module of src/main.rs is not modelled.
