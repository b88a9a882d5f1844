/**
 * The run/turn store of src/db.rs: two SQLite tables, each with an
 * AUTOINCREMENT id, the statements the repository issues against them, and
 * `init_db`, which creates the tables and seeds demonstration data once.
 */
module Db {
  import opened Wrappers
  import opened Rfc3339
  import opened Collation

  /** The largest rowid SQLite hands out (i64::MAX). */
  const MaxRowId: int := 0x7fff_ffff_ffff_ffff

  /** A row of table `runs` as stored: the timestamps are whatever text was bound. */
  datatype RunRow = RunRow(id: int, startTime: string, endTime: string, path: string)

  /** A row of table `turns` as stored. The REAL metrics are only copied, never computed on. */
  datatype TurnRow = TurnRow(
    id: int, runId: int, direction: string, parallelness: real, closeness: real,
    smoothness: string, timestampStart: string, timestampEnd: string)

  /** The `Run` record: a run row whose timestamps have been decoded. */
  datatype Run = Run(id: int, startTime: Timestamp, endTime: Timestamp, path: string)

  /** The `Turn` record: a turn row whose timestamps have been decoded. */
  datatype Turn = Turn(
    id: int, runId: int, direction: string, parallelness: real, closeness: real,
    smoothness: string, timestampStart: Timestamp, timestampEnd: Timestamp)

  datatype DbError =
    | NoSuchTable(table: string)   // a statement names a table that was never created
    | DatabaseFull                 // AUTOINCREMENT has already handed out MaxRowId
    | ForeignKeyViolation          // turns.run_id names no run while enforcement is on
    | ColumnDecode(index: string)  // a stored timestamp is not RFC 3339 text

  // ---------------------------------------------------------------- decoding rows

  /** The `try_map` closure of `get_runs`: start_time is decoded before end_time. */
  function DecodeRun(row: RunRow): (r: Result<Run, DbError>)
    ensures r.Ok? <==> IsDateTime(row.startTime) && IsDateTime(row.endTime)
    ensures r.Ok? ==> r.value.id == row.id && r.value.path == row.path
    ensures r.Ok? ==> Parse(row.startTime) == Some(r.value.startTime) && Parse(row.endTime) == Some(r.value.endTime)
    ensures r.Err? ==> r.error == ColumnDecode(if IsDateTime(row.startTime) then "end_time" else "start_time")
  {
    match Parse(row.startTime)
    case None => Err(ColumnDecode("start_time"))
    case Some(start) =>
      match Parse(row.endTime)
      case None => Err(ColumnDecode("end_time"))
      case Some(end) => Ok(Run(row.id, start, end, row.path))
  }

  /** The `try_map` closure of `get_turns_for_run`: timestamp_start is decoded before timestamp_end. */
  function DecodeTurn(row: TurnRow): (r: Result<Turn, DbError>)
    ensures r.Ok? <==> IsDateTime(row.timestampStart) && IsDateTime(row.timestampEnd)
    ensures r.Ok? ==> && r.value.id == row.id && r.value.runId == row.runId
                      && r.value.direction == row.direction && r.value.smoothness == row.smoothness
                      && r.value.parallelness == row.parallelness && r.value.closeness == row.closeness
    ensures r.Ok? ==> Parse(row.timestampStart) == Some(r.value.timestampStart)
                      && Parse(row.timestampEnd) == Some(r.value.timestampEnd)
    ensures r.Err? ==> r.error == ColumnDecode(if IsDateTime(row.timestampStart) then "timestamp_end" else "timestamp_start")
  {
    match Parse(row.timestampStart)
    case None => Err(ColumnDecode("timestamp_start"))
    case Some(start) =>
      match Parse(row.timestampEnd)
      case None => Err(ColumnDecode("timestamp_end"))
      case Some(end) =>
        Ok(Turn(row.id, row.runId, row.direction, row.parallelness, row.closeness, row.smoothness, start, end))
  }

  /** `fetch_all` over a fallible row mapping: stops at the first row that fails. */
  function TryMap<A, B>(xs: seq<A>, f: A -> Result<B, DbError>): Result<seq<B>, DbError> {
    if xs == [] then Ok([])
    else
      match f(xs[0])
      case Err(e) => Err(e)
      case Ok(y) =>
        match TryMap(xs[1..], f)
        case Err(e) => Err(e)
        case Ok(ys) => Ok([y] + ys)
  }

  /** Every row mapped, in order, or the error of the first row that fails and nothing else. */
  lemma {:induction false} TryMapSpec<A, B>(xs: seq<A>, f: A -> Result<B, DbError>)
    ensures TryMap(xs, f).Ok? <==> forall i | 0 <= i < |xs| :: f(xs[i]).Ok?
    ensures TryMap(xs, f).Ok? ==> |TryMap(xs, f).value| == |xs| && forall i | 0 <= i < |xs| :: f(xs[i]) == Ok(TryMap(xs, f).value[i])
    ensures TryMap(xs, f).Err? ==> exists i | 0 <= i < |xs| :: f(xs[i]) == Err(TryMap(xs, f).error) && forall j | 0 <= j < i :: f(xs[j]).Ok?
  {
    if xs != [] && f(xs[0]).Ok? {
      TryMapSpec(xs[1..], f);
      assert forall i | 1 <= i < |xs| :: xs[1..][i - 1] == xs[i];
      if TryMap(xs[1..], f).Err? {
        var i :| 0 <= i < |xs[1..]| && f(xs[1..][i]) == Err(TryMap(xs, f).error) && forall j | 0 <= j < i :: f(xs[1..][j]).Ok?;
        assert f(xs[i + 1]) == Err(TryMap(xs, f).error);
      }
    }
  }

  // ---------------------------------------------------------------- queries

  function StartTimeOf(row: RunRow): string { row.startTime }

  function TimestampStartOf(row: TurnRow): string { row.timestampStart }

  /** order holds every run row exactly once, by stored start_time text, descending. */
  ghost predicate IsRunOrder(order: seq<RunRow>, runs: seq<RunRow>) {
    multiset(order) == multiset(runs) && SortedBy(order, StartTimeOf, true)
  }

  /** order holds exactly the turn rows of run runId, by stored timestamp_start text, ascending. */
  ghost predicate IsTurnOrder(order: seq<TurnRow>, turns: seq<TurnRow>, runId: int) {
    && (forall t: TurnRow :: multiset(order)[t] == if t.runId == runId then multiset(turns)[t] else 0)
    && SortedBy(order, TimestampStartOf, false)
  }

  /** The rows of `WHERE run_id = ?`, in table order. */
  function RowsOfRun(turns: seq<TurnRow>, runId: int): seq<TurnRow> {
    if turns == [] then []
    else
      var rest := RowsOfRun(turns[1..], runId);
      if turns[0].runId == runId then [turns[0]] + rest else rest
  }

  /** `WHERE run_id = ?` keeps every copy of a row of that run and no other row. */
  lemma {:induction false} RowsOfRunCounts(turns: seq<TurnRow>, runId: int)
    ensures forall t: TurnRow :: multiset(RowsOfRun(turns, runId))[t] == if t.runId == runId then multiset(turns)[t] else 0
  {
    if turns != [] {
      assert turns == [turns[0]] + turns[1..];
      RowsOfRunCounts(turns[1..], runId);
    }
  }

  /** `get_runs` over the rows of table `runs`. */
  function SelectRuns(runs: seq<RunRow>): Result<seq<Run>, DbError> {
    TryMap(Sort(runs, StartTimeOf, true), DecodeRun)
  }

  /**
   * `get_runs` succeeds exactly when every stored run decodes; it then lists
   * every row once, by start_time text, newest first, and otherwise fails with
   * the error of a row that does not decode.
   */
  lemma SelectRunsSpec(runs: seq<RunRow>)
    ensures SelectRuns(runs).Ok? <==> forall row | row in runs :: DecodeRun(row).Ok?
    ensures SelectRuns(runs).Ok? ==>
              exists order :: IsRunOrder(order, runs) && |order| == |SelectRuns(runs).value|
                              && forall i | 0 <= i < |order| :: DecodeRun(order[i]) == Ok(SelectRuns(runs).value[i])
    ensures SelectRuns(runs).Err? ==> exists row | row in runs :: DecodeRun(row) == Err(SelectRuns(runs).error)
  {
    var order := Sort(runs, StartTimeOf, true);
    SortSpec(runs, StartTimeOf, true);
    SameMembers(order, runs);
    TryMapSpec(order, DecodeRun);
  }

  /** Two reorderings of each other hold the same rows. */
  lemma SameMembers<T>(xs: seq<T>, ys: seq<T>)
    requires multiset(xs) == multiset(ys)
    ensures forall x :: x in xs <==> x in ys
  {
    forall x ensures x in xs <==> x in ys {
      assert x in xs <==> x in multiset(xs);
    }
  }

  /** `get_turns_for_run` over the rows of table `turns`. */
  function SelectTurnsForRun(turns: seq<TurnRow>, runId: int): Result<seq<Turn>, DbError> {
    TryMap(Sort(RowsOfRun(turns, runId), TimestampStartOf, false), DecodeTurn)
  }

  /**
   * `get_turns_for_run` succeeds exactly when every stored turn of the run
   * decodes; it then lists exactly the turns of that run, by timestamp_start
   * text, earliest first, and otherwise fails with the error of one of them.
   */
  lemma SelectTurnsSpec(turns: seq<TurnRow>, runId: int)
    ensures SelectTurnsForRun(turns, runId).Ok? <==> forall row | row in turns && row.runId == runId :: DecodeTurn(row).Ok?
    ensures SelectTurnsForRun(turns, runId).Ok? ==>
              exists order :: IsTurnOrder(order, turns, runId) && |order| == |SelectTurnsForRun(turns, runId).value|
                              && forall i | 0 <= i < |order| :: DecodeTurn(order[i]) == Ok(SelectTurnsForRun(turns, runId).value[i])
    ensures SelectTurnsForRun(turns, runId).Err? ==>
              exists row | row in turns && row.runId == runId :: DecodeTurn(row) == Err(SelectTurnsForRun(turns, runId).error)
  {
    var order := Sort(RowsOfRun(turns, runId), TimestampStartOf, false);
    SortSpec(RowsOfRun(turns, runId), TimestampStartOf, false);
    RowsOfRunCounts(turns, runId);
    TurnOrderMembers(order, turns, runId);
    TryMapSpec(order, DecodeTurn);
    var r := TryMap(order, DecodeTurn);
    assert r.Ok? ==> IsTurnOrder(order, turns, runId) && |order| == |r.value|
                     && forall i | 0 <= i < |order| :: DecodeTurn(order[i]) == Ok(r.value[i]);
  }

  // ---------------------------------------------------------------- what the reads return

  /** A run row written from two date-times reads back as exactly those date-times. */
  lemma StoredRunDecodes(id: int, startTime: Timestamp, endTime: Timestamp, path: string)
    ensures DecodeRun(RunRow(id, Format(startTime), Format(endTime), path)) == Ok(Run(id, startTime, endTime, path))
  {
    ParseFormat(startTime);
    ParseFormat(endTime);
  }

  /** A turn row as `insert_turn` writes it reads back as the turn that was inserted. */
  lemma StoredTurnDecodes(id: int, runId: int, direction: string, parallelness: real, closeness: real,
                          smoothness: string, timestampStart: Timestamp, timestampEnd: Timestamp)
    ensures DecodeTurn(TurnRow(id, runId, direction, parallelness, closeness, smoothness,
                               Format(timestampStart), Format(timestampEnd)))
         == Ok(Turn(id, runId, direction, parallelness, closeness, smoothness, timestampStart, timestampEnd))
  {
    ParseFormat(timestampStart);
    ParseFormat(timestampEnd);
  }

  /** Mapping rows one by one: every row's decoding is listed, and every listed value decodes some row. */
  lemma DecodedMembers<A, B>(rows: seq<A>, values: seq<B>, decode: A -> Result<B, DbError>)
    requires |rows| == |values| && forall i | 0 <= i < |rows| :: decode(rows[i]) == Ok(values[i])
    ensures forall row | row in rows :: decode(row).Ok? && decode(row).value in values
    ensures forall v | v in values :: exists row | row in rows :: decode(row) == Ok(v)
  {
    forall row | row in rows ensures decode(row).Ok? && decode(row).value in values {
      var i :| 0 <= i < |rows| && rows[i] == row;
    }
    forall v | v in values ensures exists row | row in rows :: decode(row) == Ok(v) {
      var i :| 0 <= i < |values| && values[i] == v;
      assert rows[i] in rows;
    }
  }

  /** A successful `get_runs` lists the decoding of every stored run row, and nothing else. */
  lemma SelectRunsListsRows(runs: seq<RunRow>)
    requires SelectRuns(runs).Ok?
    ensures forall row | row in runs :: DecodeRun(row).Ok? && DecodeRun(row).value in SelectRuns(runs).value
    ensures forall run | run in SelectRuns(runs).value :: exists row | row in runs :: DecodeRun(row) == Ok(run)
    ensures |SelectRuns(runs).value| == |runs|
  {
    SelectRunsSpec(runs);
    var rs := SelectRuns(runs).value;
    var order :| IsRunOrder(order, runs) && |order| == |rs|
                 && forall i | 0 <= i < |order| :: DecodeRun(order[i]) == Ok(rs[i]);
    SameMembers(order, runs);
    DecodedMembers(order, rs, DecodeRun);
    assert |multiset(order)| == |multiset(runs)|;
  }

  /** An order of the rows of run runId holds exactly the stored rows of that run. */
  lemma TurnOrderMembers(order: seq<TurnRow>, turns: seq<TurnRow>, runId: int)
    requires IsTurnOrder(order, turns, runId)
    ensures forall row :: row in order <==> row in turns && row.runId == runId
  {
    forall row ensures row in order <==> row in turns && row.runId == runId {
      assert row in order <==> multiset(order)[row] > 0;
      assert row in turns <==> multiset(turns)[row] > 0;
    }
  }

  /** A successful `get_turns_for_run` lists the decoding of every stored turn row of that run, and nothing else. */
  lemma SelectTurnsListsRows(turns: seq<TurnRow>, runId: int)
    requires SelectTurnsForRun(turns, runId).Ok?
    ensures forall row | row in turns && row.runId == runId ::
              DecodeTurn(row).Ok? && DecodeTurn(row).value in SelectTurnsForRun(turns, runId).value
    ensures forall t | t in SelectTurnsForRun(turns, runId).value ::
              exists row | row in turns && row.runId == runId :: DecodeTurn(row) == Ok(t)
  {
    SelectTurnsSpec(turns, runId);
    var ts := SelectTurnsForRun(turns, runId).value;
    var order :| IsTurnOrder(order, turns, runId) && |order| == |ts|
                 && forall i | 0 <= i < |order| :: DecodeTurn(order[i]) == Ok(ts[i]);
    TurnOrderMembers(order, turns, runId);
    DecodedMembers(order, ts, DecodeTurn);
  }

  /** `WHERE run_id = ?` over a concatenation filters each part. */
  lemma {:induction false} RowsOfRunConcat(xs: seq<TurnRow>, ys: seq<TurnRow>, runId: int)
    ensures RowsOfRun(xs + ys, runId) == RowsOfRun(xs, runId) + RowsOfRun(ys, runId)
  {
    if xs == [] {
      assert [] + ys == ys;
    } else {
      assert (xs + ys)[1..] == xs[1..] + ys;
      RowsOfRunConcat(xs[1..], ys, runId);
    }
  }

  /** `WHERE run_id = ?` keeps rows that all belong to the run as they are. */
  lemma {:induction false} RowsOfRunAll(xs: seq<TurnRow>, runId: int)
    requires forall i | 0 <= i < |xs| :: xs[i].runId == runId
    ensures RowsOfRun(xs, runId) == xs
  {
    if xs != [] {
      RowsOfRunAll(xs[1..], runId);
    }
  }

  /** `WHERE run_id = ?` over rows none of which belongs to the run is empty. */
  lemma {:induction false} RowsOfRunNone(xs: seq<TurnRow>, runId: int)
    requires forall i | 0 <= i < |xs| :: xs[i].runId != runId
    ensures RowsOfRun(xs, runId) == []
  {
    if xs != [] {
      RowsOfRunNone(xs[1..], runId);
    }
  }

  /** A run no turn row points at has an empty list of turns, not an error. */
  lemma NoTurnsIsEmpty(turns: seq<TurnRow>, runId: int)
    requires forall i | 0 <= i < |turns| :: turns[i].runId != runId
    ensures SelectTurnsForRun(turns, runId) == Ok([])
  {
    RowsOfRunNone(turns, runId);
  }

  /** A turn appended under another run leaves this run's `get_turns_for_run` as it was. */
  lemma OtherRunsTurnsUnchanged(turns: seq<TurnRow>, row: TurnRow, runId: int)
    requires row.runId != runId
    ensures SelectTurnsForRun(turns + [row], runId) == SelectTurnsForRun(turns, runId)
  {
    RowsOfRunConcat(turns, [row], runId);
    RowsOfRunNone([row], runId);
    assert RowsOfRun(turns, runId) + [] == RowsOfRun(turns, runId);
  }

  /** Appending a run row that decodes keeps `get_runs` successful. */
  lemma RunsStillDecode(runs: seq<RunRow>, row: RunRow)
    requires SelectRuns(runs).Ok? && DecodeRun(row).Ok?
    ensures SelectRuns(runs + [row]).Ok?
  {
    SelectRunsSpec(runs);
    SelectRunsSpec(runs + [row]);
    assert forall r | r in runs + [row] :: r in runs || r == row;
  }

  /** A run row written from two date-times is listed, as those date-times, by the next `get_runs`. */
  lemma InsertedRunListed(runs: seq<RunRow>, id: int, startTime: Timestamp, endTime: Timestamp, path: string)
    requires SelectRuns(runs).Ok?
    ensures var after := SelectRuns(runs + [RunRow(id, Format(startTime), Format(endTime), path)]);
            after.Ok? && Run(id, startTime, endTime, path) in after.value && |after.value| == |runs| + 1
  {
    var row := RunRow(id, Format(startTime), Format(endTime), path);
    StoredRunDecodes(id, startTime, endTime, path);
    RunsStillDecode(runs, row);
    SelectRunsListsRows(runs + [row]);
    assert row in runs + [row];
  }

  /** Appending a turn row that decodes keeps `get_turns_for_run` of any run successful. */
  lemma TurnsStillDecode(turns: seq<TurnRow>, row: TurnRow, runId: int)
    requires SelectTurnsForRun(turns, runId).Ok? && DecodeTurn(row).Ok?
    ensures SelectTurnsForRun(turns + [row], runId).Ok?
  {
    SelectTurnsSpec(turns, runId);
    SelectTurnsSpec(turns + [row], runId);
    assert forall r | r in turns + [row] :: r in turns || r == row;
  }

  /** A turn row written by `insert_turn` is listed, as the inserted turn, by the next `get_turns_for_run` of its run. */
  lemma InsertedTurnListed(turns: seq<TurnRow>, id: int, runId: int, direction: string, parallelness: real, closeness: real,
                           smoothness: string, timestampStart: Timestamp, timestampEnd: Timestamp)
    requires SelectTurnsForRun(turns, runId).Ok?
    ensures var after := SelectTurnsForRun(turns + [TurnRow(id, runId, direction, parallelness, closeness, smoothness,
                                                           Format(timestampStart), Format(timestampEnd))], runId);
            after.Ok? && Turn(id, runId, direction, parallelness, closeness, smoothness, timestampStart, timestampEnd) in after.value
  {
    var row := TurnRow(id, runId, direction, parallelness, closeness, smoothness, Format(timestampStart), Format(timestampEnd));
    StoredTurnDecodes(id, runId, direction, parallelness, closeness, smoothness, timestampStart, timestampEnd);
    TurnsStillDecode(turns, row, runId);
    SelectTurnsListsRows(turns + [row], runId);
    assert row in turns + [row];
  }

  // ---------------------------------------------------------------- seed data

  /** The path of the first seeded run; `create_run` stores it for every run too. */
  const PathA: string := "M 0 50 C 25 25, 75 75, 100 50"

  const PathB: string := "M 0 50 C 25 75, 75 25, 100 50"

  /**
   * 20 February 2024 at the given time of day, UTC. Seeding gives each turn
   * `DateTime::parse_from_rfc3339(text).unwrap()` of a literal text such as
   * `2024-02-20T10:00:01.2Z`; the seed tables below hold the instant each
   * text denotes (`Rfc3339.ParseTenths` and `Rfc3339.ParseWholeSeconds`
   * show that texts of these two shapes parse to exactly their fields).
   */
  function SeedInstant(hour: int, minute: int, second: int, nanos: int): Timestamp
    requires 0 <= hour < 24 && 0 <= minute < 60 && 0 <= second < 60 && 0 <= nanos < 1_000_000_000
  {
    DateTime(2024, 2, 20, hour, minute, second, nanos, 0)
  }

  /** A demonstration turn as `init_db` hands it to `insert_turn`, less the run it belongs to. */
  datatype SeedTurn = SeedTurn(direction: string, parallelness: real, closeness: real, smoothness: string,
                               start: Timestamp, end: Timestamp)

  /** The three turns seeded under the first run, in insertion order. */
  const FirstRunTurns: seq<SeedTurn> := [
    SeedTurn("left", 0.85, 0.92, "smooth", SeedInstant(10, 0, 0, 0), SeedInstant(10, 0, 1, 200_000_000)),
    SeedTurn("right", 0.88, 0.95, "abrupt", SeedInstant(10, 0, 1, 500_000_000), SeedInstant(10, 0, 2, 700_000_000)),
    SeedTurn("left", 0.82, 0.90, "smooth", SeedInstant(10, 0, 3, 0), SeedInstant(10, 0, 4, 100_000_000))
  ]

  /** The six turns seeded under the second run, in insertion order. */
  const SecondRunTurns: seq<SeedTurn> := [
    SeedTurn("right", 0.87, 0.93, "smooth", SeedInstant(11, 0, 0, 0), SeedInstant(11, 0, 1, 100_000_000)),
    SeedTurn("left", 0.89, 0.96, "smooth", SeedInstant(11, 0, 1, 400_000_000), SeedInstant(11, 0, 2, 300_000_000)),
    SeedTurn("right", 0.91, 0.94, "smooth", SeedInstant(11, 0, 2, 600_000_000), SeedInstant(11, 0, 3, 800_000_000)),
    SeedTurn("left", 0.88, 0.92, "abrupt", SeedInstant(11, 0, 4, 0), SeedInstant(11, 0, 5, 200_000_000)),
    SeedTurn("right", 0.86, 0.91, "smooth", SeedInstant(11, 0, 5, 500_000_000), SeedInstant(11, 0, 6, 700_000_000)),
    SeedTurn("left", 0.90, 0.95, "smooth", SeedInstant(11, 0, 7, 0), SeedInstant(11, 0, 8, 100_000_000))
  ]

  lemma SeedTableSizes()
    ensures |FirstRunTurns| == 3 && |SecondRunTurns| == 6
  {
  }

  /** The start and end texts `init_db` binds for the two seeded runs. */
  const FirstRunStart: string := "2024-02-20T10:00:00Z"
  const FirstRunEnd: string := "2024-02-20T10:01:30Z"
  const SecondRunStart: string := "2024-02-20T11:00:00Z"
  const SecondRunEnd: string := "2024-02-20T11:02:00Z"

  /** The run rows seeding appends, when the run sequence stood at runsSeq. */
  function SeedRuns(runsSeq: int): seq<RunRow> {
    [RunRow(runsSeq + 1, FirstRunStart, FirstRunEnd, PathA),
     RunRow(runsSeq + 2, SecondRunStart, SecondRunEnd, PathB)]
  }

  /** The row `insert_turn` writes for seed under runId when it is handed id. */
  function SeedRow(id: int, runId: int, seed: SeedTurn): TurnRow {
    TurnRow(id, runId, seed.direction, seed.parallelness, seed.closeness, seed.smoothness,
            Format(seed.start), Format(seed.end))
  }

  /** The rows `insert_turn` appends for seeds inserted one by one under runId, after id turnsSeq. */
  function SeedRows(runId: int, turnsSeq: int, seeds: seq<SeedTurn>): seq<TurnRow> {
    seq(|seeds|, k requires 0 <= k < |seeds| => SeedRow(turnsSeq + k + 1, runId, seeds[k]))
  }

  lemma AppendAssoc<T>(xs: seq<T>, ys: seq<T>, zs: seq<T>)
    ensures (xs + ys) + zs == xs + (ys + zs)
  {
  }

  lemma PrefixTransitive<T>(xs: seq<T>, ys: seq<T>, zs: seq<T>)
    requires xs <= ys && ys <= zs
    ensures xs <= zs
  {
    assert zs[..|xs|] == ys[..|xs|];
  }

  /** Inserting one more seed appends its row to the rows of the seeds before it. */
  lemma SeedRowsSnoc(runId: int, turnsSeq: int, seeds: seq<SeedTurn>, k: int)
    requires 0 <= k < |seeds|
    ensures SeedRows(runId, turnsSeq, seeds[..k + 1])
         == SeedRows(runId, turnsSeq, seeds[..k]) + [SeedRow(turnsSeq + k + 1, runId, seeds[k])]
  {
  }

  /** The turn rows seeding appends, when the sequences stood at runsSeq and turnsSeq. */
  function SeedTurns(runsSeq: int, turnsSeq: int): seq<TurnRow> {
    SeedRows(runsSeq + 1, turnsSeq, FirstRunTurns) + SeedRows(runsSeq + 2, turnsSeq + 3, SecondRunTurns)
  }

  /** The seed rows of one run are the rows of that run and of no other. */
  lemma SeedRowsOfRun(runId: int, turnsSeq: int, seeds: seq<SeedTurn>, other: int)
    ensures RowsOfRun(SeedRows(runId, turnsSeq, seeds), other) == if other == runId then SeedRows(runId, turnsSeq, seeds) else []
  {
    if other == runId {
      RowsOfRunAll(SeedRows(runId, turnsSeq, seeds), other);
    } else {
      RowsOfRunNone(SeedRows(runId, turnsSeq, seeds), other);
    }
  }

  /** The nine seeded turns take the next nine turn ids, in insertion order. */
  lemma SeedTurnIds(runsSeq: int, turnsSeq: int)
    ensures |SeedTurns(runsSeq, turnsSeq)| == 9
    ensures forall i | 0 <= i < 9 :: SeedTurns(runsSeq, turnsSeq)[i].id == turnsSeq + i + 1
  {
    SeedTableSizes();
    var first, second := SeedRows(runsSeq + 1, turnsSeq, FirstRunTurns), SeedRows(runsSeq + 2, turnsSeq + 3, SecondRunTurns);
    forall i | 0 <= i < 9 ensures SeedTurns(runsSeq, turnsSeq)[i].id == turnsSeq + i + 1 {
      if i < 3 {
        assert SeedTurns(runsSeq, turnsSeq)[i] == first[i];
      } else {
        assert SeedTurns(runsSeq, turnsSeq)[i] == second[i - 3];
      }
    }
  }

  /**
   * Of the seeded turns, the three of the first table belong to the first
   * seeded run, the six of the second table to the second, and none to any other run.
   */
  lemma SeedTurnsOfRun(runsSeq: int, turnsSeq: int, runId: int)
    ensures RowsOfRun(SeedTurns(runsSeq, turnsSeq), runId)
         == if runId == runsSeq + 1 then SeedRows(runsSeq + 1, turnsSeq, FirstRunTurns)
            else if runId == runsSeq + 2 then SeedRows(runsSeq + 2, turnsSeq + 3, SecondRunTurns)
            else []
  {
    var first, second := SeedRows(runsSeq + 1, turnsSeq, FirstRunTurns), SeedRows(runsSeq + 2, turnsSeq + 3, SecondRunTurns);
    RowsOfRunConcat(first, second, runId);
    SeedRowsOfRun(runsSeq + 1, turnsSeq, FirstRunTurns, runId);
    SeedRowsOfRun(runsSeq + 2, turnsSeq + 3, SecondRunTurns, runId);
    assert first + [] == first && [] + second == second;
  }

  /** The first seeded turn's end text, `2024-02-20T10:00:01.2Z`, denotes the instant the seed table holds for it. */
  lemma SeedTurnTextDenotes()
    ensures Parse("2024-02-20T10:00:01.2Z") == Some(FirstRunTurns[0].end)
  {
    ParseTenths("2024-02-20T10:00:01.2Z");
  }

  /** The literal times `init_db` binds for the first seeded run are RFC 3339 date-times. */
  lemma FirstRunTextsParse()
    ensures IsDateTime(FirstRunStart) && IsDateTime(FirstRunEnd)
  {
    ParseWholeSeconds(FirstRunStart);
    ParseWholeSeconds(FirstRunEnd);
  }

  /** The literal times `init_db` binds for the second seeded run are RFC 3339 date-times. */
  lemma SecondRunTextsParse()
    ensures IsDateTime(SecondRunStart) && IsDateTime(SecondRunEnd)
  {
    ParseWholeSeconds(SecondRunStart);
    ParseWholeSeconds(SecondRunEnd);
  }

  /** The two seeded run rows, stored as the literal texts `init_db` binds, read back through `get_runs`. */
  lemma SeedRunsReadBack(runsSeq: int)
    ensures SelectRuns(SeedRuns(runsSeq)).Ok? && |SelectRuns(SeedRuns(runsSeq)).value| == 2
  {
    var rows := SeedRuns(runsSeq);
    FirstRunTextsParse();
    SecondRunTextsParse();
    assert DecodeRun(rows[0]).Ok? && DecodeRun(rows[1]).Ok?;
    assert forall row | row in rows :: row == rows[0] || row == rows[1];
    SelectRunsSpec(rows);
    SelectRunsListsRows(rows);
  }

  // ---------------------------------------------------------------- the store

  /** Some row of runs has this id. */
  predicate HasRun(runs: seq<RunRow>, id: int) {
    exists j | 0 <= j < |runs| :: runs[j].id == id
  }

  /**
   * The SQLite database behind the pool: the two tables, whether each exists
   * yet, and the AUTOINCREMENT sequence of each (the largest id ever handed out).
   */
  class Store {
    /** Whether the connection enforces `FOREIGN KEY (run_id) REFERENCES runs(id)`. */
    const enforceForeignKeys: bool
    var hasRunsTable: bool
    var hasTurnsTable: bool
    var runs: seq<RunRow>
    var turns: seq<TurnRow>
    var runsSeq: int
    var turnsSeq: int

    ghost predicate Valid()
      reads this
    {
      && 0 <= runsSeq <= MaxRowId && 0 <= turnsSeq <= MaxRowId
      && (!hasRunsTable ==> runs == []) && (!hasTurnsTable ==> turns == [])
      && (forall i | 0 <= i < |runs| :: 1 <= runs[i].id <= runsSeq)
      && (forall i, j | 0 <= i < j < |runs| :: runs[i].id < runs[j].id)
      && (forall i | 0 <= i < |turns| :: 1 <= turns[i].id <= turnsSeq)
      && (forall i, j | 0 <= i < j < |turns| :: turns[i].id < turns[j].id)
      && (enforceForeignKeys ==> forall i | 0 <= i < |turns| :: HasRun(runs, turns[i].runId))
    }

    /** A database file with no tables in it yet. */
    constructor (enforceForeignKeys: bool)
      ensures Valid() && this.enforceForeignKeys == enforceForeignKeys
      ensures !hasRunsTable && !hasTurnsTable && runs == [] && turns == [] && runsSeq == 0 && turnsSeq == 0
    {
      this.enforceForeignKeys := enforceForeignKeys;
      hasRunsTable, hasTurnsTable := false, false;
      runs, turns := [], [];
      runsSeq, turnsSeq := 0, 0;
    }

    /** The two `CREATE TABLE IF NOT EXISTS` statements. */
    method CreateTables()
      requires Valid()
      modifies this`hasRunsTable, this`hasTurnsTable
      ensures Valid() && hasRunsTable && hasTurnsTable
    {
      hasRunsTable := true;
      hasTurnsTable := true;
    }

    /** `SELECT COUNT(*) FROM runs`. */
    function CountRuns(): int
      reads this
      requires hasRunsTable
    {
      |runs|
    }

    /** `insert_run`: `INSERT INTO runs ... RETURNING id`, the strings stored as given. */
    method InsertRun(startTime: string, endTime: string, path: string) returns (r: Result<int, DbError>)
      requires Valid()
      modifies this`runs, this`runsSeq
      ensures Valid()
      ensures r.Ok? <==> old(hasRunsTable) && old(runsSeq) < MaxRowId
      ensures r.Ok? ==> && r.value == old(runsSeq) + 1 && runsSeq == r.value
                        && runs == old(runs) + [RunRow(r.value, startTime, endTime, path)]
      ensures r.Ok? ==> forall i | 0 <= i < |old(runs)| :: old(runs)[i].id < r.value
      ensures r.Err? ==> runs == old(runs) && runsSeq == old(runsSeq)
      ensures r.Err? ==> r.error == if hasRunsTable then DatabaseFull else NoSuchTable("runs")
    {
      if !hasRunsTable {
        return Err(NoSuchTable("runs"));
      }
      if runsSeq == MaxRowId {
        return Err(DatabaseFull);
      }
      runsSeq := runsSeq + 1;
      runs := runs + [RunRow(runsSeq, startTime, endTime, path)];
      r := Ok(runsSeq);
      forall i | 0 <= i < |turns| && HasRun(old(runs), turns[i].runId) ensures HasRun(runs, turns[i].runId) {
        var j :| 0 <= j < |old(runs)| && old(runs)[j].id == turns[i].runId;
        assert runs[j] == old(runs)[j];
      }
    }

    /**
     * `insert_turn`: `INSERT INTO turns ... RETURNING id`, both timestamps bound as their
     * RFC 3339 text. It looks up no run itself; only an enforced foreign key can refuse the row.
     */
    method InsertTurn(runId: int, direction: string, parallelness: real, closeness: real, smoothness: string,
                      timestampStart: Timestamp, timestampEnd: Timestamp) returns (r: Result<int, DbError>)
      requires Valid()
      modifies this`turns, this`turnsSeq
      ensures Valid()
      ensures r.Ok? <==> old(hasTurnsTable) && old(turnsSeq) < MaxRowId && (enforceForeignKeys ==> HasRun(runs, runId))
      ensures r.Ok? ==> && r.value == old(turnsSeq) + 1 && turnsSeq == r.value
                        && turns == old(turns) + [TurnRow(r.value, runId, direction, parallelness, closeness, smoothness,
                                                          Format(timestampStart), Format(timestampEnd))]
      ensures r.Ok? ==> forall i | 0 <= i < |old(turns)| :: old(turns)[i].id < r.value
      ensures r.Err? ==> turns == old(turns) && turnsSeq == old(turnsSeq)
      ensures r.Err? ==> r.error == if !hasTurnsTable then NoSuchTable("turns")
                                    else if turnsSeq == MaxRowId then DatabaseFull
                                    else ForeignKeyViolation
    {
      if !hasTurnsTable {
        return Err(NoSuchTable("turns"));
      }
      if turnsSeq == MaxRowId {
        return Err(DatabaseFull);
      }
      if enforceForeignKeys && !HasRun(runs, runId) {
        return Err(ForeignKeyViolation);
      }
      turnsSeq := turnsSeq + 1;
      turns := turns + [TurnRow(turnsSeq, runId, direction, parallelness, closeness, smoothness,
                                Format(timestampStart), Format(timestampEnd))];
      r := Ok(turnsSeq);
    }

    /** `get_runs`: `SELECT ... FROM runs ORDER BY start_time DESC`, each row decoded. */
    function GetRuns(): (r: Result<seq<Run>, DbError>)
      reads this
      ensures !hasRunsTable ==> r == Err(NoSuchTable("runs"))
      ensures hasRunsTable ==> r == SelectRuns(runs)
    {
      if hasRunsTable then SelectRuns(runs) else Err(NoSuchTable("runs"))
    }

    /** `get_turns_for_run`: `SELECT ... FROM turns WHERE run_id = ? ORDER BY timestamp_start ASC`, each row decoded. */
    function GetTurnsForRun(runId: int): (r: Result<seq<Turn>, DbError>)
      reads this
      ensures !hasTurnsTable ==> r == Err(NoSuchTable("turns"))
      ensures hasTurnsTable ==> r == SelectTurnsForRun(turns, runId)
    {
      if hasTurnsTable then SelectTurnsForRun(turns, runId) else Err(NoSuchTable("turns"))
    }

    /** One `insert_turn` of the seeding: the kth seed under runId, after the seeds before it. */
    method InsertSeedTurn(runId: int, seeds: seq<SeedTurn>, k: int, ghost before: seq<TurnRow>, ghost turnsSeq0: int)
      returns (r: Result<int, DbError>)
      requires Valid() && hasTurnsTable && HasRun(runs, runId)
      requires 0 <= k < |seeds| && turns == before + SeedRows(runId, turnsSeq0, seeds[..k]) && turnsSeq == turnsSeq0 + k
      modifies this`turns, this`turnsSeq
      ensures Valid()
      ensures r.Ok? <==> old(turnsSeq) < MaxRowId
      ensures r.Ok? ==> turns == before + SeedRows(runId, turnsSeq0, seeds[..k + 1]) && turnsSeq == turnsSeq0 + k + 1
      ensures r.Err? ==> turns == old(turns) && turnsSeq == old(turnsSeq)
      ensures before <= turns
    {
      r := InsertTurn(runId, seeds[k].direction, seeds[k].parallelness, seeds[k].closeness,
                      seeds[k].smoothness, seeds[k].start, seeds[k].end);
      if r.Ok? {
        SeedRowsSnoc(runId, turnsSeq0, seeds, k);
        AppendAssoc(before, SeedRows(runId, turnsSeq0, seeds[..k]), [SeedRow(turnsSeq0 + k + 1, runId, seeds[k])]);
      }
    }

    /**
     * The `insert_turn(..).await?` calls `init_db` writes out for one run's
     * turns, taken in order from seeds, all under runId, stopping at the
     * first failure.
     */
    method InsertSeedTurns(runId: int, seeds: seq<SeedTurn>) returns (r: Result<(), DbError>)
      requires Valid() && hasTurnsTable && HasRun(runs, runId)
      modifies this`turns, this`turnsSeq
      ensures Valid()
      ensures r.Ok? <==> old(turnsSeq) + |seeds| <= MaxRowId
      ensures r.Ok? ==> turns == old(turns) + SeedRows(runId, old(turnsSeq), seeds) && turnsSeq == old(turnsSeq) + |seeds|
      ensures old(turns) <= turns
    {
      ghost var turns0, ts := turns, turnsSeq;
      var k := 0;
      while k < |seeds|
        invariant 0 <= k <= |seeds| && Valid() && ts + k <= MaxRowId
        invariant turns == turns0 + SeedRows(runId, ts, seeds[..k]) && turnsSeq == ts + k
      {
        var _ :- InsertSeedTurn(runId, seeds, k, turns0, ts);
        k := k + 1;
      }
      assert seeds[..k] == seeds;
      return Ok(());
    }

    /** `insert_run(..).await?` for one seeded run, then its turns under the id it returned. */
    method SeedRun(startTime: string, endTime: string, path: string, seeds: seq<SeedTurn>) returns (r: Result<(), DbError>)
      requires Valid() && hasRunsTable && hasTurnsTable
      modifies this`runs, this`runsSeq, this`turns, this`turnsSeq
      ensures Valid()
      ensures r.Ok? <==> old(runsSeq) < MaxRowId && old(turnsSeq) + |seeds| <= MaxRowId
      ensures r.Ok? ==> && runs == old(runs) + [RunRow(old(runsSeq) + 1, startTime, endTime, path)]
                        && turns == old(turns) + SeedRows(old(runsSeq) + 1, old(turnsSeq), seeds)
                        && runsSeq == old(runsSeq) + 1 && turnsSeq == old(turnsSeq) + |seeds|
      ensures old(runs) <= runs && old(turns) <= turns
    {
      var runId :- InsertRun(startTime, endTime, path);
      assert runs[|runs| - 1].id == runId;
      r := InsertSeedTurns(runId, seeds);
    }

    /**
     * The seeding block of `init_db`: the first run, first's turns under it,
     * the second run, second's turns under it.
     */
    method Seed(first: seq<SeedTurn>, second: seq<SeedTurn>) returns (r: Result<(), DbError>)
      requires Valid() && hasRunsTable && hasTurnsTable
      modifies this`runs, this`runsSeq, this`turns, this`turnsSeq
      ensures Valid()
      ensures r.Ok? <==> old(runsSeq) + 2 <= MaxRowId && old(turnsSeq) + |first| + |second| <= MaxRowId
      ensures r.Ok? ==> && runs == old(runs) + SeedRuns(old(runsSeq))
                        && turns == old(turns) + SeedRows(old(runsSeq) + 1, old(turnsSeq), first)
                                               + SeedRows(old(runsSeq) + 2, old(turnsSeq) + |first|, second)
                        && runsSeq == old(runsSeq) + 2 && turnsSeq == old(turnsSeq) + |first| + |second|
      ensures old(runs) <= runs && old(turns) <= turns
    {
      ghost var runs0, turns0, rs, ts := runs, turns, runsSeq, turnsSeq;
      r := SeedRun(FirstRunStart, FirstRunEnd, PathA, first);
      if r.Err? {
        return;
      }
      assert runs == runs0 + [SeedRuns(rs)[0]] && turns == turns0 + SeedRows(rs + 1, ts, first);
      ghost var runs1, turns1 := runs, turns;
      r := SeedRun(SecondRunStart, SecondRunEnd, PathB, second);
      PrefixTransitive(runs0, runs1, runs);
      PrefixTransitive(turns0, turns1, turns);
      if r.Ok? {
        AppendAssoc(runs0, [SeedRuns(rs)[0]], [SeedRuns(rs)[1]]);
        AppendAssoc(turns0, SeedRows(rs + 1, ts, first), SeedRows(rs + 2, ts + |first|, second));
      }
    }

    /**
     * `init_db` after connecting: create both tables, then, only when `runs` is
     * empty, seed the two demonstration runs and their nine turns.
     */
    method InitDb() returns (r: Result<(), DbError>)
      requires Valid()
      modifies this
      ensures Valid() && hasRunsTable && hasTurnsTable
      ensures old(runs) != [] ==> && r.Ok? && runs == old(runs) && turns == old(turns)
                                  && runsSeq == old(runsSeq) && turnsSeq == old(turnsSeq)
      ensures old(runs) == [] ==> (r.Ok? <==> old(runsSeq) + 2 <= MaxRowId && old(turnsSeq) + 9 <= MaxRowId)
      ensures old(runs) == [] && r.Ok? ==>
                && runs == SeedRuns(old(runsSeq))
                && turns == old(turns) + SeedTurns(old(runsSeq), old(turnsSeq))
                && runsSeq == old(runsSeq) + 2 && turnsSeq == old(turnsSeq) + 9
      ensures old(runs) <= runs && old(turns) <= turns
    {
      CreateTables();
      var count := CountRuns();
      if count == 0 {
        SeedTableSizes();
        r := Seed(FirstRunTurns, SecondRunTurns);
        assert r.Ok? ==> runs == [] + SeedRuns(old(runsSeq));
      } else {
        r := Ok(());
      }
    }
  }

  /**
   * Two start-ups against a fresh database file: the first `init_db` seeds the
   * two runs and nine turns, the second finds rows in `runs` and writes nothing.
   */
  method InitDbTwice(enforceForeignKeys: bool) returns (store: Store, first: Result<(), DbError>, second: Result<(), DbError>)
    ensures first.Ok? && second.Ok?
    ensures store.Valid() && store.runs == SeedRuns(0) && store.turns == SeedTurns(0, 0)
  {
    store := new Store(enforceForeignKeys);
    first := store.InitDb();
    assert [] + SeedTurns(0, 0) == SeedTurns(0, 0);
    assert |store.runs| == 2;
    second := store.InitDb();
  }
}
