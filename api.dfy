/**
 * The HTTP handlers of src/main.rs over the store: `runs` (every run with its
 * turns), `create_run`, `create_turn` and `turns_get`. A handler either
 * answers with a status and a body, or panics on an `unwrap`/`expect`, in
 * which case no response body is produced.
 */
module Api {
  import opened Wrappers
  import opened Rfc3339
  import opened Db

  /** A turn as the `runs` handler reports it: no id, no run id, timestamps as RFC 3339 text. */
  datatype TurnView = TurnView(
    direction: string, parallelness: real, closeness: real, smoothness: string,
    timestampStart: string, timestampEnd: string)

  /** A run as the `runs` handler reports it: no path, times as RFC 3339 text, its turns inline. */
  datatype RunWithTurns = RunWithTurns(id: int, startTime: string, endTime: string, turns: seq<TurnView>)

  datatype CreateRunRequest = CreateRunRequest(startTime: string, endTime: string)

  datatype CreateTurnRequest = CreateTurnRequest(
    runId: int, direction: string, parallelness: real, closeness: real, smoothness: string,
    timestampStart: string, timestampEnd: string)

  datatype Body =
    | RunData(runs: seq<RunWithTurns>)                                       // `{"data": {"runs": [...]}}`
    | NewId(id: int)                                                         // the id alone, as JSON
    | Failure(context: string, cause: DbError)                               // "<context>: <error>" as text
    | MethodNotAllowed(error: string, message: string, allowedMethods: seq<string>)

  datatype Response = Response(status: int, body: Body)

  /** What serving one request ends in. */
  datatype Outcome = Responded(response: Response) | Panicked(message: string)

  /** The panic message of `unwrap` on a failed parse. */
  const UnwrapPanic: string := "called `Result::unwrap()` on an `Err` value"

  /** The path `create_run` stores for every run, whatever the request holds. */
  const CreatedRunPath: string := "M 0 50 C 25 25, 75 75, 100 50"

  // ---------------------------------------------------------------- projections

  function ViewTurn(t: Turn): TurnView {
    TurnView(t.direction, t.parallelness, t.closeness, t.smoothness, Format(t.timestampStart), Format(t.timestampEnd))
  }

  /** f applied to every element, in order. */
  function MapSeq<A, B>(xs: seq<A>, f: A -> B): seq<B> {
    if xs == [] then [] else [f(xs[0])] + MapSeq(xs[1..], f)
  }

  lemma {:induction false} MapSeqEntries<A, B>(xs: seq<A>, f: A -> B)
    ensures |MapSeq(xs, f)| == |xs|
    ensures forall i | 0 <= i < |xs| :: MapSeq(xs, f)[i] == f(xs[i])
  {
    if xs != [] {
      MapSeqEntries(xs[1..], f);
    }
  }

  function ViewRun(run: Run, turns: seq<Turn>): RunWithTurns {
    RunWithTurns(run.id, Format(run.startTime), Format(run.endTime), MapSeq(turns, ViewTurn))
  }

  /**
   * The projection keeps the run id and every turn in order with its
   * direction, metrics and smoothness, and every reported time is text that
   * parses back to the decoded date-time it was written from.
   */
  lemma ViewRunFaithful(run: Run, turns: seq<Turn>)
    ensures var v := ViewRun(run, turns);
            && v.id == run.id
            && Parse(v.startTime) == Some(run.startTime) && Parse(v.endTime) == Some(run.endTime)
            && |v.turns| == |turns|
    ensures forall i | 0 <= i < |turns| ::
              var v, t := ViewRun(run, turns).turns[i], turns[i];
              && v.direction == t.direction && v.smoothness == t.smoothness
              && v.parallelness == t.parallelness && v.closeness == t.closeness
              && Parse(v.timestampStart) == Some(t.timestampStart) && Parse(v.timestampEnd) == Some(t.timestampEnd)
  {
    ParseFormat(run.startTime);
    ParseFormat(run.endTime);
    MapSeqEntries(turns, ViewTurn);
    forall i | 0 <= i < |turns|
      ensures Parse(ViewRun(run, turns).turns[i].timestampStart) == Some(turns[i].timestampStart)
      ensures Parse(ViewRun(run, turns).turns[i].timestampEnd) == Some(turns[i].timestampEnd)
    {
      ParseFormat(turns[i].timestampStart);
      ParseFormat(turns[i].timestampEnd);
    }
  }

  // ---------------------------------------------------------------- handlers

  /**
   * The loop of `runs`: for each element in order, fetch what belongs to it
   * (`expect`, so the first failure ends the loop) and push the element
   * combined with what was fetched.
   */
  method AttachEach<A, B, C, E>(xs: seq<A>, fetch: A ~> Result<B, E>, combine: (A, B) -> C) returns (r: Result<seq<C>, E>)
    requires forall i | 0 <= i < |xs| :: fetch.requires(xs[i])
    ensures r.Ok? <==> forall i | 0 <= i < |xs| :: fetch(xs[i]).Ok?
    ensures r.Ok? ==> |r.value| == |xs| && forall i | 0 <= i < |xs| :: r.value[i] == combine(xs[i], fetch(xs[i]).value)
    ensures r.Err? ==> exists i | 0 <= i < |xs| :: fetch(xs[i]) == Err(r.error) && forall j | 0 <= j < i :: fetch(xs[j]).Ok?
  {
    var pushed: seq<C> := [];
    for i := 0 to |xs|
      invariant |pushed| == i
      invariant forall j | 0 <= j < i :: fetch(xs[j]).Ok? && pushed[j] == combine(xs[j], fetch(xs[j]).value)
    {
      var fetched := fetch(xs[i]);
      if fetched.Err? {
        return Err(fetched.error);
      }
      pushed := pushed + [combine(xs[i], fetched.value)];
    }
    return Ok(pushed);
  }

  /**
   * `runs`: fetch every run (`expect` on failure), then, in that order, each
   * run's turns (`expect` on failure), and answer 200 with one entry per run.
   */
  method Runs(store: Store) returns (o: Outcome)
    ensures store.GetRuns().Err? ==> o == Panicked("Failed to fetch runs")
    ensures store.GetRuns().Ok? ==>
              (o.Panicked? <==> exists i | 0 <= i < |store.GetRuns().value| :: store.GetTurnsForRun(store.GetRuns().value[i].id).Err?)
    ensures store.GetRuns().Ok? && o.Panicked? ==> o.message == "Failed to fetch turns"
    ensures o.Responded? ==>
              var runs := store.GetRuns().value;
              && o.response.status == 200 && o.response.body.RunData?
              && |o.response.body.runs| == |runs|
              && forall i | 0 <= i < |runs| ::
                   && store.GetTurnsForRun(runs[i].id).Ok?
                   && o.response.body.runs[i] == ViewRun(runs[i], store.GetTurnsForRun(runs[i].id).value)
  {
    var fetched := store.GetRuns();
    if fetched.Err? {
      return Panicked("Failed to fetch runs");
    }
    var withTurns := AttachEach(fetched.value, (run: Run) reads store => store.GetTurnsForRun(run.id), ViewRun);
    if withTurns.Err? {
      return Panicked("Failed to fetch turns");
    }
    return Responded(Response(200, RunData(withTurns.value)));
  }

  /**
   * `create_run`: parse both times (`unwrap`), store their canonical text with
   * the fixed path, and answer 201 with the new id or 500 with the error.
   */
  method CreateRun(store: Store, request: CreateRunRequest) returns (o: Outcome)
    requires store.Valid()
    modifies store`runs, store`runsSeq
    ensures store.Valid()
    ensures !IsDateTime(request.startTime) || !IsDateTime(request.endTime) ==>
              o == Panicked(UnwrapPanic) && store.runs == old(store.runs) && store.runsSeq == old(store.runsSeq)
    ensures IsDateTime(request.startTime) && IsDateTime(request.endTime) ==> o.Responded?
    ensures o.Responded? ==> (o.response.status == 201 <==> old(store.hasRunsTable) && old(store.runsSeq) < MaxRowId)
    ensures o.Responded? && o.response.status == 201 ==>
              && o.response.body == NewId(old(store.runsSeq) + 1) && store.runsSeq == old(store.runsSeq) + 1
              && store.runs == old(store.runs) + [RunRow(store.runsSeq, Format(Parse(request.startTime).value),
                                                         Format(Parse(request.endTime).value), CreatedRunPath)]
    ensures o.Responded? && o.response.status != 201 ==>
              && o.response.status == 500
              && o.response.body == Failure("Failed to create run", if old(store.hasRunsTable) then DatabaseFull else NoSuchTable("runs"))
              && store.runs == old(store.runs) && store.runsSeq == old(store.runsSeq)
  {
    var startTime := Parse(request.startTime);
    if startTime.None? {
      return Panicked(UnwrapPanic);
    }
    var endTime := Parse(request.endTime);
    if endTime.None? {
      return Panicked(UnwrapPanic);
    }
    var response := StoreRun(store, startTime.value, endTime.value);
    o := Responded(response);
  }

  /** The `insert_run` call of `create_run` with the canonical text of both times, and the answer it leads to. */
  method StoreRun(store: Store, startTime: Timestamp, endTime: Timestamp) returns (r: Response)
    requires store.Valid()
    modifies store`runs, store`runsSeq
    ensures store.Valid()
    ensures r.status == 201 <==> old(store.hasRunsTable) && old(store.runsSeq) < MaxRowId
    ensures r.status == 201 ==>
              && r.body == NewId(old(store.runsSeq) + 1) && store.runsSeq == old(store.runsSeq) + 1
              && store.runs == old(store.runs) + [RunRow(store.runsSeq, Format(startTime), Format(endTime), CreatedRunPath)]
    ensures r.status != 201 ==>
              && r.status == 500
              && r.body == Failure("Failed to create run", if old(store.hasRunsTable) then DatabaseFull else NoSuchTable("runs"))
              && store.runs == old(store.runs) && store.runsSeq == old(store.runsSeq)
  {
    var inserted := store.InsertRun(Format(startTime), Format(endTime), CreatedRunPath);
    match inserted
    case Ok(id) => r := Response(201, NewId(id));
    case Err(e) => r := Response(500, Failure("Failed to create run", e));
  }

  /**
   * `create_turn`: parse both timestamps (`unwrap`), forward everything else
   * unchanged to `insert_turn`, and answer 201 with the new id or 500 with the error.
   */
  method CreateTurn(store: Store, request: CreateTurnRequest) returns (o: Outcome)
    requires store.Valid()
    modifies store`turns, store`turnsSeq
    ensures store.Valid()
    ensures !IsDateTime(request.timestampStart) || !IsDateTime(request.timestampEnd) ==>
              o == Panicked(UnwrapPanic) && store.turns == old(store.turns) && store.turnsSeq == old(store.turnsSeq)
    ensures IsDateTime(request.timestampStart) && IsDateTime(request.timestampEnd) ==> o.Responded?
    ensures o.Responded? ==>
              (o.response.status == 201 <==>
                 old(store.hasTurnsTable) && old(store.turnsSeq) < MaxRowId
                 && (store.enforceForeignKeys ==> HasRun(store.runs, request.runId)))
    ensures o.Responded? && o.response.status == 201 ==>
              && o.response.body == NewId(old(store.turnsSeq) + 1) && store.turnsSeq == old(store.turnsSeq) + 1
              && store.turns == old(store.turns) + [TurnRow(store.turnsSeq, request.runId, request.direction,
                                                            request.parallelness, request.closeness, request.smoothness,
                                                            Format(Parse(request.timestampStart).value),
                                                            Format(Parse(request.timestampEnd).value))]
    ensures o.Responded? && o.response.status != 201 ==>
              && o.response.status == 500
              && o.response.body == Failure("Failed to create turn",
                                            if !old(store.hasTurnsTable) then NoSuchTable("turns")
                                            else if old(store.turnsSeq) == MaxRowId then DatabaseFull
                                            else ForeignKeyViolation)
              && store.turns == old(store.turns) && store.turnsSeq == old(store.turnsSeq)
  {
    var timestampStart := Parse(request.timestampStart);
    if timestampStart.None? {
      return Panicked(UnwrapPanic);
    }
    var timestampEnd := Parse(request.timestampEnd);
    if timestampEnd.None? {
      return Panicked(UnwrapPanic);
    }
    var response := StoreTurn(store, request, timestampStart.value, timestampEnd.value);
    o := Responded(response);
  }

  /** The `insert_turn` call of `create_turn`, and the answer it leads to. */
  method StoreTurn(store: Store, request: CreateTurnRequest, timestampStart: Timestamp, timestampEnd: Timestamp)
    returns (r: Response)
    requires store.Valid()
    modifies store`turns, store`turnsSeq
    ensures store.Valid()
    ensures r.status == 201 <==>
              old(store.hasTurnsTable) && old(store.turnsSeq) < MaxRowId
              && (store.enforceForeignKeys ==> HasRun(store.runs, request.runId))
    ensures r.status == 201 ==>
              && r.body == NewId(old(store.turnsSeq) + 1) && store.turnsSeq == old(store.turnsSeq) + 1
              && store.turns == old(store.turns) + [TurnRow(store.turnsSeq, request.runId, request.direction,
                                                            request.parallelness, request.closeness, request.smoothness,
                                                            Format(timestampStart), Format(timestampEnd))]
    ensures r.status != 201 ==>
              && r.status == 500
              && r.body == Failure("Failed to create turn",
                                   if !old(store.hasTurnsTable) then NoSuchTable("turns")
                                   else if old(store.turnsSeq) == MaxRowId then DatabaseFull
                                   else ForeignKeyViolation)
              && store.turns == old(store.turns) && store.turnsSeq == old(store.turnsSeq)
  {
    var inserted := store.InsertTurn(request.runId, request.direction, request.parallelness, request.closeness,
                                     request.smoothness, timestampStart, timestampEnd);
    match inserted
    case Ok(id) => r := Response(201, NewId(id));
    case Err(e) => r := Response(500, Failure("Failed to create turn", e));
  }

  /** `turns_get`: GET on the turns endpoint is always refused, naming POST as the one method allowed. */
  function TurnsGet(): (r: Response)
    ensures r.status == 405 && r.body.MethodNotAllowed? && r.body.allowedMethods == ["POST"]
  {
    Response(405, MethodNotAllowed("Method Not Allowed", "This endpoint only accepts POST requests", ["POST"]))
  }
}
