/** The analysis job store of the Flask backend.

    The store maps analysis ids to records. `POST /analysis` validates the
    payload and inserts a queued record; a background worker moves the
    record to running and then to completed or failed; the two `GET`
    handlers read the store. Every handler is a pure function of the store;
    the worker's two halves are separate steps so that the state machine
    they drive can be stated. */
module Backend {
  import opened Wrappers
  import opened Strings
  import opened Json

  datatype Status = Queued | Running | Completed | Failed

  predicate IsTerminal(s: Status) {
    s == Completed || s == Failed
  }

  /** Position of a status in the lifecycle queued, running, then a terminal status. */
  function Rank(s: Status): nat {
    match s
    case Queued => 0
    case Running => 1
    case Completed => 2
    case Failed => 2
  }

  /** An ISO timestamp from `datetime.now().isoformat()`; its content is opaque here. */
  type Timestamp = string

  /** The `research_depth` entry of a payload: absent, accepted by `int(...)`,
      or rejected by it with the message of the `ValueError`/`TypeError`. */
  datatype DepthField = DepthAbsent | DepthGiven(value: int) | DepthInvalid(reason: string)

  /** The JSON body of `POST /analysis`; `None` marks an absent key. */
  datatype Payload = Payload(
    symbol: Option<string>,
    market: Option<string>,
    researchDepth: DepthField,
    llmProvider: Option<string>,
    analysts: Option<seq<string>>,
    analysisDate: Option<string>,
    includeRiskAssessment: Option<bool>)

  /** The empty payload `{}`, which also stands in for a body that is not JSON. */
  const NoPayload := Payload(None, None, DepthAbsent, None, None, None, None)

  const DefaultAnalysts: seq<string> := ["market", "fundamentals", "news", "social"]

  datatype AnalysisRequest = AnalysisRequest(
    symbol: string,
    market: string,
    researchDepth: int,
    llmProvider: Option<string>,
    analysts: seq<string>,
    analysisDate: string,
    includeRiskAssessment: bool)

  /** `AnalysisRequest.from_payload`: trims symbol and market and fills in the
      defaults; the only step that can raise is the `int(...)` conversion.
      `today` is the formatted current date used as the default analysis date. */
  function FromPayload(p: Payload, today: string): (r: Result<AnalysisRequest, string>)
    ensures r.Failure? <==> p.researchDepth.DepthInvalid?
    ensures r.Failure? ==> r.error == p.researchDepth.reason
    ensures r.Success? ==>
      && IsTrimmingOf(p.symbol.GetOr(""), r.value.symbol)
      && IsTrimmingOf(p.market.GetOr(""), r.value.market)
      && r.value.symbol == Strip(p.symbol.GetOr("")) && r.value.market == Strip(p.market.GetOr(""))
      && (r.value.symbol == "" <==> AllSpace(p.symbol.GetOr("")))
      && (r.value.market == "" <==> AllSpace(p.market.GetOr("")))
      && r.value.researchDepth == (if p.researchDepth.DepthGiven? then p.researchDepth.value else 1)
      && r.value.llmProvider == p.llmProvider
      && (p.analysts.None? ==> r.value.analysts == ["market", "fundamentals", "news", "social"])
      && (p.analysts.Some? ==> r.value.analysts == p.analysts.value)
      && (p.analysisDate.None? ==> r.value.analysisDate == today)
      && (p.analysisDate.Some? ==> r.value.analysisDate == p.analysisDate.value)
      && (p.includeRiskAssessment.None? ==> r.value.includeRiskAssessment)
      && (p.includeRiskAssessment.Some? ==> r.value.includeRiskAssessment == p.includeRiskAssessment.value)
  {
    var symbol := Strip(p.symbol.GetOr(""));
    var market := Strip(p.market.GetOr(""));
    var build := (depth: int) => AnalysisRequest(
      symbol, market, depth, p.llmProvider,
      p.analysts.GetOr(DefaultAnalysts),
      p.analysisDate.GetOr(today),
      p.includeRiskAssessment.GetOr(true));
    match p.researchDepth
    case DepthInvalid(reason) => Failure(reason)
    case DepthAbsent => Success(build(1))
    case DepthGiven(depth) => Success(build(depth))
  }

  /** What the store holds for one analysis. `error` and the timestamps use
      `None` for Python's `None`. */
  datatype Record = Record(
    id: string,
    status: Status,
    symbol: string,
    market: string,
    researchDepth: int,
    llmProvider: Option<string>,
    createdAt: Timestamp,
    startedAt: Option<Timestamp>,
    completedAt: Option<Timestamp>,
    result: Option<Dict>,
    error: Option<string>)

  type Store = map<string, Record>

  /** The JSON bodies the handlers send. */
  datatype Body =
    | ErrorBody(reason: string)
    | Accepted(analysisId: string, status: Status, message: string, symbol: string, statusUrl: string, resultUrl: string)
    | StatusReport(
        id: string, status: Status, symbol: string, market: string,
        createdAt: Timestamp, startedAt: Option<Timestamp>, completedAt: Option<Timestamp>,
        hasResult: bool, error: Option<string>)
    | InProgress(id: string, status: Status, message: string)
    | FailureReport(id: string, status: Status, error: Option<string>)
    | FullResult(
        id: string, status: Status, symbol: string, market: string,
        researchDepth: int, llmProvider: Option<string>,
        createdAt: Timestamp, completedAt: Option<Timestamp>, result: Option<Dict>)

  datatype Response = Response(code: int, body: Body)

  const QueuedMessage := "分析已排队，正在处理中..."
  const InProgressMessage := "分析仍在进行中，请稍后查询"
  const NotFound := Response(404, ErrorBody("Analysis not found"))

  function StatusUrl(id: string): string {
    "/analysis/" + id + "/status"
  }

  function ResultUrl(id: string): string {
    "/analysis/" + id
  }

  /** True when the payload passes validation in `create_analysis`. */
  predicate Admits(p: Payload) {
    !p.researchDepth.DepthInvalid? && !AllSpace(p.symbol.GetOr("")) && !AllSpace(p.market.GetOr(""))
  }

  /** The checks `create_analysis` makes before touching the store, in their
      order: the conversion in `from_payload`, then the symbol, then the
      market. A failure carries the message of the 400 response. */
  function Validate(p: Payload, today: string): (r: Result<AnalysisRequest, string>)
    ensures p.researchDepth.DepthInvalid? ==> r == Failure("invalid payload: " + p.researchDepth.reason)
    ensures !p.researchDepth.DepthInvalid? && AllSpace(p.symbol.GetOr("")) ==> r == Failure("symbol is required")
    ensures !p.researchDepth.DepthInvalid? && !AllSpace(p.symbol.GetOr("")) && AllSpace(p.market.GetOr("")) ==>
      r == Failure("market is required")
    ensures r.Success? <==> Admits(p)
    ensures r.Success? ==> r.value.symbol != "" && r.value.market != "" && Success(r.value) == FromPayload(p, today)
  {
    match FromPayload(p, today)
    case Failure(reason) => Failure("invalid payload: " + reason)
    case Success(req) =>
      if req.symbol == "" then Failure("symbol is required")
      else if req.market == "" then Failure("market is required")
      else Success(req)
  }

  /** The record `create_analysis` stores for a validated request: queued,
      with no start or completion time, no result and no error. */
  function QueuedRecord(id: string, req: AnalysisRequest, now: Timestamp): (rec: Record)
    ensures rec.id == id && rec.status == Queued && rec.createdAt == now
    ensures rec.symbol == req.symbol && rec.market == req.market
    ensures rec.researchDepth == req.researchDepth && rec.llmProvider == req.llmProvider
    ensures rec.startedAt == None && rec.completedAt == None && rec.result == None && rec.error == None
  {
    Record(id, Queued, req.symbol, req.market, req.researchDepth, req.llmProvider, now, None, None, None, None)
  }

  /** `POST /analysis`. `json` is `request.get_json(silent=True)` (`None` when
      the body is not JSON), `id` the generated analysis id, `now` the
      creation time and `today` the default analysis date. Returns the new
      store and the response; starting the worker is modelled by `RunWorker`. */
  function CreateAnalysis(store: Store, json: Option<Payload>, id: string, now: Timestamp, today: string): (r: (Store, Response))
    ensures var v := Validate(json.GetOr(NoPayload), today);
      v.Failure? ==> r == (store, Response(400, ErrorBody(v.error)))
    ensures var v := Validate(json.GetOr(NoPayload), today);
      v.Success? ==> r == (
        store[id := QueuedRecord(id, v.value, now)],
        Response(202, Accepted(id, Queued, QueuedMessage, v.value.symbol, "/analysis/" + id + "/status", "/analysis/" + id)))
  {
    match Validate(json.GetOr(NoPayload), today)
    case Failure(message) => (store, Response(400, ErrorBody(message)))
    case Success(req) =>
      var rec := QueuedRecord(id, req, now);
      (store[id := rec], Response(202, Accepted(id, Queued, QueuedMessage, req.symbol, StatusUrl(id), ResultUrl(id))))
  }

  /** A payload that fails validation gets a 400 and leaves the store alone. */
  lemma CreateRejects(store: Store, json: Option<Payload>, id: string, now: Timestamp, today: string)
    requires !Admits(json.GetOr(NoPayload))
    ensures CreateAnalysis(store, json, id, now, today).1.code == 400
    ensures CreateAnalysis(store, json, id, now, today).0 == store
  {
  }

  /** A valid payload with a fresh id gets a 202 and inserts exactly one
      queued record, touching no other. */
  lemma CreateInsertsOne(store: Store, json: Option<Payload>, id: string, now: Timestamp, today: string)
    requires id !in store
    requires Admits(json.GetOr(NoPayload))
    ensures var r := CreateAnalysis(store, json, id, now, today);
      && r.1.code == 202
      && |r.0| == |store| + 1
      && r.0.Keys == store.Keys + {id}
      && r.0[id].status == Queued
      && (forall other :: other in store ==> other in r.0 && r.0[other] == store[other])
  {
    var r := CreateAnalysis(store, json, id, now, today);
    assert r.0.Keys == store.Keys + {id};
  }

  /** The arguments the worker passes to the analysis engine: an empty
      analysis date or analyst list falls back to the defaults once more. */
  datatype EngineArguments = EngineArguments(
    stockSymbol: string,
    analysisDate: string,
    analysts: seq<string>,
    researchDepth: int,
    marketType: string,
    llmProvider: Option<string>,
    includeRiskAssessment: bool)

  function EngineArgumentsFor(req: AnalysisRequest, today: string): (r: EngineArguments)
    ensures r.analysts != []
    ensures req.analysts != [] ==> r.analysts == req.analysts
    ensures req.analysts == [] ==> r.analysts == ["market", "fundamentals", "news", "social"]
    ensures req.analysisDate != "" ==> r.analysisDate == req.analysisDate
    ensures req.analysisDate == "" ==> r.analysisDate == today
    ensures r.stockSymbol == req.symbol && r.marketType == req.market
    ensures r.researchDepth == req.researchDepth && r.llmProvider == req.llmProvider
    ensures r.includeRiskAssessment == req.includeRiskAssessment
  {
    EngineArguments(
      req.symbol,
      if req.analysisDate != "" then req.analysisDate else today,
      if req.analysts != [] then req.analysts else DefaultAnalysts,
      req.researchDepth, req.market, req.llmProvider, req.includeRiskAssessment)
  }

  /** The output of `format_analysis_results`: each key may be absent. */
  datatype Formatted = Formatted(success: Option<bool>, decision: Option<Dict>, state: Option<Dict>, error: Option<string>)

  /** The parts of the engine's raw result the worker reads: its top-level
      `market_data` entry and its `state` dictionary, each possibly absent. */
  datatype RawAnalysis = RawAnalysis(marketData: Option<Value>, state: Option<Dict>)

  /** Whether the formatted result reports success (`get('success', False)`). */
  predicate Succeeded(f: Formatted) {
    f.success == Some(true)
  }

  /** The chart data taken from the raw result: the top-level entry wins over
      the one inside `state`; `Null` when neither exists. */
  function ExtractMarketData(raw: RawAnalysis): (v: Value)
    ensures raw.marketData.Some? ==> v == raw.marketData.value
    ensures raw.marketData.None? && raw.state.Some? && HasKey(raw.state.value, "market_data") ==>
      Some(v) == Get(raw.state.value, "market_data")
    ensures raw.marketData.None? && (raw.state.None? || !HasKey(raw.state.value, "market_data")) ==> v == Null
  {
    if raw.marketData.Some? then raw.marketData.value
    else if raw.state.Some? && HasKey(raw.state.value, "market_data") then Get(raw.state.value, "market_data").value
    else Null
  }

  /** The flattened result stored for the frontend: `success` first, then the
      decision's entries, then the state's, then `error` and `market_data`. */
  function Flatten(f: Formatted, raw: RawAnalysis): (r: Dict)
    ensures |r| > 0 && r[0].0 == "success"
    ensures UniqueKeys(r)
  {
    var base: Dict := [("success", Bool(f.success.GetOr(false)))];
    var merged := Merge(Merge(base, f.decision.GetOr([])), f.state.GetOr([]));
    var withError := if f.error.Some? then Set(merged, "error", Str(f.error.value)) else merged;
    var md := ExtractMarketData(raw);
    if Truthy(md) then Set(withError, "market_data", md) else withError
  }

  /** Keys the flattened result sets after the merge. */
  predicate IsLateKey(k: string) {
    k == "error" || k == "market_data"
  }

  /** Precedence in the flattened result: for any key other than `error` and
      `market_data`, the state's value overrides the decision's, which
      overrides `success`. For `error` the formatted error wins when present,
      and for `market_data` the extracted chart data wins when it is truthy. */
  lemma FlattenGet(f: Formatted, raw: RawAnalysis, k: string)
    requires UniqueKeys(f.decision.GetOr([])) && UniqueKeys(f.state.GetOr([]))
    ensures var r := Flatten(f, raw);
      var decision, state := f.decision.GetOr([]), f.state.GetOr([]);
      var merged :=
        if HasKey(state, k) then Get(state, k)
        else if HasKey(decision, k) then Get(decision, k)
        else if k == "success" then Some(Bool(f.success.GetOr(false)))
        else None;
      && (!IsLateKey(k) ==> Get(r, k) == merged)
      && (k == "error" ==> Get(r, k) == if f.error.Some? then Some(Str(f.error.value)) else merged)
      && (k == "market_data" ==>
            Get(r, k) == if Truthy(ExtractMarketData(raw)) then Some(ExtractMarketData(raw)) else merged)
  {
    var base: Dict := [("success", Bool(f.success.GetOr(false)))];
    var decision, state := f.decision.GetOr([]), f.state.GetOr([]);
    var m1 := Merge(base, decision);
    MergeGet(base, decision, k);
    MergeGet(m1, state, k);
    if k != "success" {
      assert !HasKey(base, k);
    }
  }

  /** The first half of `run_analysis_async`: the record becomes running.
      An unknown id raises `KeyError` twice and leaves the store alone. */
  function Start(store: Store, id: string, now: Timestamp): (r: Store)
    ensures r.Keys == store.Keys
    ensures forall other :: other in store && other != id ==> r[other] == store[other]
    ensures id in store ==> r[id] == store[id].(status := Running, startedAt := Some(now))
  {
    if id in store then store[id := store[id].(status := Running, startedAt := Some(now))] else store
  }

  /** The engine returned: the record becomes completed exactly when the
      formatted result reports success, and keeps the flattened result. */
  function Finish(store: Store, id: string, raw: RawAnalysis, f: Formatted, now: Timestamp): (r: Store)
    ensures r.Keys == store.Keys
    ensures forall other :: other in store && other != id ==> r[other] == store[other]
    ensures id in store ==>
      && (r[id].status == Completed <==> Succeeded(f))
      && (r[id].status == Failed <==> !Succeeded(f))
      && r[id].result == Some(Flatten(f, raw))
      && r[id].completedAt == Some(now)
      && (Succeeded(f) ==> r[id].error == None)
      && (!Succeeded(f) ==> r[id].error == f.error)
      && r[id] == store[id].(status := r[id].status, result := r[id].result,
                             completedAt := r[id].completedAt, error := r[id].error)
  {
    if id in store then
      var ok := f.success.GetOr(false);
      store[id := store[id].(
        status := if ok then Completed else Failed,
        result := Some(Flatten(f, raw)),
        completedAt := Some(now),
        error := if !ok then f.error else None)]
    else store
  }

  /** The engine (or formatting) raised: the record fails with the
      exception's text and keeps whatever result it had. */
  function Crash(store: Store, id: string, message: string, now: Timestamp): (r: Store)
    ensures r.Keys == store.Keys
    ensures forall other :: other in store && other != id ==> r[other] == store[other]
    ensures id in store ==>
      && r[id].status == Failed
      && r[id].error == Some(message)
      && r[id].completedAt == Some(now)
      && r[id] == store[id].(status := Failed, error := Some(message), completedAt := Some(now))
  {
    if id in store then
      store[id := store[id].(status := Failed, error := Some(message), completedAt := Some(now))]
    else store
  }

  /** How the analysis engine call ended. */
  datatype Outcome = Returned(raw: RawAnalysis, formatted: Formatted) | Raised(message: string)

  /** One full run of the background worker for `id`. */
  function RunWorker(store: Store, id: string, outcome: Outcome, startedAt: Timestamp, endedAt: Timestamp): (r: Store)
    ensures r.Keys == store.Keys
    ensures forall other :: other in store && other != id ==> r[other] == store[other]
    ensures id in store ==>
      && IsTerminal(r[id].status)
      && r[id].startedAt == Some(startedAt)
      && r[id].completedAt == Some(endedAt)
  {
    var running := Start(store, id, startedAt);
    match outcome
    case Returned(raw, f) => Finish(running, id, raw, f, endedAt)
    case Raised(message) => Crash(running, id, message, endedAt)
  }

  /** `GET /analysis/<id>/status`. */
  function GetStatus(store: Store, id: string): (r: Response)
    ensures id !in store <==> r == NotFound
    ensures id in store ==>
      var rec := store[id];
      && r.code == 200
      && r.body.StatusReport?
      && r.body.id == rec.id && r.body.status == rec.status
      && r.body.symbol == rec.symbol && r.body.market == rec.market
      && r.body.createdAt == rec.createdAt && r.body.startedAt == rec.startedAt
      && r.body.completedAt == rec.completedAt && r.body.error == rec.error
      && (r.body.hasResult <==> rec.result.Some?)
  {
    if id !in store then NotFound
    else
      var rec := store[id];
      Response(200, StatusReport(rec.id, rec.status, rec.symbol, rec.market, rec.createdAt,
                                 rec.startedAt, rec.completedAt, rec.result.Some?, rec.error))
  }

  /** `GET /analysis/<id>`. */
  function GetResult(store: Store, id: string): (r: Response)
    ensures r.code in {200, 202, 404, 500}
    ensures r.code == 404 <==> id !in store
    ensures id !in store ==> r == NotFound
    ensures id in store ==>
      var rec := store[id];
      && (r.code == 202 <==> !IsTerminal(rec.status))
      && (r.code == 500 <==> rec.status == Failed)
      && (r.code == 200 <==> rec.status == Completed)
      && (!IsTerminal(rec.status) ==> r.body == InProgress(rec.id, rec.status, InProgressMessage))
      && (rec.status == Failed ==> r.body == FailureReport(rec.id, Failed, rec.error))
      && (rec.status == Completed ==>
            r.body == FullResult(rec.id, Completed, rec.symbol, rec.market, rec.researchDepth,
                                 rec.llmProvider, rec.createdAt, rec.completedAt, rec.result))
  {
    if id !in store then NotFound
    else
      var rec := store[id];
      if rec.status == Queued || rec.status == Running then
        Response(202, InProgress(rec.id, rec.status, InProgressMessage))
      else if rec.status == Failed then
        Response(500, FailureReport(rec.id, Failed, rec.error))
      else
        Response(200, FullResult(rec.id, rec.status, rec.symbol, rec.market, rec.researchDepth,
                                 rec.llmProvider, rec.createdAt, rec.completedAt, rec.result))
  }

  /** Everything that can happen to the store: a create request, either half
      of a worker run, and the two read-only queries. */
  datatype Event =
    | Submit(json: Option<Payload>, id: string, now: Timestamp, today: string)
    | WorkerStart(id: string, now: Timestamp)
    | WorkerReturn(id: string, raw: RawAnalysis, formatted: Formatted, now: Timestamp)
    | WorkerRaise(id: string, message: string, now: Timestamp)
    | StatusQuery(id: string)
    | ResultQuery(id: string)

  /** When an event can occur. A generated id is fresh; each record gets one
      worker, which starts on the queued record and ends on the running one. */
  predicate Enabled(store: Store, e: Event) {
    match e
    case Submit(_, id, _, _) => id !in store
    case WorkerStart(id, _) => id in store && store[id].status == Queued
    case WorkerReturn(id, _, _, _) => id in store && store[id].status == Running
    case WorkerRaise(id, _, _) => id in store && store[id].status == Running
    case StatusQuery(_) => true
    case ResultQuery(_) => true
  }

  /** The store after an event; the queries answer without changing it. */
  function Apply(store: Store, e: Event): Store {
    match e
    case Submit(json, id, now, today) => CreateAnalysis(store, json, id, now, today).0
    case WorkerStart(id, now) => Start(store, id, now)
    case WorkerReturn(id, raw, f, now) => Finish(store, id, raw, f, now)
    case WorkerRaise(id, message, now) => Crash(store, id, message, now)
    case StatusQuery(_) => store
    case ResultQuery(_) => store
  }

  /** The fields a record carries in each status. */
  predicate Consistent(rec: Record) {
    match rec.status
    case Queued => rec.startedAt.None? && rec.completedAt.None? && rec.result.None? && rec.error.None?
    case Running => rec.startedAt.Some? && rec.completedAt.None? && rec.result.None? && rec.error.None?
    case Completed => rec.startedAt.Some? && rec.completedAt.Some? && rec.result.Some? && rec.error.None?
    case Failed => rec.startedAt.Some? && rec.completedAt.Some?
  }

  /** Every record is filed under its own id and is consistent. */
  predicate WellFormed(store: Store) {
    forall id :: id in store ==> store[id].id == id && Consistent(store[id])
  }

  lemma SubmitPreservesWellFormed(store: Store, json: Option<Payload>, id: string, now: Timestamp, today: string)
    requires WellFormed(store)
    ensures WellFormed(CreateAnalysis(store, json, id, now, today).0)
  {
    var r := CreateAnalysis(store, json, id, now, today).0;
    var v := Validate(json.GetOr(NoPayload), today);
    if v.Success? {
      var rec := QueuedRecord(id, v.value, now);
      assert r == store[id := rec];
      forall k | k in r ensures r[k].id == k && Consistent(r[k]) {
        if k != id { assert r[k] == store[k]; }
      }
    } else {
      assert r == store;
    }
  }

  lemma StartPreservesWellFormed(store: Store, id: string, now: Timestamp)
    requires WellFormed(store) && id in store && store[id].status == Queued
    ensures WellFormed(Start(store, id, now))
  {
    var r := Start(store, id, now);
    assert Consistent(r[id]);
  }

  lemma FinishPreservesWellFormed(store: Store, id: string, raw: RawAnalysis, f: Formatted, now: Timestamp)
    requires WellFormed(store) && id in store && store[id].status == Running
    ensures WellFormed(Finish(store, id, raw, f, now))
  {
    var r := Finish(store, id, raw, f, now);
    assert Consistent(r[id]);
  }

  lemma CrashPreservesWellFormed(store: Store, id: string, message: string, now: Timestamp)
    requires WellFormed(store) && id in store && store[id].status == Running
    ensures WellFormed(Crash(store, id, message, now))
  {
    var r := Crash(store, id, message, now);
    assert Consistent(r[id]);
  }

  /** Every enabled event keeps the store well formed. */
  lemma StepPreservesWellFormed(store: Store, e: Event)
    requires WellFormed(store) && Enabled(store, e)
    ensures WellFormed(Apply(store, e))
  {
    match e
    case Submit(json, id, now, today) => SubmitPreservesWellFormed(store, json, id, now, today);
    case WorkerStart(id, now) => StartPreservesWellFormed(store, id, now);
    case WorkerReturn(id, raw, f, now) => FinishPreservesWellFormed(store, id, raw, f, now);
    case WorkerRaise(id, message, now) => CrashPreservesWellFormed(store, id, message, now);
    case StatusQuery(_) =>
    case ResultQuery(_) =>
  }

  /** No enabled event changes a record that is completed or failed, and no
      event removes a record or moves it back in the lifecycle. */
  lemma StepIsMonotonic(store: Store, e: Event, id: string)
    requires Enabled(store, e) && id in store
    ensures id in Apply(store, e)
    ensures Rank(Apply(store, e)[id].status) >= Rank(store[id].status)
    ensures IsTerminal(store[id].status) ==> Apply(store, e)[id] == store[id]
  {
    match e
    case Submit(json, id', now, today) =>
      var v := Validate(json.GetOr(NoPayload), today);
      if v.Success? {
        assert Apply(store, e) == store[id' := QueuedRecord(id', v.value, now)];
      }
    case _ =>
  }

  /** Events applied one after another, each enabled when it happens. */
  predicate ValidTrace(store: Store, events: seq<Event>)
    decreases |events|
  {
    |events| == 0 || (Enabled(store, events[0]) && ValidTrace(Apply(store, events[0]), events[1..]))
  }

  function Run(store: Store, events: seq<Event>): Store
    decreases |events|
  {
    if |events| == 0 then store else Run(Apply(store, events[0]), events[1..])
  }

  /** Along any valid trace from a well-formed store (for instance the empty
      one the app starts with), the store stays well formed, records are
      never removed, statuses never move back, and a record that is
      completed or failed never changes again. */
  lemma {:induction false} TerminalIsFinal(store: Store, events: seq<Event>, id: string)
    requires WellFormed(store) && ValidTrace(store, events) && id in store
    ensures WellFormed(Run(store, events))
    ensures id in Run(store, events)
    ensures Rank(Run(store, events)[id].status) >= Rank(store[id].status)
    ensures IsTerminal(store[id].status) ==> Run(store, events)[id] == store[id]
    decreases |events|
  {
    if |events| > 0 {
      StepPreservesWellFormed(store, events[0]);
      StepIsMonotonic(store, events[0], id);
      TerminalIsFinal(Apply(store, events[0]), events[1..], id);
    }
  }

  /** In a well-formed store the status report's `has_result` follows the
      status: false while queued or running, true once completed. A failed
      record may go either way (`FailureKinds`). */
  lemma HasResultFollowsStatus(store: Store, id: string)
    requires WellFormed(store) && id in store
    ensures var report := GetStatus(store, id).body;
      && (!IsTerminal(store[id].status) ==> !report.hasResult)
      && (store[id].status == Completed ==> report.hasResult)
  {
  }

  /** A run whose engine returned an unsuccessful result is reported as failed
      but with a result; a run whose engine raised is reported as failed with
      the exception's text and no result. */
  lemma FailureKinds(store: Store, id: string, outcome: Outcome, t0: Timestamp, t1: Timestamp)
    requires WellFormed(store) && id in store && store[id].status == Queued
    ensures var report := GetStatus(RunWorker(store, id, outcome, t0, t1), id).body;
      && (outcome.Returned? && !Succeeded(outcome.formatted) ==>
            report.status == Failed && report.hasResult && report.error == outcome.formatted.error)
      && (outcome.Raised? ==>
            report.status == Failed && !report.hasResult && report.error == Some(outcome.message))
      && (outcome.Returned? && Succeeded(outcome.formatted) ==>
            report.status == Completed && report.hasResult && report.error == None)
  {
  }

  /** The result query agrees with the status query: 200 exactly when the
      status is completed, and then a result is present. */
  lemma ResultAgreesWithStatus(store: Store, id: string)
    requires WellFormed(store) && id in store
    ensures GetResult(store, id).code == 200 <==> GetStatus(store, id).body.status == Completed
    ensures GetResult(store, id).code == 200 ==> GetResult(store, id).body.result.Some?
  {
  }
}
