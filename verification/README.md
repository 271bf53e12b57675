# Stock-agent core in Dafny

A model of three parts of the Stock-agent trading assistant, with proofs about
each:

- **The analysis job store of the Flask backend** (`backend.dfy`, module
  `Backend`). `POST /analysis` validates a payload, files a queued record under
  a fresh id and answers 202 with the polling URLs. A background worker moves
  the record to running and then to completed or failed, storing the flattened
  engine result or the error text. `GET /analysis/<id>/status` and
  `GET /analysis/<id>` read the store. Each handler is a pure function of the
  store. The worker is split into its start, return and raise steps, so the
  lifecycle is a state machine over events. The properties proved include:
  - the store stays well formed along every valid trace;
  - statuses never move back;
  - a completed or failed record never changes again.
- **The KDJ stochastic indicator** (`technical_indicators.dfy`, module
  `TechnicalIndicators`). It covers the rolling highest/lowest windows, the K
  line (with 50 for a flat range), its three-bar moving average D, the J line,
  and the textual signal that `analyze_kdj_signal` derives from the latest
  values.
- **The Reddit data source** (`reddit_utils.dfy`, module `RedditUtils`):
  - the client gate on the credentials;
  - the weekly top posts of a subreddit;
  - the global news over five finance subreddits;
  - the company news: the first 15 search hits, with a score of at least 5;
  - the two aliases of the company news.

  The praw client is a value that serves listings. A listing is either the
  posts or the message of the exception its fetch raised.

Supporting modules:
- `wrappers.dfy`: `Option` and `Result`.
- `strings.dfy`: Python's `strip`, slicing, `join` and `str(int)`.
- `json.dfy`: JSON values, and dictionaries as association lists that keep
  insertion order. `d[k] = v` replaces in place or appends; `{**a, **b}`
  merges.

## Model

| member | source | states |
|---|---|---|
| Strings.IsSpace | backend/app.py:56-57 | defines the whitespace set of Python's `str.strip()`: tab to carriage return (0x09-0x0D), 0x1C-0x1F, space, 0x85, 0xA0, 0x1680, 0x2000-0x200A, 0x2028, 0x2029, 0x202F, 0x205F and 0x3000 |
| Strings.Strip | backend/app.py:56-57 | the result is the input minus whitespace at both ends only, has no whitespace at either end, and is empty exactly when the input is all whitespace |
| Strings.StripIdempotent | backend/app.py:56-57 | stripping a stripped text changes nothing |
| Strings.Take | tradingagents/dataflows/reddit_utils.py:75 | `s[:n]` is the prefix of length `min(n, len(s))` |
| Strings.Abbreviate | tradingagents/dataflows/reddit_utils.py:47 | a text of at most `n` characters is kept; a longer one becomes its first `n` characters plus `...`; empty exactly when the input is |
| Strings.Join | tradingagents/dataflows/reddit_utils.py:84 | `sep.join`: empty for no parts, the part itself for one, starts with the first part, and its length is the parts' total plus one separator between each pair |
| Strings.JoinConcat | tradingagents/dataflows/reddit_utils.py:84 | joining two non-empty lists is joining each and putting one separator between them, so every later part and separator is in place |
| Strings.NatToString | tradingagents/dataflows/reddit_utils.py:75 | `str(n)` is non-empty, all decimal digits, and has no leading zero |
| Strings.IntToString | tradingagents/dataflows/reddit_utils.py:120 | `str(i)` starts with `-` exactly when `i` is negative, and the rest is decimal digits whose value is `abs(i)`, with no leading zero unless the number is 0 |
| Strings.NatToStringRoundTrip | tradingagents/dataflows/reddit_utils.py:75 | reading back the digits of `str(n)` gives `n` |
| Strings.IntToStringInjective | tradingagents/dataflows/reddit_utils.py:120 | different scores print differently |
| Json.Truthy | backend/app.py:108 | defines Python truthiness of a JSON value: `null`, `false`, zero, the empty string, list and object are falsy |
| Json.IndexOf | backend/app.py:106-109 | the position of the first entry with the key, or none exactly when the key is absent |
| Json.Get | backend/app.py:102-104 | `d.get(k)` is absent exactly when the key is, and is otherwise an entry of the dictionary |
| Json.Set | backend/app.py:107-109 | after `d[k] = v` the key maps to `v` and every other key maps as before; an existing key keeps its position, a new one is appended; key uniqueness is preserved |
| Json.Merge | backend/app.py:101-105 | `{**a, **b}` has the keys of both, keeps `a`'s keys at their positions, and keeps keys unique |
| Json.MergeGet | backend/app.py:101-105 | in `{**a, **b}` a key of `b` takes `b`'s value and any other key keeps `a`'s |
| Backend.FromPayload | backend/app.py:54-63 | fails exactly when the depth conversion raises, with its message; otherwise symbol and market are the stripped inputs (empty exactly when all whitespace), depth defaults to 1, analysts to the four defaults, the date to today, risk assessment to true; a given llm provider, analyst list, analysis date and risk flag pass through unchanged |
| Backend.Validate | backend/app.py:136-144 | the three checks in order with their 400 messages (`invalid payload: ...`, `symbol is required`, `market is required`); succeeds exactly when the payload is admissible, then with a non-empty symbol and market |
| Backend.QueuedRecord | backend/app.py:150-162 | the new record is queued under its id, copies the request's fields, and has no start time, completion time, result or error |
| Backend.CreateAnalysis | backend/app.py:135-184 | a rejected payload gives 400 with the validation message and the same store; an accepted one gives the store plus the queued record, and a 202 with the queued message and the two URLs |
| Backend.CreateRejects | backend/app.py:141-144 | an inadmissible payload is answered 400 and leaves the store unchanged |
| Backend.CreateInsertsOne | backend/app.py:146-162 | an admissible payload under a fresh id is answered 202 and adds exactly one queued record, leaving all others as they were |
| Backend.EngineArgumentsFor | backend/app.py:73-82 | the engine always receives a non-empty analyst list and a date, falling back to today and to the four default analysts when the request's are empty; symbol, market, research depth, llm provider and the risk flag pass through unchanged |
| Backend.Succeeded | backend/app.py:113 | defines success of a run as `formatted_result.get('success', False)` being true |
| Backend.ExtractMarketData | backend/app.py:88-96 | the raw result's top-level `market_data` wins over the one inside `state`; none gives `None` |
| Backend.Flatten | backend/app.py:101-109 | the flattened result starts with `success` and has each key once |
| Backend.FlattenGet | backend/app.py:101-109 | per key, the state's value overrides the decision's, which overrides `success`; a present formatted error wins for `error`; truthy chart data wins for `market_data` |
| Backend.Start | backend/app.py:69-70 | the record becomes running with its start time; no other record changes |
| Backend.Finish | backend/app.py:112-117 | the record becomes completed exactly when the formatted result reports success, and failed otherwise; it keeps the flattened result and the completion time; the error is cleared on success and is the formatted error otherwise; every other field of the record and every other record is unchanged |
| Backend.Crash | backend/app.py:119-124 | the record becomes failed with the exception text and a completion time; every other field, the result included, and every other record is unchanged |
| Backend.RunWorker | backend/app.py:65-124 | a worker run always leaves the record in a terminal status with both timestamps set, touching no other record |
| Backend.GetStatus | backend/app.py:186-203 | 404 exactly for an unknown id; otherwise 200 with the record's fields and `has_result` true exactly when a result is stored |
| Backend.GetResult | backend/app.py:205-237 | 404 for an unknown id, 202 while queued or running, 500 when failed, 200 with the full record when completed |
| Backend.SubmitPreservesWellFormed | backend/app.py:150-162 | creating an analysis keeps every record filed under its own id and consistent with its status |
| Backend.StartPreservesWellFormed | backend/app.py:69-70 | starting a queued record keeps the store well formed |
| Backend.FinishPreservesWellFormed | backend/app.py:112-117 | finishing a running record keeps the store well formed |
| Backend.CrashPreservesWellFormed | backend/app.py:119-124 | failing a running record keeps the store well formed |
| Backend.StepPreservesWellFormed | backend/app.py:65-124 | every enabled event keeps the store well formed |
| Backend.StepIsMonotonic | backend/app.py:65-124 | no event removes a record, moves its status back, or alters a completed or failed record |
| Backend.TerminalIsFinal | backend/app.py:65-124 | along any valid trace the store stays well formed, records persist, statuses never regress, and terminal records never change |
| Backend.HasResultFollowsStatus | backend/app.py:201 | `has_result` is false while queued or running and true once completed |
| Backend.FailureKinds | backend/app.py:112-124 | an unsuccessful engine return is reported failed with a result and the formatted error; a raise is reported failed with no result and the exception text; success is completed with a result and no error |
| Backend.ResultAgreesWithStatus | backend/app.py:213-237 | the result query answers 200 exactly when the status query reports completed, and then carries a result |
| TechnicalIndicators.Max | tradingagents/utils/technical_indicators.py:40 | `max` of a window is one of its elements and bounds all of them |
| TechnicalIndicators.Min | tradingagents/utils/technical_indicators.py:41 | `min` of a window is one of its elements and is bounded by all of them |
| TechnicalIndicators.Rsv | tradingagents/utils/technical_indicators.py:47-53 | K is 50 for a flat range, and otherwise the close's offset from the low as a percentage of the range |
| TechnicalIndicators.RsvBounds | tradingagents/utils/technical_indicators.py:47-53 | K lies in [0, 100] when the close lies within the window's range |
| TechnicalIndicators.RollingExtremes | tradingagents/utils/technical_indicators.py:39-43 | there are `n - kperiods` windows, and entry `x` is the max of highs and the min of lows over bars `x .. x + kperiods - 1` |
| TechnicalIndicators.KValues | tradingagents/utils/technical_indicators.py:46-53 | one K per bar from `kperiods` on, measured against the window before it |
| TechnicalIndicators.DValues | tradingagents/utils/technical_indicators.py:55-59 | two placeholders, then the mean of each three consecutive K values, aligned with the last of them |
| TechnicalIndicators.DSeriesShape | tradingagents/utils/technical_indicators.py:56-59 | D has placeholders exactly at positions 0 and 1 |
| TechnicalIndicators.JValues | tradingagents/utils/technical_indicators.py:61-66 | two placeholders, then `3 * D - 2 * K` at every later position |
| TechnicalIndicators.KdjSeries | tradingagents/utils/technical_indicators.py:35-66 | the three loops in sequence produce K, D and J as functions of the prices |
| TechnicalIndicators.CalculateKdj | tradingagents/utils/technical_indicators.py:12-87 | a result exists exactly when `0 < kperiods` and there are at least `kperiods + 3` bars; it then holds the three series of equal length, their latest values and the signal for them |
| TechnicalIndicators.TrendLabel | tradingagents/utils/technical_indicators.py:107-118 | each trend label fires exactly when its own condition holds; none fires when K equals D |
| TechnicalIndicators.JLabel | tradingagents/utils/technical_indicators.py:120-124 | the overheated label exactly when J > 100, the overcooled one exactly when J < 0 |
| TechnicalIndicators.ZoneLabel | tradingagents/utils/technical_indicators.py:126-130 | overbought exactly when both K and D exceed 80, oversold exactly when both are below 20 |
| TechnicalIndicators.Labels | tradingagents/utils/technical_indicators.py:105-130 | one label per branch that fires, at most three, in the order trend, J, zone |
| TechnicalIndicators.TrendLabelsFire | tradingagents/utils/technical_indicators.py:107-118 | each trend label is in the signal list exactly when its condition holds |
| TechnicalIndicators.JLabelsFire | tradingagents/utils/technical_indicators.py:120-124 | each J label is in the signal list exactly when its condition holds |
| TechnicalIndicators.ZoneLabelsFire | tradingagents/utils/technical_indicators.py:126-130 | each zone label is in the signal list exactly when its condition holds |
| TechnicalIndicators.LabelsAreNotFallbacks | tradingagents/utils/technical_indicators.py:105-132 | no label can be mistaken for `中立` or `数据不足` |
| TechnicalIndicators.Signal | tradingagents/utils/technical_indicators.py:132 | `中立` exactly when no label fires, never `数据不足`, and otherwise the fired labels joined in order by the separator of a space, a vertical bar and a space: one label alone, two or three with the separator between each pair |
| TechnicalIndicators.AnalyzeSignal | tradingagents/utils/technical_indicators.py:102-132 | `数据不足` exactly when K or D is missing; raises exactly when only J is missing; otherwise the signal text |
| RedditUtils.GetRedditClient | tradingagents/dataflows/reddit_utils.py:9-29 | a client exists exactly when both credentials are non-empty and construction succeeds, and it is then the constructed client |
| RedditUtils.Summarize | tradingagents/dataflows/reddit_utils.py:41-48 | defines the dictionary for one top post: title, score, url, creation time and comment count as read, self text abbreviated to 500 characters |
| RedditUtils.FetchTopFromCategory | tradingagents/dataflows/reddit_utils.py:31-52 | empty without a client or on a fetch error; otherwise the first `limit` posts in order with their fields, the self text cut to 500 characters plus `...` when longer |
| RedditUtils.GlobalEntry | tradingagents/dataflows/reddit_utils.py:75 | defines one global entry: `### r/<sub>: <title> (Score: <score>)`, a newline, the first 800 characters of the self text with no ellipsis, a newline |
| RedditUtils.GlobalEntries | tradingagents/dataflows/reddit_utils.py:66-79 | the loop succeeds exactly when every subreddit's listing is fetched, with at most five entries per subreddit |
| RedditUtils.GlobalEntriesCons | tradingagents/dataflows/reddit_utils.py:70-76 | one turn of the loop: a fetched subreddit contributes the entries of its first five hot posts, followed by the entries of the remaining subreddits |
| RedditUtils.GlobalEntriesFailure | tradingagents/dataflows/reddit_utils.py:69-88 | a failed loop reports the message of the first listing that failed |
| RedditUtils.GlobalEntriesInOrder | tradingagents/dataflows/reddit_utils.py:70-76 | the subreddits are visited in order: the entries for `a + b` are those for `a` followed by those for `b` |
| RedditUtils.GetRedditGlobalNews | tradingagents/dataflows/reddit_utils.py:54-88 | the not-configured text without a client; the error text on a fetch failure; the nothing-found text with no entries; otherwise the header and at most 25 entries joined by blank lines |
| RedditUtils.Kept | tradingagents/dataflows/reddit_utils.py:110-113 | a post is kept exactly when it is a search hit with a score of at least 5 |
| RedditUtils.KeptInOrder | tradingagents/dataflows/reddit_utils.py:110-113 | the score filter distributes over concatenation, so kept posts stay in search order |
| RedditUtils.Content | tradingagents/dataflows/reddit_utils.py:115-118 | never empty: `(Link Post)` for an empty self text, the text itself up to 800 characters, else its first 800 plus `...` |
| RedditUtils.CompanyEntry | tradingagents/dataflows/reddit_utils.py:120 | defines one company entry: `### <title> (Score: <score>, Sub: r/<subreddit>)`, a newline, the content, a newline |
| RedditUtils.CompanyPosts | tradingagents/dataflows/reddit_utils.py:108-113 | at most 15 posts, exactly those among the first 15 hits with a score of at least 5 |
| RedditUtils.GetRedditCompanyNews | tradingagents/dataflows/reddit_utils.py:90-128 | the not-configured, error and nothing-found texts in their cases; otherwise the header for the ticker and one entry per kept post, joined by blank lines |
| RedditUtils.GetRedditStockInfo | tradingagents/dataflows/reddit_utils.py:130-133 | equals the company news for every date and look-back |
| RedditUtils.GetRedditSentiment | tradingagents/dataflows/reddit_utils.py:135-137 | equals the company news for every date and look-back |

The comment at `tradingagents/utils/technical_indicators.py:61` names
`3*K - 2*D` for the J line, but line 65 computes `3*D - 2*K`. `JValues`
models line 65.

`Finish` stores `formatted_result.get('error')` for an unsuccessful run, as
line 116 of `backend/app.py` does. When the engine reports failure without an
`error` key, the stored error is `None`. So a failed record need not carry an
error message.

## Left out

- Flask routing, CORS, `jsonify` and the health endpoint are not modelled: they are framework plumbing. Responses are a status code and a body datatype.
- Threads are not modelled. Each handler and each worker step (start, return, raise) is one atomic event, and `Enabled` orders the steps of the single worker per record. The source writes `status` and `started_at` in two statements (`backend/app.py:69-70`), and the status handler reads the record key by key (`backend/app.py:194-202`). A read interleaved with lines 69-70 or 112-117 can therefore see `running` with no start time, or `running` with a completion time and a result. Such reads are outside the model, and `WellFormed` and `HasResultFollowsStatus` hold only between events.
- `uuid4`, `datetime.now()` and the id format are parameters: the id, the timestamps and today's date are passed in. `Enabled` requires a generated id to be fresh.
- `run_stock_analysis` and `format_analysis_results` are not part of this model. Their outputs are the `Outcome`, `RawAnalysis` and `Formatted` parameters.
- A request body that is JSON and truthy but not an object (say `[1]`) makes `payload.get` raise `AttributeError` at `backend/app.py:56`, which the handler does not catch. `json` is an `Option<Payload>`, so such a body is not modelled.
- Formatted.error: an `error` key present with the value `None` is copied into the flattened result as null (`backend/app.py:106-107`). `Formatted.error` is an `Option<string>` and does not separate that case from an absent key.
- Payload values of the wrong JSON type are left out. A `null` or non-string symbol or market makes `.strip()` raise `AttributeError`, which the handler does not catch. Non-dict `decision`/`state` and a non-boolean `success` are also left out. The model types these fields.
- Backend.Succeeded: treats only `success == True` as success, rather than Python truthiness of an arbitrary value, because `success` is typed as a boolean here.
- The extraction of market data never raises in the model. The `try`/`except` at `backend/app.py:89-96` only matters for non-dict results or states.
- TechnicalIndicators.CalculateKdj: requires the three price arrays to have equal length. Unequal lengths are not modelled. Slices then truncate: a window of the lows that comes out empty makes `min` raise `ValueError`, and closes longer than the highs make `array_highest[x-kperiods]` raise `IndexError`. Both become `None`. Otherwise the code uses shorter windows or produces fewer K values.
- TechnicalIndicators: prices are reals. Floating-point rounding, NaN and the numpy conversion are left out, and so is the `dperiods` argument: the code's offsets `x + 2` and its two placeholders only fit 3.
- Logging in both Python modules is left out.
- The `REDDIT_USER_AGENT` variable and the construction of `praw.Reddit` are left out: construction is an `Option` parameter of `GetRedditClient`.
- Each Reddit function calls `get_reddit_client()` itself. Here the client is a parameter that stands for that call's result.
- RedditUtils: a listing that raises part-way through iteration is modelled as a fetch failure of the whole listing. No caller can see the difference: the partial results are discarded.
- The `curr_date` and `look_back_days` arguments of the news functions are ignored by the source and carry no meaning here. The fixed week time filter and relevance sort are properties of the listings passed in.
- `tradingagents/agents/analysts/social_media_analyst.py` is the language-model agent that calls the Reddit functions, and `backend/test_backend.py` drives the HTTP endpoints. Neither defines behaviour of the modelled functions, so neither is modelled.
- Default arguments are not modelled as defaults: every parameter is explicit. The defaults are `kperiods=14` and `dperiods=3` for `calculate_kdj`, `category='investing'` and `limit=10` for `fetch_top_from_category`, and `look_back_days=7` for the news functions. `GetRedditStockInfo` and `GetRedditSentiment` pass 7, as the source does through the default.
