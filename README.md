# ai-investor core, modelled in Dafny

This project models the decision core of **ai-investor**, an assistant that screens
stocks, forms an investment thesis per ticker and proposes orders that a human
must approve before the broker sees them. The model follows the Python package
`ai_investor` module by module.

- `decision_models.dfy`, `engine.dfy`: the four recommendations (BUY, HOLD, TRIM, EXIT),
  the thesis record, and the decision engine's three scores in [0, 1] (quantitative,
  qualitative and stability). It also models the thresholds that turn their blend
  into a recommendation, the 90-day minimum holding rule and the rationale text.
- `decision_log.dfy`: the JSONL audit logs. A log file is a class whose line sequence
  only grows. The engine's first-purchase lookup reads it line by line. It stops
  with no answer at the first line that is not JSON, a blank line included.
- `approvals.dfy`: the command-line approval gate. Only an explicit yes approves, and
  every decision is appended to the log.
- `service.dfy`: the daily orchestrator. It covers which shortlist entry names a
  security and the order proposed for a thesis (side, quantity from a 1000 budget).
  The daily loop asks the approval gate before every order it places, reading the
  operator's typed lines and writing each decision to the trade log, and stops at
  the first exception: input that runs out raises EOFError and ends the run. Each
  evaluation sees the theses the run has logged so far, since the engine reads the
  first purchase back from the same thesis log. The loop follows the code as
  written, so a zero price ends the run (see "## Findings").
- `nordnet.dfy`: the broker client in mock mode. It is a class with an authentication
  flag and a position book that buys and sells update (average price, removal at zero).
- `shortlist.dfy`, `tools.dfy`, `screener.dfy`, `scoring.dfy`, `analysis_models.dfy`:
  - the cached shortlist and its refresh;
  - the tool layer's ticker normalisation, listing selection and shortlist store;
  - the screener's reasons for rejecting a ticker;
  - the conservative fundamental filter and ranking.
- `portfolio.dfy`, `advice.dfy`, `models.dfy`: the advice server. It covers validated
  holdings and metrics, the recommendation per holding, and the composed advice report
  with its cash plan.
- `claude_agent.dfy`, `mcp_tools.dfy`, `agent_report.dfy`: the language-model analyst.
  It covers the bounded tool-use loop, the tool schemas and dispatch, and the
  plain-text report of a run.
- `eodhd.dfy`, `tiingo.dfy`, `fear_greed.dfy`: the pure parts of the data-provider
  clients (float coercion, look-back parsing, payload normalisation).
- `common.dfy`, `text.dfy`, `sorting.dfy`: shared values and helpers.
  - `common.dfy`: Option, Result, a JSON value, instants in microseconds.
  - `text.dfy`: the Python string operations used.
  - `sorting.dfy`: a stable sort, proved sorted, a permutation and stable.

Stateful parts are classes whose methods are proved against specification functions:
the position book, the log files, the shortlist cache and store, the approval
gateway, the orchestrator and the analysers. Pure parts are functions with
lemmas. Those lemmas cover:
- round trips (the first-purchase scan finds the time a BUY thesis was logged,
  and each recommendation parses back from its wire string);
- invariants (scores stay in [0, 1], no order makes a ticker appear twice in the book);
- ordering (rankings are sorted permutations of their input);
- the gating rule that no order is placed without approval.

Library routines are parameters, collected in `Common.Runtime`:
- parsing text as a float or an integer;
- ISO-8601 conversion of instants;
- fixed-point number formatting.

The clock, the language model, the data providers, the broker's HTTP API and the
console are parameters or oracles too.

## Model

| member | source | states |
|---|---|---|
| DecisionModels.ParseRecommendation | src/ai_investor/decision/models.py:11-15 | parsing a wire string gives the recommendation whose value it is |
| DecisionModels.RecommendationRoundTrip | src/ai_investor/decision/models.py:11-15 | every recommendation parses back from its wire string |
| DecisionModels.ParseRecommendationOnlyWireStrings | src/ai_investor/decision/models.py:11-15 | exactly "buy", "hold", "trim" and "exit" are recommendations |
| DecisionModels.MakeThesis | src/ai_investor/decision/models.py:24-34 | a thesis validates iff conviction and both scores lie in [0, 1]; it keeps every given field (ticker, recommendation, scores, rationale, lists) and its suggested action defaults to None |
| DecisionModels.StringsJson | src/ai_investor/decision/models.py:31-32 | a list of strings dumps to an array of the same strings in order |
| DecisionModels.ThesisJson | src/ai_investor/decision/models.py:24-34 | `thesis.dict()` is an object with distinct keys holding the ticker and the recommendation's wire string, and no `ts` |
| DecisionLog.LogFile.Missing | src/ai_investor/decision/engine.py:62-63 | a log file that does not exist has no lines |
| DecisionLog.LogFile.Holding | src/ai_investor/decision/engine.py:66-67 | an existing log file holds its lines |
| DecisionLog.Stamped | src/ai_investor/logging/decision_log.py:21 | `{**record, "ts": now}` has distinct keys, `ts` set to the append time (overriding any given one), every other key unchanged, and grows by one key only when `ts` was absent |
| DecisionLog.StampedTwice | src/ai_investor/logging/decision_log.py:21 | stamping twice keeps only the later time |
| DecisionLog.JsonlLogger.constructor | src/ai_investor/logging/decision_log.py:16-18 | the logger writes to the file it is given |
| DecisionLog.JsonlLogger.Append | src/ai_investor/logging/decision_log.py:20-23 | the file exists afterwards and gains exactly one line, the stamped record, at its end; earlier lines are unchanged |
| DecisionLog.BulkExport | src/ai_investor/logging/decision_log.py:36-40 | the destination is replaced by one line per record, in input order, with no `ts` added |
| DecisionLog.StampedKeys | src/ai_investor/logging/decision_log.py:20-23 | stamping a record changes no key other than "ts": every other `get` answers as before |
| Engine.ScoreStability | src/ai_investor/decision/engine.py:28-43 | the stability score lies in [0, 1]; with no fundamentals it is the score of the defaults 100 / 1.5 / 0.5, which is 4/15 |
| Engine.StabilityZeroIsMissing | src/ai_investor/decision/engine.py:30-32 | a zero DebtToEquity, Beta or EarningsStability scores exactly like a missing one, because the code defaults with `or` |
| Engine.StabilityFallsWithDebt | src/ai_investor/decision/engine.py:35 | lower positive debt-to-equity never lowers the stability score |
| Engine.ScoreQuantitative | src/ai_investor/decision/engine.py:45-58 | the quantitative score lies in [0, 1]; empty fundamentals give exactly 0.0 |
| Engine.QuantitativeFull | src/ai_investor/decision/engine.py:50-56 | yield ≥ 6, payout 50, margin ≥ 30, ROA ≥ 15 and ROE ≥ 20 give the full score 1.0 |
| Engine.SentimentValue | src/ai_investor/decision/engine.py:79-85 | each insight maps to 0.75, 0.25 or 0.5 |
| Engine.SentimentSumBounds | src/ai_investor/decision/engine.py:78-85 | the mapped values of n insights sum to between 0.25·n and 0.75·n |
| Engine.QualitativeBounds | src/ai_investor/decision/engine.py:86-88 | the qualitative score (0.5 without insights, else the mean) lies in [0.25, 0.75] |
| Engine.BlendInUnit | src/ai_investor/decision/engine.py:99 | the blend 0.5·quant + 0.35·qual + 0.15·stab of three scores in [0, 1] is in [0, 1] |
| Engine.Recommend | src/ai_investor/decision/engine.py:110-139 | a held ticker is never BUY, is HOLD within 90 days, and after that is HOLD from 0.45, TRIM from 0.35 and EXIT below; a ticker not held is BUY iff the blend is ≥ 0.75 and HOLD otherwise |
| Engine.RecommendMonotone | src/ai_investor/decision/engine.py:110-139 | a higher blend never gives a more severe recommendation (BUY, HOLD, TRIM, EXIT in that order) |
| Engine.FirstBuyPasses | src/ai_investor/decision/engine.py:67-72 | lines that are neither malformed nor a BUY of the ticker with a ts are read through: the scan of `lines + rest` is the scan of `rest` |
| Engine.FirstBuyStable | src/ai_investor/decision/engine.py:62-75 | once the scan has found a first BUY (or failed), appending lines to the log does not change its answer |
| Engine.LoggedOtherPasses | src/ai_investor/decision/engine.py:69 | a logged thesis that is not a BUY of the ticker does not stop the scan |
| Engine.LoggedBuyIsFound | src/ai_investor/decision/engine.py:62-75 | after lines the scan reads through, the first logged BUY thesis of a ticker gives back the time it was logged |
| Engine.ThesisLineReads | src/ai_investor/decision/engine.py:69-70 | a logged thesis line is a JSON object, is a BUY of its ticker iff its recommendation is BUY, and carries its ts |
| Engine.IndexPositions | src/ai_investor/decision/engine.py:23 | every position's ticker is a key of the index, and every key is some position's ticker |
| Engine.IndexPositionsLastWins | src/ai_investor/decision/engine.py:23 | of several positions with one ticker, the dictionary keeps the last |
| Engine.Insights | src/ai_investor/decision/engine.py:146-153 | one insight per item, in order, each with its item's sentiment |
| Engine.InsightsOk | src/ai_investor/decision/engine.py:147-153 | the insights validate exactly when every item's headline, sentiment and summary are strings |
| Engine.TruthyValuesFilter | src/ai_investor/decision/engine.py:154-157 | the kept catalysts (or risks) are exactly the truthy ones |
| Engine.AsStrings | src/ai_investor/decision/models.py:31-32 | a `List[str]` field validates iff every value is a string, and then keeps them in order |
| Engine.CollectInsights | src/ai_investor/decision/engine.py:143-157 | the loop yields the insights, the truthy catalysts and the truthy risks in item order, and fails iff some insight does not validate |
| Engine.InsightsPrefixErr | src/ai_investor/decision/engine.py:147-153 | one invalid item makes the whole evaluation fail |
| Engine.DecisionEngine.constructor | src/ai_investor/decision/engine.py:21-26 | the engine indexes the positions by ticker and keeps the thesis log |
| Engine.DecisionEngine.ScoreQualitative | src/ai_investor/decision/engine.py:77-88 | the loop computes the qualitative score, which is 0.5 for no insights and lies in [0.25, 0.75] |
| Engine.DecisionEngine.FirstPurchaseDate | src/ai_investor/decision/engine.py:60-75 | a missing log gives None; otherwise the loop over the lines returns the first-BUY scan's answer |
| Engine.DecisionEngine.HoldingDays | src/ai_investor/decision/engine.py:102-107 | the holding period in days from the first purchase, 0 when none is found; a first purchase stamped with a UTC offset raises TypeError, since the naive current time cannot be subtracted from it |
| Engine.DecisionEngine.DeriveRecommendation | src/ai_investor/decision/engine.py:90-139 | the table applied to the blend and the holding period; a held ticker is never BUY and one not held is BUY or HOLD; a held ticker fails exactly when the holding-period lookup does, including the offset-stamped first purchase |
| Engine.PositionLine | src/ai_investor/decision/engine.py:166-169 | the position line fails exactly when the average price is present and None (a TypeError from `:.2f`); a missing quantity and average price read as 0 |
| Engine.RationaleLines | src/ai_investor/decision/engine.py:166-191 | the rationale has six lines, plus the holding period exactly for a held ticker whose first purchase is known; it names the ticker, says "Not currently held." exactly when the ticker is not held, and ends its sixth line with the blended conviction; it fails exactly on a held position with a null average price or a first purchase stamped with a UTC offset |
| Engine.DecisionEngine.Rationale | src/ai_investor/decision/engine.py:166-191 | the rationale text is the newline-join of those lines for the held position and the first purchase the log shows, and fails exactly on a held position with a null average price or an offset-stamped first purchase |
| Engine.DecisionEngine.Judge | src/ai_investor/decision/engine.py:159-203 | from the insights on, the thesis carries the three scores, their blend as conviction, the table's recommendation (never BUY when held), the catalysts and risks as text, and the rationale text; it succeeds exactly when the held position (if any) has a non-null average price, the holding-period lookup succeeds (it fails on an unreadable log record and on an offset-stamped first purchase) and the catalysts and risks are all text |
| Engine.DecisionEngine.Assess | src/ai_investor/decision/engine.py:164-191 | a held position without an average price fails on its line first; otherwise the step succeeds exactly when the table's recommendation can be derived (the holding-period lookup fails on an unreadable log record and on an offset-stamped first purchase), and then returns that recommendation, never BUY when held, with the rationale text |
| Engine.DecisionEngine.Evaluate | src/ai_investor/decision/engine.py:141-203 | the thesis is valid and carries the ticker, the insights of the summary, both scores, the conviction equal to the blend, the table's recommendation (never BUY when held), the truthy catalysts and risks, and the rationale text of its scores and position; it succeeds exactly when the news summary and every insight validate, the held position (if any) has a non-null average price, the holding-period lookup succeeds (it fails on an unreadable log record and on an offset-stamped first purchase) and the catalysts and risks are all text |
| Engine.MeanBounds | src/ai_investor/decision/engine.py:86-88 | a sum between n·lo and n·hi over a positive count has its mean between lo and hi |
| Engine.TruthyValues | src/ai_investor/decision/engine.py:154-157 | the kept values are never more than the values offered |
| Engine.TruthySnoc | src/ai_investor/decision/engine.py:154-157 | one more value is kept exactly when it is truthy |
| Engine.InsightsStep | src/ai_investor/decision/engine.py:147-153 | one more item extends the validated insights by its insight when its three fields are text, and fails otherwise |
| Engine.ItemStep | src/ai_investor/decision/engine.py:154-157 | one more item adds its catalyst and its risk exactly when each is truthy |
| AnalysisModels.CompanySnapshot.Fundamental | src/ai_investor/analysis/models.py:21-27 | the dividend yield and the P/E ratio (`DividendYield`, `PeRatio`) are each present exactly when the fundamentals hold their key, and are that entry |
| AnalysisModels.Snapshot | src/ai_investor/analysis/models.py:12-19 | a snapshot built from a ticker alone has no name, empty fundamentals, quote and notes, hence neither yield nor P/E |
| Approvals.CleanedAll | src/ai_investor/approvals/cli_gate.py:58 | every input line is stripped and lower-cased, one per line |
| Approvals.FirstAnswer | src/ai_investor/approvals/cli_gate.py:57-61 | the index found is the first line that reads y, n or s; when none is found no line does |
| Approvals.AnswerAt | src/ai_investor/approvals/cli_gate.py:57-61 | the answer is the first of the operator's lines that reads y, n or s after stripping and lower-casing; when there is none, no line does |
| Approvals.DecisionLabel | src/ai_investor/approvals/cli_gate.py:62-63 | the label is "approved" exactly for y, and always one of approved, rejected, skipped |
| Approvals.DecisionRecord | src/ai_investor/approvals/cli_gate.py:64-72 | the logged record has distinct keys and carries the decision label and the thesis ticker |
| Approvals.CliApprovalGateway.constructor | src/ai_investor/approvals/cli_gate.py:27-29 | the gateway reads the given input lines and writes to the given trade log |
| Approvals.CliApprovalGateway.Request | src/ai_investor/approvals/cli_gate.py:53-73 | the gateway consumes input up to the first y/n/s, returns the thesis with approved exactly for y and its label, and appends one stamped decision record; when the input runs out it raises EOFError and logs nothing |
| Approvals.CliApprovalGateway.ReadAnswer | src/ai_investor/approvals/cli_gate.py:57-61 | the prompt consumes the lines up to and including the first that reads y, n or s once stripped and lower-cased, and returns that answer; when no such line remains it consumes them all and reading fails |
| Approvals.FirstAnswerAt | src/ai_investor/approvals/cli_gate.py:57-63 | a recognised line with no recognised line before it is the answer |
| Approvals.SkipsUnrecognised | src/ai_investor/approvals/cli_gate.py:59-61 | unrecognised lines before the answer only shift its position; the answer itself is unchanged |
| Service.TickerSymbol | src/ai_investor/orchestration/service.py:41-42 | the symbol is truthy exactly when one of "code", "ticker", "symbol" is truthy, and it is always one of those three fields (the first truthy one, else the last) |
| Service.FloatOf | src/ai_investor/orchestration/service.py:53 | `float(price)` keeps a number, fails on null, lists and objects, and on a string succeeds exactly when the string parses as a float |
| Service.SideFor | src/ai_investor/orchestration/service.py:48-52 | BUY maps to "buy", EXIT to "sell", HOLD and TRIM to no order, each as an if-and-only-if |
| Service.Quantity | src/ai_investor/orchestration/service.py:53 | the order size is at least one share and is the largest whole number of shares that 1000 buys, when that is at least one |
| Service.ProposedOrderAsWritten | src/ai_investor/orchestration/service.py:44-59 | as written: no price or no side gives no order; the call fails exactly when a price and side exist and the price is unparsable or zero |
| Service.ZeroPriceAborts | src/ai_investor/orchestration/service.py:53 | a BUY thesis whose close and previous close are both 0.0 makes the proposal raise (division by zero) |
| Service.ProposedOrder | src/ai_investor/orchestration/service.py:44-59 | corrected: no price or no side gives no order; it fails only on an unparsable price; a proposed order carries the thesis ticker, the side, a quantity of at least one and at most what 1000 buys, and the converted non-zero price |
| Service.ProposedOrderAgrees | src/ai_investor/orchestration/service.py:44-59 | the corrected proposal agrees with the code as written wherever the latter returns, and differs only on the zero price, where it proposes no order |
| Service.VisitZeroPriceAborts | src/ai_investor/orchestration/service.py:85-93 | a BUY for an entry whose close and previous close are 0 keeps its thesis, asks no approval, reads no operator line, places no order and raises |
| Service.ReplayZeroPriceAborts | src/ai_investor/orchestration/service.py:84-110 | once the run reaches such an entry it raises, so no later entry is evaluated and no summary e-mail is sent |
| Service.OrderJson | src/ai_investor/orchestration/service.py:54-59 | the proposed order is recorded as None exactly when there is none, otherwise as an object with distinct keys holding its ticker and side |
| Service.AskReads | src/ai_investor/approvals/cli_gate.py:57-73 | the prompt raises EOFError exactly when none of the remaining lines reads y, n or s, and then records nothing; otherwise it consumes the lines up to the first answer, records that decision with the proposed order, and places the order exactly when the answer is y and an order was proposed |
| Service.ReplayWithoutAnswerAborts | src/ai_investor/orchestration/service.py:93-110 | when a BUY or EXIT thesis reaches the prompt after the operator's lines hold no more answers, the run ends with EOFError there, so no later entry is evaluated and no summary e-mail is sent |
| Service.TradeRecord | src/ai_investor/approvals/cli_gate.py:64-72 | the trade-log record of an answered request has distinct keys and carries its decision and ticker |
| Service.TradeLinesAppend | src/ai_investor/approvals/cli_gate.py:64-72 | one more answered request adds exactly its stamped record to the trade log |
| Service.ReplaySticky | src/ai_investor/orchestration/service.py:84-108 | once a step of the daily run raises (an unreadable entry, a failed evaluation, the proposal's division by a zero price, or the approval prompt reading past the operator's last line), later shortlist entries change nothing |
| Service.Named | src/ai_investor/orchestration/service.py:84-87 | the entries that get evaluated are a subsequence of the shortlist, each an object |
| Service.ReplayEvaluatesNamed | src/ai_investor/orchestration/service.py:84-94 | a run that does not raise produces one thesis per shortlist entry with a truthy symbol, in shortlist order, each the evaluation of that symbol against the theses logged before it, and asks for approval of exactly the BUY and EXIT theses, in order |
| Service.VisitRecords | src/ai_investor/orchestration/service.py:85-93 | one shortlist entry appends at most one thesis and never drops recorded theses, requests or orders |
| Service.ProposeRecords | src/ai_investor/orchestration/service.py:93-108 | when neither the proposal as written nor the approval prompt raises, the theses are kept and an answered approval request is added exactly when the thesis is BUY or EXIT |
| Service.ActionableSnoc | src/ai_investor/orchestration/service.py:94 | the actionable theses of a longer list are the old ones plus the new thesis when it is BUY or EXIT |
| Service.GatedKept | src/ai_investor/orchestration/service.py:95-96 | the gate invariant (every order answers a request the operator approved) survives any step that adds neither requests nor orders |
| Service.VisitGated | src/ai_investor/orchestration/service.py:84-108 | processing one shortlist entry keeps the gate invariant |
| Service.ProposeGated | src/ai_investor/orchestration/service.py:93-108 | the proposal as written, the approval prompt and the order placed keep the gate invariant, including when the proposal or the prompt raises |
| Service.GatedAsk | src/ai_investor/orchestration/service.py:95-105 | an order placed only when the operator approved a non-empty proposal keeps every order tied to an approved, actionable request |
| Service.ReplayOrdersApproved | src/ai_investor/orchestration/service.py:84-108 | over a whole run, every order sent to the broker was proposed for a BUY or EXIT thesis and approved by the operator at the prompt |
| Service.LogLinesAppend | src/ai_investor/orchestration/service.py:91 | appending one thesis to the run appends exactly its stamped log line to the thesis log |
| Service.Group | src/ai_investor/orchestration/service.py:137-140 | a recommendation group holds exactly the theses with that recommendation |
| Service.SummaryEmail | src/ai_investor/orchestration/service.py:121-200 | an email is composed exactly when there is at least one thesis |
| Service.GroupsPartition | src/ai_investor/orchestration/service.py:137-140 | the four groups together have as many theses as the run |
| Service.BuyOrderFacts | src/ai_investor/orchestration/service.py:147 | the BUY section lists the BUY theses by descending conviction, as a permutation, keeping equal-conviction theses in their original order |
| Service.ExitOrderFacts | src/ai_investor/orchestration/service.py:161 | the EXIT section lists the EXIT theses by ascending conviction, as a permutation, with ties in original order |
| Service.ShownHoldsFacts | src/ai_investor/orchestration/service.py:174 | at most five HOLD theses are shown, all HOLD, and none left out has a higher conviction than one shown |
| Service.DailyOrchestrator.constructor | src/ai_investor/orchestration/service.py:33-39 | the orchestrator writes to the thesis log and asks the approval gateway it is given |
| Service.DailyOrchestrator.Run | src/ai_investor/orchestration/service.py:61-110 | the run's state is the replay of the shortlist against the operator's lines, the gateway is left with the lines not read, the thesis log grows by one stamped line per evaluated thesis, the trade log by one stamped record per answered request, and the email is the summary of the theses unless a step raised (including the zero-price division and the prompt's EOFError) |
| Service.DailyOrchestrator.Step | src/ai_investor/orchestration/service.py:84-108 | one loop iteration moves to the next replay state and keeps the gateway's input, the thesis log and the trade log in step with it |
| Service.DailyOrchestrator.LogThesis | src/ai_investor/orchestration/service.py:91 | logging a thesis appends its stamped line to the log file |
| Service.DailyOrchestrator.ProposeOrder | src/ai_investor/orchestration/service.py:93-108 | the proposal and the gateway's request yield the state the gated specification describes: the proposal's ZeroDivisionError and the prompt's EOFError end the run, and an answered request appends its trade-log record |
| Service.SendSummaryEmail | src/ai_investor/orchestration/service.py:121-200 | the email built line by line is the summary specification |
| Service.FormatBuys | src/ai_investor/orchestration/service.py:142-153 | the loop builds the BUY section of the summary |
| Service.FormatExits | src/ai_investor/orchestration/service.py:155-166 | the loop builds the EXIT section of the summary |
| Service.FormatHolds | src/ai_investor/orchestration/service.py:168-178 | the loop builds the HOLD section, top five only |
| Service.FormatTrims | src/ai_investor/orchestration/service.py:180-186 | the loop builds the TRIM section |
| Nordnet.FindIndex | src/ai_investor/broker/nordnet_client.py:112-114 | the index found is the first position with the ticker; none is found only when no position has it |
| Nordnet.BoughtHeldBook | src/ai_investor/broker/nordnet_client.py:115-122 | a buy of a held ticker whose quantities do not sum to zero is the single in-place update of that position's quantity and average price |
| Nordnet.BuyHeld | src/ai_investor/broker/nordnet_client.py:111-122 | buying a held ticker adds the quantity, makes the average price the quantity-weighted average of old and new shares, and changes no other position or field |
| Nordnet.BuyNew | src/ai_investor/broker/nordnet_client.py:123-135 | buying a ticker not held appends one position at the order price with zero profit and loss, after the unchanged others |
| Nordnet.SellHeld | src/ai_investor/broker/nordnet_client.py:136-143 | selling a held ticker leaves max(0, held - sold) shares and removes the position exactly when none are left, keeping the others in order |
| Nordnet.OtherOrdersKeepBook | src/ai_investor/broker/nordnet_client.py:110-145 | selling a ticker not held, or a side that is neither buy nor sell in any case, leaves the book unchanged |
| Nordnet.ApplyOrderKeepsTickersUnique | src/ai_investor/broker/nordnet_client.py:110-143 | no mock order makes a ticker appear twice in the book |
| Nordnet.NordnetClient.constructor | src/ai_investor/broker/nordnet_client.py:19-28 | a new client is unauthenticated, with an empty mock book and the given mode |
| Nordnet.NordnetClient.Authenticate | src/ai_investor/broker/nordnet_client.py:30-42 | in mock mode the client becomes authenticated; otherwise it raises NotImplementedError and changes nothing; the book is untouched |
| Nordnet.NordnetClient.ListPositions | src/ai_investor/broker/nordnet_client.py:44-78 | in mock mode the book is reset to, and returns, the two fixed AAPL and MSFT positions; otherwise it raises and keeps the book |
| Nordnet.NordnetClient.FindPosition | src/ai_investor/broker/nordnet_client.py:112-114 | the search loop returns the first position with the ticker, as specified |
| Nordnet.NordnetClient.PlaceOrder | src/ai_investor/broker/nordnet_client.py:80-147 | in mock mode the client authenticates, the book becomes the order's effect on it, and the details carry the MOCK id, the total value quantity times price and status "simulated", unless the buy divided by zero; otherwise it raises |
| Nordnet.NordnetClient.Book | src/ai_investor/broker/nordnet_client.py:110-143 | the in-place book update matches the order's specified effect |
| Nordnet.NordnetClient.Buy | src/ai_investor/broker/nordnet_client.py:111-135 | the in-place buy matches the specified buy effect |
| Nordnet.NordnetClient.Sell | src/ai_investor/broker/nordnet_client.py:136-143 | the in-place sell matches the specified sell effect |
| Nordnet.FindIndexAt | src/ai_investor/broker/nordnet_client.py:112-114 | a position with the ticker and none before it is the one found |
| Shortlist.CacheFile.Missing | src/ai_investor/shortlist/pipeline.py:29-30 | a missing cache file has no content |
| Shortlist.CacheFile.Holding | src/ai_investor/shortlist/pipeline.py:31-35 | a present cache file holds the given decoded content, or none when it does not decode |
| Shortlist.CacheValue | src/ai_investor/shortlist/pipeline.py:28-35 | a missing or corrupted cache reads as no tickers and no last refresh; otherwise as its decoded content |
| Shortlist.UniverseOrderIsPreorder | src/ai_investor/shortlist/pipeline.py:58-64 | the sort key (average volume, then market cap, both descending, each `or 0`) is a total preorder |
| Shortlist.Magnitude | src/ai_investor/shortlist/pipeline.py:60-63 | `item.get(key, 0) or 0` counts a missing or falsy value as 0, `True` as 1 and a number as itself; a non-object item raises AttributeError and a truthy text, list or object raises TypeError |
| Shortlist.UniverseError | src/ai_investor/shortlist/pipeline.py:58-64 | `sorted` raises exactly when some item's key cannot be computed, and then with the error of the first such item |
| Shortlist.FalsyVolumesRankAsZero | src/ai_investor/shortlist/pipeline.py:60-63 | "", [], `False` rank as no volume, `True` as a volume of 1, and a truthy text volume raises |
| Shortlist.SliceEnd | src/ai_investor/shortlist/pipeline.py:65 | the slice `[:target_size]` ends at min(target size, length) for a non-negative size |
| Shortlist.SelectedFacts | src/ai_investor/shortlist/pipeline.py:58-65 | the shortlist has min(target size, universe size) entries, is sorted by the key, is drawn from the universe, and ranks every selected entry at least as high as every entry left out |
| Shortlist.ShortlistPipeline.constructor | src/ai_investor/shortlist/pipeline.py:20-26 | the pipeline keeps its target size, refresh period, exchange and cache file |
| Shortlist.ShortlistPipeline.Load | src/ai_investor/shortlist/pipeline.py:28-35 | loading returns the cache value of the file |
| Shortlist.ShortlistPipeline.Save | src/ai_investor/shortlist/pipeline.py:37-42 | saving writes the tickers and the ISO refresh time to the cache file |
| Shortlist.ShortlistPipeline.NeedsRefresh | src/ai_investor/shortlist/pipeline.py:44-52 | a missing or falsy last refresh, or one that is not ISO text, needs a refresh; a timestamp with a UTC offset raises TypeError; otherwise a refresh is needed exactly when at least the refresh period in days has passed; a cache that is not an object raises |
| Shortlist.ShortlistPipeline.Refresh | src/ai_investor/shortlist/pipeline.py:54-67 | when every universe item has a computable sort key, a refresh returns, and writes to the cache, the selected shortlist with the refresh time; otherwise it raises the first item's key error and leaves the cache file untouched |
| Shortlist.ShortlistPipeline.EnsureShortlist | src/ai_investor/shortlist/pipeline.py:69-74 | a fresh cache is returned as loaded and the file is untouched; a stale one is replaced by a refresh, whose key error is passed on with the file untouched; an error deciding freshness is passed on |
| Shortlist.ShortlistPipeline.SavedCacheFreshness | src/ai_investor/shortlist/pipeline.py:37-52 | a cache just saved at a time is stale at a later time exactly when the refresh period has passed since then |
| Tools.Syms | src/ai_investor/tooling/tools.py:144 | each entry's symbol, upper-cased and trimmed, in order |
| Tools.NormalizeTickers | src/ai_investor/tooling/tools.py:140-149 | the loop with its seen set returns the normalised tickers |
| Tools.DedupStep | src/ai_investor/tooling/tools.py:143-148 | one loop step keeps a symbol exactly when it is non-empty and not yet seen |
| Tools.DedupSnoc | src/ai_investor/tooling/tools.py:143-148 | one more symbol is appended exactly when it is non-empty and new |
| Tools.DedupFacts | src/ai_investor/tooling/tools.py:140-149 | the kept symbols are distinct, non-empty, and exactly the non-empty input symbols |
| Tools.DedupPrefix | src/ai_investor/tooling/tools.py:140-149 | first-occurrence order: what is kept from a prefix of the input is a prefix of the output |
| Tools.DedupDistinct | src/ai_investor/tooling/tools.py:140-149 | distinct non-empty symbols are kept as they are |
| Tools.SymFixed | src/ai_investor/tooling/tools.py:144 | a symbol is upper case and has no surrounding whitespace |
| Tools.NormalizedFacts | src/ai_investor/tooling/tools.py:140-149 | the normalised tickers are distinct, upper case, trimmed, and exactly the non-empty normalised forms of the input |
| Tools.NormalizeIdempotent | src/ai_investor/tooling/tools.py:140-149 | normalising the normalised tickers changes nothing |
| Tools.MetricsOf | src/ai_investor/tooling/tools.py:88-107 | metrics are obtained exactly when the fundamentals or the end-of-day fallback succeed, with source "fundamentals" or "end_of_day", the latter only after the fundamentals failed |
| Tools.FetchTickerPayload | src/ai_investor/tooling/tools.py:71-137 | the payload carries the normalised ticker; success is true when metrics were not asked for and otherwise exactly when they were obtained; a failure sets metrics_error and error; each optional fetch sets its data or its own error key and nothing else, with the news limit raised to at least 0; the call raises, with no payload, exactly when news was asked for and the news call raised something other than a provider error |
| Tools.AddMetrics | src/ai_investor/tooling/tools.py:88-107 | the metrics step changes only the metrics keys: data and source on success, the error otherwise |
| Tools.AddEstimates | src/ai_investor/tooling/tools.py:109-114 | the estimates step merges the three tables or sets estimates_error, and changes no other key |
| Tools.AddGrowth | src/ai_investor/tooling/tools.py:116-120 | the growth step sets the figures or growth_estimates_error and changes no other key |
| Tools.AddNews | src/ai_investor/tooling/tools.py:122-128 | the news step fetches with limit max(limit, 0) and sets the items or, on a provider error, news_error, changing no other key; any other exception of the news call (a blank symbol's ValueError, an article's validation error) escapes |
| Tools.NormalizedSym | src/ai_investor/tooling/tools.py:140-149 | a normalised ticker normalises to itself |
| Tools.FirstRaised | src/ai_investor/tooling/tools.py:284 | the first symbol whose news call raises, with none before it raising, or none when no news call raises |
| Tools.FirstRaisedAt | src/ai_investor/tooling/tools.py:284 | a symbol whose news call raises, with none before it raising, is the one the gathered call raises for |
| Tools.FetchMultipleTickerDetails | src/ai_investor/tooling/tools.py:254-285 | one payload per normalised ticker, in order, each with metrics and news fetched and the news limit clamped at 0; the gathered call raises exactly when some ticker's news call raises other than a provider error, with the first such ticker's exception |
| Tools.Fetch | src/ai_investor/tooling/tools.py:270-280 | the payload of one normalised symbol with metrics and news asked for: it raises exactly when the news call raises, with that exception, and otherwise carries the symbol, the metrics outcome, the estimates and growth errors only when asked for, and the news or the news error |
| Tools.AlnumOf | src/ai_investor/tooling/tools.py:319 | the letters and digits of a text, and nothing else |
| Tools.SanitizeName | src/ai_investor/tooling/tools.py:316-319 | a non-text name sanitises to ""; a sanitised name holds only upper-case letters and digits |
| Tools.MarketCap | src/ai_investor/tooling/tools.py:380-383 | the market cap is `marketCap` (or `marketcap` when that is falsy) as a float; only when that is missing and `marketCapInMillions` is present, it is that value times a million; it is missing exactly when both reads fail |
| Tools.ListingOf | src/ai_investor/tooling/tools.py:362-390 | a hit contributes only when its ticker or symbol is text, and its listing carries the coerced market cap or 0 |
| Tools.ListingOfAsWritten | src/ai_investor/tooling/tools.py:362-380 | as written, a hit raises NameError exactly when the intended loop would keep a listing for it, and otherwise contributes nothing |
| Tools.AcceptedAsWrittenRaises | src/ai_investor/tooling/tools.py:362-388 | as written, the hit loop raises exactly when some hit is accepted, and finishes only with no listing |
| Tools.FirstHitRaises | src/ai_investor/tooling/tools.py:380 | with nothing to match against, one hit with a text ticker makes the update raise |
| Tools.Lookup | src/ai_investor/tooling/tools.py:355 | the position found holds the symbol; none is found only when no entry has it |
| Tools.EntryAt | src/ai_investor/tooling/tools.py:355-356 | in a keyed table each entry is the one found for its symbol |
| Tools.MaybeAddEntry | src/ai_investor/tooling/tools.py:351-360 | adding keeps the symbols distinct and non-empty, changes only the added symbol's entry, and keeps the larger market cap there, the earlier entry on a tie |
| Tools.KeptFacts | src/ai_investor/tooling/tools.py:351-360 | a symbol has an entry exactly when some listing has it; the entry is a listing of that symbol with the largest cap, and every earlier such listing has a smaller cap |
| Tools.KeptLast | src/ai_investor/tooling/tools.py:357-358 | a last listing that displaces the kept one is the first with the largest cap |
| Tools.KeptEarlier | src/ai_investor/tooling/tools.py:357-358 | a kept listing that the last one does not displace stays the first with the largest cap |
| Tools.MergeKeeps | src/ai_investor/tooling/tools.py:362-390 | the merged table is keyed and holds, for each symbol, the first listing with the largest market cap |
| Tools.TermList | src/ai_investor/tooling/tools.py:340-343 | the gathered term list holds exactly the search terms |
| Tools.TrimmedTerms | src/ai_investor/tooling/tools.py:340 | the trimmed list holds exactly the trimmed non-blank candidates |
| Tools.Uniq | src/ai_investor/tooling/tools.py:340-346 | dropping repeats keeps exactly the same terms |
| Tools.OrderedTermsFacts | src/ai_investor/tooling/tools.py:346 | the terms are searched once each, in sorted order |
| Tools.Search | src/ai_investor/tooling/tools.py:334-347 | the search loop gathers every term's hits in term order, a failed search adding none |
| Tools.Gather | src/ai_investor/tooling/tools.py:362-390 | corrected (see "## Findings", tools.py:380): the hit loop leaves the merge of the accepted listings; as written the first accepted hit raises NameError instead, as Tools.AcceptedAsWrittenRaises states |
| Tools.AddDirect | src/ai_investor/tooling/tools.py:392-395 | the merged entries are kept first, and every direct candidate symbol gets an entry, new ones with market cap 0 |
| Tools.SymbolsOf | src/ai_investor/tooling/tools.py:438 | the shortlist's symbols, one per picked entry |
| Tools.RowsOf | src/ai_investor/tooling/tools.py:439-446 | one selection-details row per picked entry |
| Tools.ScanBounds | src/ai_investor/tooling/tools.py:408-425 | the selection takes at most the cap and evaluates at most one payload per entry |
| Tools.ScanPicks | src/ai_investor/tooling/tools.py:408-438 | every pick is an accepted entry with a symbol not seen before, and no symbol is picked twice |
| Tools.ScanComplete | src/ai_investor/tooling/tools.py:408-438 | a selection that stops short of the cap has picked every accepted symbol it was not told to skip |
| Tools.ScanRanked | src/ai_investor/tooling/tools.py:397-438 | from entries ranked by market cap, the picks keep non-increasing market cap |
| Tools.ScanAdvance | src/ai_investor/tooling/tools.py:408-438 | one entry of the loop: a seen symbol is skipped without a fetch; a new one is fetched and picked exactly when accepted |
| Tools.ScanTail | src/ai_investor/tooling/tools.py:408-438 | one loop step keeps the picks and the count in step with the whole selection |
| Tools.Names | src/ai_investor/tooling/tools.py:403 | the shortlist built one entry at a time has one symbol per pick |
| Tools.NamesAreSymbols | src/ai_investor/tooling/tools.py:403-438 | the symbols appended one by one are the picks' symbols |
| Tools.NamesSnoc | src/ai_investor/tooling/tools.py:438 | appending a pick appends its symbol |
| Tools.RowsSnoc | src/ai_investor/tooling/tools.py:439-446 | appending a pick appends its row |
| Tools.Vet | src/ai_investor/tooling/tools.py:417-436 | a symbol is accepted exactly when its metrics-only fetch succeeds with non-empty metrics the screener accepts, and its row is read from those metrics |
| Tools.Select | src/ai_investor/tooling/tools.py:403-446 | the loop returns the selection's symbols, their rows and the number of payloads fetched |
| Tools.Uppers | src/ai_investor/data_access.py:38 | every ticker upper-cased, in order |
| Tools.Decoded | src/ai_investor/data_access.py:32-38 | loading succeeds exactly when the file holds a list, with one ticker per item |
| Tools.Encoded | src/ai_investor/data_access.py:41-46 | saving writes a list with one item per ticker |
| Tools.SavedLoads | src/ai_investor/data_access.py:32-46 | loading a saved shortlist gives back the tickers upper-cased, and saving them again changes nothing |
| Tools.ShortlistStore.constructor | src/ai_investor/data_access.py:44 | the store starts with the given file content |
| Tools.ShortlistStore.Save | src/ai_investor/data_access.py:41-46 | after saving, the file holds the encoded tickers |
| Tools.ExistingOf | src/ai_investor/tooling/tools.py:325-329 | the existing shortlist is empty when not included or when it cannot be loaded |
| Tools.ShortlistFacts | src/ai_investor/tooling/tools.py:397-446 | the shortlist has at most max_companies symbols, none twice, each an accepted entry, in non-increasing market-cap order, with at most one fetch per entry; a shorter shortlist holds every accepted entry |
| Tools.UpdateTickerShortlist | src/ai_investor/tooling/tools.py:288-455 | corrected (see "## Findings", tools.py:380): a non-positive cap is refused and nothing is saved; otherwise the outcome is the selection from the ranked, completed merge of the search hits, and the saved file holds the shortlist; as written any accepted hit raises NameError and nothing is saved, as Tools.AcceptedAsWrittenRaises states |
| Screener.NormalizeKeywords | src/ai_investor/services/screener.py:11-12 | the cache holds the stripped, lower-cased form of every keyword that is not blank, and nothing else |
| Screener.LowerCharFacts | src/ai_investor/services/screener.py:12 | lower-casing a character keeps it a space or a non-space and is idempotent |
| Screener.NormalizedKeyword | src/ai_investor/services/screener.py:12 | a normalised keyword is non-empty, lower case and has no surrounding space |
| Screener.NormalizedKeywordsClean | src/ai_investor/services/screener.py:27-28 | every cached keyword is normalised |
| Screener.NonEmpty | src/ai_investor/services/screener.py:58-66 | `filter(None, ...)` keeps exactly the non-empty parts |
| Screener.Flag | src/ai_investor/services/screener.py:40-56 | a check appends its reason exactly when its condition holds |
| Screener.ThresholdReasons | src/ai_investor/services/screener.py:39-56 | each threshold reason is present exactly when its condition holds: market cap missing or below the minimum, P/E or forward P/E above their maxima, both P/Es missing, beta above the maximum, a required dividend missing or not positive; no other reason appears |
| Screener.SizeAndValuationReasons | src/ai_investor/services/screener.py:39-48 | the market-cap, P/E, forward P/E and missing-P/E reasons, each present exactly when its condition holds, and no other reason |
| Screener.RiskReasons | src/ai_investor/services/screener.py:50-56 | the beta and dividend reasons, each present exactly when its condition holds, and no other reason |
| Screener.NotSectorReason | src/ai_investor/services/screener.py:71 | a reason not starting with 'e' is not an excluded-sector reason |
| Screener.ThresholdsNotSector | src/ai_investor/services/screener.py:39-56 | no threshold reason is an excluded-sector reason |
| Screener.TickerScreener.constructor | src/ai_investor/services/screener.py:15-28 | the screener keeps the given thresholds (defaults 10 billion, 35, 35, 1.4, dividend required, five keywords) and caches their normalised keywords |
| Screener.TickerScreener.CheckThresholds | src/ai_investor/services/screener.py:39-56 | the step-by-step checks give the threshold reasons in source order |
| Screener.TickerScreener.FindExcluded | src/ai_investor/services/screener.py:69-72 | a keyword found is cached, non-empty and occurs in the sector text; when none is found no cached keyword occurs |
| Screener.TickerScreener.Evaluate | src/ai_investor/services/screener.py:30-74 | a ticker is a candidate exactly when there is no reason; invalid metrics give the single invalid_metrics reason; otherwise the threshold reasons followed by at most one excluded-sector reason, present exactly when some cached keyword occurs in the sector text |
| Scoring.FilteredMembers | src/ai_investor/analysis/scoring.py:29-38 | the candidates kept are exactly the companies with a yield at least the minimum and a P/E at most the maximum, and no company is kept more often than it occurs |
| Scoring.Score | src/ai_investor/analysis/scoring.py:45-48 | a company with neither yield nor P/E scores minus max P/E over max(max P/E, 1) |
| Scoring.RankedFacts | src/ai_investor/analysis/scoring.py:40-51 | the ranking is a permutation of the companies, by non-increasing score, with equal scores kept in input order (stable sort) |
| Scoring.Decision | src/ai_investor/analysis/scoring.py:63-78 | a company not held (absent or a size at most 0) gets "buy" with weight delta 0.05, otherwise "reassess_hold" with 0.0, with the company's ticker and the heuristic rationale |
| Scoring.CappedLength | src/ai_investor/analysis/scoring.py:79-80 | the loop stops after min(n, max positions) decisions for a positive cap, and after exactly one when the cap is below 1 and there is a company, since the cap is checked after appending |
| Scoring.FundamentalAnalyzer.constructor | src/ai_investor/analysis/scoring.py:17-23 | the analyzer keeps the given thresholds, 0.02 and 30.0 by default |
| Scoring.FundamentalAnalyzer.FilterCandidates | src/ai_investor/analysis/scoring.py:25-38 | the loop returns the filtered companies in input order |
| Scoring.FundamentalAnalyzer.Rank | src/ai_investor/analysis/scoring.py:40-51 | the loop and sort return the ranking specification |
| Scoring.FundamentalAnalyzer.ProposeActions | src/ai_investor/analysis/scoring.py:53-81 | the decisions are the first capped-length companies' decisions, in rank order |
| Models.MakeHolding | src/ai_investor/models.py:11-16 | a holding is accepted exactly when shares and average cost are non-negative and a target weight, if given, lies in [0, 1], and is then the record as given |
| Models.MakePortfolio | src/ai_investor/models.py:19-22 | a portfolio is accepted exactly when the currency (default "USD") has three characters and the funds (default 0) are non-negative; the result keeps the holdings and the defaults |
| Models.DefaultPortfolio | src/ai_investor/models.py:19-22 | a portfolio built with no arguments is USD with 0 funds and no holdings |
| Models.FloatField | src/ai_investor/models.py:30-37 | an absent or null optional float field is None and a number is kept as given |
| Models.NonNegativeField | src/ai_investor/models.py:30-34 | a field constrained to be at least 0 is accepted only as None or a non-negative number, and then equals the plain float field |
| Models.StringField | src/ai_investor/models.py:27-29 | an absent or null optional string field is None; a string is kept as given |
| Models.ValidateMetrics | src/ai_investor/models.py:25-39 | validated metrics satisfy every field constraint, come from an object whose "ticker" is the ticker string, and carry the given numeric fields; a non-object is refused |
| Models.NegativeMarketCapRefused | src/ai_investor/models.py:31 | a negative market cap fails validation |
| Models.LabelsDistinct | src/ai_investor/models.py:53 | the five fear-greed rating labels are pairwise distinct |
| Eodhd.CoerceFloat | src/ai_investor/integrations/eodhd.py:19-25 | None, "" and "None" give no value, as do lists and objects; numbers are kept, booleans become 1.0 or 0.0, and other strings parse or give no value |
| Eodhd.Best | src/ai_investor/integrations/eodhd.py:41-50 | the kept position, if any, lies within the entries |
| Eodhd.BestFacts | src/ai_investor/integrations/eodhd.py:41-50 | the kept entry has the largest integer count, is the first entry with that count, and is never negative; no entry is kept exactly when no count is 0 or more |
| Eodhd.ExtractRating | src/ai_investor/integrations/eodhd.py:35-53 | the loop returns the rating specification |
| Eodhd.RatingIsArgmax | src/ai_investor/integrations/eodhd.py:35-53 | a rating is the title-cased, underscore-free name of an entry whose count is non-negative and at least every other count |
| Eodhd.NormalizeSymbol | src/ai_investor/integrations/eodhd.py:56-60 | the symbol is trimmed and upper-cased, and one trailing ".US" is removed; the result is upper case |
| Eodhd.NormalizeListed | src/ai_investor/integrations/eodhd.py:56-60 | an upper-case symbol with ".US" appended normalises back to itself |
| Eodhd.NormalizeNormal | src/ai_investor/integrations/eodhd.py:56-60 | a trimmed upper-case symbol without ".US" is left unchanged |
| PortfolioService.HoldingNotes | src/ai_investor/services/portfolio.py:37-65 | the rationale of a holding with metrics has at least one note and no empty note |
| PortfolioService.HoldingAdvice | src/ai_investor/services/portfolio.py:24-72 | no metrics gives watch/low; with metrics the action is trim/medium exactly when the forward P/E is truthy and above 32, otherwise hold, with low conviction exactly when beta is truthy and above 1.4; never buy, never high, always a non-empty rationale for the holding's ticker |
| PortfolioService.JoinNonEmpty | src/ai_investor/services/portfolio.py:71 | joining a non-empty list of non-empty notes with spaces gives a non-empty rationale |
| PortfolioService.Kept | src/ai_investor/services/portfolio.py:82-87 | every ticker kept has metrics |
| PortfolioService.KeptMembers | src/ai_investor/services/portfolio.py:81-87 | the tickers considered are exactly the shortlisted ones that are not held and have metrics |
| PortfolioService.OpportunityNotes | src/ai_investor/services/portfolio.py:91-108 | an opportunity's rationale has at least one note and no empty note |
| PortfolioService.Opportunity | src/ai_investor/services/portfolio.py:89-117 | the opportunity is buy/medium exactly when the forward P/E is truthy and at most 28, otherwise watch/low, for the given ticker with a non-empty rationale |
| PortfolioService.HeldTickers | src/ai_investor/services/portfolio.py:81 | the held set is exactly the tickers of the portfolio's holdings |
| PortfolioService.PortfolioAnalyzer.constructor | src/ai_investor/services/portfolio.py:11-15 | the analyzer keeps the given portfolio |
| PortfolioService.PortfolioAnalyzer.EvaluateSingle | src/ai_investor/services/portfolio.py:24-72 | the step-by-step evaluation of one holding gives the specified advice |
| PortfolioService.PortfolioAnalyzer.EvaluateHoldings | src/ai_investor/services/portfolio.py:17-22 | one recommendation per holding, in holding order, each the advice for that holding and its metrics |
| PortfolioService.PortfolioAnalyzer.SpotOpportunities | src/ai_investor/services/portfolio.py:74-119 | one opportunity per kept shortlisted ticker, in shortlist order |
| Advice.SummarizeStrategy | src/ai_investor/services/advice.py:45-49 | blank strategy text gives the fallback sentence; otherwise the summary is the first eight lines of the stripped text joined by newlines |
| Advice.HoldingLines | src/ai_investor/services/advice.py:52-55 | one summary line per holding, in portfolio order |
| Advice.SummarizePortfolio | src/ai_investor/services/advice.py:51-61 | the overview always starts with the currency, the funds to two decimals and the holdings header, followed by the holding lines or the no-holdings sentence |
| Advice.BuyTargets | src/ai_investor/services/advice.py:70-72 | the buy targets are exactly the shortlist recommendations whose action is buy and whose conviction is not low |
| Advice.BuyTargetsConcat | src/ai_investor/services/advice.py:70-72 | the targets of a concatenation are the targets of each part, in order |
| Advice.BuyTargetsSingle | src/ai_investor/services/advice.py:70-72 | one recommendation yields itself exactly when it is a buy target, so together with the concatenation the targets keep the recommendations' order |
| Advice.Tickers | src/ai_investor/services/advice.py:76 | the tickers of the targets, one per target, in order |
| Advice.CashPlan | src/ai_investor/services/advice.py:63-80 | no plan exactly when funds are not positive; hold cash with an empty shortlist; maintain cash when no recommendation is a buy target; otherwise the deploy sentence over the buy targets |
| Advice.Build | src/ai_investor/services/advice.py:34-43 | the report carries the given time, fear-greed reading and both recommendation lists unchanged, the two summaries, and a cash plan exactly when funds are positive |
| Advice.Block | src/ai_investor/services/advice.py:91-101 | each block starts with the ticker, the arrow and the upper-cased action |
| Advice.Blocks | src/ai_investor/services/advice.py:90-101 | one block per recommendation, in order |
| Advice.FormatRecommendationSummary | src/ai_investor/services/advice.py:83-102 | the loop's text is the blocks joined by blank lines |
| Advice.SummaryAppend | src/ai_investor/services/advice.py:98-102 | one more recommendation extends the summary by a blank line and its block |
| Advice.JoinAppend | src/ai_investor/services/advice.py:102 | joining one more part appends the separator and that part |
| ClaudeAgent.Texts | src/ai_investor/agents/claude_agent.py:151-154 | the texts of the blocks that have text, at most one per block |
| ClaudeAgent.ToolUses | src/ai_investor/agents/claude_agent.py:144-147 | the tool-use blocks, in order; none exactly when no block is a tool-use block |
| ClaudeAgent.ExecuteTools | src/ai_investor/agents/claude_agent.py:169-210 | one tool result and one tool-call entry per request, in request order; each result carries its request's id and is error-flagged iff the tool failed, and each entry records the tool, its input and its outcome |
| ClaudeAgent.Step | src/ai_investor/agents/claude_agent.py:123-227 | an iteration that goes on advances the counter by exactly one |
| ClaudeAgent.RunWithTools | src/ai_investor/agents/claude_agent.py:90-236 | the loop computes the run of the bounded loop from the initial message, and the reported iterations lie between 0 and max_iterations (0 when that is ≤ 0) |
| ClaudeAgent.AllUsesAppend | src/ai_investor/agents/claude_agent.py:141 | appending a message adds its tool-use requests, and only an assistant message has any |
| ClaudeAgent.AnswersAppend | src/ai_investor/agents/claude_agent.py:213-218 | a tool-results message that answers the assistant message before it keeps every results message answering its request |
| ClaudeAgent.CallsMatchAppend | src/ai_investor/agents/claude_agent.py:189-210 | tool-call entries that match their requests still match after more entries for more requests are appended |
| ClaudeAgent.StepKeepsBetween | src/ai_investor/agents/claude_agent.py:136-218 | an iteration that goes on adds one assistant message and one results message answering it, and one tool-call entry per request |
| ClaudeAgent.RunFromEnding | src/ai_investor/agents/claude_agent.py:123-236 | every run ends DONE (the last message has no tool use and the content is the "\n"-join of its texts), ERROR (content prefixed "Agent encountered an error: "), or exhausted after max_iterations; the conversation and the tool calls only grow |
| ClaudeAgent.DoneEnding | src/ai_investor/agents/claude_agent.py:149-227 | an iteration that ends the run leaves a conversation of the stated shape and keeps every earlier message and tool call |
| ClaudeAgent.RunWithToolsEnding | src/ai_investor/agents/claude_agent.py:111-236 | from the initial user message every run has that shape, and an exhausted run reports max_iterations iterations (0 when max ≤ 0) |
| ClaudeAgent.Payloads | src/ai_investor/agents/claude_agent.py:28-36 | one payload per article, in order; an article that is not a mapping raises |
| ClaudeAgent.ItemDefaults | src/ai_investor/agents/claude_agent.py:76-84 | a missing sentiment reads as "neutral", a missing headline or summary as "", and a missing catalyst or risk as None |
| ClaudeAgent.ObjectItems | src/ai_investor/agents/claude_agent.py:73-84 | the filter keeps at most one item per parsed value |
| ClaudeAgent.ObjectItemsOnlyObjects | src/ai_investor/agents/claude_agent.py:73-75 | nothing is kept when no value is a mapping, one item per value when all are, and every kept item is built from a mapping |
| ClaudeAgent.ObjectItemsConcat | src/ai_investor/agents/claude_agent.py:73-84 | filtering a concatenation is filtering each part |
| ClaudeAgent.KeepObjects | src/ai_investor/agents/claude_agent.py:72-85 | the loop keeps exactly the mapping items, in order |
| ClaudeAgent.SummarizeNews | src/ai_investor/agents/claude_agent.py:25-88 | the summary: no articles give [] without calling the model; a model answer that is empty or not JSON gives []; otherwise the mapping items |
| McpTools.Lookup | src/ai_investor/agents/mcp_tools.py:167-175 | a name the map knows leads to the tool of that name |
| McpTools.LookupClosed | src/ai_investor/agents/mcp_tools.py:167-180 | the map is closed: exactly the seven names are found |
| McpTools.LookupRoundTrip | src/ai_investor/agents/mcp_tools.py:167-175 | every tool is found under its own name |
| McpTools.SchemaJson | src/ai_investor/agents/mcp_tools.py:8-148 | every schema is an object with name, description and an input_schema object holding type, properties and required |
| McpTools.SchemaMatchesHandler | src/ai_investor/agents/mcp_tools.py:8-218 | the i-th schema names the i-th tool of the map, its properties are the handler's keyword parameters in order, a parameter is required iff it has no default, and every required name is a property |
| McpTools.SchemasNameTheTools | src/ai_investor/agents/mcp_tools.py:8-175 | the schema list and the handler map name the same seven tools in the same order |
| McpTools.TradeSchemaBounds | src/ai_investor/agents/mcp_tools.py:105-135 | the trade schema admits side "buy" or "sell", a quantity of at least 1 and a price of at least 0, and requires all four fields |
| McpTools.Bind | src/ai_investor/agents/mcp_tools.py:183 | `handler(**tool_input)` binds iff every key is a parameter and every parameter without a default is given; each parameter then receives the input's value or its default |
| McpTools.Unexpected | src/ai_investor/agents/mcp_tools.py:183 | no unexpected keyword exactly when every input key is a parameter name |
| McpTools.Arguments | src/ai_investor/agents/mcp_tools.py:183 | the arguments bind iff no parameter without a default is missing; each is the given value or the default, in parameter order |
| McpTools.Execute | src/ai_investor/agents/mcp_tools.py:177-183 | a name outside the map raises "Unknown tool: " + name, and an input that does not bind raises |
| McpTools.ExecuteBound | src/ai_investor/agents/mcp_tools.py:182-183 | a known tool with an input that binds runs its handler on the bound arguments |
| McpTools.NewsForwards | src/ai_investor/agents/mcp_tools.py:197-199 | a news call forwards the ticker and the look-back, 30 when not given |
| McpTools.BindsEach | src/ai_investor/agents/mcp_tools.py:183 | an input that gives exactly the handler's parameters binds each to its value |
| McpTools.TradeForwards | src/ai_investor/agents/mcp_tools.py:208-214 | a trade call forwards ticker, side, quantity and price unchanged |
| McpTools.EvaluateForwards | src/ai_investor/agents/mcp_tools.py:201-206 | an evaluation call passes ticker, fundamentals and news to the engine once and returns the thesis as its dictionary, or the engine's error |
| McpTools.EvaluateBinds | src/ai_investor/agents/mcp_tools.py:201-203 | the three inputs of an evaluation call bind in parameter order |
| McpTools.EvaluateDispatch | src/ai_investor/agents/mcp_tools.py:205-206 | the evaluation handler returns `thesis.dict()` of the engine's thesis, or its error |
| McpTools.NoArgumentTools | src/ai_investor/agents/mcp_tools.py:185-218 | the positions, funds and shortlist tools take no input and forward to their backend; any input key raises |
| AgentReport.IndexOf | src/ai_investor/agents/agent_orchestrator.py:171 | the lookup in the counts finds the entry with the name, or reports that no entry has it |
| AgentReport.Bump | src/ai_investor/agents/agent_orchestrator.py:171 | counting a call keeps every name in its place and adds a name only when it is new |
| AgentReport.SumCountsUpdate | src/ai_investor/agents/agent_orchestrator.py:171 | replacing one count changes the total by the difference |
| AgentReport.SumCountsAppend | src/ai_investor/agents/agent_orchestrator.py:171 | a new name adds its count to the total |
| AgentReport.TallyCounts | src/ai_investor/agents/agent_orchestrator.py:168-171 | the counts have distinct names, each count is the number of calls to that tool, every called tool (or "unknown") is counted, and the counts sum to the number of calls |
| AgentReport.TallyShape | src/ai_investor/agents/agent_orchestrator.py:168-171 | the counts have distinct names, each is the number of calls to its tool, and every called tool appears |
| AgentReport.TallySum | src/ai_investor/agents/agent_orchestrator.py:168-171 | the counts sum to the number of calls |
| AgentReport.CountOfAbsent | src/ai_investor/agents/agent_orchestrator.py:171 | a tool never called has count 0 |
| AgentReport.ByNameIsPreorder | src/ai_investor/agents/agent_orchestrator.py:173 | ordering the counts by tool name is a total preorder |
| AgentReport.SumCountsInsert | src/ai_investor/agents/agent_orchestrator.py:173 | inserting a count into a sorted list adds it to the total |
| AgentReport.SumCountsSortBy | src/ai_investor/agents/agent_orchestrator.py:173 | sorting the counts keeps their total |
| AgentReport.SortedTallyFacts | src/ai_investor/agents/agent_orchestrator.py:168-174 | the count lines are sorted by tool name, each count is the number of calls to its tool, every called tool appears, and the counts sum to the number of calls |
| AgentReport.Failed | src/ai_investor/agents/agent_orchestrator.py:177 | the failed list holds exactly the calls whose success is falsy; a missing `success` counts as success |
| AgentReport.ToolSectionFacts | src/ai_investor/agents/agent_orchestrator.py:166-188 | no calls give "  No tools were executed"; "Failed Tool Calls:" appears iff some call failed |
| AgentReport.CountLinesIndented | src/ai_investor/agents/agent_orchestrator.py:174 | no count line reads "Failed Tool Calls:" |
| AgentReport.ReportLines | src/ai_investor/agents/agent_orchestrator.py:138-196 | the report has 23 fixed lines around the tool section; "Agent Iterations" defaults to 0, "Tools Used" is the number of calls, and the content defaults to "No content available" |
| AgentReport.Header | src/ai_investor/agents/agent_orchestrator.py:138-151 | the header has twelve lines, with the iteration count (default 0) and the number of tool calls |
| AgentReport.FormatEmailReport | src/ai_investor/agents/agent_orchestrator.py:136-198 | the report is the "\n"-join of the report lines |
| AgentReport.SummarizeToolCalls | src/ai_investor/agents/agent_orchestrator.py:166-188 | the imperative summary produces the tool section |
| AgentReport.TallyCalls | src/ai_investor/agents/agent_orchestrator.py:168-171 | the counting loop produces the tally |
| AgentReport.FormatCounts | src/ai_investor/agents/agent_orchestrator.py:173-174 | one "  name: n call(s)" line per count, in order |
| AgentReport.FormatFailures | src/ai_investor/agents/agent_orchestrator.py:183-186 | one "  - tool: error" line per failed call, in order |
| AgentReport.RunReportFailures | src/ai_investor/agents/agent_orchestrator.py:177-186 | the report of an agent run lists failed calls exactly when one of its tools raised |
| AgentReport.EntriesFailed | src/ai_investor/agents/claude_agent.py:189-210 | a recorded call reads as failed exactly when its tool raised |
| Tiingo.UnitMicros | src/ai_investor/integrations/tiingo.py:22-28 | each of the five units s, m, h, d, w is at least one second long; no other unit is known |
| Tiingo.ParseTimeframe | src/ai_investor/integrations/tiingo.py:31-48 | a blank timeframe is refused, and an accepted one is never negative |
| Tiingo.ParseCleaned | src/ai_investor/integrations/tiingo.py:33-48 | on cleaned text: empty is refused, an accepted value is never negative |
| Tiingo.CleanText | src/ai_investor/integrations/tiingo.py:32 | text of digits and lower-case letters is left unchanged by strip and lower |
| Tiingo.DaysRoundTrip | src/ai_investor/integrations/tiingo.py:36-37 | a bare number of days parses back to that many days |
| Tiingo.UnitRoundTrip | src/ai_investor/integrations/tiingo.py:39-48 | a number followed by a known unit parses back to that many units, and a zero quantity is refused |
| Tiingo.AcceptedShape | src/ai_investor/integrations/tiingo.py:39-42 | an accepted timeframe that is not all digits is digits followed by exactly one known unit letter |
| Tiingo.WithoutListing | src/ai_investor/integrations/tiingo.py:105-106 | a trailing ".US" is cut off and anything else left as is; the result is a prefix |
| Tiingo.NormalizeSymbol | src/ai_investor/integrations/tiingo.py:97-108 | a blank symbol is refused; otherwise it is trimmed, upper-cased, stripped of one ".US" and has its dots replaced by dashes |
| Tiingo.ReplacedUpper | src/ai_investor/integrations/tiingo.py:107 | replacing dots by dashes in upper-case text keeps it upper case and leaves no dot |
| Tiingo.NormalizedForm | src/ai_investor/integrations/tiingo.py:97-108 | a normalised symbol has no dot and is upper case |
| Tiingo.NormalizeIdempotent | src/ai_investor/integrations/tiingo.py:97-108 | normalising a normalised symbol (with no surrounding space) changes nothing |
| Tiingo.FirstTruthy | src/ai_investor/integrations/tiingo.py:169-174 | the `or` chain is truthy exactly when one of the fields is, and it is the first truthy field, or the last field when none is |
| Tiingo.ArticleOf | src/ai_investor/integrations/tiingo.py:165-189 | a non-object entry is skipped; an article kept has the entry's parsed publication time, not before the cutoff, no sentiment, and "Untitled" when the title is falsy |
| Tiingo.Collect | src/ai_investor/integrations/tiingo.py:164-189 | the loop keeps at most one item per entry |
| Tiingo.CollectErrExtends | src/ai_investor/integrations/tiingo.py:164-189 | once an entry fails validation, later entries do not change the outcome |
| Tiingo.CollectMembers | src/ai_investor/integrations/tiingo.py:164-189 | when the loop succeeds every entry was valid, and the items kept are exactly the articles of the entries |
| Tiingo.ArticlesWithinWindow | src/ai_investor/integrations/tiingo.py:163-189 | every article comes from an object entry with its parsed date and lies within the look-back window |
| Tiingo.Limited | src/ai_investor/integrations/tiingo.py:191-192 | a positive limit caps the list, keeping a prefix; no positive limit keeps all |
| Tiingo.FilterArticles | src/ai_investor/integrations/tiingo.py:164-189 | the loop over the response gives the specified articles |
| Tiingo.GetNews | src/ai_investor/integrations/tiingo.py:134-193 | the news call returns the specified news for the decoded response |
| Tiingo.NewsFacts | src/ai_investor/integrations/tiingo.py:134-193 | a successful news call had a non-blank symbol and a list response, returns at most the limit when it is positive, and, with a timeframe, only articles published within it |
| FearGreed.RatingOfText | src/ai_investor/integrations/fear_greed.py:57-66 | the four known lower-case ratings map to their labels and every other text to Neutral |
| FearGreed.RatingLabelRoundTrip | src/ai_investor/integrations/fear_greed.py:57-66 | lower-casing a rating's label and mapping it back gives the same rating |
| FearGreed.IntValue | src/ai_investor/integrations/fear_greed.py:68-70 | a missing or null value is None, a number is truncated toward zero as `int()` does, and a list or object fails |
| FearGreed.FromMood | src/ai_investor/integrations/fear_greed.py:65-80 | the reading's rating comes from the mood's rating text; a missing score gives 0, a falsy summary the default description, and each missing history field None; an integer conversion fails before the description is validated |
| FearGreed.DescriptionCheckedLast | src/ai_investor/integrations/fear_greed.py:68-80 | a truthy summary that is not text makes the reading fail, and that failure is the description's exactly when every integer member converts, since the conversions run while the arguments are built |
| FearGreed.ConversionErrorIsNotText | src/ai_investor/integrations/fear_greed.py:68-80 | when an integer member fails to convert, the reading fails with that conversion's error, which is never the description's |
| FearGreed.ParseIndex | src/ai_investor/integrations/fear_greed.py:49-56 | a non-object payload or a non-object `fear_and_greed` member fails; otherwise the index is read from that member, an empty one when it is missing |
| FearGreed.EmptyMood | src/ai_investor/integrations/fear_greed.py:53-80 | a payload without `fear_and_greed` yields value 0, Neutral, the default description and no history |
| FearGreed.LabelledReading | src/ai_investor/integrations/fear_greed.py:65-80 | a mood with a score and a canonical rating label and nothing else reads back as exactly that score and rating |
| FearGreed.RatingFromLabel | src/ai_investor/integrations/fear_greed.py:65-66 | a mood whose rating is a canonical label yields that rating |

## Left out

- Network and vendor clients are oracle parameters, not models:
  - the market-data HTTP clients, the news client's request helper and the fear-and-greed fetch;
  - the yfinance record builders;
  - the Anthropic `messages.create` call.
  `ClaudeAgent` receives the model as a function from the conversation to a response or an error.
- Broker HTTP: only mock mode is modelled. Non-mock mode raises NotImplementedError, which is modelled as an error result.
- `McpTools`: the `get_available_funds` handler forwards to a broker method that is not in `broker/nordnet_client.py`. It is a backend function parameter.
- Clocks: every `datetime.utcnow()`/`now()` reading is a parameter of type `Common.Instant` (integer microseconds).
- `Service.DailyOrchestrator.Run`: one clock reading `now` stamps every thesis-log and trade-log line of the run; the loggers read the clock on each append, so later lines may carry later times.
- `Shortlist.ShortlistPipeline.Refresh`: one clock reading serves both the saved `last_refresh` and the returned one. The code reads the clock twice, and the two readings can differ by microseconds.
- Library parsing and formatting are oracles in `Common.Runtime` and are not re-implemented:
  - `float()` and `int()` on text;
  - `datetime.fromisoformat`/`isoformat`;
  - the `:.1f`, `:.2f` and `:.2%` formats.
  Only the ISO round trip is assumed of them, as a predicate that lemmas take as a precondition.
- Tiingo `_parse_datetime` is delegated to an oracle in the same way.
- JSON text: encoding and decoding are oracles. A log line is a decoded value or a malformed line, and a corrupt cache file is a file whose text does not decode.
- Floating point: scores, prices and weights are `real`. IEEE rounding and the float/int distinction of JSON numbers are not modelled.
- `Engine`: fundamentals are a `map<string, real>`. Non-numeric fundamental values are left out.
- asyncio concurrency: `_gather_metrics` and `fetch_multiple_ticker_details` are modelled by the sequential shape of their results. Completion order is not modelled.
- `Tools.FetchMultipleTickerDetails`: when several news calls raise, `asyncio.gather` raises the one that fails first in time; the model raises the first in ticker order.
- `Tools`: the async glue tools are not modelled, because they only forward to clients and oracles:
  - `advice_investor` and `portfolio`;
  - `fetch_ticker_shortlist`, `fetch_investment_strategy`;
  - `fetch_ticker_data`, `fetch_ticker_news`, `fetch_ticker_details`;
  - `fetch_fear_greed_index`.
- `Tools.TextOf`: a shortlist item that is not text is read as "". `str()` of other JSON values is not modelled.
- `Screener`: excluded keywords come from a Python set, whose iteration order is unspecified. The model picks the matching keyword with `:|`, and its contracts hold for any choice.
- The same applies to the direct candidates of the shortlist update.
- Text: `upper`, `lower`, `isalnum` and `isdigit` are modelled for ASCII only. Unicode case mapping and Unicode digits are not modelled. `isspace` covers Python's full set of whitespace characters.
- The search limit of 25 companies per keyword lives inside the provider oracle.
- Terminal and CLI output are not modelled:
  - the Rich table of a thesis;
  - console prints;
  - Typer commands, `run_shortlist`, `run_report` and `list_positions` in `orchestration/service.py`.
  The approval gate's input lines are a parameter.
- E-mail delivery (SMTP) and the report stub are not modelled. The texts of the report and the summary are modelled; sending them is not.
- `ClaudeAgent.ToolCall` leaves out `result_preview`, the truncated JSON dump of a tool result.
- `Models.ValidateMetrics`: reports only the first field that fails, with its own message text. pydantic collects every failing field into one ValidationError.
- `Tiingo.ParseTimeframe`: the OverflowError `timedelta` raises for a huge count is not modelled; counts are unbounded integers.
- Configuration, file reading of the strategy document and the server and runner glue are outside the model. Their values enter as parameters.

## Findings

| source | as written | input that shows it | evidently intended | confidence | as-written member | corrected member |
|---|---|---|---|---|---|---|
| src/ai_investor/orchestration/service.py:53 | `1000 // float(price)` is computed for any price that is not None, so a zero close (with a zero previous close) raises ZeroDivisionError and aborts the daily run | a BUY thesis for an entry whose `close` and `previousClose` are both 0 | a zero price proposes no order, like a missing one | medium, not executed | Service.ProposedOrderAsWritten | Service.ProposedOrder |
| src/ai_investor/tooling/tools.py:380 | `_coerce_float` is called in the hit loop of `update_ticker_shortlist`, but the module never imports it; only `integrations/eodhd.py` defines it | a search hit `{"ticker": "AAPL"}` with no candidates to match against (any hit that passes the match) raises NameError, so the update fails and saves nothing | the market cap read with the market-data helper's float coercion | high, not executed | Tools.AcceptedAsWrittenRaises | Tools.ListingOf |
