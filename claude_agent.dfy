/** The analyst that talks to the language model: the news summary that turns
    articles into insight records, and the agent loop that lets the model call
    tools until it answers, fails, or runs out of iterations. The model and the
    tool executor are parameters: the model answers a conversation with a
    response or an exception, the executor answers a tool call with a result or
    an exception. */
module ClaudeAgent {
  import opened Common
  import Text

  /** A tool-use request inside a model response. */
  datatype ToolUse = ToolUse(id: string, name: string, input: Json)

  /** A content block of a model response. */
  datatype Block = TextBlock(text: string) | ToolUseBlock(use: ToolUse) | OtherBlock

  datatype Response = Response(content: seq<Block>, stopReason: Option<string>)

  /** One tool result sent back to the model; `content` is the result, or
      `{"error": text}` when the tool raised. */
  datatype ToolResult = ToolResult(toolUseId: string, content: Json, isError: bool)

  datatype Message =
    | UserText(text: string)
    | AssistantTurn(content: seq<Block>)
    | ToolResults(results: seq<ToolResult>)

  /** An entry of `tool_calls`: the tool, its input, and what it returned or raised. */
  datatype ToolCall = ToolCall(tool: string, input: Json, outcome: Result<Json>)

  /** How a run ended: the model answered without tools (with its stop reason),
      the model call raised, or the iteration budget ran out. */
  datatype Stop = Finished(stopReason: Option<string>) | Failed(error: string) | Exhausted

  datatype AgentResult = AgentResult(content: string, iterations: int, toolCalls: seq<ToolCall>, stop: Stop)

  /** The text of every block that has text, in order. */
  function Texts(blocks: seq<Block>): (r: seq<string>)
    ensures |r| <= |blocks|
  {
    if blocks == [] then []
    else (if blocks[0].TextBlock? then [blocks[0].text] else []) + Texts(blocks[1..])
  }

  /** The tool-use blocks of a response, in order. */
  function ToolUses(blocks: seq<Block>): (r: seq<ToolUse>)
    ensures |r| <= |blocks|
    ensures r == [] <==> forall b :: b in blocks ==> !b.ToolUseBlock?
  {
    if blocks == [] then []
    else (if blocks[0].ToolUseBlock? then [blocks[0].use] else []) + ToolUses(blocks[1..])
  }

  function ResultFor(u: ToolUse, outcome: Result<Json>): ToolResult {
    match outcome
    case Ok(v) => ToolResult(u.id, v, false)
    case Err(e) => ToolResult(u.id, JObj([("error", JStr(e))]), true)
  }

  /** Executes the requested tools one after the other, in request order; a
      tool that raises gives an error-flagged result and the others still run. */
  method ExecuteTools(uses: seq<ToolUse>, exec: (string, Json) -> Result<Json>)
    returns (results: seq<ToolResult>, calls: seq<ToolCall>)
    ensures |results| == |uses| && |calls| == |uses|
    ensures forall i :: 0 <= i < |uses| ==>
      results[i].toolUseId == uses[i].id
      && (results[i].isError <==> exec(uses[i].name, uses[i].input).Err?)
      && results[i] == ResultFor(uses[i], exec(uses[i].name, uses[i].input))
    ensures forall i :: 0 <= i < |uses| ==>
      calls[i] == ToolCall(uses[i].name, uses[i].input, exec(uses[i].name, uses[i].input))
  {
    results, calls := [], [];
    for i := 0 to |uses|
      invariant |results| == i && |calls| == i
      invariant forall k :: 0 <= k < i ==> results[k] == ResultFor(uses[k], exec(uses[k].name, uses[k].input))
      invariant forall k :: 0 <= k < i ==> calls[k] == ToolCall(uses[k].name, uses[k].input, exec(uses[k].name, uses[k].input))
    {
      var outcome := exec(uses[i].name, uses[i].input);
      results := results + [ResultFor(uses[i], outcome)];
      calls := calls + [ToolCall(uses[i].name, uses[i].input, outcome)];
    }
  }

  function ResultsFor(uses: seq<ToolUse>, exec: (string, Json) -> Result<Json>): seq<ToolResult> {
    seq(|uses|, i requires 0 <= i < |uses| => ResultFor(uses[i], exec(uses[i].name, uses[i].input)))
  }

  function CallsFor(uses: seq<ToolUse>, exec: (string, Json) -> Result<Json>): seq<ToolCall> {
    seq(|uses|, i requires 0 <= i < |uses| => ToolCall(uses[i].name, uses[i].input, exec(uses[i].name, uses[i].input)))
  }

  /** The loop's variables: the conversation, the iteration counter and the
      accumulated tool calls. */
  datatype LoopState = LoopState(messages: seq<Message>, iteration: int, calls: seq<ToolCall>)

  datatype StepOutcome = Continue(next: LoopState) | Done(result: AgentResult, messages: seq<Message>)

  const ErrorPrefix: string := "Agent encountered an error: "
  const ExhaustedContent: string := "Agent reached maximum iterations without completing."

  /** One iteration of the loop body. */
  function Step(st: LoopState, llm: seq<Message> -> Result<Response>, exec: (string, Json) -> Result<Json>): (o: StepOutcome)
    ensures o.Continue? ==> o.next.iteration == st.iteration + 1
  {
    var it := st.iteration + 1;
    match llm(st.messages)
    case Err(e) => Done(AgentResult(ErrorPrefix + e, it, st.calls, Failed(e)), st.messages)
    case Ok(resp) =>
      var msgs := st.messages + [AssistantTurn(resp.content)];
      var uses := ToolUses(resp.content);
      if uses == [] then
        Done(AgentResult(Text.Join(Texts(resp.content), "\n"), it, st.calls, Finished(resp.stopReason)), msgs)
      else
        var results := ResultsFor(uses, exec);
        Continue(LoopState(if results != [] then msgs + [ToolResults(results)] else msgs, it, st.calls + CallsFor(uses, exec)))
  }

  /** The rest of a run from a loop state: the result and the final conversation. */
  function RunFrom(st: LoopState, maxIterations: int, llm: seq<Message> -> Result<Response>,
                   exec: (string, Json) -> Result<Json>): (AgentResult, seq<Message>)
    decreases maxIterations - st.iteration
  {
    if st.iteration >= maxIterations then
      (AgentResult(ExhaustedContent, st.iteration, st.calls, Exhausted), st.messages)
    else
      match Step(st, llm, exec)
      case Done(r, msgs) => (r, msgs)
      case Continue(next) => RunFrom(next, maxIterations, llm, exec)
  }

  function Start(initialMessage: string): LoopState {
    LoopState([UserText(initialMessage)], 0, [])
  }

  /** `run_with_tools`: the bounded agent loop. The model is called at most
      `maxIterations` times; the result and the conversation are those of
      `RunFrom` from the initial user message. */
  method RunWithTools(initialMessage: string, maxIterations: int,
                      llm: seq<Message> -> Result<Response>, exec: (string, Json) -> Result<Json>)
    returns (r: AgentResult, ghost conversation: seq<Message>)
    ensures (r, conversation) == RunFrom(Start(initialMessage), maxIterations, llm, exec)
    ensures 0 <= r.iterations <= (if maxIterations > 0 then maxIterations else 0)
  {
    var messages := [UserText(initialMessage)];
    var iteration := 0;
    var allCalls: seq<ToolCall> := [];
    while iteration < maxIterations
      invariant 0 <= iteration && (iteration <= maxIterations || iteration == 0)
      invariant RunFrom(LoopState(messages, iteration, allCalls), maxIterations, llm, exec)
             == RunFrom(Start(initialMessage), maxIterations, llm, exec)
      decreases maxIterations - iteration
    {
      ghost var before := LoopState(messages, iteration, allCalls);
      iteration := iteration + 1;
      var response := llm(messages);
      if response.Err? {
        r := AgentResult(ErrorPrefix + response.error, iteration, allCalls, Failed(response.error));
        conversation := messages;
        return;
      }
      messages := messages + [AssistantTurn(response.value.content)];
      var uses := ToolUses(response.value.content);
      if uses == [] {
        var content := Text.Join(Texts(response.value.content), "\n");
        r := AgentResult(content, iteration, allCalls, Finished(response.value.stopReason));
        conversation := messages;
        return;
      }
      var results, calls := ExecuteTools(uses, exec);
      assert results == ResultsFor(uses, exec) && calls == CallsFor(uses, exec);
      allCalls := allCalls + calls;
      if results != [] {
        messages := messages + [ToolResults(results)];
      }
      assert Step(before, llm, exec) == Continue(LoopState(messages, iteration, allCalls));
    }
    r := AgentResult(ExhaustedContent, iteration, allCalls, Exhausted);
    conversation := messages;
  }

  // ---------------------------------------------------------------------------
  // What a run promises.

  /** Every tool-use request of every assistant message, in conversation order. */
  function AllUses(msgs: seq<Message>): seq<ToolUse> {
    if msgs == [] then []
    else
      AllUses(msgs[..|msgs| - 1])
        + (if msgs[|msgs| - 1].AssistantTurn? then ToolUses(msgs[|msgs| - 1].content) else [])
  }

  /** `results` answer the tool-use blocks of `content`: one result per block,
      in request order, carrying its id. */
  ghost predicate Answers(content: seq<Block>, results: seq<ToolResult>) {
    var uses := ToolUses(content);
    |results| == |uses| && forall k :: 0 <= k < |results| ==> results[k].toolUseId == uses[k].id
  }

  /** Each tool-results message answers the assistant message before it. */
  ghost predicate ResultsAnswerUses(msgs: seq<Message>) {
    forall i :: 1 <= i < |msgs| && msgs[i].ToolResults? ==>
      msgs[i - 1].AssistantTurn? && Answers(msgs[i - 1].content, msgs[i].results)
  }

  /** The tool calls are the tool-use requests, one entry each, in order. */
  ghost predicate CallsMatchUses(calls: seq<ToolCall>, uses: seq<ToolUse>) {
    |calls| == |uses|
    && forall k :: 0 <= k < |calls| ==> calls[k].tool == uses[k].name && calls[k].input == uses[k].input
  }

  /** The conversation between iterations: the initial user message, then two
      messages per iteration, each results message answering the requests
      before it, and one tool-call entry per request. */
  ghost predicate Between(st: LoopState, initialMessage: string) {
    st.iteration >= 0
    && |st.messages| == 1 + 2 * st.iteration
    && st.messages[0] == UserText(initialMessage)
    && ResultsAnswerUses(st.messages)
    && CallsMatchUses(st.calls, AllUses(st.messages))
  }

  lemma AllUsesAppend(msgs: seq<Message>, m: Message)
    ensures AllUses(msgs + [m]) == AllUses(msgs) + (if m.AssistantTurn? then ToolUses(m.content) else [])
  {
    assert (msgs + [m])[..|msgs|] == msgs;
  }

  lemma AnswersAppend(msgs: seq<Message>, m: Message)
    requires ResultsAnswerUses(msgs)
    requires m.ToolResults? ==>
      |msgs| >= 1 && msgs[|msgs| - 1].AssistantTurn? && Answers(msgs[|msgs| - 1].content, m.results)
    ensures ResultsAnswerUses(msgs + [m])
  {
    var all := msgs + [m];
    forall i | 1 <= i < |all| && all[i].ToolResults?
      ensures all[i - 1].AssistantTurn? && Answers(all[i - 1].content, all[i].results)
    {
      if i < |msgs| {
        assert all[i] == msgs[i] && all[i - 1] == msgs[i - 1];
      }
    }
  }

  lemma CallsMatchAppend(c1: seq<ToolCall>, u1: seq<ToolUse>, c2: seq<ToolCall>, u2: seq<ToolUse>)
    requires CallsMatchUses(c1, u1) && CallsMatchUses(c2, u2)
    ensures CallsMatchUses(c1 + c2, u1 + u2)
  {
  }

  lemma {:induction false} StepKeepsBetween(st: LoopState, initialMessage: string,
                                           llm: seq<Message> -> Result<Response>, exec: (string, Json) -> Result<Json>)
    requires Between(st, initialMessage)
    requires Step(st, llm, exec).Continue?
    ensures Between(Step(st, llm, exec).next, initialMessage)
  {
    var resp := llm(st.messages).value;
    var uses := ToolUses(resp.content);
    var assistant := AssistantTurn(resp.content);
    var msgs := st.messages + [assistant];
    var results := ResultsFor(uses, exec);
    var next := Step(st, llm, exec).next;
    assert next.messages == msgs + [ToolResults(results)];
    AllUsesAppend(st.messages, assistant);
    AllUsesAppend(msgs, ToolResults(results));
    AnswersAppend(st.messages, assistant);
    assert msgs[|msgs| - 1] == assistant;
    assert Answers(resp.content, results) by {
      forall k | 0 <= k < |results| ensures results[k].toolUseId == uses[k].id {
        assert results[k] == ResultFor(uses[k], exec(uses[k].name, uses[k].input));
      }
    }
    AnswersAppend(msgs, ToolResults(results));
    CallsMatchAppend(st.calls, AllUses(st.messages), CallsFor(uses, exec), uses);
  }

  /** What every run ends with. */
  ghost predicate Ending(r: AgentResult, conv: seq<Message>, initialMessage: string, maxIterations: int) {
    && r.iterations >= 0
    && |conv| >= 1
    && conv[0] == UserText(initialMessage)
    && ResultsAnswerUses(conv)
    && CallsMatchUses(r.toolCalls, AllUses(conv))
    && (r.stop.Exhausted? ==> |conv| == 1 + 2 * r.iterations && r.content == ExhaustedContent)
    && (r.stop.Failed? ==>
          (|conv| == 2 * r.iterations - 1 && 1 <= r.iterations <= maxIterations
           && r.content == ErrorPrefix + r.stop.error))
    && (r.stop.Finished? ==>
          (|conv| == 2 * r.iterations && 1 <= r.iterations <= maxIterations
           && conv[|conv| - 1].AssistantTurn?
           && ToolUses(conv[|conv| - 1].content) == []
           && r.content == Text.Join(Texts(conv[|conv| - 1].content), "\n")))
  }

  lemma {:induction false} RunFromEnding(st: LoopState, initialMessage: string, maxIterations: int,
                                        llm: seq<Message> -> Result<Response>, exec: (string, Json) -> Result<Json>)
    requires Between(st, initialMessage)
    requires st.iteration <= maxIterations || st.iteration == 0
    ensures Ending(RunFrom(st, maxIterations, llm, exec).0, RunFrom(st, maxIterations, llm, exec).1,
                   initialMessage, maxIterations)
    ensures RunFrom(st, maxIterations, llm, exec).0.stop.Exhausted? ==>
              RunFrom(st, maxIterations, llm, exec).0.iterations
                == (if maxIterations > st.iteration then maxIterations else st.iteration)
    ensures st.messages <= RunFrom(st, maxIterations, llm, exec).1
    ensures st.calls <= RunFrom(st, maxIterations, llm, exec).0.toolCalls
    decreases maxIterations - st.iteration
  {
    if st.iteration < maxIterations {
      match Step(st, llm, exec)
      case Done(r, msgs) =>
        DoneEnding(st, initialMessage, maxIterations, llm, exec);
      case Continue(next) =>
        StepKeepsBetween(st, initialMessage, llm, exec);
        RunFromEnding(next, initialMessage, maxIterations, llm, exec);
    }
  }

  /** An iteration that ends the run leaves the conversation as `Ending` says. */
  lemma DoneEnding(st: LoopState, initialMessage: string, maxIterations: int,
                   llm: seq<Message> -> Result<Response>, exec: (string, Json) -> Result<Json>)
    requires Between(st, initialMessage) && st.iteration < maxIterations
    requires Step(st, llm, exec).Done?
    ensures Ending(Step(st, llm, exec).result, Step(st, llm, exec).messages, initialMessage, maxIterations)
    ensures st.messages <= Step(st, llm, exec).messages
    ensures st.calls <= Step(st, llm, exec).result.toolCalls
  {
    if llm(st.messages).Ok? {
      var assistant := AssistantTurn(llm(st.messages).value.content);
      AllUsesAppend(st.messages, assistant);
      AnswersAppend(st.messages, assistant);
    }
  }

  /** The promises of `run_with_tools`: at most `maxIterations` model calls, the
      iteration count on exhaustion, one tool-call entry and one tool result per
      tool-use request, the answer text of a finished run, and a conversation
      that starts with the initial message and grows by an assistant message
      (and the message of its tool results) per iteration. */
  lemma RunWithToolsEnding(initialMessage: string, maxIterations: int,
                           llm: seq<Message> -> Result<Response>, exec: (string, Json) -> Result<Json>)
    ensures Ending(RunFrom(Start(initialMessage), maxIterations, llm, exec).0,
                   RunFrom(Start(initialMessage), maxIterations, llm, exec).1, initialMessage, maxIterations)
    ensures RunFrom(Start(initialMessage), maxIterations, llm, exec).0.stop.Exhausted? ==>
              RunFrom(Start(initialMessage), maxIterations, llm, exec).0.iterations
                == (if maxIterations > 0 then maxIterations else 0)
  {
    var st := Start(initialMessage);
    AllUsesAppend([], st.messages[0]);
    assert [] + [st.messages[0]] == st.messages;
    RunFromEnding(st, initialMessage, maxIterations, llm, exec);
  }

  // ---------------------------------------------------------------------------
  // The news summary.

  /** One entry of the article payload sent to the model. */
  datatype ArticlePayload = ArticlePayload(headline: Json, summary: Json, sentiment: Json, url: Json)

  /** One parsed insight: the five fields, each as the model sent it or its default. */
  datatype InsightItem = InsightItem(headline: Json, sentiment: Json, summary: Json, catalyst: Json, risk: Json)

  /** The article payload; an article that is not an object raises AttributeError. */
  function Payloads(articles: seq<Json>): (r: Result<seq<ArticlePayload>>)
    ensures r.Ok? ==> |r.value| == |articles|
    ensures r.Ok? <==> forall a :: a in articles ==> a.JObj?
  {
    if articles == [] then Ok([])
    else if !articles[0].JObj? then Err("AttributeError: article is not a mapping")
    else
      var f := articles[0].fields;
      var rest :- Payloads(articles[1..]);
      Ok([ArticlePayload(GetOr(f, "title", JNull), GetOr(f, "summary", JNull),
                         GetOr(f, "sentiment", JStr("neutral")), GetOr(f, "link", JNull))] + rest)
  }

  /** The insight record built from one object item of the model's answer. */
  function ItemOf(fields: seq<(string, Json)>): InsightItem {
    InsightItem(GetOr(fields, "headline", JStr("")), GetOr(fields, "sentiment", JStr("neutral")),
                GetOr(fields, "summary", JStr("")), GetOr(fields, "catalyst", JNull),
                GetOr(fields, "risk", JNull))
  }

  /** A field the model left out takes its default; "sentiment" defaults to "neutral". */
  lemma ItemDefaults(fields: seq<(string, Json)>)
    ensures Get(fields, "sentiment").None? ==> ItemOf(fields).sentiment == JStr("neutral")
    ensures Get(fields, "headline").None? ==> ItemOf(fields).headline == JStr("")
    ensures Get(fields, "summary").None? ==> ItemOf(fields).summary == JStr("")
    ensures Get(fields, "catalyst").None? ==> ItemOf(fields).catalyst == JNull
    ensures Get(fields, "risk").None? ==> ItemOf(fields).risk == JNull
  {
  }

  /** What the answer's items are: the list itself, or the list under
      "insights" of an object; anything else raises inside the parse and
      yields no items. */
  function Candidates(parsed: Json): seq<Json> {
    match parsed
    case JArr(items) => items
    case JObj(fields) =>
      var v := GetOr(fields, "insights", JArr([]));
      if v.JArr? then v.items else []
    case _ => []
  }

  /** The object items of `xs`, each turned into an insight, in order. */
  function ObjectItems(xs: seq<Json>): (r: seq<InsightItem>)
    ensures |r| <= |xs|
  {
    if xs == [] then []
    else (if xs[0].JObj? then [ItemOf(xs[0].fields)] else []) + ObjectItems(xs[1..])
  }

  /** Only object items become insights: one per object, none for anything else. */
  lemma {:induction false} ObjectItemsOnlyObjects(xs: seq<Json>)
    ensures (forall x :: x in xs ==> !x.JObj?) ==> ObjectItems(xs) == []
    ensures (forall x :: x in xs ==> x.JObj?) ==> |ObjectItems(xs)| == |xs|
    ensures forall k :: 0 <= k < |ObjectItems(xs)| ==>
              exists j :: 0 <= j < |xs| && xs[j].JObj? && ObjectItems(xs)[k] == ItemOf(xs[j].fields)
  {
    if xs != [] {
      ObjectItemsOnlyObjects(xs[1..]);
      var r := ObjectItems(xs);
      var rest := ObjectItems(xs[1..]);
      var off := if xs[0].JObj? then 1 else 0;
      forall k | off <= k < |r|
        ensures exists j :: 0 <= j < |xs| && xs[j].JObj? && r[k] == ItemOf(xs[j].fields)
      {
        assert r[k] == rest[k - off];
        var j :| 0 <= j < |xs[1..]| && xs[1..][j].JObj? && rest[k - off] == ItemOf(xs[1..][j].fields);
        assert xs[j + 1] == xs[1..][j];
      }
      if xs[0].JObj? {
        assert r[0] == ItemOf(xs[0].fields);
      }
    }
  }

  /** The parse of the answer: no blocks, a first block without text, or text
      that is not JSON all give no insights. */
  function ParseAnswer(content: seq<Block>, decode: string -> Option<Json>): seq<InsightItem> {
    if content == [] then []
    else
      var text := if content[0].TextBlock? then content[0].text else "";
      match decode(text)
      case None => []
      case Some(parsed) => ObjectItems(Candidates(parsed))
  }

  /** `summarize_news`: no articles give no insights without asking the model;
      a failing model call raises; everything after the call is caught. */
  function Summary(ticker: string, articles: seq<Json>,
                   ask: (string, seq<ArticlePayload>) -> Result<seq<Block>>,
                   decode: string -> Option<Json>): Result<seq<InsightItem>>
  {
    var payload :- Payloads(articles);
    if payload == [] then Ok([])
    else
      var content :- ask(ticker, payload);
      Ok(ParseAnswer(content, decode))
  }

  lemma {:induction false} ObjectItemsConcat(a: seq<Json>, b: seq<Json>)
    ensures ObjectItems(a + b) == ObjectItems(a) + ObjectItems(b)
  {
    if a == [] {
      assert a + b == b;
    } else {
      var head := if a[0].JObj? then [ItemOf(a[0].fields)] else [];
      assert (a + b)[0] == a[0] && (a + b)[1..] == a[1..] + b;
      ObjectItemsConcat(a[1..], b);
      assert ObjectItems(a + b) == head + ObjectItems(a[1..] + b);
      assert head + (ObjectItems(a[1..]) + ObjectItems(b)) == (head + ObjectItems(a[1..])) + ObjectItems(b);
    }
  }

  /** The filtering loop over the answer's items: objects only, in order. */
  method KeepObjects(insights: seq<Json>) returns (filtered: seq<InsightItem>)
    ensures filtered == ObjectItems(insights)
  {
    filtered := [];
    for i := 0 to |insights|
      invariant filtered == ObjectItems(insights[..i])
    {
      assert insights[..i + 1] == insights[..i] + [insights[i]];
      ObjectItemsConcat(insights[..i], [insights[i]]);
      if insights[i].JObj? {
        filtered := filtered + [ItemOf(insights[i].fields)];
      }
    }
    assert insights[..|insights|] == insights;
  }

  /** The imperative form of the summary: the filtering loop over the answer. */
  method SummarizeNews(ticker: string, articles: seq<Json>,
                       ask: (string, seq<ArticlePayload>) -> Result<seq<Block>>,
                       decode: string -> Option<Json>)
    returns (r: Result<seq<InsightItem>>)
    ensures r == Summary(ticker, articles, ask, decode)
    ensures articles == [] ==> r == Ok([])
  {
    var payload := Payloads(articles);
    if payload.Err? {
      return Err(payload.error);
    }
    if payload.value == [] {
      return Ok([]);
    }
    var message := ask(ticker, payload.value);
    if message.Err? {
      return Err(message.error);
    }
    var content := message.value;
    if content == [] {
      return Ok([]);
    }
    var text := if content[0].TextBlock? then content[0].text else "";
    var parsed := decode(text);
    if parsed.None? {
      return Ok([]);
    }
    var filtered := KeepObjects(Candidates(parsed.value));
    return Ok(filtered);
  }
}
