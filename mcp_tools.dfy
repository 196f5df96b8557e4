/** The tools the agent may call: their schemas as sent to the model, and the
    executor that binds a tool call's input object to the keyword parameters of
    one of seven handlers and forwards it to the backend that serves it. The
    backends (the broker, the market-data client, the decision engine and the
    shortlist pipeline) are inputs. */
module McpTools {
  import opened Common
  import DecisionModels

  /** One property of an input schema. */
  datatype PropSchema = PropSchema(
    kind: string,
    description: string,
    choices: seq<string>,
    minimum: Option<real>,
    default: Option<real>,
    itemKind: Option<string>)

  /** One entry of the schema list: a name, a description and an object schema. */
  datatype ToolSchema = ToolSchema(
    name: string,
    description: string,
    properties: seq<(string, PropSchema)>,
    required: seq<string>)

  function Prop(kind: string, description: string): PropSchema {
    PropSchema(kind, description, [], None, None, None)
  }

  const TickerDescription := "Stock ticker symbol (e.g., 'AAPL', 'MSFT')"

  /** The schema list, in the order it is sent. */
  const Schemas: seq<ToolSchema> := [
    ToolSchema("get_nordnet_positions",
      "Fetch current stock positions held in the Nordnet account. "
      + "Returns a list of positions with ticker, quantity, average price, "
      + "current price, market value, and unrealized P&L.",
      [], []),
    ToolSchema("get_available_funds",
      "Fetch available cash and account value from Nordnet. "
      + "Returns currency, available cash, total account value, and invested value.",
      [], []),
    ToolSchema("get_stock_fundamentals",
      "Fetch fundamental data for a stock from EODHD API. "
      + "Returns financial metrics including dividend yield, P/E ratio, "
      + "profit margins, ROA, ROE, debt ratios, and more.",
      [("ticker", Prop("string", TickerDescription))], ["ticker"]),
    ToolSchema("get_stock_news",
      "Fetch recent news articles for a stock from EODHD API. "
      + "Returns news headlines, summaries, sentiment, and links from the past 30 days.",
      [("ticker", Prop("string", TickerDescription)),
       ("lookback_days", PropSchema("integer", "Number of days to look back for news (default: 30)",
                                    [], None, Some(30.0), None))],
      ["ticker"]),
    ToolSchema("evaluate_stock_decision",
      "Analyze a stock and determine investment decision (BUY/HOLD/TRIM/EXIT). "
      + "This tool uses quantitative metrics, qualitative news analysis, and stability "
      + "indicators to generate a comprehensive investment thesis with conviction score, "
      + "rationale, risks, and catalysts. Takes into account current positions and "
      + "holding periods for long-term investment strategy.",
      [("ticker", Prop("string", "Stock ticker symbol to evaluate")),
       ("fundamentals", Prop("object", "Fundamental data object from get_stock_fundamentals")),
       ("news", PropSchema("array", "News articles array from get_stock_news", [], None, None, Some("object")))],
      ["ticker", "fundamentals", "news"]),
    ToolSchema("execute_trade",
      "Execute a stock trade (buy/sell) on Nordnet. THIS IS MOCKED FOR TESTING. "
      + "Simulates placing an order and updates mock positions. Returns order details "
      + "including order ID, ticker, side, quantity, price, and status.",
      [("ticker", Prop("string", "Stock ticker symbol to trade")),
       ("side", PropSchema("string", "Trade side: 'buy' or 'sell'", ["buy", "sell"], None, None, None)),
       ("quantity", PropSchema("integer", "Number of shares to trade", [], Some(1.0), None, None)),
       ("price", PropSchema("number", "Price per share", [], Some(0.0), None, None))],
      ["ticker", "side", "quantity", "price"]),
    ToolSchema("get_shortlist",
      "Get the current shortlist of candidate stocks to analyze. "
      + "Returns dividend-paying large cap stocks that meet screening criteria.",
      [], [])
  ]

  /** The seven tools of the executor's map. */
  datatype Tool = GetNordnetPositions | GetAvailableFunds | GetStockFundamentals | GetStockNews
                | EvaluateStockDecision | ExecuteTrade | GetShortlist
  {
    function Name(): string {
      match this
      case GetNordnetPositions => "get_nordnet_positions"
      case GetAvailableFunds => "get_available_funds"
      case GetStockFundamentals => "get_stock_fundamentals"
      case GetStockNews => "get_stock_news"
      case EvaluateStockDecision => "evaluate_stock_decision"
      case ExecuteTrade => "execute_trade"
      case GetShortlist => "get_shortlist"
    }

    /** The name of the handler method the tool maps to. */
    function Handler(): string {
      match this
      case GetNordnetPositions => "_get_positions"
      case GetAvailableFunds => "_get_funds"
      case GetStockFundamentals => "_get_fundamentals"
      case GetStockNews => "_get_news"
      case EvaluateStockDecision => "_evaluate_decision"
      case ExecuteTrade => "_execute_trade"
      case GetShortlist => "_get_shortlist"
    }
  }

  /** The names the executor's map knows, in its order. */
  const ToolNames: seq<string> := [
    "get_nordnet_positions", "get_available_funds", "get_stock_fundamentals",
    "get_stock_news", "evaluate_stock_decision", "execute_trade", "get_shortlist"
  ]

  /** The lookup in the executor's map. */
  function Lookup(name: string): (r: Option<Tool>)
    ensures r.Some? ==> r.value.Name() == name
  {
    match name
    case "get_nordnet_positions" => Some(GetNordnetPositions)
    case "get_available_funds" => Some(GetAvailableFunds)
    case "get_stock_fundamentals" => Some(GetStockFundamentals)
    case "get_stock_news" => Some(GetStockNews)
    case "evaluate_stock_decision" => Some(EvaluateStockDecision)
    case "execute_trade" => Some(ExecuteTrade)
    case "get_shortlist" => Some(GetShortlist)
    case _ => None
  }

  /** The map is closed: exactly the seven names are found, each to the tool
      of that name. */
  lemma LookupClosed(name: string)
    ensures Lookup(name).Some? <==> name in ToolNames
  {
  }

  lemma LookupRoundTrip(t: Tool)
    ensures Lookup(t.Name()) == Some(t)
  {
  }

  /** A keyword parameter of a handler, with its default if it has one. */
  datatype Param = Param(name: string, default: Option<Json>)

  /** The keyword parameters of each handler. */
  function Signature(t: Tool): seq<Param> {
    match t
    case GetStockFundamentals => [Param("ticker", None)]
    case GetStockNews => [Param("ticker", None), Param("lookback_days", Some(JNum(30.0)))]
    case EvaluateStockDecision => [Param("ticker", None), Param("fundamentals", None), Param("news", None)]
    case ExecuteTrade => [Param("ticker", None), Param("side", None), Param("quantity", None), Param("price", None)]
    case _ => []
  }

  /** The JSON text of one property schema, as the model receives it. */
  function PropJson(p: PropSchema): Json {
    JObj([("type", JStr(p.kind)), ("description", JStr(p.description))]
      + (if p.choices != [] then [("enum", JArr(seq(|p.choices|, i requires 0 <= i < |p.choices| => JStr(p.choices[i]))))] else [])
      + (if p.minimum.Some? then [("minimum", JNum(p.minimum.value))] else [])
      + (if p.default.Some? then [("default", JNum(p.default.value))] else [])
      + (if p.itemKind.Some? then [("items", JObj([("type", JStr(p.itemKind.value))]))] else []))
  }

  /** One schema as a JSON object with "name", "description" and an
      "input_schema" holding "type", "properties" and "required". */
  function SchemaJson(s: ToolSchema): (j: Json)
    ensures j.JObj? && UniqueKeys(j.fields)
    ensures Get(j.fields, "name") == Some(JStr(s.name))
    ensures Get(j.fields, "description") == Some(JStr(s.description))
    ensures Get(j.fields, "input_schema").Some? && Get(j.fields, "input_schema").value.JObj?
    ensures var input := Get(j.fields, "input_schema").value.fields;
      Get(input, "type") == Some(JStr("object")) && Get(input, "properties").Some? && Get(input, "required").Some?
  {
    var props := seq(|s.properties|, i requires 0 <= i < |s.properties| => (s.properties[i].0, PropJson(s.properties[i].1)));
    var input := [("type", JStr("object")), ("properties", JObj(props)),
                  ("required", JArr(seq(|s.required|, i requires 0 <= i < |s.required| => JStr(s.required[i]))))];
    var fields := [("name", JStr(s.name)), ("description", JStr(s.description)), ("input_schema", JObj(input))];
    GetUnique(input, 0);
    GetUnique(input, 1);
    GetUnique(input, 2);
    GetUnique(fields, 0);
    GetUnique(fields, 1);
    GetUnique(fields, 2);
    JObj(fields)
  }

  function PropertyNames(s: ToolSchema): seq<string> {
    seq(|s.properties|, i requires 0 <= i < |s.properties| => s.properties[i].0)
  }

  function ParamNames(ps: seq<Param>): seq<string> {
    seq(|ps|, i requires 0 <= i < |ps| => ps[i].name)
  }

  /** Schema `i` lists exactly the keyword parameters of the handler its name
      maps to, and requires exactly those without a default. */
  lemma SchemaMatchesHandler(i: nat)
    requires i < |Schemas|
    ensures Schemas[i].name == ToolNames[i] && Lookup(Schemas[i].name).Some?
    ensures PropertyNames(Schemas[i]) == ParamNames(Signature(Lookup(Schemas[i].name).value))
    ensures var sig := Signature(Lookup(Schemas[i].name).value);
      forall j :: 0 <= j < |sig| ==> (sig[j].name in Schemas[i].required <==> sig[j].default.None?)
    ensures forall r :: r in Schemas[i].required ==> r in PropertyNames(Schemas[i])
  {
    var s := Schemas[i];
    var sig := Signature(Lookup(s.name).value);
    assert |PropertyNames(s)| == |ParamNames(sig)|;
    forall j | 0 <= j < |sig| ensures PropertyNames(s)[j] == ParamNames(sig)[j] {}
    assert |s.required| <= |PropertyNames(s)|;
    forall k | 0 <= k < |s.required| ensures s.required[k] == PropertyNames(s)[k] {}
  }

  /** The schema list and the handler map name the same seven tools, in the
      same order. */
  lemma SchemasNameTheTools()
    ensures |Schemas| == |ToolNames| == 7
    ensures forall i :: 0 <= i < |Schemas| ==> Schemas[i].name == ToolNames[i]
  {
    forall i | 0 <= i < |Schemas| ensures Schemas[i].name == ToolNames[i] {
      SchemaMatchesHandler(i);
    }
  }

  /** The trade schema only admits a side of "buy" or "sell", a quantity of at
      least one and a non-negative price, and requires all four fields. */
  lemma TradeSchemaBounds()
    ensures Schemas[5].name == "execute_trade"
    ensures Schemas[5].properties[1] == ("side", PropSchema("string", "Trade side: 'buy' or 'sell'", ["buy", "sell"], None, None, None))
    ensures Schemas[5].properties[2].1.minimum == Some(1.0) && Schemas[5].properties[3].1.minimum == Some(0.0)
    ensures Schemas[5].required == ["ticker", "side", "quantity", "price"]
  {
  }

  /** `handler(**tool_input)`: the argument for each parameter in order, or the
      TypeError Python raises for a keyword the handler does not take or a
      parameter without a default that is not given. */
  function Bind(t: Tool, input: seq<(string, Json)>): (r: Result<seq<Json>>)
    ensures r.Ok? <==> ((forall k :: k in input ==> k.0 in ParamNames(Signature(t)))
                        && (forall p :: p in Signature(t) && p.default.None? ==> Get(input, p.name).Some?))
    ensures r.Ok? ==> |r.value| == |Signature(t)|
    ensures r.Ok? ==> forall i :: 0 <= i < |Signature(t)| ==> r.value[i] == Argument(Signature(t)[i], input)
  {
    match Unexpected(input, ParamNames(Signature(t)))
    case Some(k) => Err(t.Handler() + "() got an unexpected keyword argument '" + k + "'")
    case None => Arguments(t, Signature(t), input)
  }

  /** The first key of `input` that is not among `names`. */
  function Unexpected(input: seq<(string, Json)>, names: seq<string>): (r: Option<string>)
    ensures r.None? <==> forall k :: k in input ==> k.0 in names
  {
    if input == [] then None
    else if input[0].0 !in names then Some(input[0].0)
    else
      var rest := Unexpected(input[1..], names);
      assert forall k :: k in input ==> k == input[0] || k in input[1..];
      rest
  }

  /** The value a parameter receives: the input's, else its default. */
  function Argument(p: Param, input: seq<(string, Json)>): Json
    requires Get(input, p.name).Some? || p.default.Some?
  {
    if Get(input, p.name).Some? then Get(input, p.name).value else p.default.value
  }

  /** The arguments for `ps`, each given or defaulted, or the missing one. */
  function Arguments(t: Tool, ps: seq<Param>, input: seq<(string, Json)>): (r: Result<seq<Json>>)
    ensures r.Ok? <==> forall p :: p in ps && p.default.None? ==> Get(input, p.name).Some?
    ensures r.Ok? ==> |r.value| == |ps|
    ensures r.Ok? ==> forall i :: 0 <= i < |ps| ==> r.value[i] == Argument(ps[i], input)
  {
    if ps == [] then Ok([])
    else if Get(input, ps[0].name).None? && ps[0].default.None? then
      Err(t.Handler() + "() missing required argument: '" + ps[0].name + "'")
    else
      var rest := Arguments(t, ps[1..], input);
      if rest.Err? then
        assert exists p :: p in ps[1..] && p.default.None? && Get(input, p.name).None?;
        rest
      else
        Ok([Argument(ps[0], input)] + rest.value)
  }

  /** The services the handlers forward to. */
  datatype Backends = Backends(
    positions: () -> Result<Json>,
    funds: () -> Result<Json>,
    fundamentals: Json -> Result<Json>,
    news: (Json, Json) -> Result<Json>,
    evaluate: (Json, Json, Json) -> Result<DecisionModels.Thesis>,
    placeOrder: (Json, Json, Json, Json) -> Result<Json>,
    shortlist: () -> Result<Json>)

  /** The handler of `t` applied to bound arguments. */
  function Dispatch(t: Tool, args: seq<Json>, b: Backends): Result<Json>
    requires |args| == |Signature(t)|
  {
    match t
    case GetNordnetPositions => b.positions()
    case GetAvailableFunds => b.funds()
    case GetStockFundamentals => b.fundamentals(args[0])
    case GetStockNews => b.news(args[0], args[1])
    case EvaluateStockDecision =>
      var thesis :- b.evaluate(args[0], args[1], args[2]);
      Ok(DecisionModels.ThesisJson(thesis))
    case ExecuteTrade => b.placeOrder(args[0], args[1], args[2], args[3])
    case GetShortlist => b.shortlist()
  }

  /** `execute`: an unknown name raises ValueError; otherwise the input is bound
      to the handler's parameters and forwarded, unchanged, to its backend. */
  function Execute(name: string, input: seq<(string, Json)>, b: Backends): (r: Result<Json>)
    ensures name !in ToolNames ==> r == Err("Unknown tool: " + name)
    ensures name in ToolNames && Bind(Lookup(name).value, input).Err? ==> r.Err?
  {
    match Lookup(name)
    case None => Err("Unknown tool: " + name)
    case Some(t) =>
      var args :- Bind(t, input);
      Dispatch(t, args, b)
  }

  /** A bound call of a known tool goes to its handler with the bound arguments. */
  lemma ExecuteBound(t: Tool, input: seq<(string, Json)>, b: Backends)
    requires Bind(t, input).Ok?
    ensures Execute(t.Name(), input, b) == Dispatch(t, Bind(t, input).value, b)
  {
    LookupRoundTrip(t);
  }

  /** A news call forwards the ticker and the look-back, 30 days when not given. */
  lemma NewsForwards(input: seq<(string, Json)>, b: Backends)
    requires forall k :: k in input ==> k.0 in ["ticker", "lookback_days"]
    requires Get(input, "ticker").Some?
    ensures Execute("get_stock_news", input, b)
      == b.news(Get(input, "ticker").value, GetOr(input, "lookback_days", JNum(30.0)))
  {
    assert ParamNames(Signature(GetStockNews)) == ["ticker", "lookback_days"];
    assert Bind(GetStockNews, input).Ok?;
    var args := Bind(GetStockNews, input).value;
    assert args[0] == Argument(Signature(GetStockNews)[0], input);
    assert args[1] == Argument(Signature(GetStockNews)[1], input);
    ExecuteBound(GetStockNews, input, b);
  }

  /** An input naming exactly the handler's parameters binds each to its value. */
  lemma BindsEach(t: Tool, input: seq<(string, Json)>)
    requires forall k :: k in input ==> k.0 in ParamNames(Signature(t))
    requires forall p :: p in Signature(t) ==> Get(input, p.name).Some?
    ensures Bind(t, input).Ok?
    ensures forall i :: 0 <= i < |Signature(t)| ==> Bind(t, input).value[i] == Get(input, Signature(t)[i].name).value
  {
    assert forall i :: 0 <= i < |Signature(t)| ==> Signature(t)[i] in Signature(t);
  }

  /** A trade call forwards ticker, side, quantity and price unchanged. */
  lemma TradeForwards(input: seq<(string, Json)>, b: Backends)
    requires forall k :: k in input ==> k.0 in ["ticker", "side", "quantity", "price"]
    requires forall name :: name in ["ticker", "side", "quantity", "price"] ==> Get(input, name).Some?
    ensures Execute("execute_trade", input, b)
      == b.placeOrder(Get(input, "ticker").value, Get(input, "side").value,
                      Get(input, "quantity").value, Get(input, "price").value)
  {
    assert ParamNames(Signature(ExecuteTrade)) == ["ticker", "side", "quantity", "price"];
    BindsEach(ExecuteTrade, input);
    ExecuteBound(ExecuteTrade, input, b);
  }

  /** An evaluation call passes its three inputs to the engine once and returns
      the thesis as its dictionary. */
  lemma EvaluateForwards(input: seq<(string, Json)>, b: Backends)
    requires forall k :: k in input ==> k.0 in ["ticker", "fundamentals", "news"]
    requires forall name :: name in ["ticker", "fundamentals", "news"] ==> Get(input, name).Some?
    ensures var t := b.evaluate(Get(input, "ticker").value, Get(input, "fundamentals").value, Get(input, "news").value);
      Execute("evaluate_stock_decision", input, b)
        == (if t.Ok? then Ok(DecisionModels.ThesisJson(t.value)) else Err(t.error))
  {
    EvaluateBinds(input);
    var args := [Get(input, "ticker").value, Get(input, "fundamentals").value, Get(input, "news").value];
    assert EvaluateStockDecision.Name() == "evaluate_stock_decision";
    ExecuteBound(EvaluateStockDecision, input, b);
    EvaluateDispatch(args, b);
  }

  /** The three inputs of an evaluation call bind to the handler's parameters in order. */
  lemma EvaluateBinds(input: seq<(string, Json)>)
    requires forall k :: k in input ==> k.0 in ["ticker", "fundamentals", "news"]
    requires forall name :: name in ["ticker", "fundamentals", "news"] ==> Get(input, name).Some?
    ensures Bind(EvaluateStockDecision, input)
      == Ok([Get(input, "ticker").value, Get(input, "fundamentals").value, Get(input, "news").value])
  {
    var sig := Signature(EvaluateStockDecision);
    assert ParamNames(sig) == ["ticker", "fundamentals", "news"];
    BindsEach(EvaluateStockDecision, input);
    var args := Bind(EvaluateStockDecision, input).value;
    assert args[0] == Get(input, sig[0].name).value == Get(input, "ticker").value;
    assert args[1] == Get(input, sig[1].name).value == Get(input, "fundamentals").value;
    assert args[2] == Get(input, sig[2].name).value == Get(input, "news").value;
    assert |args| == 3;
    assert args == [Get(input, "ticker").value, Get(input, "fundamentals").value, Get(input, "news").value];
  }

  /** The evaluation handler returns the engine's thesis as a dictionary, or its error. */
  lemma EvaluateDispatch(args: seq<Json>, b: Backends)
    requires |args| == 3
    ensures var t := b.evaluate(args[0], args[1], args[2]);
      Dispatch(EvaluateStockDecision, args, b)
        == (if t.Ok? then Ok(DecisionModels.ThesisJson(t.value)) else Err(t.error))
  {
  }

  /** A tool without parameters takes only an empty input. */
  lemma NoArgumentTools(name: string, input: seq<(string, Json)>, b: Backends)
    requires name in ["get_nordnet_positions", "get_available_funds", "get_shortlist"]
    ensures input == [] ==>
      (Execute(name, input, b) == (if name == "get_nordnet_positions" then b.positions()
                                   else if name == "get_available_funds" then b.funds() else b.shortlist()))
    ensures input != [] ==> Execute(name, input, b).Err?
  {
    var t := if name == "get_nordnet_positions" then GetNordnetPositions
             else if name == "get_available_funds" then GetAvailableFunds else GetShortlist;
    assert t.Name() == name && Signature(t) == [];
    LookupRoundTrip(t);
    if input != [] {
      assert input[0] in input;
      assert Bind(t, input).Err?;
    } else {
      ExecuteBound(t, input, b);
    }
  }
}
