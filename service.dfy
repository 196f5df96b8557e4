/** The daily orchestration: which shortlist entry names a security, the order
    proposed for a thesis, the loop that evaluates each security, logs its
    thesis, asks for approval of BUY and EXIT and places the approved orders,
    and the daily summary e-mail grouped by recommendation. */
module Service {
  import opened Common
  import opened DecisionModels
  import DecisionLog
  import Approvals
  import Engine
  import Sorting
  import Text

  /** `d.get(key)`, a missing key read as None. */
  function Field(d: seq<(string, Json)>, key: string): Json {
    GetOr(d, key, JNull)
  }

  /** The keys `_ticker_symbol` tries, in order. */
  const SymbolKeys: seq<string> := ["code", "ticker", "symbol"]

  /** `entry.get("code") or entry.get("ticker") or entry.get("symbol")`: the
      first truthy value, or the last one tried when none is truthy. */
  function TickerSymbol(entry: seq<(string, Json)>): (r: Json)
    ensures Truthy(r) <==> exists i :: 0 <= i < |SymbolKeys| && Truthy(Field(entry, SymbolKeys[i]))
    ensures exists i :: (0 <= i < |SymbolKeys| && r == Field(entry, SymbolKeys[i])
                         && (Truthy(r) || i == |SymbolKeys| - 1)
                         && forall j :: 0 <= j < i ==> !Truthy(Field(entry, SymbolKeys[j])))
  {
    var code, ticker, symbol := Field(entry, "code"), Field(entry, "ticker"), Field(entry, "symbol");
    assert Field(entry, SymbolKeys[0]) == code;
    assert Field(entry, SymbolKeys[1]) == ticker;
    assert Field(entry, SymbolKeys[2]) == symbol;
    if Truthy(code) then code
    else if Truthy(ticker) then
      assert Field(entry, SymbolKeys[1]) == ticker;
      ticker
    else
      assert Field(entry, SymbolKeys[2]) == symbol;
      symbol
  }

  /** An order as `_proposed_order` writes it. */
  datatype Order = Order(ticker: string, side: string, quantity: int, price: real)

  /** `float(value)` of a decoded JSON value: numbers as they are, booleans as
      1.0 or 0.0, strings parsed, anything else a TypeError. */
  function FloatOf(value: Json, rt: Runtime): (r: Result<real>)
    ensures value.JNum? ==> r == Ok(value.n)
    ensures value.JNull? || value.JArr? || value.JObj? ==> r.Err?
    ensures value.JStr? ==> (r.Ok? <==> rt.parseFloat(value.s).Some?)
  {
    match value
    case JNum(n) => Ok(n)
    case JBool(b) => Ok(if b then 1.0 else 0.0)
    case JStr(s) =>
      (match rt.parseFloat(s)
       case Some(x) => Ok(x)
       case None => Err("ValueError: could not convert string to float: '" + s + "'"))
    case JNull => Err("TypeError: float() argument must be a string or a real number, not 'NoneType'")
    case JArr(_) => Err("TypeError: float() argument must be a string or a real number, not 'list'")
    case JObj(_) => Err("TypeError: float() argument must be a string or a real number, not 'dict'")
  }

  /** The side of the order a recommendation calls for. */
  function SideFor(rec: Recommendation): (side: Option<string>)
    ensures side == Some("buy") <==> rec == BUY
    ensures side == Some("sell") <==> rec == EXIT
    ensures side.None? <==> rec == HOLD || rec == TRIM
  {
    match rec
    case BUY => Some("buy")
    case EXIT => Some("sell")
    case HOLD => None
    case TRIM => None
  }

  /** `max(1, int(1000 // price))`: as many shares as 1000 buys, at least one. */
  function Quantity(price: real): (q: int)
    requires price != 0.0
    ensures q >= 1
    ensures q == 1 || q as real <= 1000.0 / price
    ensures (q + 1) as real > 1000.0 / price
  {
    var x := (1000.0 / price).Floor;
    if x >= 1 then x else 1
  }

  /** `snapshot.get("close") or snapshot.get("previousClose")`. */
  function PriceField(snapshot: seq<(string, Json)>): Json {
    var close := Field(snapshot, "close");
    if Truthy(close) then close else Field(snapshot, "previousClose")
  }

  /** `_proposed_order` as written: no order when the price is None or for HOLD
      and TRIM; otherwise the price is converted and 1000 floor-divided by it,
      which raises for a price of zero. */
  function ProposedOrderAsWritten(thesis: Thesis, snapshot: seq<(string, Json)>, rt: Runtime): (r: Result<Option<Order>>)
    ensures PriceField(snapshot).JNull? ==> r == Ok(None)
    ensures SideFor(thesis.recommendation).None? ==> r == Ok(None)
    ensures r.Err? <==> (!PriceField(snapshot).JNull? && SideFor(thesis.recommendation).Some?
                         && (FloatOf(PriceField(snapshot), rt).Err? || FloatOf(PriceField(snapshot), rt).value == 0.0))
  {
    var price := PriceField(snapshot);
    if price.JNull? then Ok(None)
    else
      match SideFor(thesis.recommendation)
      case None => Ok(None)
      case Some(side) =>
        match FloatOf(price, rt)
        case Err(e) => Err(e)
        case Ok(p) =>
          if p == 0.0 then Err("ZeroDivisionError: float floor division by zero")
          else Ok(Some(Order(thesis.ticker, side, Quantity(p), p)))
  }

  /** A BUY thesis for an entry whose close and previous close are both 0
      aborts the whole run instead of proposing nothing. */
  lemma ZeroPriceAborts(thesis: Thesis, rt: Runtime)
    requires thesis.recommendation == BUY
    ensures ProposedOrderAsWritten(thesis, [("close", JNum(0.0)), ("previousClose", JNum(0.0))], rt).Err?
  {
    var snapshot := [("close", JNum(0.0)), ("previousClose", JNum(0.0))];
    assert Field(snapshot, "close") == JNum(0.0);
    assert Field(snapshot, "previousClose") == JNum(0.0);
  }

  /** `_proposed_order` with a zero price treated like a missing one: no order
      for HOLD, TRIM or a price that is None or zero, the side from the
      recommendation, the price as converted, and the quantity the largest
      number of shares 1000 pays for, but at least one. */
  function ProposedOrder(thesis: Thesis, snapshot: seq<(string, Json)>, rt: Runtime): (r: Result<Option<Order>>)
    ensures PriceField(snapshot).JNull? || SideFor(thesis.recommendation).None? ==> r == Ok(None)
    ensures r.Err? <==> (!PriceField(snapshot).JNull? && SideFor(thesis.recommendation).Some?
                         && FloatOf(PriceField(snapshot), rt).Err?)
    ensures r.Ok? && r.value.Some? ==> (
      var o := r.value.value;
      Some(o.side) == SideFor(thesis.recommendation) && o.ticker == thesis.ticker
      && FloatOf(PriceField(snapshot), rt) == Ok(o.price) && o.price != 0.0 && o.quantity >= 1
      && (o.quantity == 1 || o.quantity as real <= 1000.0 / o.price))
  {
    var price := PriceField(snapshot);
    if price.JNull? then Ok(None)
    else
      match SideFor(thesis.recommendation)
      case None => Ok(None)
      case Some(side) =>
        match FloatOf(price, rt)
        case Err(e) => Err(e)
        case Ok(p) =>
          if p == 0.0 then Ok(None)
          else Ok(Some(Order(thesis.ticker, side, Quantity(p), p)))
  }

  /** The two agree wherever the code as written does not raise. */
  lemma ProposedOrderAgrees(thesis: Thesis, snapshot: seq<(string, Json)>, rt: Runtime)
    ensures ProposedOrderAsWritten(thesis, snapshot, rt).Ok? ==>
              ProposedOrder(thesis, snapshot, rt) == ProposedOrderAsWritten(thesis, snapshot, rt)
    ensures ProposedOrderAsWritten(thesis, snapshot, rt).Err? && ProposedOrder(thesis, snapshot, rt).Ok? ==>
              ProposedOrder(thesis, snapshot, rt) == Ok(None)
  {
  }

  /** The proposed order as the trade log records it: the order's dict, or None. */
  function OrderJson(order: Option<Order>): (j: Json)
    ensures j.JNull? <==> order.None?
    ensures order.Some? ==> j.JObj? && UniqueKeys(j.fields)
                            && Get(j.fields, "ticker") == Some(JStr(order.value.ticker))
                            && Get(j.fields, "side") == Some(JStr(order.value.side))
  {
    match order
    case None => JNull
    case Some(o) =>
      var fields := [("ticker", JStr(o.ticker)), ("side", JStr(o.side)),
                     ("quantity", JNum(o.quantity as real)), ("price", JNum(o.price))];
      assert forall i :: 0 <= i < |fields| ==> fields[i].0[0] == ['t', 's', 'q', 'p'][i];
      assert Get(fields, "side") == Some(JStr(o.side)) by { GetUnique(fields, 1); }
      assert Get(fields, "ticker") == Some(JStr(o.ticker)) by { GetUnique(fields, 0); }
      JObj(fields)
  }

  /** An approval request that was answered: the thesis, the order proposed
      with it, and the operator's decision label. */
  datatype Request = Request(thesis: Thesis, order: Option<Order>, decision: string)

  /** What the daily loop has produced: the theses evaluated, the approval
      requests answered, the orders placed, the operator's lines not yet read
      by the approval prompt, and the exception that ended it, if any. */
  datatype RunState = RunState(theses: seq<Thesis>, requests: seq<Request>, orders: seq<Order>,
                               input: seq<string>, error: Option<string>)

  /** The services the loop calls: fetching a security's fundamentals and news
      and evaluating them. The engine reads the first purchase of a held
      security back from the thesis log the loop appends to, so an evaluation
      is given the theses this run has logged so far. */
  datatype Services = Services(
    evaluate: (Json, seq<Thesis>) -> Result<Thesis>,
    rt: Runtime)

  predicate Actionable(t: Thesis) {
    t.recommendation == BUY || t.recommendation == EXIT
  }

  /** One pass of the loop body for one shortlist entry; an exception ends the loop. */
  function Visit(s: RunState, entry: Json, svc: Services): RunState {
    if s.error.Some? then s
    else if !entry.JObj? then s.(error := Some("AttributeError: object has no attribute 'get'"))
    else
      var ticker := TickerSymbol(entry.fields);
      if !Truthy(ticker) then s
      else
        match svc.evaluate(ticker, s.theses)
        case Err(e) => s.(error := Some(e))
        case Ok(thesis) => Propose(s.(theses := s.theses + [thesis]), thesis, entry.fields, svc)
  }

  /** The rest of the loop body once the thesis is logged: the order proposed,
      and for BUY and EXIT the approval prompt, which reads the operator's
      lines up to the first y, n or s and raises when they run out, and the
      order if approved. */
  function Propose(s: RunState, thesis: Thesis, snapshot: seq<(string, Json)>, svc: Services): RunState {
    match ProposedOrderAsWritten(thesis, snapshot, svc.rt)
    case Err(e) => s.(error := Some(e))
    case Ok(order) =>
      if !Actionable(thesis) then s else Ask(s, thesis, order)
  }

  /** The approval prompt: the operator's lines are read up to the first y, n
      or s, whose decision is recorded with the proposed order, and the order
      is placed when the answer is y; reading past the last line raises. */
  function Ask(s: RunState, thesis: Thesis, order: Option<Order>): RunState {
    match Approvals.AnswerAt(s.input)
    case None => s.(input := [], error := Some(Approvals.NoInput))
    case Some(k) =>
      var answer := Approvals.Cleaned(s.input[k]);
      var asked := s.(input := s.input[k + 1..], requests := s.requests + [Request(thesis, order, Approvals.DecisionLabel(answer))]);
      if answer == "y" && order.Some? then asked.(orders := s.orders + [order.value]) else asked
  }

  /** Before the loop: nothing evaluated, and every line the operator will type still unread. */
  function Initial(typed: seq<string>): RunState {
    RunState([], [], [], typed, None)
  }

  /** The loop over the first entries, the operator typing `typed` at the prompts. */
  function Replay(entries: seq<Json>, typed: seq<string>, svc: Services): RunState {
    if entries == [] then Initial(typed)
    else Visit(Replay(entries[..|entries| - 1], typed, svc), entries[|entries| - 1], svc)
  }

  /** Once an exception is raised no later entry is looked at. */
  lemma {:induction false} ReplaySticky(entries: seq<Json>, n: nat, typed: seq<string>, svc: Services)
    requires n <= |entries| && Replay(entries[..n], typed, svc).error.Some?
    ensures Replay(entries, typed, svc) == Replay(entries[..n], typed, svc)
  {
    if n < |entries| {
      assert entries[..|entries| - 1][..n] == entries[..n];
      ReplaySticky(entries[..|entries| - 1], n, typed, svc);
    } else {
      assert entries[..n] == entries;
    }
  }

  /** A BUY for an entry whose close and previous close are both 0 raises in
      the order proposal: the thesis is kept, no approval is asked, and the
      run stops there. */
  lemma VisitZeroPriceAborts(s: RunState, thesis: Thesis, svc: Services)
    requires s.error.None? && thesis.recommendation == BUY
    requires svc.evaluate(JStr("X"), s.theses) == Ok(thesis)
    ensures var r := Visit(s, JObj([("code", JStr("X")), ("close", JNum(0.0)), ("previousClose", JNum(0.0))]), svc);
            && r.error.Some? && r.theses == s.theses + [thesis]
            && r.requests == s.requests && r.orders == s.orders && r.input == s.input
  {
    var fields := [("code", JStr("X")), ("close", JNum(0.0)), ("previousClose", JNum(0.0))];
    assert fields[..2] == [("code", JStr("X")), ("close", JNum(0.0))];
    assert fields[..2][..1] == [("code", JStr("X"))];
    assert Get(fields[..2][..1], "code") == Some(JStr("X"));
    assert Get(fields[..2], "code") == Some(JStr("X"));
    assert Get(fields, "code") == Some(JStr("X"));
    assert TickerSymbol(fields) == JStr("X");
    ZeroPriceAborts(thesis, svc.rt);
    assert PriceField(fields) == PriceField([("close", JNum(0.0)), ("previousClose", JNum(0.0))]) by {
      assert Field(fields, "close") == JNum(0.0);
      assert Field(fields, "previousClose") == JNum(0.0);
    }
  }

  /** Over a whole run: once such an entry is reached, the entries after it
      are never evaluated and the summary e-mail is not sent. */
  lemma ReplayZeroPriceAborts(entries: seq<Json>, n: nat, typed: seq<string>, thesis: Thesis, svc: Services)
    requires n < |entries| && Replay(entries[..n], typed, svc).error.None?
    requires entries[n] == JObj([("code", JStr("X")), ("close", JNum(0.0)), ("previousClose", JNum(0.0))])
    requires thesis.recommendation == BUY && svc.evaluate(JStr("X"), Replay(entries[..n], typed, svc).theses) == Ok(thesis)
    ensures Replay(entries, typed, svc).error.Some?
    ensures Replay(entries, typed, svc).theses == Replay(entries[..n], typed, svc).theses + [thesis]
  {
    assert entries[..n + 1][..n] == entries[..n];
    VisitZeroPriceAborts(Replay(entries[..n], typed, svc), thesis, svc);
    ReplaySticky(entries, n + 1, typed, svc);
  }

  /** The approval prompt: when no remaining line is y, n or s, reading raises EOFError, nothing is
      recorded and the run ends; otherwise the lines up to the first answer
      are consumed, the decision is recorded with the proposed order, and the
      order is placed exactly when the answer is y and an order was proposed. */
  lemma AskReads(s: RunState, thesis: Thesis, order: Option<Order>)
    requires s.error.None?
    ensures var r := Ask(s, thesis, order);
            && r.theses == s.theses
            && ((forall j :: 0 <= j < |s.input| ==> !Approvals.IsAnswer(Approvals.Cleaned(s.input[j])))
                <==> r.error == Some(Approvals.NoInput))
            && (r.error.Some? ==> r.requests == s.requests && r.orders == s.orders && r.input == [])
            && (r.error.None? ==>
                  exists k :: 0 <= k < |s.input| && Approvals.IsAnswer(Approvals.Cleaned(s.input[k]))
                    && (forall j :: 0 <= j < k ==> !Approvals.IsAnswer(Approvals.Cleaned(s.input[j])))
                    && r.input == s.input[k + 1..]
                    && r.requests == s.requests + [Request(thesis, order, Approvals.DecisionLabel(Approvals.Cleaned(s.input[k])))]
                    && r.orders == s.orders + (if Approvals.Cleaned(s.input[k]) == "y" && order.Some? then [order.value] else []))
  {
    var k := Approvals.AnswerAt(s.input);
    if k.Some? {
      assert Approvals.IsAnswer(Approvals.Cleaned(s.input[k.value]));
    }
  }

  /** Over a whole run: when an actionable thesis reaches the prompt after the
      operator's lines hold no more answers, the run raises there, so no later
      entry is evaluated and the summary e-mail is not sent. */
  lemma ReplayWithoutAnswerAborts(entries: seq<Json>, n: nat, typed: seq<string>, svc: Services)
    requires n < |entries| && Replay(entries[..n], typed, svc).error.None?
    requires var s := Replay(entries[..n], typed, svc);
             && forall j :: 0 <= j < |s.input| ==> !Approvals.IsAnswer(Approvals.Cleaned(s.input[j]))
    requires entries[n].JObj? && Truthy(TickerSymbol(entries[n].fields))
    requires var s := Replay(entries[..n], typed, svc);
             var e := svc.evaluate(TickerSymbol(entries[n].fields), s.theses);
             && e.Ok? && Actionable(e.value) && ProposedOrderAsWritten(e.value, entries[n].fields, svc.rt).Ok?
    ensures Replay(entries, typed, svc).error == Some(Approvals.NoInput)
    ensures Replay(entries, typed, svc).requests == Replay(entries[..n], typed, svc).requests
  {
    var s := Replay(entries[..n], typed, svc);
    var thesis := svc.evaluate(TickerSymbol(entries[n].fields), s.theses).value;
    assert entries[..n + 1][..n] == entries[..n];
    var logged := s.(theses := s.theses + [thesis]);
    var order := ProposedOrderAsWritten(thesis, entries[n].fields, svc.rt).value;
    assert Propose(logged, thesis, entries[n].fields, svc) == Ask(logged, thesis, order);
    AskReads(logged, thesis, order);
    ReplaySticky(entries, n + 1, typed, svc);
  }

  /** The entries that name a security. */
  function Named(entries: seq<Json>): (r: seq<Json>)
    ensures |r| <= |entries|
    ensures forall k :: 0 <= k < |r| ==> r[k].JObj?
  {
    if entries == [] then []
    else
      var last := entries[|entries| - 1];
      Named(entries[..|entries| - 1]) + (if last.JObj? && Truthy(TickerSymbol(last.fields)) then [last] else [])
  }

  function RequestTheses(requests: seq<Request>): seq<Thesis> {
    seq(|requests|, i requires 0 <= i < |requests| => requests[i].thesis)
  }

  function ActionableOf(theses: seq<Thesis>): seq<Thesis> {
    if theses == [] then []
    else ActionableOf(theses[..|theses| - 1]) + (if Actionable(theses[|theses| - 1]) then [theses[|theses| - 1]] else [])
  }

  /** A run that ends without an exception evaluates every entry naming a
      security, in order, each against the theses logged before it, and asks
      for approval exactly for its BUY and EXIT theses, in order. */
  lemma {:induction false} ReplayEvaluatesNamed(entries: seq<Json>, typed: seq<string>, svc: Services)
    requires Replay(entries, typed, svc).error.None?
    ensures |Replay(entries, typed, svc).theses| == |Named(entries)|
    ensures forall k :: 0 <= k < |Named(entries)| ==>
              svc.evaluate(TickerSymbol(Named(entries)[k].fields), Replay(entries, typed, svc).theses[..k])
              == Ok(Replay(entries, typed, svc).theses[k])
    ensures RequestTheses(Replay(entries, typed, svc).requests) == ActionableOf(Replay(entries, typed, svc).theses)
  {
    if entries != [] {
      var pre, last := entries[..|entries| - 1], entries[|entries| - 1];
      ReplayEvaluatesNamed(pre, typed, svc);
      var st, r := Replay(pre, typed, svc), Replay(entries, typed, svc);
      assert r == Visit(st, last, svc);
      VisitRecords(st, last, svc);
      if last.JObj? && Truthy(TickerSymbol(last.fields)) {
        var thesis := svc.evaluate(TickerSymbol(last.fields), st.theses).value;
        ActionableSnoc(st.theses, thesis);
        assert Named(entries) == Named(pre) + [last];
        EvaluationsSnoc(Named(pre), st.theses, last, thesis, svc);
      } else {
        assert Named(entries) == Named(pre) + [];
      }
    }
  }

  /** Appending a named entry and the thesis evaluated for it against all
      earlier theses keeps every thesis the evaluation of its entry against
      those before it. */
  lemma EvaluationsSnoc(named: seq<Json>, theses: seq<Thesis>, last: Json, thesis: Thesis, svc: Services)
    requires |theses| == |named| && last.JObj? && forall k :: 0 <= k < |named| ==> named[k].JObj?
    requires forall k :: 0 <= k < |named| ==>
               svc.evaluate(TickerSymbol(named[k].fields), theses[..k]) == Ok(theses[k])
    requires svc.evaluate(TickerSymbol(last.fields), theses) == Ok(thesis)
    ensures forall k :: 0 <= k < |named| + 1 ==>
              svc.evaluate(TickerSymbol((named + [last])[k].fields), (theses + [thesis])[..k])
              == Ok((theses + [thesis])[k])
  {
    forall k | 0 <= k < |named| + 1
      ensures svc.evaluate(TickerSymbol((named + [last])[k].fields), (theses + [thesis])[..k])
              == Ok((theses + [thesis])[k])
    {
      if k < |named| {
        assert (theses + [thesis])[..k] == theses[..k];
      } else {
        assert (theses + [thesis])[..k] == theses;
      }
    }
  }

  /** A visit that raises nothing adds the thesis of a named entry, and asks
      approval for it exactly when it is actionable. */
  lemma VisitRecords(s: RunState, entry: Json, svc: Services)
    requires Visit(s, entry, svc).error.None?
    ensures var r := Visit(s, entry, svc);
            && s.error.None?
            && (entry.JObj? && Truthy(TickerSymbol(entry.fields)) ==>
                  && svc.evaluate(TickerSymbol(entry.fields), s.theses).Ok?
                  && var thesis := svc.evaluate(TickerSymbol(entry.fields), s.theses).value;
                  && r.theses == s.theses + [thesis]
                  && RequestTheses(r.requests)
                     == RequestTheses(s.requests) + (if Actionable(thesis) then [thesis] else []))
            && (!(entry.JObj? && Truthy(TickerSymbol(entry.fields))) ==> r == s)
  {
    if entry.JObj? && Truthy(TickerSymbol(entry.fields)) {
      var thesis := svc.evaluate(TickerSymbol(entry.fields), s.theses).value;
      ProposeRecords(s.(theses := s.theses + [thesis]), thesis, entry.fields, svc);
    }
  }

  /** The rest of a visit keeps the theses and asks approval exactly for an
      actionable thesis. */
  lemma ProposeRecords(s: RunState, thesis: Thesis, snapshot: seq<(string, Json)>, svc: Services)
    requires Propose(s, thesis, snapshot, svc).error.None?
    ensures var r := Propose(s, thesis, snapshot, svc);
            && r.theses == s.theses
            && RequestTheses(r.requests) == RequestTheses(s.requests) + (if Actionable(thesis) then [thesis] else [])
  {
    var r := Propose(s, thesis, snapshot, svc);
    if Actionable(thesis) {
      var order := ProposedOrderAsWritten(thesis, snapshot, svc.rt).value;
      var k := Approvals.AnswerAt(s.input).value;
      assert r.requests == s.requests + [Request(thesis, order, Approvals.DecisionLabel(Approvals.Cleaned(s.input[k])))];
      assert RequestTheses(r.requests) == RequestTheses(s.requests) + [thesis];
    } else {
      assert r.requests == s.requests;
      assert RequestTheses(s.requests) + [] == RequestTheses(s.requests);
    }
  }

  /** The actionable theses of a longer list. */
  lemma ActionableSnoc(theses: seq<Thesis>, t: Thesis)
    ensures ActionableOf(theses + [t]) == ActionableOf(theses) + (if Actionable(t) then [t] else [])
  {
    assert (theses + [t])[..|theses|] == theses;
  }

  /** Approval was asked only for BUY and EXIT theses, and every order placed
      answers a request that the operator approved and that came with that
      proposed order. */
  ghost predicate Gated(st: RunState) {
    (forall j :: 0 <= j < |st.requests| ==> Actionable(st.requests[j].thesis))
    && (forall k :: 0 <= k < |st.orders| ==>
          exists j :: 0 <= j < |st.requests| && st.requests[j].order == Some(st.orders[k])
                      && st.requests[j].decision == "approved")
  }

  lemma GatedKept(s: RunState, r: RunState)
    requires Gated(s) && r.requests == s.requests && r.orders == s.orders
    ensures Gated(r)
  {
    forall k | 0 <= k < |r.orders|
      ensures exists i :: 0 <= i < |r.requests| && r.requests[i].order == Some(r.orders[k])
                          && r.requests[i].decision == "approved"
    {
      var i :| 0 <= i < |s.requests| && s.requests[i].order == Some(s.orders[k])
               && s.requests[i].decision == "approved";
      assert r.requests[i] == s.requests[i];
      assert 0 <= i < |r.requests| && r.requests[i].order == Some(r.orders[k])
             && r.requests[i].decision == "approved";
    }
    assert forall k :: 0 <= k < |r.orders| ==>
      exists j :: 0 <= j < |r.requests| && r.requests[j].order == Some(r.orders[k])
                  && r.requests[j].decision == "approved";
  }

  lemma VisitGated(s: RunState, entry: Json, svc: Services)
    requires Gated(s)
    ensures Gated(Visit(s, entry, svc))
  {
    var r := Visit(s, entry, svc);
    if s.error.None? && entry.JObj? && Truthy(TickerSymbol(entry.fields)) {
      var evaluated := svc.evaluate(TickerSymbol(entry.fields), s.theses);
      if evaluated.Ok? {
        var logged := s.(theses := s.theses + [evaluated.value]);
        GatedKept(s, logged);
        ProposeGated(logged, evaluated.value, entry.fields, svc);
      } else {
        GatedKept(s, r);
      }
    } else {
      GatedKept(s, r);
    }
  }

  lemma ProposeGated(s: RunState, thesis: Thesis, snapshot: seq<(string, Json)>, svc: Services)
    requires Gated(s)
    ensures Gated(Propose(s, thesis, snapshot, svc))
  {
    var r := Propose(s, thesis, snapshot, svc);
    var proposed := ProposedOrderAsWritten(thesis, snapshot, svc.rt);
    if !(proposed.Ok? && Actionable(thesis)) || Approvals.AnswerAt(s.input).None? {
      GatedKept(s, r);
    } else {
      var answer := Approvals.Cleaned(s.input[Approvals.AnswerAt(s.input).value]);
      var q := Request(thesis, proposed.value, Approvals.DecisionLabel(answer));
      var placed := answer == "y" && proposed.value.Some?;
      GatedAsk(s, q, placed, r);
    }
  }

  /** Appending an actionable request, and its order only when it was approved,
      keeps the loop gated. */
  lemma GatedAsk(s: RunState, q: Request, placed: bool, r: RunState)
    requires Gated(s) && Actionable(q.thesis)
    requires placed ==> q.order.Some? && q.decision == "approved"
    requires r.requests == s.requests + [q]
    requires r.orders == s.orders + (if placed then [q.order.value] else [])
    ensures Gated(r)
  {
    var n := |s.requests|;
    forall i | 0 <= i < |r.requests| ensures Actionable(r.requests[i].thesis) {
      if i < n {
        assert r.requests[i] == s.requests[i];
      } else {
        assert r.requests[i] == q;
      }
    }
    forall k | 0 <= k < |r.orders|
      ensures exists j :: 0 <= j < |r.requests| && r.requests[j].order == Some(r.orders[k])
                          && r.requests[j].decision == "approved"
    {
      if k < |s.orders| {
        assert r.orders[k] == s.orders[k];
        var i :| 0 <= i < |s.requests| && s.requests[i].order == Some(s.orders[k])
                 && s.requests[i].decision == "approved";
        assert r.requests[i] == s.requests[i];
        assert 0 <= i < |r.requests| && r.requests[i].order == Some(r.orders[k])
               && r.requests[i].decision == "approved";
      } else {
        assert placed && r.orders[k] == q.order.value;
        assert r.requests[n] == q;
        assert 0 <= n < |r.requests| && r.requests[n].order == Some(r.orders[k])
               && r.requests[n].decision == "approved";
      }
    }
    assert forall k :: 0 <= k < |r.orders| ==>
      exists j :: 0 <= j < |r.requests| && r.requests[j].order == Some(r.orders[k])
                  && r.requests[j].decision == "approved";
  }

  /** Approval is asked only for BUY and EXIT theses, and an order is placed
      only for a request that the operator approved and that came with a
      proposed order. */
  lemma {:induction false} ReplayOrdersApproved(entries: seq<Json>, typed: seq<string>, svc: Services)
    ensures Gated(Replay(entries, typed, svc))
  {
    if entries != [] {
      ReplayOrdersApproved(entries[..|entries| - 1], typed, svc);
      VisitGated(Replay(entries[..|entries| - 1], typed, svc), entries[|entries| - 1], svc);
    }
  }

  /** The trade-log record the approval prompt writes for an answered request. */
  function TradeRecord(q: Request): (r: seq<(string, Json)>)
    ensures UniqueKeys(r)
    ensures Get(r, "decision") == Some(JStr(q.decision)) && Get(r, "ticker") == Some(JStr(q.thesis.ticker))
  {
    Approvals.DecisionRecord(q.thesis, q.decision, OrderJson(q.order))
  }

  /** The answered requests as lines of the trade log, each stamped with the time of the run. */
  function TradeLines(requests: seq<Request>, ts: string): seq<DecisionLog.LogLine> {
    seq(|requests|, i requires 0 <= i < |requests| => DecisionLog.Record(JObj(DecisionLog.Stamped(TradeRecord(requests[i]), ts))))
  }

  lemma TradeLinesAppend(requests: seq<Request>, q: Request, ts: string)
    ensures TradeLines(requests + [q], ts) == TradeLines(requests, ts) + [DecisionLog.Record(JObj(DecisionLog.Stamped(TradeRecord(q), ts)))]
  {
  }

  /** The theses as lines of the thesis log, each stamped with the time of the run. */
  function LogLines(theses: seq<Thesis>, ts: string): seq<DecisionLog.LogLine> {
    seq(|theses|, i requires 0 <= i < |theses| => Engine.ThesisLine(theses[i], ts))
  }

  lemma LogLinesAppend(theses: seq<Thesis>, t: Thesis, ts: string)
    ensures LogLines(theses + [t], ts) == LogLines(theses, ts) + [Engine.ThesisLine(t, ts)]
  {
  }

  /** The theses with a given recommendation, in evaluation order. */
  function Group(theses: seq<Thesis>, rec: Recommendation): (g: seq<Thesis>)
    ensures forall t :: t in g <==> t in theses && t.recommendation == rec
  {
    if theses == [] then []
    else Group(theses[..|theses| - 1], rec)
         + (if theses[|theses| - 1].recommendation == rec then [theses[|theses| - 1]] else [])
  }

  function Conviction(t: Thesis): real { t.conviction }

  /** `sorted(buys, key=conviction, reverse=True)`. */
  function BuyOrder(theses: seq<Thesis>): seq<Thesis> {
    Sorting.SortBy(Group(theses, BUY), Sorting.DescendingBy(Conviction))
  }

  /** `sorted(exits, key=conviction)`. */
  function ExitOrder(theses: seq<Thesis>): seq<Thesis> {
    Sorting.SortBy(Group(theses, EXIT), Sorting.AscendingBy(Conviction))
  }

  function HoldOrder(theses: seq<Thesis>): seq<Thesis> {
    Sorting.SortBy(Group(theses, HOLD), Sorting.DescendingBy(Conviction))
  }

  /** The top five holds by conviction. */
  function ShownHolds(theses: seq<Thesis>): seq<Thesis> {
    var sorted := HoldOrder(theses);
    if |sorted| <= 5 then sorted else sorted[..5]
  }

  /** `", ".join(xs) if xs else "None"`. */
  function OrNone(xs: seq<string>): string {
    if xs == [] then "None" else Text.Join(xs, ", ")
  }

  function BuyBlock(t: Thesis, rt: Runtime): seq<string> {
    ["\n" + t.ticker + " - Conviction: " + rt.fixed2(t.conviction),
     "  Quantitative: " + rt.fixed2(t.quantitativeScore) + " | Qualitative: " + rt.fixed2(t.qualitativeScore),
     "  Catalysts: " + OrNone(t.catalysts),
     "  Risks: " + OrNone(t.risks)]
  }

  function ExitBlock(t: Thesis, rt: Runtime): seq<string> {
    ["\n" + t.ticker + " - Conviction: " + rt.fixed2(t.conviction),
     "  Quantitative: " + rt.fixed2(t.quantitativeScore) + " | Qualitative: " + rt.fixed2(t.qualitativeScore),
     "  Risks: " + OrNone(t.risks)]
  }

  function HoldLine(t: Thesis, rt: Runtime): string {
    "  " + t.ticker + ": " + rt.fixed2(t.conviction) + " (Q:" + rt.fixed2(t.quantitativeScore)
    + " QL:" + rt.fixed2(t.qualitativeScore) + ")"
  }

  function TrimLine(t: Thesis, rt: Runtime): string {
    "  " + t.ticker + ": " + rt.fixed2(t.conviction)
  }

  function BuyBlocks(ts: seq<Thesis>, rt: Runtime): seq<string> {
    if ts == [] then [] else BuyBlocks(ts[..|ts| - 1], rt) + BuyBlock(ts[|ts| - 1], rt)
  }

  function ExitBlocks(ts: seq<Thesis>, rt: Runtime): seq<string> {
    if ts == [] then [] else ExitBlocks(ts[..|ts| - 1], rt) + ExitBlock(ts[|ts| - 1], rt)
  }

  function HoldLines(ts: seq<Thesis>, rt: Runtime): seq<string> {
    seq(|ts|, i requires 0 <= i < |ts| => HoldLine(ts[i], rt))
  }

  function TrimLines(ts: seq<Thesis>, rt: Runtime): seq<string> {
    seq(|ts|, i requires 0 <= i < |ts| => TrimLine(ts[i], rt))
  }

  function SummaryHeader(theses: seq<Thesis>, date: string): seq<string> {
    [Text.Rule, "AI INVESTOR - DAILY SUMMARY", Text.Rule, "",
     "Analysis Date: " + date,
     "Total Securities Evaluated: " + Text.IntToString(|theses|),
     ""]
  }

  function BuySection(theses: seq<Thesis>, rt: Runtime): seq<string> {
    if Group(theses, BUY) == [] then []
    else ["BUY RECOMMENDATIONS:", Text.Dashes] + BuyBlocks(BuyOrder(theses), rt)
  }

  function ExitSection(theses: seq<Thesis>, rt: Runtime): seq<string> {
    if Group(theses, EXIT) == [] then []
    else ["", "EXIT RECOMMENDATIONS:", Text.Dashes] + ExitBlocks(ExitOrder(theses), rt)
  }

  function HoldSection(theses: seq<Thesis>, rt: Runtime): seq<string> {
    var holds := Group(theses, HOLD);
    if holds == [] then []
    else ["", "HOLD RECOMMENDATIONS: " + Text.IntToString(|holds|) + " positions", Text.Dashes]
         + HoldLines(ShownHolds(theses), rt)
  }

  function TrimSection(theses: seq<Thesis>, rt: Runtime): seq<string> {
    var trims := Group(theses, TRIM);
    if trims == [] then []
    else ["", "TRIM RECOMMENDATIONS: " + Text.IntToString(|trims|) + " positions"] + TrimLines(trims, rt)
  }

  const SummaryFooter: seq<string> :=
    ["", Text.Rule, "This is an automated investment analysis report.",
     "All recommendations require manual approval before execution.", Text.Rule]

  function SummaryLines(theses: seq<Thesis>, date: string, rt: Runtime): seq<string> {
    SummaryHeader(theses, date) + BuySection(theses, rt) + ExitSection(theses, rt)
    + HoldSection(theses, rt) + TrimSection(theses, rt) + SummaryFooter
  }

  /** The body of the daily summary e-mail; no e-mail without theses. */
  function SummaryEmail(theses: seq<Thesis>, date: string, rt: Runtime): (r: Option<string>)
    ensures r.None? <==> theses == []
  {
    if theses == [] then None else Some(Text.Join(SummaryLines(theses, date, rt), "\n"))
  }

  /** Every thesis falls in exactly one of the four groups. */
  lemma {:induction false} GroupsPartition(theses: seq<Thesis>)
    ensures |Group(theses, BUY)| + |Group(theses, HOLD)| + |Group(theses, TRIM)| + |Group(theses, EXIT)| == |theses|
  {
    if theses != [] {
      GroupsPartition(theses[..|theses| - 1]);
    }
  }

  /** The BUYs are listed by conviction from highest to lowest, all of them,
      and in evaluation order among equal convictions. */
  lemma BuyOrderFacts(theses: seq<Thesis>, y: Thesis)
    ensures Sorting.Sorted(BuyOrder(theses), Sorting.DescendingBy(Conviction))
    ensures multiset(BuyOrder(theses)) == multiset(Group(theses, BUY))
    ensures Sorting.TiesOf(BuyOrder(theses), Sorting.DescendingBy(Conviction), y)
            == Sorting.TiesOf(Group(theses, BUY), Sorting.DescendingBy(Conviction), y)
  {
    Sorting.DescendingIsPreorder(Conviction);
    Sorting.SortBySorted(Group(theses, BUY), Sorting.DescendingBy(Conviction));
    Sorting.SortByStable(Group(theses, BUY), Sorting.DescendingBy(Conviction), y);
  }

  /** The EXITs are listed by conviction from lowest to highest, all of them,
      and in evaluation order among equal convictions. */
  lemma ExitOrderFacts(theses: seq<Thesis>, y: Thesis)
    ensures Sorting.Sorted(ExitOrder(theses), Sorting.AscendingBy(Conviction))
    ensures multiset(ExitOrder(theses)) == multiset(Group(theses, EXIT))
    ensures Sorting.TiesOf(ExitOrder(theses), Sorting.AscendingBy(Conviction), y)
            == Sorting.TiesOf(Group(theses, EXIT), Sorting.AscendingBy(Conviction), y)
  {
    Sorting.AscendingIsPreorder(Conviction);
    Sorting.SortBySorted(Group(theses, EXIT), Sorting.AscendingBy(Conviction));
    Sorting.SortByStable(Group(theses, EXIT), Sorting.AscendingBy(Conviction), y);
  }

  /** At most five holds are shown, all of them holds, and none left out has a
      higher conviction than one shown. */
  lemma ShownHoldsFacts(theses: seq<Thesis>)
    ensures |ShownHolds(theses)| == if |Group(theses, HOLD)| <= 5 then |Group(theses, HOLD)| else 5
    ensures forall t :: t in ShownHolds(theses) ==> t.recommendation == HOLD
    ensures forall i, j :: 0 <= i < |ShownHolds(theses)| <= j < |HoldOrder(theses)| ==>
              ShownHolds(theses)[i].conviction >= HoldOrder(theses)[j].conviction
  {
    var desc := Sorting.DescendingBy(Conviction);
    Sorting.DescendingIsPreorder(Conviction);
    Sorting.SortBySorted(Group(theses, HOLD), desc);
    var holds := HoldOrder(theses);
    var shown := ShownHolds(theses);
    assert shown == holds[..|shown|];
    forall t | t in shown ensures t.recommendation == HOLD {
      assert t in multiset(holds);
    }
    forall i, j | 0 <= i < |shown| <= j < |holds|
      ensures shown[i].conviction >= holds[j].conviction
    {
      assert Sorting.Sorted(holds, desc);
      assert desc(holds[i], holds[j]);
      assert shown[i] == holds[i];
      assert Conviction(holds[i]) >= Conviction(holds[j]);
    }
  }

  /** The daily run: the thesis log, the approval gateway with its trade log,
      and the summary e-mail. */
  class DailyOrchestrator {
    const thesisLog: DecisionLog.JsonlLogger
    const approvals: Approvals.CliApprovalGateway

    constructor (thesisLog: DecisionLog.JsonlLogger, approvals: Approvals.CliApprovalGateway)
      ensures this.thesisLog == thesisLog && this.approvals == approvals
    {
      this.thesisLog := thesisLog;
      this.approvals := approvals;
    }

    /** `run`: each shortlist entry naming a security is evaluated, its thesis
        logged and kept, approval asked for BUY and EXIT from the operator's
        lines with each decision written to the trade log, and an approved
        order placed; without an exception the summary e-mail follows. One
        clock reading `now` stamps every log line. */
    method Run(entries: seq<Json>, svc: Services, now: Instant, date: string)
      returns (state: RunState, email: Option<string>)
      requires thesisLog.file != approvals.logger.file
      modifies thesisLog.file, approvals, approvals.logger.file
      ensures state == Replay(entries, old(approvals.input), svc)
      ensures approvals.input == state.input
      ensures thesisLog.file.lines == old(thesisLog.file.lines) + LogLines(state.theses, svc.rt.toIso(now))
      ensures approvals.logger.file.lines == old(approvals.logger.file.lines) + TradeLines(state.requests, svc.rt.toIso(now))
      ensures email == if state.error.None? then SummaryEmail(state.theses, date, svc.rt) else None
    {
      var ts := svc.rt.toIso(now);
      var typed := approvals.input;
      state := Initial(typed);
      var i := 0;
      while i < |entries| && state.error.None?
        invariant 0 <= i <= |entries|
        invariant state == Replay(entries[..i], typed, svc)
        invariant approvals.input == state.input
        invariant thesisLog.file.lines == old(thesisLog.file.lines) + LogLines(state.theses, ts)
        invariant approvals.logger.file.lines == old(approvals.logger.file.lines) + TradeLines(state.requests, ts)
      {
        assert entries[..i + 1][..i] == entries[..i];
        state := Step(state, entries[i], svc, now, old(thesisLog.file.lines), old(approvals.logger.file.lines));
        i := i + 1;
      }
      if state.error.Some? {
        ReplaySticky(entries, i, typed, svc);
        email := None;
      } else {
        assert entries[..i] == entries;
        email := SendSummaryEmail(state.theses, date, svc.rt);
      }
    }

    /** The loop body for one entry: the thesis is logged before the order is proposed. */
    method Step(state: RunState, entry: Json, svc: Services, now: Instant,
                ghost base: seq<DecisionLog.LogLine>, ghost tradeBase: seq<DecisionLog.LogLine>)
      returns (next: RunState)
      requires state.error.None? && thesisLog.file != approvals.logger.file
      requires approvals.input == state.input
      requires thesisLog.file.lines == base + LogLines(state.theses, svc.rt.toIso(now))
      requires approvals.logger.file.lines == tradeBase + TradeLines(state.requests, svc.rt.toIso(now))
      modifies thesisLog.file, approvals, approvals.logger.file
      ensures next == Visit(state, entry, svc)
      ensures approvals.input == next.input
      ensures thesisLog.file.lines == base + LogLines(next.theses, svc.rt.toIso(now))
      ensures approvals.logger.file.lines == tradeBase + TradeLines(next.requests, svc.rt.toIso(now))
    {
      next := state;
      if !entry.JObj? {
        next := state.(error := Some("AttributeError: object has no attribute 'get'"));
        return;
      }
      var ticker := TickerSymbol(entry.fields);
      if !Truthy(ticker) {
        return;
      }
      var evaluated := svc.evaluate(ticker, state.theses);
      if evaluated.Err? {
        next := state.(error := Some(evaluated.error));
        return;
      }
      var thesis := evaluated.value;
      LogThesis(thesis, now, svc.rt, base, state.theses);
      next := ProposeOrder(state.(theses := state.theses + [thesis]), thesis, entry.fields, svc, now, tradeBase);
    }

    /** `self._thesis_log.append(thesis.dict())`. */
    method LogThesis(thesis: Thesis, now: Instant, rt: Runtime, ghost base: seq<DecisionLog.LogLine>, ghost logged: seq<Thesis>)
      requires thesisLog.file.lines == base + LogLines(logged, rt.toIso(now))
      modifies thesisLog.file
      ensures thesisLog.file.lines == base + LogLines(logged + [thesis], rt.toIso(now))
    {
      thesisLog.Append(ThesisJson(thesis).fields, now, rt);
      LogLinesAppend(logged, thesis, rt.toIso(now));
    }

    /** `_proposed_order`, then for BUY and EXIT the approval request and, when
        approved with an order, the mock order placed. */
    method ProposeOrder(s: RunState, thesis: Thesis, snapshot: seq<(string, Json)>, svc: Services, now: Instant,
                        ghost tradeBase: seq<DecisionLog.LogLine>)
      returns (next: RunState)
      requires approvals.input == s.input
      requires approvals.logger.file.lines == tradeBase + TradeLines(s.requests, svc.rt.toIso(now))
      modifies approvals, approvals.logger.file
      ensures next == Propose(s, thesis, snapshot, svc)
      ensures approvals.input == next.input
      ensures approvals.logger.file.lines == tradeBase + TradeLines(next.requests, svc.rt.toIso(now))
    {
      next := s;
      var proposed := ProposedOrderAsWritten(thesis, snapshot, svc.rt);
      if proposed.Err? {
        next := next.(error := Some(proposed.error));
        return;
      }
      if !Actionable(thesis) {
        return;
      }
      var result := approvals.Request(thesis, OrderJson(proposed.value), now, svc.rt);
      if result.Err? {
        next := next.(input := [], error := Some(result.error));
        return;
      }
      var q := Request(thesis, proposed.value, result.value.decision);
      TradeLinesAppend(s.requests, q, svc.rt.toIso(now));
      next := next.(input := approvals.input, requests := s.requests + [q]);
      if result.value.approved && proposed.value.Some? {
        next := next.(orders := s.orders + [proposed.value.value]);
      }
    }
  }

  /** `_send_summary_email`: the lines built group by group, joined by newlines. */
  method SendSummaryEmail(theses: seq<Thesis>, date: string, rt: Runtime) returns (email: Option<string>)
    ensures email == SummaryEmail(theses, date, rt)
  {
    if theses == [] {
      return None;
    }
    var lines := SummaryHeader(theses, date);
    var section := FormatBuys(theses, rt);
    lines := lines + section;
    section := FormatExits(theses, rt);
    lines := lines + section;
    section := FormatHolds(theses, rt);
    lines := lines + section;
    section := FormatTrims(theses, rt);
    lines := lines + section + SummaryFooter;
    email := Some(Text.Join(lines, "\n"));
  }

  /** The BUY blocks of the sorted theses, one after another. */
  method BuyBlocksOf(sorted: seq<Thesis>, rt: Runtime) returns (blocks: seq<string>)
    ensures blocks == BuyBlocks(sorted, rt)
  {
    blocks := [];
    for i := 0 to |sorted|
      invariant blocks == BuyBlocks(sorted[..i], rt)
    {
      assert sorted[..i + 1][..i] == sorted[..i];
      blocks := blocks + BuyBlock(sorted[i], rt);
    }
    assert sorted[..|sorted|] == sorted;
  }

  method FormatBuys(theses: seq<Thesis>, rt: Runtime) returns (lines: seq<string>)
    ensures lines == BuySection(theses, rt)
  {
    lines := [];
    if Group(theses, BUY) != [] {
      var sorted := BuyOrder(theses);
      var blocks := BuyBlocksOf(sorted, rt);
      lines := ["BUY RECOMMENDATIONS:", Text.Dashes] + blocks;
    }
  }

  /** The EXIT blocks of the sorted theses, one after another. */
  method ExitBlocksOf(sorted: seq<Thesis>, rt: Runtime) returns (blocks: seq<string>)
    ensures blocks == ExitBlocks(sorted, rt)
  {
    blocks := [];
    for i := 0 to |sorted|
      invariant blocks == ExitBlocks(sorted[..i], rt)
    {
      assert sorted[..i + 1][..i] == sorted[..i];
      blocks := blocks + ExitBlock(sorted[i], rt);
    }
    assert sorted[..|sorted|] == sorted;
  }

  method FormatExits(theses: seq<Thesis>, rt: Runtime) returns (lines: seq<string>)
    ensures lines == ExitSection(theses, rt)
  {
    lines := [];
    if Group(theses, EXIT) != [] {
      var sorted := ExitOrder(theses);
      var blocks := ExitBlocksOf(sorted, rt);
      lines := ["", "EXIT RECOMMENDATIONS:", Text.Dashes] + blocks;
    }
  }

  method FormatHolds(theses: seq<Thesis>, rt: Runtime) returns (lines: seq<string>)
    ensures lines == HoldSection(theses, rt)
  {
    lines := [];
    var holds := Group(theses, HOLD);
    if holds != [] {
      var head := ["", "HOLD RECOMMENDATIONS: " + Text.IntToString(|holds|) + " positions", Text.Dashes];
      var shown := ShownHolds(theses);
      var body: seq<string> := [];
      for i := 0 to |shown|
        invariant |body| == i
        invariant forall k :: 0 <= k < i ==> body[k] == HoldLine(shown[k], rt)
      {
        body := body + [HoldLine(shown[i], rt)];
      }
      assert body == HoldLines(shown, rt);
      lines := head + body;
    }
  }

  method FormatTrims(theses: seq<Thesis>, rt: Runtime) returns (lines: seq<string>)
    ensures lines == TrimSection(theses, rt)
  {
    lines := [];
    var trims := Group(theses, TRIM);
    if trims != [] {
      var body: seq<string> := [];
      for i := 0 to |trims|
        invariant |body| == i
        invariant forall k :: 0 <= k < i ==> body[k] == TrimLine(trims[k], rt)
      {
        body := body + [TrimLine(trims[i], rt)];
      }
      assert body == TrimLines(trims, rt);
      lines := ["", "TRIM RECOMMENDATIONS: " + Text.IntToString(|trims|) + " positions"] + body;
    }
  }
}
