/** The broker client in mock mode: an authentication flag, and a book of
    positions that `ListPositions` resets to two fixed holdings and
    `PlaceOrder` updates in place (a buy adds to a holding at the
    quantity-weighted average price or opens one, a sell reduces a holding and
    drops it at zero). Outside mock mode every operation raises. */
module Nordnet {
  import opened Common
  import Text

  /** One position of the mock book. */
  datatype Position = Position(
    ticker: string,
    name: string,
    quantity: int,
    averagePrice: real,
    currentPrice: real,
    marketValue: real,
    unrealizedPnl: real,
    unrealizedPnlPercent: real)

  /** The details `place_order` returns for a simulated order. */
  datatype OrderDetails = OrderDetails(
    orderId: string,
    ticker: string,
    side: string,
    quantity: int,
    price: real,
    totalValue: real,
    status: string,
    timestamp: string)

  /** The two positions every mock listing returns. */
  const MockPositions: seq<Position> := [
    Position("AAPL", "Apple Inc.", 10, 150.50, 175.20, 1752.00, 247.00, 16.41),
    Position("MSFT", "Microsoft Corporation", 5, 300.00, 350.75, 1753.75, 253.75, 16.92)
  ]

  const NotInMockMode: string := "NotImplementedError: Real Nordnet authentication not yet implemented"

  predicate UniqueTickers(book: seq<Position>) {
    forall i, j :: 0 <= i < j < |book| ==> book[i].ticker != book[j].ticker
  }

  /** `next(p for p in book if p["ticker"] == ticker)`: the first position of the ticker. */
  function FindIndex(book: seq<Position>, ticker: string): (r: Option<nat>)
    ensures r.Some? ==> r.value < |book| && book[r.value].ticker == ticker
                        && forall k :: 0 <= k < r.value ==> book[k].ticker != ticker
    ensures r.None? ==> forall k :: 0 <= k < |book| ==> book[k].ticker != ticker
  {
    if book == [] then None
    else if book[0].ticker == ticker then Some(0)
    else
      match FindIndex(book[1..], ticker)
      case None => None
      case Some(i) => Some(i + 1)
  }

  /** The position a buy of a ticker not yet held opens. */
  function Opened(ticker: string, quantity: int, price: real): Position {
    Position(ticker, ticker + " (Mock Position)", quantity, price, price, quantity as real * price, 0.0, 0.0)
  }

  /** The book after a mock order, and the exception it raised, if any. */
  function ApplyOrder(book: seq<Position>, ticker: string, side: string, quantity: int, price: real)
    : (r: (seq<Position>, Option<string>))
  {
    if Text.Lower(side) == "buy" then Bought(book, ticker, quantity, price)
    else if Text.Lower(side) == "sell" then (Sold(book, ticker, quantity), None)
    else (book, None)
  }

  /** A buy adds to the holding of the ticker or opens one. A buy adding to a
      holding whose quantity sums to zero stores that zero quantity and then
      fails to divide by it. */
  function Bought(book: seq<Position>, ticker: string, quantity: int, price: real)
    : (r: (seq<Position>, Option<string>))
  {
    match FindIndex(book, ticker)
    case Some(i) =>
      var p := book[i];
      var totalQty := p.quantity + quantity;
      var totalCost := p.quantity as real * p.averagePrice + quantity as real * price;
      if totalQty == 0 then (book[i := p.(quantity := 0)], Some("ZeroDivisionError: float division by zero"))
      else (book[i := p.(quantity := totalQty, averagePrice := totalCost / totalQty as real)], None)
    case None => (book + [Opened(ticker, quantity, price)], None)
  }

  /** `Bought` on a held ticker, written as the single update it makes. */
  lemma BoughtHeldBook(book: seq<Position>, ticker: string, quantity: int, price: real, i: nat, p: Position)
    requires FindIndex(book, ticker) == Some(i) && p == book[i]
    requires p.quantity + quantity != 0
    ensures Bought(book, ticker, quantity, price).0
            == book[i := p.(quantity := p.quantity + quantity,
                            averagePrice := (p.quantity as real * p.averagePrice + quantity as real * price)
                                            / (p.quantity + quantity) as real)]
  {
    var after := Bought(book, ticker, quantity, price).0;
    var want := book[i := p.(quantity := p.quantity + quantity,
                             averagePrice := (p.quantity as real * p.averagePrice + quantity as real * price)
                                             / (p.quantity + quantity) as real)];
    assert after[i] == want[i];
    assert forall k :: 0 <= k < |book| ==> after[k] == want[k];
  }

  /** A sell reduces the holding of the ticker, never below zero, and drops it at zero. */
  function Sold(book: seq<Position>, ticker: string, quantity: int): seq<Position> {
    match FindIndex(book, ticker)
    case Some(i) =>
      var left := if book[i].quantity - quantity >= 0 then book[i].quantity - quantity else 0;
      if left == 0 then book[..i] + book[i + 1..]
      else book[i := book[i].(quantity := left)]
    case None => book
  }

  /** Buying a held ticker adds the quantity and moves the average price to the
      quantity-weighted average of the old and the new shares; nothing else changes. */
  lemma BuyHeld(book: seq<Position>, ticker: string, side: string, quantity: int, price: real)
    requires Text.Lower(side) == "buy" && FindIndex(book, ticker).Some?
    requires book[FindIndex(book, ticker).value].quantity + quantity != 0
    ensures var i, after := FindIndex(book, ticker).value, ApplyOrder(book, ticker, side, quantity, price);
      && after.1.None? && |after.0| == |book|
      && after.0[i].quantity == book[i].quantity + quantity
      && after.0[i].averagePrice * (book[i].quantity + quantity) as real
         == book[i].quantity as real * book[i].averagePrice + quantity as real * price
      && after.0[i] == book[i].(quantity := after.0[i].quantity, averagePrice := after.0[i].averagePrice)
      && forall k :: 0 <= k < |book| && k != i ==> after.0[k] == book[k]
  {
  }

  /** Buying a ticker not held opens one position at the order price, with no
      profit or loss, after the others. */
  lemma BuyNew(book: seq<Position>, ticker: string, side: string, quantity: int, price: real)
    requires Text.Lower(side) == "buy" && FindIndex(book, ticker).None?
    ensures var after := ApplyOrder(book, ticker, side, quantity, price);
      && after.1.None? && after.0[..|book|] == book && |after.0| == |book| + 1
      && after.0[|book|].ticker == ticker && after.0[|book|].quantity == quantity
      && after.0[|book|].averagePrice == price && after.0[|book|].currentPrice == price
      && after.0[|book|].unrealizedPnl == 0.0
  {
    assert (book + [Opened(ticker, quantity, price)])[..|book|] == book;
  }

  /** Selling a held ticker leaves `max(0, held - sold)` shares, and drops the
      position exactly when none are left; the other positions keep their order. */
  lemma SellHeld(book: seq<Position>, ticker: string, side: string, quantity: int, price: real)
    requires Text.Lower(side) == "sell" && FindIndex(book, ticker).Some?
    ensures var i, after := FindIndex(book, ticker).value, ApplyOrder(book, ticker, side, quantity, price);
      && after.1.None?
      && (book[i].quantity <= quantity ==> after.0 == book[..i] + book[i + 1..])
      && (book[i].quantity > quantity ==>
            after.0 == book[i := book[i].(quantity := book[i].quantity - quantity)])
  {
  }

  /** Selling a ticker not held, or an order whose side is neither buy nor sell
      in any letter case, leaves the book as it is. */
  lemma OtherOrdersKeepBook(book: seq<Position>, ticker: string, side: string, quantity: int, price: real)
    requires (Text.Lower(side) == "sell" && FindIndex(book, ticker).None?)
             || (Text.Lower(side) != "buy" && Text.Lower(side) != "sell")
    ensures ApplyOrder(book, ticker, side, quantity, price) == (book, None)
  {
  }

  /** No order makes a ticker appear twice in the book. */
  lemma ApplyOrderKeepsTickersUnique(book: seq<Position>, ticker: string, side: string, quantity: int, price: real)
    requires UniqueTickers(book)
    ensures UniqueTickers(ApplyOrder(book, ticker, side, quantity, price).0)
  {
    var after := ApplyOrder(book, ticker, side, quantity, price).0;
    if Text.Lower(side) == "buy" && FindIndex(book, ticker).None? {
      assert after == book + [Opened(ticker, quantity, price)];
    } else if Text.Lower(side) == "sell" && FindIndex(book, ticker).Some? {
      var i := FindIndex(book, ticker).value;
      if after == book[..i] + book[i + 1..] {
        forall a, b | 0 <= a < b < |after| ensures after[a].ticker != after[b].ticker {
          var a', b' := if a < i then a else a + 1, if b < i then b else b + 1;
          assert after[a] == book[a'] && after[b] == book[b'];
        }
      }
    }
  }

  /** The mock broker session. */
  class NordnetClient {
    const mockMode: bool
    var authenticated: bool
    var positions: seq<Position>

    constructor (mockMode: bool)
      ensures this.mockMode == mockMode && !authenticated && positions == []
    {
      this.mockMode := mockMode;
      authenticated := false;
      positions := [];
    }

    /** In mock mode the handshake always succeeds; otherwise it raises. */
    method Authenticate() returns (error: Option<string>)
      modifies this
      ensures mockMode ==> authenticated && error.None?
      ensures !mockMode ==> authenticated == old(authenticated) && error == Some(NotInMockMode)
      ensures positions == old(positions)
    {
      if mockMode {
        authenticated := true;
        return None;
      }
      return Some(NotInMockMode);
    }

    /** The book reset to the two fixed mock holdings and returned. */
    method ListPositions() returns (r: Result<seq<Position>>)
      modifies this
      ensures mockMode ==> r == Ok(MockPositions) && positions == MockPositions && authenticated
      ensures !mockMode ==> r.Err? && positions == old(positions)
      ensures !mockMode && !old(authenticated) ==> r == Err(NotInMockMode)
    {
      if !authenticated {
        var error := Authenticate();
        if error.Some? {
          return Err(error.value);
        }
      }
      if !mockMode {
        return Err("NotImplementedError: Real Nordnet positions endpoint not yet implemented");
      }
      positions := MockPositions;
      return Ok(MockPositions);
    }

    /** The loop of `next(...)` over the book. */
    method FindPosition(ticker: string) returns (index: Option<nat>)
      ensures index == FindIndex(positions, ticker)
    {
      var i := 0;
      while i < |positions|
        invariant 0 <= i <= |positions|
        invariant forall k :: 0 <= k < i ==> positions[k].ticker != ticker
      {
        if positions[i].ticker == ticker {
          FindIndexAt(positions, ticker, i);
          return Some(i);
        }
        i := i + 1;
      }
      return None;
    }

    /** A simulated order: its details, with the total value of quantity times
        price, and the book updated as `ApplyOrder` says. `stamp` and `isoNow`
        are the clock readings in the order id and the timestamp. */
    method PlaceOrder(ticker: string, side: string, quantity: int, price: real, stamp: string, isoNow: string)
      returns (r: Result<OrderDetails>)
      modifies this
      ensures mockMode ==> authenticated
      ensures mockMode ==> positions == ApplyOrder(old(positions), ticker, side, quantity, price).0
      ensures mockMode && ApplyOrder(old(positions), ticker, side, quantity, price).1.None? ==>
                r == Ok(OrderDetails("MOCK-" + stamp + "-" + ticker, ticker, side, quantity, price,
                                     quantity as real * price, "simulated", isoNow))
      ensures mockMode && ApplyOrder(old(positions), ticker, side, quantity, price).1.Some? ==>
                r == Err(ApplyOrder(old(positions), ticker, side, quantity, price).1.value)
      ensures !mockMode ==> r.Err? && positions == old(positions)
      ensures !mockMode && !old(authenticated) ==> r == Err(NotInMockMode)
    {
      if !authenticated {
        var error := Authenticate();
        if error.Some? {
          return Err(error.value);
        }
      }
      if !mockMode {
        return Err("NotImplementedError: Real Nordnet trading endpoint not yet implemented");
      }
      var details := OrderDetails("MOCK-" + stamp + "-" + ticker, ticker, side, quantity, price,
                                  quantity as real * price, "simulated", isoNow);
      var error := Book(ticker, side, quantity, price);
      if error.Some? {
        return Err(error.value);
      }
      return Ok(details);
    }

    /** The book update of `PlaceOrder` in mock mode, in place. */
    method Book(ticker: string, side: string, quantity: int, price: real) returns (error: Option<string>)
      modifies this
      ensures (positions, error) == ApplyOrder(old(positions), ticker, side, quantity, price)
      ensures authenticated == old(authenticated)
    {
      error := None;
      if Text.Lower(side) == "buy" {
        error := Buy(ticker, quantity, price);
      } else if Text.Lower(side) == "sell" {
        Sell(ticker, quantity);
      }
    }

    /** The buy branch of `PlaceOrder`. */
    method Buy(ticker: string, quantity: int, price: real) returns (error: Option<string>)
      modifies this
      ensures (positions, error) == Bought(old(positions), ticker, quantity, price)
      ensures authenticated == old(authenticated)
    {
      var found := FindPosition(ticker);
      if found.None? {
        positions := positions + [Opened(ticker, quantity, price)];
        return None;
      }
      var i := found.value;
      assert FindIndex(old(positions), ticker) == Some(i);
      var p := positions[i];
      var totalQty := p.quantity + quantity;
      var totalCost := p.quantity as real * p.averagePrice + quantity as real * price;
      positions := positions[i := p.(quantity := totalQty)];
      if totalQty == 0 {
        assert positions == old(positions)[i := p.(quantity := 0)];
        return Some("ZeroDivisionError: float division by zero");
      }
      positions := positions[i := positions[i].(averagePrice := totalCost / totalQty as real)];
      BoughtHeldBook(old(positions), ticker, quantity, price, i, p);
      assert positions == old(positions)[i := p.(quantity := totalQty, averagePrice := totalCost / totalQty as real)];
      return None;
    }

    /** The sell branch of `PlaceOrder`. */
    method Sell(ticker: string, quantity: int)
      modifies this
      ensures positions == Sold(old(positions), ticker, quantity)
      ensures authenticated == old(authenticated)
    {
      var found := FindPosition(ticker);
      if found.Some? {
        var i := found.value;
        var left := if positions[i].quantity - quantity >= 0 then positions[i].quantity - quantity else 0;
        positions := positions[i := positions[i].(quantity := left)];
        if positions[i].quantity == 0 {
          positions := positions[..i] + positions[i + 1..];
          assert positions == old(positions)[..i] + old(positions)[i + 1..];
        }
      }
    }
  }

  lemma FindIndexAt(book: seq<Position>, ticker: string, i: nat)
    requires i < |book| && book[i].ticker == ticker
    requires forall k :: 0 <= k < i ==> book[k].ticker != ticker
    ensures FindIndex(book, ticker) == Some(i)
  {
  }
}
