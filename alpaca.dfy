/** The broker binding used by the trading bot and the data provider
    (src/api/alpaca.py): request shaping, per-symbol grouping of bars,
    conversion of broker objects into plain records, and the mapping of
    broker failures to empty values.

    Every broker call in the source sits inside a try block that turns a
    failure of the underlying API into an empty value; the API's answer is
    therefore an `Option` here, None standing for "the API raised". */
module Alpaca {
  import opened Common
  import opened Frames

  const PaperUrl: string := "https://paper-api.alpaca.markets"
  const LiveUrl: string := "https://api.alpaca.markets"
  const DataUrl: string := "https://data.alpaca.markets"

  datatype Config = Config(apiKey: string, apiSecret: string, baseUrl: string, dataUrl: string)

  /** `AlpacaClient.__init__`: ValueError without credentials; without an
      override the base URL follows the paper flag. */
  function NewClient(
    apiKey: Option<string>, apiSecret: Option<string>, paper: bool, baseUrl: Option<string>,
    envKey: Option<string>, envSecret: Option<string>): (r: Result<Config>)
    ensures r.Err? <==> !Truthy(OrElse(apiKey, envKey)) || !Truthy(OrElse(apiSecret, envSecret))
    ensures r.Ok? && Truthy(baseUrl) ==> r.value.baseUrl == baseUrl.value
    ensures r.Ok? && !Truthy(baseUrl) ==> r.value.baseUrl == (if paper then PaperUrl else LiveUrl)
    ensures r.Ok? ==> r.value.dataUrl == DataUrl && r.value.apiKey != "" && r.value.apiSecret != ""
  {
    var key := OrElse(apiKey, envKey);
    var secret := OrElse(apiSecret, envSecret);
    if !Truthy(key) || !Truthy(secret) then
      Err("API key and secret must be provided or set as environment variables")
    else
      var url := if !Truthy(baseUrl) then (if paper then PaperUrl else LiveUrl) else baseUrl.value;
      Ok(Config(key.value, secret.value, url, DataUrl))
  }

  /** A value in a request's parameter dictionary. */
  datatype Param = Text(text: string) | Int(number: int) | Num(amount: real) | Flag(flag: bool)

  /** The request parameters of `get_bars`: start and end only when given. */
  function BarsParams(timeframe: string, limit: int, start: Option<string>, end: Option<string>)
    : (p: map<string, Param>)
    ensures p.Keys == {"timeframe", "limit"}
                      + (if Truthy(start) then {"start"} else {})
                      + (if Truthy(end) then {"end"} else {})
    ensures p["timeframe"] == Text(timeframe) && p["limit"] == Int(limit)
    ensures Truthy(start) ==> p["start"] == Text(start.value)
    ensures Truthy(end) ==> p["end"] == Text(end.value)
  {
    var base := map["timeframe" := Text(timeframe), "limit" := Int(limit)];
    var withStart := if Truthy(start) then base["start" := Text(start.value)] else base;
    if Truthy(end) then withStart["end" := Text(end.value)] else withStart
  }

  /** The arguments of `create_order`. */
  datatype OrderSpec = OrderSpec(
    symbol: string,
    qty: int,
    side: string,
    orderType: string,
    timeInForce: string,
    limitPrice: Option<real>,
    stopPrice: Option<real>,
    clientOrderId: Option<string>,
    extendedHours: bool)

  /** A market order with the defaults of `create_order` (day, no prices). */
  function MarketOrder(symbol: string, qty: int, side: string): OrderSpec
  {
    OrderSpec(symbol, qty, side, "market", "day", None, None, None, false)
  }

  /** The request parameters of `create_order`: the six fixed fields, a limit
      price only for limit-type orders, a stop price only for stop-type
      orders, each only when non-zero, and a client id only when non-empty. */
  function OrderParams(o: OrderSpec): (p: map<string, Param>)
    ensures p.Keys ==
      {"symbol", "qty", "side", "type", "time_in_force", "extended_hours"}
      + (if TruthyReal(o.limitPrice) && (o.orderType == "limit" || o.orderType == "stop_limit") then {"limit_price"} else {})
      + (if TruthyReal(o.stopPrice) && (o.orderType == "stop" || o.orderType == "stop_limit") then {"stop_price"} else {})
      + (if Truthy(o.clientOrderId) then {"client_order_id"} else {})
    ensures p["symbol"] == Text(o.symbol) && p["qty"] == Int(o.qty) && p["side"] == Text(o.side)
    ensures p["type"] == Text(o.orderType) && p["time_in_force"] == Text(o.timeInForce)
    ensures p["extended_hours"] == Flag(o.extendedHours)
    ensures "limit_price" in p ==> p["limit_price"] == Num(o.limitPrice.value)
    ensures "stop_price" in p ==> p["stop_price"] == Num(o.stopPrice.value)
    ensures "client_order_id" in p ==> p["client_order_id"] == Text(o.clientOrderId.value)
  {
    var base := map[
      "symbol" := Text(o.symbol), "qty" := Int(o.qty), "side" := Text(o.side),
      "type" := Text(o.orderType), "time_in_force" := Text(o.timeInForce),
      "extended_hours" := Flag(o.extendedHours)];
    var p1 := if TruthyReal(o.limitPrice) && (o.orderType == "limit" || o.orderType == "stop_limit")
              then base["limit_price" := Num(o.limitPrice.value)] else base;
    var p2 := if TruthyReal(o.stopPrice) && (o.orderType == "stop" || o.orderType == "stop_limit")
              then p1["stop_price" := Num(o.stopPrice.value)] else p1;
    if Truthy(o.clientOrderId) then p2["client_order_id" := Text(o.clientOrderId.value)] else p2
  }

  /** One bar as the broker returns it, for any of the requested symbols. */
  datatype RawBar = RawBar(symbol: string, t: int, o: real, h: real, l: real, c: real, v: real)

  /** `[b for b in bars if b.symbol == symbol]` */
  function BarsFor(bars: seq<RawBar>, symbol: string): (r: seq<RawBar>)
    ensures |r| <= |bars|
    ensures forall b :: b in r <==> b in bars && b.symbol == symbol
  {
    if bars == [] then []
    else
      var rest := BarsFor(bars[1..], symbol);
      assert forall b :: b in bars <==> b == bars[0] || b in bars[1..];
      if bars[0].symbol == symbol then [bars[0]] + rest else rest
  }

  /** The filter keeps the broker's order: filtering a concatenation filters
      each part in turn. */
  lemma {:induction false} BarsForConcat(a: seq<RawBar>, b: seq<RawBar>, symbol: string)
    ensures BarsFor(a + b, symbol) == BarsFor(a, symbol) + BarsFor(b, symbol)
    decreases |a|
  {
    if a == [] {
      assert a + b == b;
    } else {
      var ab := a + b;
      assert ab[0] == a[0] && ab[1..] == a[1..] + b;
      BarsForConcat(a[1..], b, symbol);
      var head := if a[0].symbol == symbol then [a[0]] else [];
      assert BarsFor(ab, symbol) == head + BarsFor(ab[1..], symbol);
      assert BarsFor(a, symbol) == head + BarsFor(a[1..], symbol);
      assert head + (BarsFor(a[1..], symbol) + BarsFor(b, symbol)) == (head + BarsFor(a[1..], symbol)) + BarsFor(b, symbol);
    }
  }

  /** One more bar is kept at the end exactly when it is the symbol's. */
  lemma BarsForSnoc(bars: seq<RawBar>, b: RawBar, symbol: string)
    ensures BarsFor(bars + [b], symbol) == BarsFor(bars, symbol) + (if b.symbol == symbol then [b] else [])
  {
    BarsForConcat(bars, [b], symbol);
    assert [b][1..] == [];
  }

  /** One bar as a frame row; the volume goes through `int()`. */
  function BarRow(b: RawBar): Row
  {
    Row(b.t, map["open" := b.o, "high" := b.h, "low" := b.l, "close" := b.c, "volume" := Trunc(b.v) as real])
  }

  /** The frame built from one symbol's bars, indexed by timestamp. */
  function BarFrame(bars: seq<RawBar>): (f: Frame)
    ensures f.timeIndexed && f.columns == Required && |f.rows| == |bars|
    ensures forall k :: 0 <= k < |bars| ==> f.rows[k] == BarRow(bars[k])
  {
    Frame(true, Required, seq(|bars|, k requires 0 <= k < |bars| => BarRow(bars[k])))
  }

  /** The per-symbol grouping of a bars response. */
  function GroupedBars(symbols: seq<string>, bars: seq<RawBar>): map<string, Frame>
  {
    map s | s in symbols && |BarsFor(bars, s)| > 0 :: BarFrame(BarsFor(bars, s))
  }

  /** The grouping has a key exactly for each requested symbol that has at
      least one bar; that symbol's frame holds its bars, and only its bars,
      in the broker's order (row k is the symbol's k-th bar, and
      `BarsForConcat` says that filtering keeps the order). */
  lemma GroupedBarsMeaning(symbols: seq<string>, bars: seq<RawBar>)
    ensures var g := GroupedBars(symbols, bars);
      && (forall s :: s in g <==> s in symbols && exists b :: b in bars && b.symbol == s)
      && (forall s :: s in g ==>
            && |g[s].rows| == |BarsFor(bars, s)|
            && !IsEmpty(g[s])
            && (forall k :: 0 <= k < |g[s].rows| ==> g[s].rows[k] == BarRow(BarsFor(bars, s)[k]))
            && forall k :: 0 <= k < |g[s].rows| ==>
                 exists b :: b in bars && b.symbol == s && g[s].rows[k] == BarRow(b))
  {
    var g := GroupedBars(symbols, bars);
    forall s | s in symbols && exists b :: b in bars && b.symbol == s
      ensures s in g
    {
      var b :| b in bars && b.symbol == s;
      assert b in BarsFor(bars, s);
    }
    forall s | s in g
      ensures exists b :: b in bars && b.symbol == s
      ensures forall k :: 0 <= k < |g[s].rows| ==>
                exists b :: b in bars && b.symbol == s && g[s].rows[k] == BarRow(b)
    {
      var bs := BarsFor(bars, s);
      assert bs[0] in bs;
      forall k | 0 <= k < |g[s].rows|
        ensures exists b :: b in bars && b.symbol == s && g[s].rows[k] == BarRow(b)
      {
        assert bs[k] in bs;
      }
    }
  }

  /** The per-symbol loop of `get_bars`. */
  method GroupBars(symbols: seq<string>, bars: seq<RawBar>) returns (result: map<string, Frame>)
    ensures result == GroupedBars(symbols, bars)
  {
    result := map[];
    var i := 0;
    while i < |symbols|
      invariant 0 <= i <= |symbols|
      invariant result == GroupedBars(symbols[..i], bars)
    {
      var symbol := symbols[i];
      var symbolBars := BarsFor(bars, symbol);
      assert symbols[..i + 1] == symbols[..i] + [symbol];
      if |symbolBars| == 0 {
        assert GroupedBars(symbols[..i + 1], bars) == result;
        i := i + 1;
        continue;
      }
      var df := BarFrame(symbolBars);
      result := result[symbol := df];
      i := i + 1;
    }
    assert symbols[..|symbols|] == symbols;
  }

  /** The answer of `get_bars` to a request: {} when the API raised. */
  function BarsResponse(symbols: seq<string>, api: Option<seq<RawBar>>): map<string, Frame>
  {
    if api.None? then map[] else GroupedBars(symbols, api.value)
  }

  /** `get_bars` once the request is answered. */
  method GetBars(symbols: seq<string>, api: Option<seq<RawBar>>) returns (result: map<string, Frame>)
    ensures result == BarsResponse(symbols, api)
  {
    if api.None? {
      return map[];
    }
    result := GroupBars(symbols, api.value);
  }

  datatype Account = Account(
    id: string, status: string, equity: real, cash: real, buyingPower: real,
    longMarketValue: real, shortMarketValue: real, initialMargin: real,
    lastEquity: real, lastMaintenanceMargin: real, multiplier: string, currency: string)

  /** `get_account`: the account dictionary, or {} (None) when the API raised. */
  function GetAccount(api: Option<Account>): (r: Option<Account>)
    ensures r.Some? <==> api.Some?
    ensures r.Some? ==> r.value == api.value
  {
    api
  }

  datatype RawClock = RawClock(timestamp: string, isOpen: bool, nextOpen: Option<string>, nextClose: Option<string>)
  datatype ClockTimes = ClockTimes(timestamp: string, nextOpen: Option<string>, nextClose: Option<string>)
  /** The clock dictionary: `is_open`, and the times when the API answered. */
  datatype Clock = Clock(isOpen: bool, times: Option<ClockTimes>)

  /** `get_clock`: a failed call reports a closed market and no times; an
      answer is passed through. */
  function GetClock(api: Option<RawClock>): (r: Clock)
    ensures api.None? ==> !r.isOpen && r.times.None?
    ensures api.Some? ==>
      && r.isOpen == api.value.isOpen && r.times.Some?
      && r.times.value.timestamp == api.value.timestamp
      && r.times.value.nextOpen == api.value.nextOpen && r.times.value.nextClose == api.value.nextClose
  {
    match api
    case None => Clock(false, None)
    case Some(c) => Clock(c.isOpen, Some(ClockTimes(c.timestamp, c.nextOpen, c.nextClose)))
  }

  datatype RawPosition = RawPosition(
    symbol: string, qty: int, avgEntryPrice: real, marketValue: real, costBasis: real,
    unrealizedPl: real, unrealizedPlpc: real, currentPrice: real, lastdayPrice: real,
    changeToday: real)

  datatype Position = Position(
    symbol: string, qty: int, side: string, avgEntryPrice: real, marketValue: real,
    costBasis: real, unrealizedPl: real, unrealizedPlpc: real, currentPrice: real,
    lastdayPrice: real, changeToday: real)

  /** The side of a position, derived from the sign of its quantity. */
  function PositionSide(qty: int): (side: string)
    ensures side == "long" <==> qty > 0
    ensures side == "short" <==> qty <= 0
  {
    if qty > 0 then "long" else "short"
  }

  function ToPosition(p: RawPosition): Position
  {
    Position(p.symbol, p.qty, PositionSide(p.qty), p.avgEntryPrice, p.marketValue, p.costBasis,
             p.unrealizedPl, p.unrealizedPlpc, p.currentPrice, p.lastdayPrice, p.changeToday)
  }

  /** `list_positions`: one record per broker position, in order; [] when the
      API raised. */
  function ListPositions(api: Option<seq<RawPosition>>): (r: seq<Position>)
    ensures api.None? ==> r == []
    ensures api.Some? ==> |r| == |api.value|
    ensures api.Some? ==> forall i :: 0 <= i < |r| ==>
      && r[i].symbol == api.value[i].symbol && r[i].qty == api.value[i].qty
      && (r[i].side == "long" <==> r[i].qty > 0)
      && (r[i].side == "short" <==> r[i].qty <= 0)
  {
    match api
    case None => []
    case Some(ps) => seq(|ps|, i requires 0 <= i < |ps| => ToPosition(ps[i]))
  }

  /** An order as the broker returns it; absent optional fields are None. */
  datatype RawOrder = RawOrder(
    id: string, clientOrderId: string, symbol: string, side: string, orderType: string,
    status: string, filledQty: Option<real>, filledAvgPrice: Option<real>,
    limitPrice: Option<real>, stopPrice: Option<real>)

  /** The order dictionary; the dictionaries of `close_position` have no
      limit or stop price, which this record gives as None. */
  datatype Order = Order(
    id: string, clientOrderId: string, symbol: string, side: string, orderType: string,
    status: string, filledQty: real, filledAvgPrice: Option<real>,
    limitPrice: Option<real>, stopPrice: Option<real>)

  /** An unfilled order reports a filled quantity of 0. */
  function ToOrder(o: RawOrder): (r: Order)
    ensures o.filledQty.None? ==> r.filledQty == 0.0
    ensures o.filledQty.Some? ==> r.filledQty == o.filledQty.value
    ensures r.id == o.id && r.filledAvgPrice == o.filledAvgPrice
  {
    Order(o.id, o.clientOrderId, o.symbol, o.side, o.orderType, o.status,
          if o.filledQty.Some? then o.filledQty.value else 0.0,
          o.filledAvgPrice, o.limitPrice, o.stopPrice)
  }

  /** `create_order` once the request is answered: {} (None) when the API raised. */
  function CreateOrder(api: Option<RawOrder>): (r: Option<Order>)
    ensures r.Some? <==> api.Some?
    ensures r.Some? ==>
      && r.value.id == api.value.id && r.value.symbol == api.value.symbol && r.value.side == api.value.side
      && r.value.limitPrice == api.value.limitPrice && r.value.stopPrice == api.value.stopPrice
      && r.value.filledQty == (if api.value.filledQty.Some? then api.value.filledQty.value else 0.0)
  {
    match api
    case None => None
    case Some(o) => Some(ToOrder(o))
  }

  /** `close_position` once the request is answered: {} (None) when the API raised. */
  function ClosePosition(api: Option<RawOrder>): (r: Option<Order>)
    ensures r.Some? <==> api.Some?
    ensures r.Some? ==>
      && r.value.id == api.value.id && r.value.symbol == api.value.symbol && r.value.side == api.value.side
      && r.value.limitPrice.None? && r.value.stopPrice.None?
      && r.value.filledQty == (if api.value.filledQty.Some? then api.value.filledQty.value else 0.0)
  {
    match api
    case None => None
    case Some(o) => Some(ToOrder(o).(limitPrice := None, stopPrice := None))
  }

  /** `get_orders`: one record per broker order, in order; [] when the API
      raised. */
  function GetOrders(api: Option<seq<RawOrder>>): (r: seq<Order>)
    ensures api.None? ==> r == []
    ensures api.Some? ==> |r| == |api.value|
    ensures api.Some? ==> forall i :: 0 <= i < |r| ==> r[i] == ToOrder(api.value[i])
  {
    match api
    case None => []
    case Some(os) => seq(|os|, i requires 0 <= i < |os| => ToOrder(os[i]))
  }
}
