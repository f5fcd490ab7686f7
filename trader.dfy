/** The trading engine (src/bot/trader.py): one trading cycle refreshes the
    account and the positions, works out how many new positions may be
    opened, and for every symbol not already held fetches its bars through
    the data provider, runs every strategy on them and executes the signals,
    stopping once the free slots are used up.

    The broker is a set of functions of the number of broker calls the bot
    made before the call (and of the request), each answering Raised for an
    exception escaping the binding's method, or the binding's own answer.
    The strategies are a function `analyze` of the strategy's index, the
    symbol and the bars, answering Raised when the strategy raises. */
module Trader {
  import opened Common
  import opened Frames
  import Alpaca
  import Provider
  import opened Strategy

  datatype Broker = Broker(
    account: nat -> Reply<Option<Alpaca.Account>>,
    positions: nat -> Reply<Option<seq<Alpaca.RawPosition>>>,
    orders: (nat, Alpaca.OrderSpec) -> Reply<Option<Alpaca.RawOrder>>,
    closes: (nat, string) -> Reply<Option<Alpaca.RawOrder>>,
    bars: (Provider.BarsCall, int) -> Reply<Option<seq<Alpaca.RawBar>>>)

  /** The strategies as the cycle sees them: each of the bot's strategies,
      by index, applied to a symbol and its bars. */
  type Analyzer = (nat, string, Frame) -> Reply<Option<Signal>>

  /** The analyzer of a list of moving-average strategies, which never
      raise and always answer with a signal. */
  function MAAnalyzer(strategies: seq<MAStrategy>): Analyzer
  {
    (k: nat, symbol: string, data: Frame) =>
      if k < |strategies| then Returned(Some(Analyze(strategies[k], data))) else Raised
  }

  /** An order-side request the bot sends to the broker. */
  datatype Request = Place(order: Alpaca.OrderSpec) | Close(symbol: string)

  function RequestSymbol(r: Request): string
  {
    match r
    case Place(o) => o.symbol
    case Close(s) => s
  }

  function Abs(x: real): real { if x < 0.0 then -x else x }

  /** `float(self.account_info.get("equity", 0))` */
  function Equity(info: Option<Alpaca.Account>): real
  {
    if info.Some? then info.value.equity else 0.0
  }

  lemma ScaleBounds(q: int, x: real, perShare: real, budget: real)
    requires perShare > 0.0 && x == budget / perShare
    requires q as real <= x < q as real + 1.0
    ensures (q as real) * perShare <= budget
    ensures budget < ((q + 1) as real) * perShare
  {
    var lo := q as real;
    var hi := (q + 1) as real;
    assert hi == lo + 1.0;
    var scaled := x * perShare;
    assert scaled == budget;
    var upper := hi * perShare;
    var gap := (hi - x) * perShare;
    PositiveProduct(hi - x, perShare);
    assert gap == upper - scaled;
    assert (x - lo) * perShare >= 0.0;
    assert (x - lo) * perShare == scaled - lo * perShare;
    assert gap > 0.0;
    assert budget < upper;
    assert upper == ((q + 1) as real) * perShare;
  }

  lemma PositiveProduct(a: real, b: real)
    requires a > 0.0 && b > 0.0
    ensures a * b > 0.0
  {
  }

  /** The size of a buy: the risk budget (equity times the risk per trade)
      divided by the risk per share (the distance from entry to stop),
      truncated. No order when the price or the stop is missing or zero,
      when they coincide, or when the size is not positive. */
  function BuyQuantity(equity: real, riskPerTrade: real, price: Option<real>, stopLoss: Option<real>): Option<int>
  {
    if !TruthyReal(price) || !TruthyReal(stopLoss) then None
    else
      var riskPerShare := Abs(price.value - stopLoss.value);
      if riskPerShare <= 0.0 then None
      else
        var qty := Trunc(equity * riskPerTrade / riskPerShare);
        if qty <= 0 then None else Some(qty)
  }

  /** No order exactly when the price or the stop is missing or zero, they
      coincide, or the truncated size is not positive; otherwise the size is
      the largest whole number of shares whose risk fits the budget. */
  lemma BuyQuantityMeaning(equity: real, riskPerTrade: real, price: Option<real>, stopLoss: Option<real>)
    ensures var q := BuyQuantity(equity, riskPerTrade, price, stopLoss);
      && (q.None? <==>
            || !TruthyReal(price) || !TruthyReal(stopLoss) || price.value == stopLoss.value
            || Trunc(equity * riskPerTrade / Abs(price.value - stopLoss.value)) <= 0)
      && (q.Some? ==> q.value >= 1)
      && (q.Some? ==>
            var perShare := Abs(price.value - stopLoss.value);
            q.value as real * perShare <= equity * riskPerTrade < (q.value + 1) as real * perShare)
  {
    var q := BuyQuantity(equity, riskPerTrade, price, stopLoss);
    if q.Some? {
      var perShare := Abs(price.value - stopLoss.value);
      var x := equity * riskPerTrade / perShare;
      ScaleBounds(q.value, x, perShare, equity * riskPerTrade);
    }
  }

  /** An equity of 10000 risking 2% per trade, entering at 100 with a stop
      at 95, buys 40 shares. */
  lemma BuyQuantityExample()
    ensures BuyQuantity(10000.0, 0.02, Some(100.0), Some(95.0)) == Some(40)
  {
    assert 10000.0 * 0.02 / Abs(100.0 - 95.0) == 40.0;
  }

  /** The protective stop attached to a buy: a good-till-cancelled stop sell
      of the same quantity at the stop price. */
  function StopOrder(symbol: string, qty: int, stopPrice: real): Alpaca.OrderSpec
  {
    Alpaca.OrderSpec(symbol, qty, "sell", "stop", "gtc", None, Some(stopPrice), None, false)
  }

  /** What executing a signal did: the requests sent, in order, and the
      order id returned. */
  datatype Execution = Execution(requests: seq<Request>, orderId: Option<string>)

  /** `_execute_signal` with the broker calls starting at index `n`. With
      `keepBuyId` false this is the code as written: an exception from the
      protective stop order is caught by the surrounding handler and the
      accepted buy's id is lost. With `keepBuyId` true the buy's id is
      returned whatever the stop order's outcome. */
  function ExecuteWith(
    keepBuyId: bool, symbol: string, signal: Signal, equity: real, riskPerTrade: real,
    broker: Broker, n: nat): (e: Execution)
    ensures forall r :: r in e.requests ==> RequestSymbol(r) == symbol
    ensures signal.action.None? ==> e == Execution([], None)
  {
    match signal.action
    case None => Execution([], None)
    case Some(Buy) =>
      (match BuyQuantity(equity, riskPerTrade, signal.price, signal.stopLoss)
       case None => Execution([], None)
       case Some(q) =>
         var buy := Alpaca.MarketOrder(symbol, q, "buy");
         (match broker.orders(n, buy)
          case Raised => Execution([Place(buy)], None)
          case Returned(None) => Execution([Place(buy)], None)
          case Returned(Some(o)) =>
            var stop := StopOrder(symbol, q, signal.stopLoss.value);
            var id := Alpaca.CreateOrder(Some(o)).value.id;
            if !keepBuyId && broker.orders(n + 1, stop).Raised? then Execution([Place(buy), Place(stop)], None)
            else Execution([Place(buy), Place(stop)], Some(id))))
    case Some(_) =>
      match broker.closes(n, symbol)
      case Raised => Execution([Close(symbol)], None)
      case Returned(None) => Execution([Close(symbol)], None)
      case Returned(Some(o)) => Execution([Close(symbol)], Some(Alpaca.ClosePosition(Some(o)).value.id))
  }

  /** `_execute_signal` as written. */
  function ExecuteAsWritten(symbol: string, signal: Signal, equity: real, riskPerTrade: real, broker: Broker, n: nat)
    : Execution
  {
    ExecuteWith(false, symbol, signal, equity, riskPerTrade, broker, n)
  }

  /** `_execute_signal` with the stop order's failure kept apart from the
      buy's result. */
  function Execute(symbol: string, signal: Signal, equity: real, riskPerTrade: real, broker: Broker, n: nat)
    : Execution
  {
    ExecuteWith(true, symbol, signal, equity, riskPerTrade, broker, n)
  }

  /** Executing a signal: no action sends nothing; a buy sends a market buy
      of the sized quantity, followed by the stop order exactly when the
      broker accepted the buy, and returns the buy's id exactly when it was
      accepted; a sell or an exit only asks to close the position and
      returns that order's id when the broker answered. */
  lemma ExecuteMeaning(symbol: string, signal: Signal, equity: real, riskPerTrade: real, broker: Broker, n: nat)
    ensures var e := Execute(symbol, signal, equity, riskPerTrade, broker, n);
      && (signal.action.None? ==> e.requests == [] && e.orderId.None?)
      && (signal.action == Some(Buy) ==>
            var q := BuyQuantity(equity, riskPerTrade, signal.price, signal.stopLoss);
            && (q.None? ==> e.requests == [] && e.orderId.None?)
            && (q.Some? ==>
                  var buy := Alpaca.MarketOrder(symbol, q.value, "buy");
                  var answer := broker.orders(n, buy);
                  && 1 <= |e.requests| <= 2 && e.requests[0] == Place(buy)
                  && buy.side == "buy" && buy.orderType == "market" && buy.qty == q.value
                  && (|e.requests| == 2 <==> answer.Returned? && answer.value.Some?)
                  && (|e.requests| == 2 ==>
                        e.requests[1] == Place(StopOrder(symbol, q.value, signal.stopLoss.value)))
                  && (e.orderId.Some? <==> answer.Returned? && answer.value.Some?)
                  && (e.orderId.Some? ==> e.orderId.value == answer.value.value.id)))
      && (signal.action == Some(Sell) || signal.action == Some(Exit) ==>
            var answer := broker.closes(n, symbol);
            && e.requests == [Close(symbol)]
            && (e.orderId.Some? <==> answer.Returned? && answer.value.Some?)
            && (e.orderId.Some? ==> e.orderId.value == answer.value.value.id))
  {
  }

  /** The code as written loses the id of an accepted buy when the stop
      order raises: the broker holds a new position, yet no id is returned,
      so the cycle does not count it against its free slots. The corrected
      execution returns the buy's id. */
  lemma StopFailureLosesBuyId(symbol: string, signal: Signal, equity: real, riskPerTrade: real, broker: Broker, n: nat)
    requires signal.action == Some(Buy)
    requires BuyQuantity(equity, riskPerTrade, signal.price, signal.stopLoss).Some?
    requires var q := BuyQuantity(equity, riskPerTrade, signal.price, signal.stopLoss).value;
      && broker.orders(n, Alpaca.MarketOrder(symbol, q, "buy")).Returned?
      && broker.orders(n, Alpaca.MarketOrder(symbol, q, "buy")).value.Some?
      && broker.orders(n + 1, StopOrder(symbol, q, signal.stopLoss.value)).Raised?
    ensures var q := BuyQuantity(equity, riskPerTrade, signal.price, signal.stopLoss).value;
      var accepted := broker.orders(n, Alpaca.MarketOrder(symbol, q, "buy")).value.value;
      && ExecuteAsWritten(symbol, signal, equity, riskPerTrade, broker, n).requests[0]
           == Place(Alpaca.MarketOrder(symbol, q, "buy"))
      && ExecuteAsWritten(symbol, signal, equity, riskPerTrade, broker, n).orderId.None?
      && Execute(symbol, signal, equity, riskPerTrade, broker, n).orderId == Some(accepted.id)
  {
  }

  /** `{p["symbol"]: p for p in positions}`: later entries win. */
  function PositionMap(ps: seq<Alpaca.Position>): (m: map<string, Alpaca.Position>)
    ensures forall s :: s in m <==> exists i :: 0 <= i < |ps| && ps[i].symbol == s
    ensures forall s :: s in m ==> m[s].symbol == s && m[s] in ps
    decreases |ps|
  {
    if ps == [] then map[]
    else
      var n := |ps| - 1;
      var prev := PositionMap(ps[..n]);
      assert forall i :: 0 <= i < n ==> ps[..n][i] == ps[i];
      assert forall p :: p in ps[..n] ==> p in ps;
      prev[ps[n].symbol := ps[n]]
  }

  /** The snapshot keeps, for each symbol, the last position listed for it. */
  lemma {:induction false} PositionMapLastWins(ps: seq<Alpaca.Position>, i: int)
    requires 0 <= i < |ps|
    requires forall j :: i < j < |ps| ==> ps[j].symbol != ps[i].symbol
    ensures ps[i].symbol in PositionMap(ps) && PositionMap(ps)[ps[i].symbol] == ps[i]
    decreases |ps|
  {
    var n := |ps| - 1;
    PositionMapSnoc(ps);
    if i < n {
      var init := ps[..n];
      assert init[i] == ps[i];
      forall j | i < j < n ensures init[j].symbol != init[i].symbol {
        assert init[j] == ps[j];
      }
      PositionMapLastWins(init, i);
    }
  }

  lemma PositionMapSnoc(ps: seq<Alpaca.Position>)
    requires ps != []
    ensures PositionMap(ps) == PositionMap(ps[..|ps| - 1])[ps[|ps| - 1].symbol := ps[|ps| - 1]]
  {
  }

  /** The number of new positions a cycle may open. */
  function AvailableSlots(maxPositions: int, held: int): (s: int)
    ensures s >= 0
    ensures s == 0 <==> held >= maxPositions
    ensures s > 0 ==> held + s == maxPositions
  {
    Max(0, maxPositions - held)
  }

  /** Without an account snapshot the equity is zero, so a buy signal is
      sized to nothing and sends no order. This happens before the first
      refresh, and when the account call raised or the API failed. */
  lemma NoEquityNoBuy(keepBuyId: bool, symbol: string, signal: Signal, riskPerTrade: real, broker: Broker, n: nat)
    requires signal.action == Some(Buy)
    ensures BuyQuantity(Equity(None), riskPerTrade, signal.price, signal.stopLoss).None?
    ensures ExecuteWith(keepBuyId, symbol, signal, Equity(None), riskPerTrade, broker, n) == Execution([], None)
  {
    if TruthyReal(signal.price) && TruthyReal(signal.stopLoss) {
      var perShare := Abs(signal.price.value - signal.stopLoss.value);
      if perShare > 0.0 {
        assert 0.0 * riskPerTrade / perShare == 0.0;
      }
    }
  }

  /** What a cycle works with while it scans: the execution variant, the
      account's equity, the risk per trade, the broker and the strategies. */
  datatype Env = Env(keepBuyId: bool, equity: real, risk: real, broker: Broker, analyze: Analyzer, strategies: nat)

  /** Where the strategy loop stands: the free slots, the number of
      executions that returned an order id, the log of every order-side
      request sent so far, the broker call count, and whether the slots ran
      out (which ends the cycle). */
  datatype LoopRun = LoopRun(slots: int, placed: nat, log: seq<Request>, calls: nat, stopped: bool)

  /** The strategies from index `k` on, applied to one symbol's bars. A
      strategy that raises or answers no signal is passed over; an executed
      signal whose order id is truthy uses up a slot, and the last slot
      ends the loop. */
  function StrategyRun(
    env: Env, symbol: string, data: Frame, k: nat, slots: int, placed: nat, calls: nat, log: seq<Request>)
    : LoopRun
    decreases env.strategies - k
  {
    if k >= env.strategies then LoopRun(slots, placed, log, calls, false)
    else
      var answer := env.analyze(k, symbol, data);
      if answer.Raised? || answer.value.None? then StrategyRun(env, symbol, data, k + 1, slots, placed, calls, log)
      else
        var e := ExecuteWith(env.keepBuyId, symbol, answer.value.value, env.equity, env.risk, env.broker, calls);
        var after := calls + |e.requests|;
        if !Truthy(e.orderId) then StrategyRun(env, symbol, data, k + 1, slots, placed, after, log + e.requests)
        else if slots - 1 <= 0 then LoopRun(slots - 1, placed + 1, log + e.requests, after, true)
        else StrategyRun(env, symbol, data, k + 1, slots - 1, placed + 1, after, log + e.requests)
  }

  /** With at least one free slot: every execution that returned an order
      id uses exactly one slot, so at most the free slots' worth of them
      happen, and the loop stops early exactly when all of them are used;
      the log only grows, every new request is for the symbol, and each is
      one broker call. */
  lemma {:induction false} StrategyRunMeaning(
    env: Env, symbol: string, data: Frame, k: nat, slots: int, placed: nat, calls: nat, log: seq<Request>)
    requires slots >= 1
    ensures var r := StrategyRun(env, symbol, data, k, slots, placed, calls, log);
      && 0 <= r.slots <= slots
      && r.placed + r.slots == placed + slots
      && placed <= r.placed <= placed + slots
      && (r.stopped <==> r.slots == 0)
      && (r.stopped <==> r.placed == placed + slots)
      && |log| <= |r.log| && r.log[..|log|] == log
      && (forall j :: |log| <= j < |r.log| ==> RequestSymbol(r.log[j]) == symbol)
      && r.calls == calls + (|r.log| - |log|)
    decreases env.strategies - k
  {
    if k < env.strategies {
      var answer := env.analyze(k, symbol, data);
      if answer.Raised? || answer.value.None? {
        StrategyRunMeaning(env, symbol, data, k + 1, slots, placed, calls, log);
      } else {
        var e := ExecuteWith(env.keepBuyId, symbol, answer.value.value, env.equity, env.risk, env.broker, calls);
        var after := calls + |e.requests|;
        var grown := log + e.requests;
        if !Truthy(e.orderId) || slots - 1 > 0 {
          var used := if Truthy(e.orderId) then 1 else 0;
          StrategyRunMeaning(env, symbol, data, k + 1, slots - used, placed + used, after, grown);
          var r := StrategyRun(env, symbol, data, k + 1, slots - used, placed + used, after, grown);
          LogGrows(log, e.requests, r.log, symbol);
        } else {
          LogGrows(log, e.requests, grown, symbol);
        }
      }
    }
  }

  /** A log extended by requests for one symbol, then by more requests for
      it, keeps its prefix. */
  lemma LogGrows(log: seq<Request>, more: seq<Request>, r: seq<Request>, symbol: string)
    requires forall q :: q in more ==> RequestSymbol(q) == symbol
    requires |log + more| <= |r| && r[..|log + more|] == log + more
    requires forall j :: |log + more| <= j < |r| ==> RequestSymbol(r[j]) == symbol
    ensures |log| <= |r| && r[..|log|] == log
    ensures forall j :: |log| <= j < |r| ==> RequestSymbol(r[j]) == symbol
  {
    assert r[..|log|] == (log + more)[..|log|];
    forall j | |log| <= j < |log + more| ensures RequestSymbol(r[j]) == symbol {
      assert r[j] == (log + more)[j] == more[j - |log|];
    }
  }

  /** A strategy that raises, or answers no signal, is passed over: the
      loop goes on with the next strategy exactly as if it were not there. */
  lemma PassedOver(
    env: Env, symbol: string, data: Frame, k: nat, slots: int, placed: nat, calls: nat, log: seq<Request>)
    requires k < env.strategies
    requires env.analyze(k, symbol, data).Raised? || env.analyze(k, symbol, data).value.None?
    ensures StrategyRun(env, symbol, data, k, slots, placed, calls, log)
         == StrategyRun(env, symbol, data, k + 1, slots, placed, calls, log)
  {
  }

  /** Strategies that all raise, answer nothing, or answer a signal with no
      action send nothing and use no slot. */
  lemma {:induction false} NoActionNoOrders(
    env: Env, symbol: string, data: Frame, k: nat, slots: int, placed: nat, calls: nat, log: seq<Request>)
    requires forall j :: k <= j < env.strategies ==>
      var answer := env.analyze(j, symbol, data);
      answer.Raised? || answer.value.None? || answer.value.value.action.None?
    ensures StrategyRun(env, symbol, data, k, slots, placed, calls, log) == LoopRun(slots, placed, log, calls, false)
    decreases env.strategies - k
  {
    if k < env.strategies {
      assert log + [] == log;
      NoActionNoOrders(env, symbol, data, k + 1, slots, placed, calls, log);
    }
  }

  /** The stop-order finding carried into the cycle: when the broker
      accepts a buy and the stop order then raises, the code as written goes
      on to the next strategy with the same free slots although a position
      was opened, while the corrected execution uses a slot for it. */
  lemma StopFailureKeepsSlot(
    env: Env, symbol: string, data: Frame, k: nat, slots: int, placed: nat, calls: nat, log: seq<Request>)
    requires k < env.strategies && slots >= 2
    requires var answer := env.analyze(k, symbol, data);
      && answer.Returned? && answer.value.Some? && answer.value.value.action == Some(Buy)
      && var signal := answer.value.value;
         var q := BuyQuantity(env.equity, env.risk, signal.price, signal.stopLoss);
         && q.Some?
         && env.broker.orders(calls, Alpaca.MarketOrder(symbol, q.value, "buy")).Returned?
         && env.broker.orders(calls, Alpaca.MarketOrder(symbol, q.value, "buy")).value.Some?
         && env.broker.orders(calls, Alpaca.MarketOrder(symbol, q.value, "buy")).value.value.id != ""
         && env.broker.orders(calls + 1, StopOrder(symbol, q.value, signal.stopLoss.value)).Raised?
    ensures var signal := env.analyze(k, symbol, data).value.value;
      var q := BuyQuantity(env.equity, env.risk, signal.price, signal.stopLoss).value;
      var sent := log + [Place(Alpaca.MarketOrder(symbol, q, "buy")), Place(StopOrder(symbol, q, signal.stopLoss.value))];
      StrategyRun(env, symbol, data, k, slots, placed, calls, log)
        == if env.keepBuyId then StrategyRun(env, symbol, data, k + 1, slots - 1, placed + 1, calls + 2, sent)
           else StrategyRun(env, symbol, data, k + 1, slots, placed, calls + 2, sent)
  {
  }

  /** With the bot's moving-average strategies, bars fewer than every
      strategy's minimum send nothing and use no slot, although each
      strategy answers with a signal. */
  lemma ShortHistoryNoOrders(
    env: Env, strategies: seq<MAStrategy>, symbol: string, data: Frame,
    slots: int, placed: nat, calls: nat, log: seq<Request>)
    requires env.analyze == MAAnalyzer(strategies) && env.strategies == |strategies|
    requires forall j :: 0 <= j < |strategies| ==> |data.rows| < GetRequiredData(strategies[j]).minRequiredBars
    ensures forall j :: 0 <= j < env.strategies ==> env.analyze(j, symbol, data).Returned?
    ensures StrategyRun(env, symbol, data, 0, slots, placed, calls, log) == LoopRun(slots, placed, log, calls, false)
  {
    forall j | 0 <= j < |strategies|
      ensures env.analyze(j, symbol, data) == Returned(Some(Analyze(strategies[j], data)))
      ensures Analyze(strategies[j], data).action.None?
    {
      RequiredDataTight(strategies[j], data);
    }
    NoActionNoOrders(env, symbol, data, 0, slots, placed, calls, log);
  }

  /** `_fetch_data_for_symbol` on the provider's answer: the symbol's
      frame, or None when the answer is empty or lacks the symbol. */
  function SymbolData(bars: map<string, Frame>, symbol: string): (d: Option<Frame>)
    ensures d.Some? <==> symbol in bars
    ensures d.Some? ==> d.value == bars[symbol]
  {
    if bars == map[] || symbol !in bars then None else Some(bars[symbol])
  }

  /** Where the symbol loop stands: the free slots, the number of
      executions that returned an order id, the request log, the broker call
      count, the provider's cache, the symbols fetched so far, the frame of
      each symbol the strategies ran on, and whether the slots ran out. */
  datatype ScanRun = ScanRun(
    slots: int, placed: nat, log: seq<Request>, calls: nat, cache: Provider.CacheState,
    fetched: seq<string>, traded: map<string, Frame>, stopped: bool)

  /** The symbols from index `i` on: a held symbol is passed over; any
      other is fetched through the provider (cached, the bot's timeframe,
      100 bars) and, when its frame is there and not empty, gets the
      strategy loop; the scan ends once the slots run out. */
  function Scan(
    env: Env, timeFrame: string, now: int, held: set<string>, symbols: seq<string>, i: nat,
    st: Provider.CacheState, slots: int, placed: nat, calls: nat, log: seq<Request>, fetched: seq<string>,
    traded: map<string, Frame>): ScanRun
    decreases |symbols| - i, 1
  {
    if i >= |symbols| then ScanRun(slots, placed, log, calls, st, fetched, traded, false)
    else if symbols[i] in held then
      Scan(env, timeFrame, now, held, symbols, i + 1, st, slots, placed, calls, log, fetched, traded)
    else
      var served := Provider.Serve(st, [symbols[i]], timeFrame, 100, None, None, true, env.broker.bars, now);
      Visit(env, timeFrame, now, held, symbols, i, served.after, SymbolData(served.data, symbols[i]),
            slots, placed, calls, log, fetched + [symbols[i]], traded)
  }

  /** The rest of the scan once the symbol at index `i` has been fetched,
      with `data` its frame and `st` the cache afterwards. */
  function Visit(
    env: Env, timeFrame: string, now: int, held: set<string>, symbols: seq<string>, i: nat,
    st: Provider.CacheState, data: Option<Frame>, slots: int, placed: nat, calls: nat, log: seq<Request>,
    fetched: seq<string>, traded: map<string, Frame>): ScanRun
    requires i < |symbols|
    decreases |symbols| - i, 0
  {
    if data.None? || IsEmpty(data.value) then
      Scan(env, timeFrame, now, held, symbols, i + 1, st, slots, placed, calls, log, fetched, traded)
    else
      var run := StrategyRun(env, symbols[i], data.value, 0, slots, placed, calls, log);
      var ran := traded[symbols[i] := data.value];
      if run.stopped then ScanRun(run.slots, run.placed, run.log, run.calls, st, fetched, ran, true)
      else Scan(env, timeFrame, now, held, symbols, i + 1, st, run.slots, run.placed, run.calls, run.log, fetched, ran)
  }

  /** A held symbol is passed over, and so is a fetched one without a
      non-empty frame: the scan goes on with the next symbol unchanged. */
  lemma ScanSkips(
    env: Env, timeFrame: string, now: int, held: set<string>, symbols: seq<string>, i: nat,
    st: Provider.CacheState, data: Option<Frame>, slots: int, placed: nat, calls: nat, log: seq<Request>,
    fetched: seq<string>, traded: map<string, Frame>)
    requires i < |symbols|
    ensures symbols[i] in held ==>
      Scan(env, timeFrame, now, held, symbols, i, st, slots, placed, calls, log, fetched, traded)
        == Scan(env, timeFrame, now, held, symbols, i + 1, st, slots, placed, calls, log, fetched, traded)
    ensures data.None? || IsEmpty(data.value) ==>
      Visit(env, timeFrame, now, held, symbols, i, st, data, slots, placed, calls, log, fetched, traded)
        == Scan(env, timeFrame, now, held, symbols, i + 1, st, slots, placed, calls, log, fetched, traded)
  {
  }

  /** The scan after a symbol whose frame the strategies ran on: it ends
      with the strategy loop when that used the last slot, and otherwise
      goes on with the next symbol from where the loop left off. */
  lemma VisitRuns(
    env: Env, timeFrame: string, now: int, held: set<string>, symbols: seq<string>, i: nat,
    st: Provider.CacheState, data: Frame, slots: int, placed: nat, calls: nat, log: seq<Request>,
    fetched: seq<string>, traded: map<string, Frame>)
    requires i < |symbols| && !IsEmpty(data)
    ensures var run := StrategyRun(env, symbols[i], data, 0, slots, placed, calls, log);
      var ran := traded[symbols[i] := data];
      Visit(env, timeFrame, now, held, symbols, i, st, Some(data), slots, placed, calls, log, fetched, traded)
        == if run.stopped then ScanRun(run.slots, run.placed, run.log, run.calls, st, fetched, ran, true)
           else Scan(env, timeFrame, now, held, symbols, i + 1, st, run.slots, run.placed, run.calls, run.log,
                     fetched, ran)
  {
  }

  /** What a scan promises from a point on (`ScanMeaning`): the slot
      accounting of the strategy loop carried across symbols; held symbols
      never fetched, and every other one fetched unless the slots run out;
      the strategies run only on a symbol's non-empty frame, and every new
      request is for such a symbol; the log only grows, one broker call per
      request. */
  predicate ScanPromise(
    r: ScanRun, symbols: seq<string>, i: nat, held: set<string>, slots: int, placed: nat, calls: nat,
    log: seq<Request>, fetched: seq<string>, traded: map<string, Frame>)
    requires i <= |symbols|
  {
    && 0 <= r.slots <= slots
    && r.placed + r.slots == placed + slots
    && (r.stopped <==> r.slots == 0)
    && (r.stopped <==> r.placed == placed + slots)
    && |fetched| <= |r.fetched| && r.fetched[..|fetched|] == fetched
    && (forall j :: |fetched| <= j < |r.fetched| ==> r.fetched[j] in symbols[i..] && r.fetched[j] !in held)
    && (!r.stopped ==> forall s :: s in symbols[i..] && s !in held ==> s in r.fetched)
    && traded.Keys <= r.traded.Keys
    && (forall s :: s in r.traded ==> !IsEmpty(r.traded[s]))
    && (forall s :: s in r.traded && s !in traded ==> s in r.fetched && s !in held)
    && |log| <= |r.log| && r.log[..|log|] == log
    && (forall j :: |log| <= j < |r.log| ==> RequestSymbol(r.log[j]) in r.fetched)
    && (forall j :: |log| <= j < |r.log| ==> RequestSymbol(r.log[j]) in r.traded)
    && r.calls == calls + (|r.log| - |log|)
  }

  /** With at least one free slot, and only non-empty frames traded so far,
      the scan keeps its promise. */
  lemma {:induction false} ScanMeaning(
    env: Env, timeFrame: string, now: int, held: set<string>, symbols: seq<string>, i: nat,
    st: Provider.CacheState, slots: int, placed: nat, calls: nat, log: seq<Request>, fetched: seq<string>,
    traded: map<string, Frame>)
    requires i <= |symbols| && slots >= 1
    requires forall s :: s in traded ==> !IsEmpty(traded[s])
    ensures ScanPromise(Scan(env, timeFrame, now, held, symbols, i, st, slots, placed, calls, log, fetched, traded),
                        symbols, i, held, slots, placed, calls, log, fetched, traded)
    decreases |symbols| - i, 1
  {
    if i < |symbols| {
      var symbol := symbols[i];
      assert symbols[i..] == [symbol] + symbols[i + 1..];
      if symbol in held {
        ScanMeaning(env, timeFrame, now, held, symbols, i + 1, st, slots, placed, calls, log, fetched, traded);
      } else {
        var served := Provider.Serve(st, [symbol], timeFrame, 100, None, None, true, env.broker.bars, now);
        VisitMeaning(env, timeFrame, now, held, symbols, i, served.after, SymbolData(served.data, symbol),
                     slots, placed, calls, log, fetched, traded);
      }
    }
  }

  /** `ScanMeaning` once the symbol at index `i` has been fetched. */
  lemma {:induction false} VisitMeaning(
    env: Env, timeFrame: string, now: int, held: set<string>, symbols: seq<string>, i: nat,
    st: Provider.CacheState, data: Option<Frame>, slots: int, placed: nat, calls: nat, log: seq<Request>,
    fetched: seq<string>, traded: map<string, Frame>)
    requires i < |symbols| && symbols[i] !in held && slots >= 1
    requires forall s :: s in traded ==> !IsEmpty(traded[s])
    ensures ScanPromise(Visit(env, timeFrame, now, held, symbols, i, st, data, slots, placed, calls, log,
                              fetched + [symbols[i]], traded),
                        symbols, i, held, slots, placed, calls, log, fetched, traded)
    decreases |symbols| - i, 0
  {
    var symbol := symbols[i];
    var grown := fetched + [symbol];
    assert symbols[i..] == [symbol] + symbols[i + 1..];
    if data.None? || IsEmpty(data.value) {
      ScanMeaning(env, timeFrame, now, held, symbols, i + 1, st, slots, placed, calls, log, grown, traded);
      var r := Scan(env, timeFrame, now, held, symbols, i + 1, st, slots, placed, calls, log, grown, traded);
      FetchedGrows(fetched, symbol, r.fetched, symbols, i, held);
    } else {
      var run := StrategyRun(env, symbol, data.value, 0, slots, placed, calls, log);
      var ran := traded[symbol := data.value];
      StrategyRunMeaning(env, symbol, data.value, 0, slots, placed, calls, log);
      if run.stopped {
        FetchedGrows(fetched, symbol, grown, symbols, i, held);
      } else {
        ScanMeaning(env, timeFrame, now, held, symbols, i + 1, st, run.slots, run.placed, run.calls, run.log,
                    grown, ran);
        var r := Scan(env, timeFrame, now, held, symbols, i + 1, st, run.slots, run.placed, run.calls, run.log,
                      grown, ran);
        FetchedGrows(fetched, symbol, r.fetched, symbols, i, held);
        LogThroughScan(log, run.log, r.log, symbol, r.fetched, r.traded);
      }
    }
  }

  /** A log extended by requests for one symbol, then by requests for
      symbols fetched and traded, keeps its prefix and logs only fetched,
      traded symbols. */
  lemma LogThroughScan(
    log: seq<Request>, mid: seq<Request>, r: seq<Request>, symbol: string, fetched: seq<string>,
    traded: map<string, Frame>)
    requires |log| <= |mid| && mid[..|log|] == log
    requires forall j :: |log| <= j < |mid| ==> RequestSymbol(mid[j]) == symbol
    requires |mid| <= |r| && r[..|mid|] == mid
    requires forall j :: |mid| <= j < |r| ==> RequestSymbol(r[j]) in fetched
    requires forall j :: |mid| <= j < |r| ==> RequestSymbol(r[j]) in traded
    requires symbol in fetched && symbol in traded
    ensures |log| <= |r| && r[..|log|] == log
    ensures forall j :: |log| <= j < |r| ==> RequestSymbol(r[j]) in fetched
    ensures forall j :: |log| <= j < |r| ==> RequestSymbol(r[j]) in traded
  {
    assert r[..|log|] == mid[..|log|];
    forall j | |log| <= j < |mid| ensures RequestSymbol(r[j]) == symbol {
      assert r[j] == mid[j];
    }
  }

  /** The fetched list grown by the symbol at index `i`, then by later
      symbols, keeps its prefix, and everything new is an unheld symbol from
      index `i` on. */
  lemma FetchedGrows(fetched: seq<string>, symbol: string, r: seq<string>, symbols: seq<string>, i: nat, held: set<string>)
    requires i < |symbols| && symbol == symbols[i] && symbol !in held
    requires |fetched + [symbol]| <= |r| && r[..|fetched + [symbol]|] == fetched + [symbol]
    requires forall j :: |fetched + [symbol]| <= j < |r| ==> r[j] in symbols[i + 1..] && r[j] !in held
    ensures |fetched| <= |r| && r[..|fetched|] == fetched && symbol in r
    ensures forall j :: |fetched| <= j < |r| ==> r[j] in symbols[i..] && r[j] !in held
  {
    assert r[..|fetched|] == (fetched + [symbol])[..|fetched|];
    assert r[|fetched|] == (fetched + [symbol])[|fetched|] == symbol;
    assert symbols[i..] == [symbol] + symbols[i + 1..];
  }

  class TradingBot {
    const symbols: seq<string>
    /** The number of strategies; each is reached through the analyzer. */
    const strategies: nat
    const maxPositions: int
    const riskPerTrade: real
    const timeFrame: string
    const provider: Provider.DataProvider
    var positions: map<string, Alpaca.Position>
    var accountInfo: Option<Alpaca.Account>
    var isRunning: bool
    /** The number of calls made to the broker so far. */
    var brokerCalls: nat
    /** Every order-side request sent, in order. */
    ghost var requests: seq<Request>

    ghost predicate Valid()
      reads this, provider
    {
      provider.Valid()
    }

    /** What the scan of a cycle works with, given the current account. */
    function Setting(keepBuyId: bool, broker: Broker, analyze: Analyzer): Env
      reads this`accountInfo
    {
      Env(keepBuyId, Equity(accountInfo), riskPerTrade, broker, analyze, strategies)
    }

    constructor(
      symbols: seq<string>, strategies: nat, maxPositions: int, riskPerTrade: real, timeFrame: string)
      ensures Valid() && fresh(provider)
      ensures this.symbols == symbols && this.strategies == strategies
      ensures this.maxPositions == maxPositions && this.riskPerTrade == riskPerTrade
      ensures this.timeFrame == timeFrame
      ensures positions == map[] && accountInfo == None && !isRunning
      ensures brokerCalls == 0 && requests == []
      ensures provider.cache == map[] && provider.requests == 0
    {
      this.symbols := symbols;
      this.strategies := strategies;
      this.maxPositions := maxPositions;
      this.riskPerTrade := riskPerTrade;
      this.timeFrame := timeFrame;
      provider := new Provider.DataProvider();
      positions := map[];
      accountInfo := None;
      isRunning := false;
      brokerCalls := 0;
      requests := [];
    }

    /** `_handle_exit`: only the running flag changes. */
    method HandleExit(signum: int)
      modifies this
      ensures !isRunning
      ensures positions == old(positions) && accountInfo == old(accountInfo)
      ensures brokerCalls == old(brokerCalls) && requests == old(requests)
    {
      isRunning := false;
    }

    /** `_update_account_info`: the account dictionary replaces the old one
        ({} when the API failed); an exception leaves it as it was. */
    method UpdateAccountInfo(broker: Broker)
      modifies this
      ensures brokerCalls == old(brokerCalls) + 1
      ensures var answer := broker.account(old(brokerCalls));
        accountInfo == (if answer.Returned? then Alpaca.GetAccount(answer.value) else old(accountInfo))
      ensures positions == old(positions) && isRunning == old(isRunning) && requests == old(requests)
    {
      var answer := broker.account(brokerCalls);
      brokerCalls := brokerCalls + 1;
      if answer.Returned? {
        accountInfo := Alpaca.GetAccount(answer.value);
      }
    }

    /** `_update_positions`: the listed positions, keyed by symbol, replace
        the old snapshot wholesale; an exception leaves it as it was. */
    method UpdatePositions(broker: Broker)
      modifies this
      ensures brokerCalls == old(brokerCalls) + 1
      ensures var answer := broker.positions(old(brokerCalls));
        positions == (if answer.Returned? then PositionMap(Alpaca.ListPositions(answer.value)) else old(positions))
      ensures accountInfo == old(accountInfo) && isRunning == old(isRunning) && requests == old(requests)
    {
      var answer := broker.positions(brokerCalls);
      brokerCalls := brokerCalls + 1;
      if answer.Returned? {
        positions := PositionMap(Alpaca.ListPositions(answer.value));
      }
    }

    /** `_fetch_data_for_symbol`: the symbol's frame from one cached
        provider request for the bot's timeframe and 100 bars, or None when
        the answer is empty or lacks the symbol. */
    method FetchDataForSymbol(symbol: string, broker: Broker, now: int) returns (data: Option<Frame>)
      requires Valid()
      modifies provider
      ensures Valid()
      ensures var served := Provider.Serve(old(provider.State()), [symbol], timeFrame, 100, None, None, true, broker.bars, now);
        && data == SymbolData(served.data, symbol)
        && provider.State() == served.after
      ensures provider.requests == old(provider.requests) + 1
      ensures provider.calls == old(provider.calls) ||
              provider.calls == old(provider.calls) + [Provider.BarsCall([symbol], Alpaca.BarsParams(timeFrame, 100, None, None))]
    {
      var bars := provider.GetBars([symbol], timeFrame, 100, None, None, true, broker.bars, now);
      if bars == map[] || symbol !in bars {
        return None;
      }
      data := Some(bars[symbol]);
    }

    /** `_execute_signal`; with `keepBuyId` false exactly as written, with
        it true the protective stop's failure is kept apart from the buy's
        result. */
    method ExecuteSignal(keepBuyId: bool, symbol: string, signal: Signal, broker: Broker)
      returns (orderId: Option<string>)
      modifies this
      ensures var e := ExecuteWith(keepBuyId, symbol, signal, Equity(old(accountInfo)), riskPerTrade, broker, old(brokerCalls));
        && orderId == e.orderId
        && requests == old(requests) + e.requests
        && brokerCalls == old(brokerCalls) + |e.requests|
      ensures positions == old(positions) && accountInfo == old(accountInfo) && isRunning == old(isRunning)
    {
      if signal.action.None? {
        return None;
      }
      if signal.action.value == Buy {
        var qty := BuyQuantity(Equity(accountInfo), riskPerTrade, signal.price, signal.stopLoss);
        if qty.None? {
          return None;
        }
        orderId := PlaceBuy(keepBuyId, symbol, qty.value, signal.stopLoss.value, broker);
      } else {
        var answer := broker.closes(brokerCalls, symbol);
        brokerCalls := brokerCalls + 1;
        requests := requests + [Close(symbol)];
        if answer.Raised? {
          return None;
        }
        var order := Alpaca.ClosePosition(answer.value);
        return if order.Some? then Some(order.value.id) else None;
      }
    }

    /** The buy branch of `_execute_signal` once the size is known: a market
        buy, then, when the broker accepted it, the protective stop. The
        buy's id is returned unless the stop order raised and `keepBuyId` is
        false (the code as written). */
    method PlaceBuy(keepBuyId: bool, symbol: string, qty: int, stopLoss: real, broker: Broker)
      returns (orderId: Option<string>)
      modifies this
      ensures var buy := Alpaca.MarketOrder(symbol, qty, "buy");
        var stop := StopOrder(symbol, qty, stopLoss);
        var answer := broker.orders(old(brokerCalls), buy);
        && (answer.Returned? && answer.value.Some? ==>
              && requests == old(requests) + [Place(buy), Place(stop)]
              && brokerCalls == old(brokerCalls) + 2
              && orderId == (if !keepBuyId && broker.orders(old(brokerCalls) + 1, stop).Raised? then None
                             else Some(answer.value.value.id)))
        && (!(answer.Returned? && answer.value.Some?) ==>
              && requests == old(requests) + [Place(buy)]
              && brokerCalls == old(brokerCalls) + 1
              && orderId == None)
      ensures positions == old(positions) && accountInfo == old(accountInfo) && isRunning == old(isRunning)
    {
      var buy := Alpaca.MarketOrder(symbol, qty, "buy");
      var answer := broker.orders(brokerCalls, buy);
      brokerCalls := brokerCalls + 1;
      requests := requests + [Place(buy)];
      if answer.Raised? {
        return None;
      }
      var order := Alpaca.CreateOrder(answer.value);
      if order.Some? {
        var stop := StopOrder(symbol, qty, stopLoss);
        var stopAnswer := broker.orders(brokerCalls, stop);
        brokerCalls := brokerCalls + 1;
        requests := requests + [Place(stop)];
        if !keepBuyId && stopAnswer.Raised? {
          return None;
        }
        return Some(order.value.id);
      }
      return None;
    }

    /** The strategy loop of `_trading_cycle` for one symbol: every strategy
        in turn, an exception from one not stopping the others, each order id
        returned using up a slot (counted in `placed`), and a stop as soon as
        none is left. */
    method ApplyStrategies(
      keepBuyId: bool, symbol: string, data: Frame, broker: Broker, analyze: Analyzer, slots0: int,
      ghost placed0: nat)
      returns (slots: int, stopped: bool, ghost placed: nat)
      modifies this
      ensures var run := StrategyRun(Setting(keepBuyId, broker, analyze), symbol, data, 0, slots0, placed0,
                                     old(brokerCalls), old(requests));
        && slots == run.slots && placed == run.placed && stopped == run.stopped
        && requests == run.log && brokerCalls == run.calls
      ensures positions == old(positions) && accountInfo == old(accountInfo) && isRunning == old(isRunning)
    {
      ghost var env := Setting(keepBuyId, broker, analyze);
      ghost var total := StrategyRun(env, symbol, data, 0, slots0, placed0, brokerCalls, requests);
      slots, placed := slots0, placed0;
      var k := 0;
      while k < strategies
        invariant k <= strategies
        invariant positions == old(positions) && accountInfo == old(accountInfo) && isRunning == old(isRunning)
        invariant total == StrategyRun(env, symbol, data, k, slots, placed, brokerCalls, requests)
      {
        var answer := analyze(k, symbol, data);
        if answer.Returned? && answer.value.Some? {
          var orderId := ExecuteSignal(keepBuyId, symbol, answer.value.value, broker);
          if Truthy(orderId) {
            slots, placed := slots - 1, placed + 1;
            if slots <= 0 {
              return slots, true, placed;
            }
          }
        }
        k := k + 1;
      }
      stopped := false;
    }

    /** The symbol loop of `_trading_cycle`, once there are free slots:
        held symbols are skipped, symbols without data are skipped, and the
        cycle ends early when the slots run out. */
    method ScanSymbols(keepBuyId: bool, broker: Broker, analyze: Analyzer, now: int, slots0: int)
      requires Valid()
      modifies this, provider
      ensures Valid()
      ensures var run := Scan(Setting(keepBuyId, broker, analyze), timeFrame, now, positions.Keys, symbols, 0,
                              old(provider.State()), slots0, 0, old(brokerCalls), old(requests), [], map[]);
        && requests == run.log && brokerCalls == run.calls
        && provider.State() == run.cache
        && provider.requests == old(provider.requests) + |run.fetched|
      ensures positions == old(positions) && accountInfo == old(accountInfo) && isRunning == old(isRunning)
    {
      ghost var env := Setting(keepBuyId, broker, analyze);
      ghost var held := positions.Keys;
      ghost var fetched: seq<string> := [];
      ghost var traded: map<string, Frame> := map[];
      ghost var placed: nat := 0;
      ghost var total := Scan(env, timeFrame, now, held, symbols, 0, provider.State(), slots0, placed, brokerCalls,
                              requests, fetched, traded);
      var slots := slots0;
      var i := 0;
      while i < |symbols|
        invariant i <= |symbols|
        invariant Valid()
        invariant provider.requests == old(provider.requests) + |fetched|
        invariant positions == old(positions) && accountInfo == old(accountInfo) && isRunning == old(isRunning)
        invariant Setting(keepBuyId, broker, analyze) == env
        invariant total == Scan(env, timeFrame, now, held, symbols, i, provider.State(), slots, placed, brokerCalls,
                                requests, fetched, traded)
      {
        if symbols[i] in positions {
          ScanSkips(env, timeFrame, now, held, symbols, i, provider.State(), None, slots, placed, brokerCalls,
                    requests, fetched, traded);
        } else {
          var stopped;
          slots, stopped, placed, fetched, traded :=
            VisitSymbol(keepBuyId, broker, analyze, now, i, slots, placed, fetched, traded);
          if stopped {
            return;
          }
        }
        i := i + 1;
      }
    }

    /** One unheld symbol of the symbol loop: its bars are fetched and, when
        there is a non-empty frame, every strategy is applied to it. The scan
        from this symbol on either ends here, when the slots ran out, or
        goes on with the next symbol from the state this leaves. */
    method VisitSymbol(
      keepBuyId: bool, broker: Broker, analyze: Analyzer, now: int, i: nat, slots0: int, ghost placed0: nat,
      ghost fetched0: seq<string>, ghost traded0: map<string, Frame>)
      returns (slots: int, stopped: bool, ghost placed: nat, ghost fetched: seq<string>, ghost traded: map<string, Frame>)
      requires Valid() && i < |symbols| && symbols[i] !in positions
      modifies this, provider
      ensures Valid()
      ensures var scan := Scan(Setting(keepBuyId, broker, analyze), timeFrame, now, positions.Keys, symbols, i,
                               old(provider.State()), slots0, placed0, old(brokerCalls), old(requests), fetched0,
                               traded0);
        scan == if stopped then ScanRun(slots, placed, requests, brokerCalls, provider.State(), fetched, traded, true)
                else Scan(Setting(keepBuyId, broker, analyze), timeFrame, now, positions.Keys, symbols, i + 1,
                          provider.State(), slots, placed, brokerCalls, requests, fetched, traded)
      ensures provider.requests == old(provider.requests) + 1 && fetched == fetched0 + [symbols[i]]
      ensures positions == old(positions) && accountInfo == old(accountInfo) && isRunning == old(isRunning)
    {
      ghost var env := Setting(keepBuyId, broker, analyze);
      var symbol := symbols[i];
      var data := FetchDataForSymbol(symbol, broker, now);
      fetched := fetched0 + [symbol];
      ScanSkips(env, timeFrame, now, positions.Keys, symbols, i, provider.State(), data, slots0, placed0,
                brokerCalls, requests, fetched, traded0);
      slots, stopped, placed, traded := slots0, false, placed0, traded0;
      if data.Some? && !IsEmpty(data.value) {
        VisitRuns(env, timeFrame, now, positions.Keys, symbols, i, provider.State(), data.value,
                  slots0, placed0, brokerCalls, requests, fetched, traded0);
        slots, stopped, placed := ApplyStrategies(keepBuyId, symbol, data.value, broker, analyze, slots0, placed0);
        traded := traded0[symbol := data.value];
      }
    }

    /** `_trading_cycle`: refresh the account and the positions, then, if
        fewer positions are held than allowed, scan the symbols. */
    method TradingCycle(keepBuyId: bool, broker: Broker, analyze: Analyzer, now: int)
      requires Valid()
      modifies this, provider
      ensures Valid()
      ensures var answer := broker.account(old(brokerCalls));
        accountInfo == (if answer.Returned? then Alpaca.GetAccount(answer.value) else old(accountInfo))
      ensures var answer := broker.positions(old(brokerCalls) + 1);
        positions == (if answer.Returned? then PositionMap(Alpaca.ListPositions(answer.value)) else old(positions))
      ensures var slots := AvailableSlots(maxPositions, |positions|);
        && (slots == 0 ==>
              && requests == old(requests) && brokerCalls == old(brokerCalls) + 2
              && provider.State() == old(provider.State())
              && provider.requests == old(provider.requests) && provider.calls == old(provider.calls))
        && (slots > 0 ==>
              var run := Scan(Setting(keepBuyId, broker, analyze), timeFrame, now, positions.Keys, symbols, 0,
                              old(provider.State()), slots, 0, old(brokerCalls) + 2, old(requests), [], map[]);
              && requests == run.log && brokerCalls == run.calls
              && provider.State() == run.cache
              && provider.requests == old(provider.requests) + |run.fetched|
              && run.placed <= slots && (run.stopped <==> run.placed == slots)
              && (forall s :: s in run.traded ==> s !in positions && !IsEmpty(run.traded[s]))
              && (forall j :: |old(requests)| <= j < |requests| ==> RequestSymbol(requests[j]) in run.traded))
      ensures isRunning == old(isRunning)
    {
      UpdateAccountInfo(broker);
      UpdatePositions(broker);
      var currentPositions := |positions|;
      var availableSlots := AvailableSlots(maxPositions, currentPositions);
      if availableSlots == 0 {
        return;
      }
      ghost var before := provider.State();
      ScanSymbols(keepBuyId, broker, analyze, now, availableSlots);
      ScanMeaning(Setting(keepBuyId, broker, analyze), timeFrame, now, positions.Keys, symbols, 0,
                  before, availableSlots, 0, old(brokerCalls) + 2, old(requests), [], map[]);
    }
  }
}
