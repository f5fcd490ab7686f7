/** The moving-average crossover strategy (src/bot/strategy.py): a buy signal
    when the short rolling mean of closes crosses above the long one, a sell
    signal when it crosses below, nothing otherwise. */
module Strategy {
  import opened Common
  import opened Frames

  datatype MAStrategy = MAStrategy(shortWindow: int, longWindow: int, name: string)

  /** The constructor's defaults. */
  const DefaultStrategy: MAStrategy := MAStrategy(10, 30, "MA_Crossover")

  /** The actions a signal dictionary can carry that the bot acts on. */
  datatype Action = Buy | Sell | Exit

  /** A signal: its action (None for `{"action": None}`), the entry price and
      the protective stop. The metrics and reason texts are not modelled. */
  datatype Signal = Signal(action: Option<Action>, price: Option<real>, stopLoss: Option<real>)

  const NullSignal: Signal := Signal(None, None, None)

  /** The data requirements dictionary. */
  datatype Requirements = Requirements(timeframe: string, lookbackBars: int, minRequiredBars: int)

  /** `get_required_data` */
  function GetRequiredData(st: MAStrategy): Requirements
  {
    Requirements("1H", st.longWindow + 10, st.longWindow + 1)
  }

  /** The close column, one entry per row; None where the close is NaN. */
  function Closes(f: Frame): (c: seq<Option<real>>)
    ensures |c| == |f.rows|
  {
    seq(|f.rows|, i requires 0 <= i < |f.rows| =>
      if "close" in f.rows[i].cells then Some(f.rows[i].cells["close"]) else None)
  }

  /** The sum of `closes[lo..hi]`, added from the right; None when one of
      them is NaN. */
  function WindowSum(closes: seq<Option<real>>, lo: int, hi: int): (s: Option<real>)
    requires 0 <= lo <= hi <= |closes|
    ensures s.Some? <==> forall k :: lo <= k < hi ==> closes[k].Some?
    decreases hi - lo
  {
    if lo == hi then Some(0.0)
    else
      var rest := WindowSum(closes, lo, hi - 1);
      if rest.None? || closes[hi - 1].None? then None
      else Some(rest.value + closes[hi - 1].value)
  }

  /** `close.rolling(window=w).mean()` at row `i`: defined once `w` rows end
      at `i` and none of them is NaN. A window below 1 never gives a value
      (pandas either raises, which the strategy turns into no signal, or
      gives NaN). */
  function MA(closes: seq<Option<real>>, i: int, w: int): (m: Option<real>)
    requires 0 <= i < |closes|
    ensures m.Some? <==> 1 <= w <= i + 1 && forall k :: i + 1 - w <= k <= i ==> closes[k].Some?
  {
    if w <= 0 || i + 1 < w then None
    else
      var s := WindowSum(closes, i + 1 - w, i + 1);
      if s.None? then None else Some(s.value / w as real)
  }

  /** The four rolling means the crossover rule compares. */
  datatype Averages = Averages(prevShort: real, prevLong: real, curShort: real, curLong: real)

  /** `calculate_moving_averages` followed by the guards of `analyze`: too
      few rows, a missing close column, fewer than two rows, or a NaN among
      the four means give None. */
  function MovingAverages(st: MAStrategy, f: Frame): Option<Averages>
  {
    var n := |f.rows|;
    if n < st.longWindow || !("close" in f.columns) || n < 2 then None
    else AveragesOf(Closes(f), st)
  }

  /** The four means over a close column of at least two rows, when all are
      defined. */
  function AveragesOf(c: seq<Option<real>>, st: MAStrategy): Option<Averages>
    requires |c| >= 2
  {
    var n := |c|;
    var cs := MA(c, n - 1, st.shortWindow);
    var cl := MA(c, n - 1, st.longWindow);
    var ps := MA(c, n - 2, st.shortWindow);
    var pl := MA(c, n - 2, st.longWindow);
    if cs.None? || cl.None? || ps.None? || pl.None? then None
    else Some(Averages(ps.value, pl.value, cs.value, cl.value))
  }

  /** `analyze`: a golden cross gives a buy at the last close with a stop 5%
      below it; a death cross gives a sell at the last close; anything else
      gives no action. */
  function Analyze(st: MAStrategy, f: Frame): (r: Signal)
    ensures |f.rows| < st.longWindow ==> r == NullSignal
    ensures r.action.Some? ==>
      && |f.rows| >= st.longWindow + 1 && |f.rows| >= 2
      && st.shortWindow >= 1 && st.longWindow >= 1
      && r.price == Closes(f)[|f.rows| - 1] && r.price.Some?
    ensures r.action == Some(Buy) ==> r.stopLoss == Some(r.price.value * 0.95)
    ensures r.action != Some(Buy) ==> r.stopLoss.None?
    ensures r.action != Some(Exit)
  {
    match MovingAverages(st, f)
    case None => NullSignal
    case Some(a) =>
      var n := |f.rows|;
      var price := Closes(f)[n - 1];
      assert price.Some?;
      if a.prevShort <= a.prevLong && a.curShort > a.curLong then
        Signal(Some(Buy), price, Some(price.value * 0.95))
      else if a.prevShort >= a.prevLong && a.curShort < a.curLong then
        Signal(Some(Sell), price, None)
      else NullSignal
  }

  /** The four rolling means at the last two rows, when all are defined. */
  predicate MeansDefined(st: MAStrategy, f: Frame)
    requires |f.rows| >= 2
  {
    var c := Closes(f);
    var n := |f.rows|;
    && MA(c, n - 1, st.shortWindow).Some? && MA(c, n - 1, st.longWindow).Some?
    && MA(c, n - 2, st.shortWindow).Some? && MA(c, n - 2, st.longWindow).Some?
  }

  /** A buy signal comes exactly from a golden cross: the short mean was at
      or below the long one at the previous row and is above it at the last
      row. */
  lemma BuyIffGoldenCross(st: MAStrategy, f: Frame)
    ensures Analyze(st, f).action == Some(Buy) <==>
      && "close" in f.columns && |f.rows| >= 2 && MeansDefined(st, f)
      && var c := Closes(f); var n := |f.rows|;
         && MA(c, n - 2, st.shortWindow).value <= MA(c, n - 2, st.longWindow).value
         && MA(c, n - 1, st.shortWindow).value > MA(c, n - 1, st.longWindow).value
  {
    if "close" in f.columns && |f.rows| >= 2 && MeansDefined(st, f) {
      assert |f.rows| >= st.longWindow;
    }
  }

  /** A sell signal comes exactly from a death cross: the short mean was at
      or above the long one at the previous row and is below it at the last
      row. The two crosses exclude each other, so no buy is lost to a sell. */
  lemma SellIffDeathCross(st: MAStrategy, f: Frame)
    ensures Analyze(st, f).action == Some(Sell) <==>
      && "close" in f.columns && |f.rows| >= 2 && MeansDefined(st, f)
      && var c := Closes(f); var n := |f.rows|;
         && MA(c, n - 2, st.shortWindow).value >= MA(c, n - 2, st.longWindow).value
         && MA(c, n - 1, st.shortWindow).value < MA(c, n - 1, st.longWindow).value
  {
    if "close" in f.columns && |f.rows| >= 2 && MeansDefined(st, f) {
      assert |f.rows| >= st.longWindow;
    }
  }

  /** With exactly `long_window` rows the long mean has no value at the
      previous row, so there is no signal; an actionable signal needs one row
      more. */
  lemma ExactlyLongWindowIsNull(st: MAStrategy, f: Frame)
    requires |f.rows| == st.longWindow
    ensures Analyze(st, f).action.None?
  {
    if |f.rows| >= 2 && "close" in f.columns {
      assert MA(Closes(f), |f.rows| - 2, st.longWindow).None?;
    }
  }

  /** The sum of a sequence of reals, added from the left. */
  function Sum(s: seq<real>): real
  {
    if s == [] then 0.0 else s[0] + Sum(s[1..])
  }

  lemma {:induction false} SumSnoc(s: seq<real>, x: real)
    ensures Sum(s + [x]) == Sum(s) + x
  {
    if s != [] {
      assert (s + [x])[1..] == s[1..] + [x];
      SumSnoc(s[1..], x);
    }
  }

  /** The values of a run of present closes. */
  function Values(c: seq<Option<real>>): (v: seq<real>)
    requires forall k :: 0 <= k < |c| ==> c[k].Some?
    ensures |v| == |c| && forall k :: 0 <= k < |c| ==> v[k] == c[k].value
  {
    seq(|c|, k requires 0 <= k < |c| && c[k].Some? => c[k].value)
  }

  lemma {:induction false} WindowSumIsSum(closes: seq<Option<real>>, lo: int, hi: int)
    requires 0 <= lo <= hi <= |closes|
    requires forall k :: lo <= k < hi ==> closes[k].Some?
    ensures WindowSum(closes, lo, hi) == Some(Sum(Values(closes[lo..hi])))
    decreases hi - lo
  {
    if lo < hi {
      WindowSumIsSum(closes, lo, hi - 1);
      assert Values(closes[lo..hi]) == Values(closes[lo..hi - 1]) + [closes[hi - 1].value];
      SumSnoc(Values(closes[lo..hi - 1]), closes[hi - 1].value);
    }
  }

  /** The rolling mean at a row is the arithmetic mean of the `w` closes
      ending at that row. */
  lemma MAIsMean(closes: seq<Option<real>>, i: int, w: int)
    requires 0 <= i < |closes| && 1 <= w <= i + 1
    requires forall k :: i + 1 - w <= k <= i ==> closes[k].Some?
    ensures MA(closes, i, w) == Some(Sum(Values(closes[i + 1 - w..i + 1])) / w as real)
  {
    WindowSumIsSum(closes, i + 1 - w, i + 1);
  }

  /** The bars `get_required_data` asks for are enough: with at least
      `min_required_bars` rows, all closes present and a short window no
      longer than the long one, every mean the rule compares is defined, so
      the signal is decided by the crossover rule alone. */
  lemma RequiredDataSuffices(st: MAStrategy, f: Frame)
    requires 1 <= st.shortWindow <= st.longWindow
    requires "close" in f.columns && forall x :: x in f.rows ==> "close" in x.cells
    requires |f.rows| >= GetRequiredData(st).minRequiredBars
    ensures GetRequiredData(st).timeframe == "1H"
    ensures GetRequiredData(st).lookbackBars > GetRequiredData(st).minRequiredBars
    ensures |f.rows| >= 2 && MeansDefined(st, f)
    ensures MovingAverages(st, f).Some?
  {
    var c := Closes(f);
    forall k | 0 <= k < |c| ensures c[k].Some? {
      assert f.rows[k] in f.rows;
    }
  }

  /** No fewer bars suffice either: with fewer than `min_required_bars`
      rows there is never an action. */
  lemma RequiredDataTight(st: MAStrategy, f: Frame)
    requires |f.rows| < GetRequiredData(st).minRequiredBars
    ensures Analyze(st, f).action.None?
  {
    if |f.rows| == st.longWindow {
      ExactlyLongWindowIsNull(st, f);
    }
  }

  /** The arithmetic mean of the `w` closes ending at row `i`. */
  function Mean(closes: seq<Option<real>>, i: int, w: int): real
    requires 0 <= i < |closes| && 1 <= w <= i + 1
    requires forall k :: i + 1 - w <= k <= i ==> closes[k].Some?
  {
    Sum(Values(closes[i + 1 - w..i + 1])) / w as real
  }

  /** The four means are there exactly when the guards pass and every mean
      the rule compares is defined; each is the arithmetic mean of the
      closes in its window: the windows ending at the last row for the
      current means, at the row before for the previous ones. */
  lemma MovingAveragesMeaning(st: MAStrategy, f: Frame)
    ensures MovingAverages(st, f).Some? <==>
      && |f.rows| >= st.longWindow && "close" in f.columns && |f.rows| >= 2 && MeansDefined(st, f)
    ensures MovingAverages(st, f).Some? ==>
      var a := MovingAverages(st, f).value;
      var c := Closes(f);
      var n := |f.rows|;
      && a.curShort == Mean(c, n - 1, st.shortWindow) && a.curLong == Mean(c, n - 1, st.longWindow)
      && a.prevShort == Mean(c, n - 2, st.shortWindow) && a.prevLong == Mean(c, n - 2, st.longWindow)
  {
    if MovingAverages(st, f).Some? {
      AveragesOfMeans(Closes(f), st);
    }
  }

  lemma AveragesOfMeans(c: seq<Option<real>>, st: MAStrategy)
    requires |c| >= 2 && AveragesOf(c, st).Some?
    ensures var a := AveragesOf(c, st).value;
      var n := |c|;
      && MA(c, n - 1, st.shortWindow).Some? && MA(c, n - 1, st.longWindow).Some?
      && MA(c, n - 2, st.shortWindow).Some? && MA(c, n - 2, st.longWindow).Some?
      && a.curShort == Mean(c, n - 1, st.shortWindow) && a.curLong == Mean(c, n - 1, st.longWindow)
      && a.prevShort == Mean(c, n - 2, st.shortWindow) && a.prevLong == Mean(c, n - 2, st.longWindow)
  {
    var n := |c|;
    MAIsMean(c, n - 1, st.shortWindow);
    MAIsMean(c, n - 1, st.longWindow);
    MAIsMean(c, n - 2, st.shortWindow);
    MAIsMean(c, n - 2, st.longWindow);
  }

  function Bar(close: real): map<string, real>
  {
    map["open" := close, "high" := close, "low" := close, "close" := close, "volume" := 100.0]
  }

  /** Four hourly closes 1, 1, 1, 3 under windows 1 and 2: the short mean
      goes from 1 (equal to the long mean 1) to 3 (above the long mean 2),
      a golden cross: buy at 3 with a stop at 2.85. */
  lemma GoldenCrossExample()
    ensures var f := Frame(true, Required, [Row(0, Bar(1.0)), Row(1, Bar(1.0)), Row(2, Bar(1.0)), Row(3, Bar(3.0))]);
      Analyze(MAStrategy(1, 2, "MA_Crossover"), f) == Signal(Some(Buy), Some(3.0), Some(2.85))
  {
    var f := Frame(true, Required, [Row(0, Bar(1.0)), Row(1, Bar(1.0)), Row(2, Bar(1.0)), Row(3, Bar(3.0))]);
    var c := Closes(f);
    assert c == [Some(1.0), Some(1.0), Some(1.0), Some(3.0)];
    assert WindowSum(c, 3, 4) == Some(3.0);
    assert MA(c, 3, 1) == Some(3.0);
    assert WindowSum(c, 2, 3) == Some(1.0);
    assert WindowSum(c, 2, 4) == Some(4.0);
    assert MA(c, 3, 2) == Some(2.0);
    assert MA(c, 2, 1) == Some(1.0);
    assert MA(c, 2, 2) == Some(1.0);
  }
}
