/** The market data fetcher (src/utils/data.py): bars for one symbol, tried
    over three data feeds in priority order, with one pagination request when
    a feed returns too few bars, and a fallback to coarser timeframes (and,
    at the daily timeframe, to a smaller request) when no feed is sufficient.

    The broker is a parameter `api`: the frame that the retried bars request
    of the API wrapper produces for a query, or None when every attempt
    raised. The wrapper's own "missing or empty means None" rule is applied
    on top of it. */
module MarketData {
  import opened Common
  import opened Frames
  import ApiUtils

  /** The keyword arguments of one bars request of the API wrapper. */
  datatype BarsQuery = BarsQuery(
    symbol: string, timeframe: string, limit: int, feed: Option<string>, end: Option<int>)

  /** The feeds in priority order; None is the broker's default feed. */
  const Feeds: seq<Option<string>> := [Some("sip"), None, Some("iex")]

  const FeedNames: set<string> := {"sip", "default", "iex"}

  /** `feed or 'default'` */
  function FeedName(feed: Option<string>): string
  {
    if Truthy(feed) then feed.value else "default"
  }

  lemma FeedNamesOfFeeds()
    ensures forall i :: 0 <= i < |Feeds| ==> FeedName(Feeds[i]) in FeedNames
  {
  }

  /** `min_required_bars or lookback_bars` */
  function EffectiveMin(minRequired: Option<int>, lookback: int): int
  {
    if minRequired.None? || minRequired.value == 0 then lookback else minRequired.value
  }

  /** One bars request through the API wrapper. */
  function Fetched(api: BarsQuery -> Option<Frame>, q: BarsQuery): (r: Option<Frame>)
    ensures r.Some? ==> !IsEmpty(r.value)
  {
    ApiUtils.GetBarsResult(api(q))
  }

  /** The frames the fetcher hands back: timestamp-indexed, exactly the OHLCV
      columns, rows in ascending time order. */
  predicate Standardized(f: Frame)
  {
    f.timeIndexed && f.columns == Required && SortedByTs(f.rows)
  }

  /** `_standardize_dataframe`: None when no timestamp can be found or an
      OHLCV column is missing; otherwise the OHLCV columns of the same rows,
      sorted by time. */
  function Standardize(f: Frame): (r: Option<Frame>)
    ensures r.Some? <==>
      (f.timeIndexed || "timestamp" in f.columns || "index" in f.columns) && Required <= f.columns
    ensures r.Some? ==> Standardized(r.value) && |r.value.rows| == |f.rows|
    ensures r.Some? ==> multiset(r.value.rows) == multiset(Project(f.rows, Required))
  {
    if !f.timeIndexed && "timestamp" !in f.columns && "index" !in f.columns then None
    else if !(Required <= f.columns) then None
    else Some(Frame(true, Required, SortByTs(Project(f.rows, Required))))
  }

  lemma TsSetConcat(a: seq<Row>, b: seq<Row>)
    ensures TsSet(a + b) == TsSet(a) + TsSet(b)
  {
    assert forall r :: r in a + b <==> r in a || r in b;
  }

  /** `pd.concat([more, initial])` followed by dropping repeated timestamps,
      keeping the first: every timestamp of either frame survives exactly
      once, and where both frames have it the paginated frame's row wins. */
  function Merge(more: Frame, initial: Frame): (r: Frame)
    ensures r.columns == more.columns + initial.columns
    ensures UniqueTs(r.rows)
    ensures TsSet(r.rows) == TsSet(more.rows) + TsSet(initial.rows)
    ensures forall x :: x in r.rows ==> x in more.rows || x in initial.rows
    ensures forall x :: x in r.rows && x.ts in TsSet(more.rows) ==> x in more.rows
  {
    var all := more.rows + initial.rows;
    DedupFirstUnique(all, {});
    DedupFirstKeepsAllTimestamps(all, {});
    TsSetConcat(more.rows, initial.rows);
    PaginatedRowsWin(more.rows, initial.rows);
    Frame(more.timeIndexed && initial.timeIndexed, more.columns + initial.columns, DedupFirst(all, {}))
  }

  /** A timestamp the paginated rows have is kept from them. */
  lemma PaginatedRowsWin(more: seq<Row>, initial: seq<Row>)
    ensures forall x :: x in DedupFirst(more + initial, {}) && x.ts in TsSet(more) ==> x in more
  {
    var all := more + initial;
    forall x | x in DedupFirst(all, {}) && x.ts in TsSet(more) ensures x in more {
      DedupFirstKeepsFirst(all, {}, x);
      var i :| 0 <= i < |all| && all[i] == x && forall j :: 0 <= j < i ==> all[j].ts != x.ts;
      var y :| y in more && y.ts == x.ts;
      var m :| 0 <= m < |more| && more[m] == y;
      assert all[m] == y;
      assert i <= m;
      assert all[i] == more[i];
    }
  }

  /** The frame a feed yields once fetched, if it is standardized and long
      enough. */
  function Accept(f: Frame, minReq: int): (r: Option<Frame>)
    ensures r.Some? ==> Standardized(r.value) && |r.value.rows| >= minReq
    ensures r.Some? <==> !IsEmpty(f) && Standardize(f).Some? && |f.rows| >= minReq
  {
    if IsEmpty(f) then None
    else
      var s := Standardize(f);
      if s.Some? && |s.value.rows| >= minReq then s else None
  }

  datatype FeedAttempt = FeedAttempt(result: Option<Frame>, queries: seq<BarsQuery>)

  /** One pass of the feed loop with query `q`: the initial request, one
      pagination request ending at the oldest bar when the initial frame is
      non-empty but shorter than the lookback, then standardization and the
      minimum check. The pagination request is `q` with an end added; `q`
      itself is not changed. */
  function AttemptFeed(api: BarsQuery -> Option<Frame>, q: BarsQuery, lookback: int, minReq: int)
    : (a: FeedAttempt)
    ensures 1 <= |a.queries| <= 2 && a.queries[0] == q
    ensures |a.queries| == 2 <==> Fetched(api, q).Some? && |Fetched(api, q).value.rows| < lookback
    ensures |a.queries| == 2 ==> a.queries[1] == q.(end := Some(MinTs(Fetched(api, q).value.rows)))
    ensures a.result.Some? ==> Standardized(a.result.value) && |a.result.value.rows| >= minReq
    ensures Fetched(api, q).None? ==> a.result.None?
    ensures Fetched(api, q).Some? ==> a.result == Accept(Combined(api, q, lookback), minReq)
  {
    var initial := Fetched(api, q);
    if initial.Some? && |initial.value.rows| < lookback then
      var pq := q.(end := Some(MinTs(initial.value.rows)));
      var more := Fetched(api, pq);
      var combined := if more.Some? then Merge(more.value, initial.value) else initial.value;
      FeedAttempt(Accept(combined, minReq), [q, pq])
    else
      FeedAttempt(if initial.Some? then Accept(initial.value, minReq) else None, [q])
  }

  /** The frame a feed ends up with once its initial request answered: the
      initial frame, merged with the pagination request's frame when the
      initial one was short and the second request answered. */
  function Combined(api: BarsQuery -> Option<Frame>, q: BarsQuery, lookback: int): (c: Frame)
    requires Fetched(api, q).Some?
    ensures var initial := Fetched(api, q).value;
      TsSet(initial.rows) <= TsSet(c.rows) && initial.columns <= c.columns
  {
    var initial := Fetched(api, q).value;
    if |initial.rows| < lookback then
      var more := Fetched(api, q.(end := Some(MinTs(initial.rows))));
      if more.Some? then Merge(more.value, initial) else initial
    else initial
  }

  /** Feed `i` yields a sufficient frame at this timeframe. */
  predicate FeedSucceeds(
    api: BarsQuery -> Option<Frame>, symbol: string, timeframe: string, lookback: int, minReq: int, i: nat)
    requires i < |Feeds|
  {
    var q := FeedQuery(symbol, timeframe, lookback, i);
    Fetched(api, q).Some? && Accept(Combined(api, q, lookback), minReq).Some?
  }

  /** The query of feed `i` for a timeframe and lookback. */
  function FeedQuery(symbol: string, timeframe: string, lookback: int, i: nat): BarsQuery
    requires i < |Feeds|
  {
    BarsQuery(symbol, timeframe, Min(1000, lookback), Feeds[i], None)
  }

  /** The attempts of the three feeds for one invocation, in priority
      order; the loop only makes those up to the first that succeeds. */
  function Attempts(
    api: BarsQuery -> Option<Frame>, symbol: string, timeframe: string, lookback: int, minReq: int)
    : (atts: seq<FeedAttempt>)
    ensures |atts| == |Feeds|
    ensures forall i :: 0 <= i < |Feeds| ==>
              atts[i] == AttemptFeed(api, FeedQuery(symbol, timeframe, lookback, i), lookback, minReq)
  {
    seq(|Feeds|, i requires 0 <= i < |Feeds| =>
      AttemptFeed(api, FeedQuery(symbol, timeframe, lookback, i), lookback, minReq))
  }

  /** The queries of attempts `i` to `k - 1`, in order. */
  function QueriesOf(atts: seq<FeedAttempt>, i: nat, k: nat): seq<BarsQuery>
    requires i <= k <= |atts|
    decreases k - i
  {
    if i == k then [] else atts[i].queries + QueriesOf(atts, i + 1, k)
  }

  datatype FeedsRun = FeedsRun(result: Option<Frame>, feedIndex: nat, queries: seq<BarsQuery>)

  /** The feed loop from attempt `i` on: stop at the first attempt that
      yields a frame. */
  function FirstSuccess(atts: seq<FeedAttempt>, i: nat): FeedsRun
    decreases |atts| - i
  {
    if i >= |atts| then FeedsRun(None, i, [])
    else if atts[i].result.Some? then FeedsRun(atts[i].result, i, atts[i].queries)
    else
      var rest := FirstSuccess(atts, i + 1);
      FeedsRun(rest.result, rest.feedIndex, atts[i].queries + rest.queries)
  }

  /** The first sufficient feed wins: the loop returns the frame of the first
      attempt that succeeds, after making exactly the attempts up to it, and
      fails, having made every attempt, when none succeeds. */
  lemma {:induction false} FirstSuccessMeaning(atts: seq<FeedAttempt>, i: nat)
    requires i <= |atts|
    ensures var run := FirstSuccess(atts, i);
      && (run.result.Some? <==> exists j :: i <= j < |atts| && atts[j].result.Some?)
      && (run.result.Some? ==>
            && i <= run.feedIndex < |atts|
            && run.result == atts[run.feedIndex].result
            && (forall j :: i <= j < run.feedIndex ==> atts[j].result.None?)
            && run.queries == QueriesOf(atts, i, run.feedIndex + 1))
      && (run.result.None? ==> run.queries == QueriesOf(atts, i, |atts|))
    decreases |atts| - i
  {
    if i < |atts| {
      if atts[i].result.Some? {
        assert QueriesOf(atts, i + 1, i + 1) == [];
      } else {
        FirstSuccessMeaning(atts, i + 1);
      }
    }
  }

  /** The feed loop of `get_bars`. */
  function TryFeeds(
    api: BarsQuery -> Option<Frame>, symbol: string, timeframe: string, lookback: int, minReq: int)
    : FeedsRun
  {
    FirstSuccess(Attempts(api, symbol, timeframe, lookback, minReq), 0)
  }

  /** The first entry of a timeframe's fallback list (the only one used), or
      none for the daily and unknown timeframes. */
  function NextTimeframe(timeframe: string): Option<string>
  {
    match timeframe
    case "1Min" => Some("2Min")
    case "2Min" => Some("5Min")
    case "5Min" => Some("15Min")
    case "15Min" => Some("30Min")
    case "30Min" => Some("1H")
    case "1H" => Some("1D")
    case _ => None
  }

  /** The number of fallback steps from a timeframe down to the daily one. */
  function Rank(timeframe: string): nat
  {
    match timeframe
    case "1Min" => 6
    case "2Min" => 5
    case "5Min" => 4
    case "15Min" => 3
    case "30Min" => 2
    case "1H" => 1
    case _ => 0
  }

  /** Falling back always moves to a strictly coarser timeframe, and the
      chain from any timeframe ends at the daily one. */
  lemma {:induction false} FallbackDescends(timeframe: string)
    ensures NextTimeframe(timeframe).Some? <==> Rank(timeframe) > 0
    ensures NextTimeframe(timeframe).Some? ==> Rank(NextTimeframe(timeframe).value) == Rank(timeframe) - 1
    ensures Rank(timeframe) == 1 ==> NextTimeframe(timeframe) == Some("1D")
  {
  }

  /** Which feed and timeframe a successful invocation used. */
  datatype Hit = Hit(feed: string, timeframe: string)

  /** What a whole `get_bars` call did: its result, every query it issued in
      order, how many `get_bars` invocations (itself and its fallbacks) it
      made, and the feed and timeframe of the invocation that succeeded. */
  datatype FetchRun = FetchRun(
    result: Option<Frame>, queries: seq<BarsQuery>, invocations: nat, success: Option<Hit>)

  /** `get_bars` */
  function Fetch(
    api: BarsQuery -> Option<Frame>, symbol: string, lookback: int, timeframe: string,
    minRequired: Option<int>): FetchRun
    decreases Rank(timeframe), if lookback > 100 then 1 else 0, 1
  {
    var minReq := EffectiveMin(minRequired, lookback);
    var feeds := TryFeeds(api, symbol, timeframe, lookback, minReq);
    if feeds.result.Some? && feeds.feedIndex < |Feeds| then
      FetchRun(feeds.result, feeds.queries, 1, Some(Hit(FeedName(Feeds[feeds.feedIndex]), timeframe)))
    else
      var fb := Fallback(api, symbol, lookback, timeframe, minReq);
      FetchRun(fb.result, feeds.queries + fb.queries, fb.invocations + 1, fb.success)
  }

  /** `_try_timeframe_fallbacks` */
  function Fallback(
    api: BarsQuery -> Option<Frame>, symbol: string, lookback: int, timeframe: string, minReq: int)
    : FetchRun
    decreases Rank(timeframe), if lookback > 100 then 1 else 0, 0
  {
    match NextTimeframe(timeframe)
    case Some(next) => Fetch(api, symbol, lookback, next, Some(minReq))
    case None =>
      if timeframe == "1D" && lookback > 100 then
        Fetch(api, symbol, Min(100, minReq), timeframe, Some(minReq))
      else
        FetchRun(None, [], 0, None)
  }

  /** What `get_bars` promises, over all its fallbacks: a frame it returns is
      standardized and has at least the required number of bars; it succeeds
      exactly when some invocation reports a feed success, on one of the
      three feeds; it starts with the sip feed at the requested timeframe;
      every query is for the symbol, asks for at most 1000 bars and is at the
      requested or a coarser timeframe; and it makes at most one invocation
      per fallback step plus one for the smaller daily request, which
      therefore happens at most once. */
  lemma {:induction false} FetchMeaning(
    api: BarsQuery -> Option<Frame>, symbol: string, lookback: int, timeframe: string,
    minRequired: Option<int>)
    ensures var run := Fetch(api, symbol, lookback, timeframe, minRequired);
      && (run.result.Some? ==>
            Standardized(run.result.value) && |run.result.value.rows| >= EffectiveMin(minRequired, lookback))
      && (run.success.Some? <==> run.result.Some?)
      && (run.success.Some? ==>
            run.success.value.feed in FeedNames && Rank(run.success.value.timeframe) <= Rank(timeframe))
      && |run.queries| >= 1
      && run.queries[0] == BarsQuery(symbol, timeframe, Min(1000, lookback), Some("sip"), None)
      && (forall q :: q in run.queries ==>
            q.symbol == symbol && q.limit <= 1000 &&
            (q.timeframe == timeframe || Rank(q.timeframe) < Rank(timeframe)))
      && 1 <= run.invocations <= Rank(timeframe) + 1 + (if lookback > 100 then 1 else 0)
    decreases Rank(timeframe), if lookback > 100 then 1 else 0, 1
  {
    var minReq := EffectiveMin(minRequired, lookback);
    TryFeedsMeaning(api, symbol, timeframe, lookback, minReq);
    var feeds := TryFeeds(api, symbol, timeframe, lookback, minReq);
    if feeds.result.None? {
      FallbackMeaning(api, symbol, lookback, timeframe, minReq);
      var fb := Fallback(api, symbol, lookback, timeframe, minReq);
      var run := Fetch(api, symbol, lookback, timeframe, minRequired);
      assert run.queries == feeds.queries + fb.queries;
      if run.result.Some? {
        if minReq != 0 {
          assert |run.result.value.rows| >= minReq;
        }
      }
    }
  }

  /** One invocation's feed loop: a frame it yields comes from one of the
      three feeds, is standardized and long enough; it starts with the sip
      query; every query is for the symbol and timeframe with the capped
      limit. */
  lemma TryFeedsMeaning(
    api: BarsQuery -> Option<Frame>, symbol: string, timeframe: string, lookback: int, minReq: int)
    ensures var feeds := TryFeeds(api, symbol, timeframe, lookback, minReq);
      && (feeds.result.Some? ==>
            && feeds.feedIndex < |Feeds| && FeedName(Feeds[feeds.feedIndex]) in FeedNames
            && Standardized(feeds.result.value) && |feeds.result.value.rows| >= minReq)
      && |feeds.queries| >= 1
      && feeds.queries[0] == BarsQuery(symbol, timeframe, Min(1000, lookback), Some("sip"), None)
      && (forall q :: q in feeds.queries ==>
            q.symbol == symbol && q.timeframe == timeframe && q.limit == Min(1000, lookback))
  {
    var atts := Attempts(api, symbol, timeframe, lookback, minReq);
    FirstSuccessMeaning(atts, 0);
    AttemptsShape(api, symbol, timeframe, lookback, minReq);
    var feeds := TryFeeds(api, symbol, timeframe, lookback, minReq);
    FeedNamesOfFeeds();
    var k := if feeds.result.Some? then feeds.feedIndex + 1 else |Feeds|;
    QueriesOfShape(atts, 0, k, symbol, timeframe, Min(1000, lookback));
    assert feeds.queries == QueriesOf(atts, 0, k) == atts[0].queries + QueriesOf(atts, 1, k);
    assert atts[0].queries[0] == FeedQuery(symbol, timeframe, lookback, 0);
  }

  /** The feed loop is complete as well as sound: it yields a frame exactly
      when some feed's fetched (and possibly paginated) frame is
      standardized and long enough, and then it is the frame of the first
      such feed in the order sip, default, iex. */
  lemma TryFeedsPicksFirst(
    api: BarsQuery -> Option<Frame>, symbol: string, timeframe: string, lookback: int, minReq: int)
    ensures var feeds := TryFeeds(api, symbol, timeframe, lookback, minReq);
      && (feeds.result.Some? <==>
            exists i :: 0 <= i < |Feeds| && FeedSucceeds(api, symbol, timeframe, lookback, minReq, i))
      && (feeds.result.Some? ==>
            && feeds.feedIndex < |Feeds|
            && FeedSucceeds(api, symbol, timeframe, lookback, minReq, feeds.feedIndex)
            && (forall j :: 0 <= j < feeds.feedIndex ==> !FeedSucceeds(api, symbol, timeframe, lookback, minReq, j))
            && feeds.result ==
                 Accept(Combined(api, FeedQuery(symbol, timeframe, lookback, feeds.feedIndex), lookback), minReq))
  {
    var atts := Attempts(api, symbol, timeframe, lookback, minReq);
    FirstSuccessMeaning(atts, 0);
    forall i | 0 <= i < |Feeds|
      ensures atts[i].result.Some? <==> FeedSucceeds(api, symbol, timeframe, lookback, minReq, i)
      ensures atts[i].result.Some? ==>
        atts[i].result == Accept(Combined(api, FeedQuery(symbol, timeframe, lookback, i), lookback), minReq)
    {
      AttemptOfFeed(api, symbol, timeframe, lookback, minReq, i);
    }
  }

  /** Attempt `i` yields a frame exactly when feed `i` succeeds, and then
      the accepted combined frame. */
  lemma AttemptOfFeed(
    api: BarsQuery -> Option<Frame>, symbol: string, timeframe: string, lookback: int, minReq: int, i: nat)
    requires i < |Feeds|
    ensures var a := Attempts(api, symbol, timeframe, lookback, minReq)[i];
      && (a.result.Some? <==> FeedSucceeds(api, symbol, timeframe, lookback, minReq, i))
      && (a.result.Some? ==> a.result == Accept(Combined(api, FeedQuery(symbol, timeframe, lookback, i), lookback), minReq))
  {
    var q := FeedQuery(symbol, timeframe, lookback, i);
    assert Attempts(api, symbol, timeframe, lookback, minReq)[i] == AttemptFeed(api, q, lookback, minReq);
  }

  /** `get_bars` returns the first sufficient feed at the requested
      timeframe in a single invocation; only when no feed is sufficient does
      it go on to `_try_timeframe_fallbacks`, whose answer it returns after
      its own queries. */
  lemma FetchFirstFeed(
    api: BarsQuery -> Option<Frame>, symbol: string, lookback: int, timeframe: string,
    minRequired: Option<int>)
    ensures var minReq := EffectiveMin(minRequired, lookback);
      var run := Fetch(api, symbol, lookback, timeframe, minRequired);
      forall i :: 0 <= i < |Feeds| && FeedSucceeds(api, symbol, timeframe, lookback, minReq, i) &&
                  (forall j :: 0 <= j < i ==> !FeedSucceeds(api, symbol, timeframe, lookback, minReq, j)) ==>
        && run.result == Accept(Combined(api, FeedQuery(symbol, timeframe, lookback, i), lookback), minReq)
        && run.success == Some(Hit(FeedName(Feeds[i]), timeframe))
        && run.invocations == 1
    ensures var minReq := EffectiveMin(minRequired, lookback);
      var run := Fetch(api, symbol, lookback, timeframe, minRequired);
      var fb := Fallback(api, symbol, lookback, timeframe, minReq);
      (forall i :: 0 <= i < |Feeds| ==> !FeedSucceeds(api, symbol, timeframe, lookback, minReq, i)) ==>
        && run.result == fb.result && run.success == fb.success && run.invocations == fb.invocations + 1
        && run.queries == TryFeeds(api, symbol, timeframe, lookback, minReq).queries + fb.queries
  {
    var minReq := EffectiveMin(minRequired, lookback);
    TryFeedsPicksFirst(api, symbol, timeframe, lookback, minReq);
    var feeds := TryFeeds(api, symbol, timeframe, lookback, minReq);
    forall i | 0 <= i < |Feeds| && FeedSucceeds(api, symbol, timeframe, lookback, minReq, i) &&
               (forall j :: 0 <= j < i ==> !FeedSucceeds(api, symbol, timeframe, lookback, minReq, j))
      ensures feeds.feedIndex == i
    {
    }
  }

  lemma {:induction false} FallbackMeaning(
    api: BarsQuery -> Option<Frame>, symbol: string, lookback: int, timeframe: string, minReq: int)
    ensures var run := Fallback(api, symbol, lookback, timeframe, minReq);
      && (NextTimeframe(timeframe).Some? ==>
            run == Fetch(api, symbol, lookback, NextTimeframe(timeframe).value, Some(minReq)))
      && (timeframe == "1D" && lookback > 100 ==>
            run == Fetch(api, symbol, Min(100, minReq), "1D", Some(minReq)))
      && (NextTimeframe(timeframe).None? && !(timeframe == "1D" && lookback > 100) ==>
            run.result.None? && run.queries == [] && run.invocations == 0)
      && (run.result.Some? ==>
            Standardized(run.result.value) && (minReq != 0 ==> |run.result.value.rows| >= minReq))
      && (run.success.Some? <==> run.result.Some?)
      && (run.success.Some? ==>
            run.success.value.feed in FeedNames && Rank(run.success.value.timeframe) <= Rank(timeframe))
      && (forall q :: q in run.queries ==>
            q.symbol == symbol && q.limit <= 1000 &&
            (q.timeframe == timeframe || Rank(q.timeframe) < Rank(timeframe)))
      && run.invocations <= Rank(timeframe) + (if lookback > 100 then 1 else 0)
    decreases Rank(timeframe), if lookback > 100 then 1 else 0, 0
  {
    FallbackDescends(timeframe);
    match NextTimeframe(timeframe)
    case Some(next) =>
      FetchMeaning(api, symbol, lookback, next, Some(minReq));
    case None =>
      if timeframe == "1D" && lookback > 100 {
        FetchMeaning(api, symbol, Min(100, minReq), timeframe, Some(minReq));
      }
  }

  /** Every query an attempt makes is for the symbol and timeframe and asks
      for at most 1000 bars; only the pagination request adds an end. */
  lemma AttemptsShape(
    api: BarsQuery -> Option<Frame>, symbol: string, timeframe: string, lookback: int, minReq: int)
    ensures var atts := Attempts(api, symbol, timeframe, lookback, minReq);
      forall j, q :: 0 <= j < |atts| && q in atts[j].queries ==>
        q.symbol == symbol && q.timeframe == timeframe && q.limit == Min(1000, lookback)
  {
    var atts := Attempts(api, symbol, timeframe, lookback, minReq);
    forall j, q | 0 <= j < |atts| && q in atts[j].queries
      ensures q.symbol == symbol && q.timeframe == timeframe && q.limit == Min(1000, lookback)
    {
      var a := atts[j];
      assert q == a.queries[0] || q == a.queries[1];
    }
  }

  lemma {:induction false} QueriesOfShape(
    atts: seq<FeedAttempt>, i: nat, k: nat, symbol: string, timeframe: string, limit: int)
    requires i <= k <= |atts|
    requires forall j, q :: 0 <= j < |atts| && q in atts[j].queries ==>
               q.symbol == symbol && q.timeframe == timeframe && q.limit == limit
    ensures forall q :: q in QueriesOf(atts, i, k) ==>
              q.symbol == symbol && q.timeframe == timeframe && q.limit == limit
    decreases k - i
  {
    if i < k {
      QueriesOfShape(atts, i + 1, k, symbol, timeframe, limit);
    }
  }

  lemma SnocMembers<T>(xs: seq<T>)
    requires xs != []
    ensures forall t :: t in xs <==> t in xs[..|xs| - 1] || t == xs[|xs| - 1]
  {
    assert xs == xs[..|xs| - 1] + [xs[|xs| - 1]];
  }

  lemma ConcatAssoc<T>(a: seq<T>, b: seq<T>, c: seq<T>)
    ensures a + (b + c) == (a + b) + c
  {
  }

  /** Adds one to a counter of a dictionary of counts, starting from 0. */
  function Bump(m: map<string, int>, key: string): (r: map<string, int>)
    ensures r.Keys == m.Keys + {key}
    ensures r[key] == (if key in m then m[key] else 0) + 1
    ensures forall k :: k in m && k != key ==> r[k] == m[k]
  {
    m[key := (if key in m then m[key] else 0) + 1]
  }

  /** One diagnostic counter: whether any probe succeeded, and its largest
      bar count. */
  datatype Tally = Tally(success: bool, maxBars: int)

  /** The results dictionary of `test_data_feeds`, without the enhanced
      method's entry. */
  datatype Survey = Survey(
    feedResults: map<string, Tally>, timeframeResults: map<string, Tally>,
    best: Option<Hit>, highest: int)

  const DefaultTimeframes: seq<string> := ["1D", "1H", "15Min"]

  /** One diagnostic probe: a timeframe and a feed. */
  datatype ProbeKey = ProbeKey(timeframe: string, feed: Option<string>)

  function ProbeQuery(symbol: string, lookback: int, k: ProbeKey): BarsQuery
  {
    BarsQuery(symbol, k.timeframe, lookback, k.feed, None)
  }

  /** The frame a probe fetched, if it is non-empty. */
  function Probe(api: BarsQuery -> Option<Frame>, symbol: string, lookback: int, k: ProbeKey): Option<Frame>
  {
    Fetched(api, ProbeQuery(symbol, lookback, k))
  }

  /** Records a successful probe's bar count in a tally: marked successful,
      and its maximum raised to the count if that is larger. */
  function Record(m: map<string, Tally>, key: string, count: nat): (r: map<string, Tally>)
    ensures r.Keys == m.Keys + {key} && r[key].success
    ensures r[key].maxBars >= count && (key in m ==> r[key].maxBars >= m[key].maxBars)
    ensures r[key].maxBars == count || (key in m && r[key].maxBars == m[key].maxBars)
    ensures forall k :: k in m && k != key ==> r[k] == m[k]
  {
    m[key := Tally(true, Max(if key in m then m[key].maxBars else 0, count))]
  }

  /** The body of the inner loop of `test_data_feeds` for one probe. */
  function ProbeStep(s: Survey, tf: string, feed: Option<string>, outcome: Option<Frame>): (r: Survey)
    ensures r.feedResults.Keys == s.feedResults.Keys + {FeedName(feed)}
    ensures tf in s.timeframeResults ==> r.timeframeResults.Keys == s.timeframeResults.Keys
    ensures r.highest >= s.highest
  {
    var name := FeedName(feed);
    var s1 := if name in s.feedResults then s else s.(feedResults := s.feedResults[name := Tally(false, 0)]);
    if outcome.Some? && !IsEmpty(outcome.value) then
      var c := |outcome.value.rows|;
      var s2 := s1.(feedResults := Record(s1.feedResults, name, c),
                    timeframeResults := Record(s1.timeframeResults, tf, c));
      if c > s2.highest then s2.(highest := c, best := Some(Hit(name, tf))) else s2
    else s1
  }

  /** One probe changes only its feed's and its timeframe's entries: each is
      marked successful and raised to the probe's bar count when the probe
      fetched a non-empty frame, and is left as it was (a new feed entry
      starting unsuccessful with 0 bars) otherwise. */
  lemma ProbeStepEntries(s: Survey, tf: string, feed: Option<string>, outcome: Option<Frame>)
    requires tf in s.timeframeResults
    ensures var r := ProbeStep(s, tf, feed, outcome);
      var name := FeedName(feed);
      var before := if name in s.feedResults then s.feedResults[name] else Tally(false, 0);
      && (outcome.None? || IsEmpty(outcome.value) ==> r.feedResults[name] == before)
      && (outcome.Some? && !IsEmpty(outcome.value) ==>
            r.feedResults[name] == Tally(true, Max(before.maxBars, |outcome.value.rows|)))
      && forall n :: n in s.feedResults && n != name ==> r.feedResults[n] == s.feedResults[n]
    ensures var r := ProbeStep(s, tf, feed, outcome);
      var before := s.timeframeResults[tf];
      && (outcome.None? || IsEmpty(outcome.value) ==> r.timeframeResults[tf] == before)
      && (outcome.Some? && !IsEmpty(outcome.value) ==>
            r.timeframeResults[tf] == Tally(true, Max(before.maxBars, |outcome.value.rows|)))
      && forall t :: t in s.timeframeResults && t != tf ==> r.timeframeResults[t] == s.timeframeResults[t]
  {
  }

  /** The inner loop over the feeds `feeds` for one timeframe. */
  function SurveyFeeds(
    api: BarsQuery -> Option<Frame>, symbol: string, lookback: int, s: Survey, tf: string,
    feeds: seq<Option<string>>): Survey
    decreases |feeds|
  {
    if feeds == [] then s
    else
      var f := feeds[|feeds| - 1];
      ProbeStep(SurveyFeeds(api, symbol, lookback, s, tf, feeds[..|feeds| - 1]), tf, f,
                Probe(api, symbol, lookback, ProbeKey(tf, f)))
  }

  /** The feeds up to index `j` inclusive: those before it, then feed `j`. */
  lemma SurveyFeedsNext(
    api: BarsQuery -> Option<Frame>, symbol: string, lookback: int, s: Survey, tf: string,
    feeds: seq<Option<string>>, j: nat)
    requires j < |feeds|
    ensures SurveyFeeds(api, symbol, lookback, s, tf, feeds[..j + 1]) ==
      ProbeStep(SurveyFeeds(api, symbol, lookback, s, tf, feeds[..j]), tf, feeds[j],
                Probe(api, symbol, lookback, ProbeKey(tf, feeds[j])))
    ensures FeedProbeQueries(symbol, lookback, tf, feeds[..j + 1]) ==
      FeedProbeQueries(symbol, lookback, tf, feeds[..j]) + [ProbeQuery(symbol, lookback, ProbeKey(tf, feeds[j]))]
  {
    assert feeds[..j + 1][..j] == feeds[..j];
  }

  /** The timeframe's entry is created before its feeds are probed. */
  function StartTimeframe(s: Survey, tf: string): Survey
  {
    if tf in s.timeframeResults then s
    else s.(timeframeResults := s.timeframeResults[tf := Tally(false, 0)])
  }

  /** The outer loop over the timeframes `tfs`. */
  function SurveyTimeframes(api: BarsQuery -> Option<Frame>, symbol: string, lookback: int, tfs: seq<string>)
    : Survey
    decreases |tfs|
  {
    if tfs == [] then Survey(map[], map[], None, 0)
    else
      var tf := tfs[|tfs| - 1];
      SurveyFeeds(api, symbol, lookback, StartTimeframe(SurveyTimeframes(api, symbol, lookback, tfs[..|tfs| - 1]), tf),
                  tf, Feeds)
  }

  function ProbesOf(tf: string, feeds: seq<Option<string>>): set<ProbeKey>
  {
    set f | f in feeds :: ProbeKey(tf, f)
  }

  /** Every probe of the timeframes `tfs` over all feeds. */
  function Probes(tfs: seq<string>): set<ProbeKey>
  {
    set tf, f | tf in tfs && f in Feeds :: ProbeKey(tf, f)
  }

  /** The probes among `done` at one timeframe. */
  function ProbesAt(done: set<ProbeKey>, tf: string): set<ProbeKey>
  {
    set k | k in done && k.timeframe == tf
  }

  /** The probes among `done` on one feed, by its name. */
  function ProbesOn(done: set<ProbeKey>, name: string): set<ProbeKey>
  {
    set k | k in done && FeedName(k.feed) == name
  }

  /** The names of the feeds `feeds`. */
  function NamesOf(feeds: seq<Option<string>>): set<string>
  {
    set f | f in feeds :: FeedName(f)
  }

  /** What a tally records about the probes `keys`: success exactly when one
      of them fetched a frame, and then the largest bar count among them;
      0 when none did. */
  ghost predicate TallyInv(
    api: BarsQuery -> Option<Frame>, symbol: string, lookback: int, t: Tally, keys: set<ProbeKey>)
  {
    && (t.success <==> exists k :: k in keys && Probe(api, symbol, lookback, k).Some?)
    && (forall k :: k in keys && Probe(api, symbol, lookback, k).Some? ==>
          |Probe(api, symbol, lookback, k).value.rows| <= t.maxBars)
    && (t.success ==>
          exists k :: k in keys && Probe(api, symbol, lookback, k).Some? &&
            |Probe(api, symbol, lookback, k).value.rows| == t.maxBars)
    && (!t.success ==> t.maxBars == 0)
  }

  /** What the survey records about the probes `done`. */
  ghost predicate SurveyInv(
    api: BarsQuery -> Option<Frame>, symbol: string, lookback: int, s: Survey, done: set<ProbeKey>)
  {
    && BestInv(api, symbol, lookback, s, done)
    && TimeframesInv(api, symbol, lookback, s, done)
    && FeedsInv(api, symbol, lookback, s, done)
  }

  /** The highest count and the best combination over the probes `done`. */
  ghost predicate BestInv(
    api: BarsQuery -> Option<Frame>, symbol: string, lookback: int, s: Survey, done: set<ProbeKey>)
  {
    && s.highest >= 0
    && (forall k :: k in done && Probe(api, symbol, lookback, k).Some? ==>
          |Probe(api, symbol, lookback, k).value.rows| <= s.highest)
    && (s.best.Some? <==> s.highest > 0)
    && (s.highest > 0 <==> exists k :: k in done && Probe(api, symbol, lookback, k).Some?)
    && (s.best.Some? ==>
          exists k :: k in done && Probe(api, symbol, lookback, k).Some? &&
            s.best.value == Hit(FeedName(k.feed), k.timeframe) &&
            |Probe(api, symbol, lookback, k).value.rows| == s.highest)
  }

  /** Each timeframe's entry tallies the probes at that timeframe. */
  ghost predicate TimeframesInv(
    api: BarsQuery -> Option<Frame>, symbol: string, lookback: int, s: Survey, done: set<ProbeKey>)
  {
    forall tf :: tf in s.timeframeResults ==>
      TallyInv(api, symbol, lookback, s.timeframeResults[tf], ProbesAt(done, tf))
  }

  /** Every feed probed has an entry, and each feed's entry tallies the
      probes on that feed. */
  ghost predicate FeedsInv(
    api: BarsQuery -> Option<Frame>, symbol: string, lookback: int, s: Survey, done: set<ProbeKey>)
  {
    && (forall k :: k in done ==> FeedName(k.feed) in s.feedResults)
    && forall name :: name in s.feedResults ==>
         TallyInv(api, symbol, lookback, s.feedResults[name], ProbesOn(done, name))
  }

  /** A tally stays right when one more probe is added: its entry is marked
      and raised on a success, and left as it was otherwise. */
  lemma TallyStep(
    api: BarsQuery -> Option<Frame>, symbol: string, lookback: int, t: Tally, keys: set<ProbeKey>, k: ProbeKey)
    requires TallyInv(api, symbol, lookback, t, keys)
    ensures var p := Probe(api, symbol, lookback, k);
      TallyInv(api, symbol, lookback, if p.Some? then Tally(true, Max(t.maxBars, |p.value.rows|)) else t,
               keys + {k})
  {
    var p := Probe(api, symbol, lookback, k);
    var keys' := keys + {k};
    if p.Some? {
      var t' := Tally(true, Max(t.maxBars, |p.value.rows|));
      assert k in keys' && p.Some?;
      forall k2 | k2 in keys' && Probe(api, symbol, lookback, k2).Some?
        ensures |Probe(api, symbol, lookback, k2).value.rows| <= t'.maxBars
      {
        if k2 != k {
          assert k2 in keys;
        }
      }
      if t.success && t.maxBars >= |p.value.rows| {
        var w :| w in keys && Probe(api, symbol, lookback, w).Some? &&
                 |Probe(api, symbol, lookback, w).value.rows| == t.maxBars;
        assert w in keys';
      }
    } else {
      if exists k2 :: k2 in keys' && Probe(api, symbol, lookback, k2).Some? {
        var k2 :| k2 in keys' && Probe(api, symbol, lookback, k2).Some?;
        assert k2 in keys;
      }
      if t.success {
        var w :| w in keys && Probe(api, symbol, lookback, w).Some? &&
                 |Probe(api, symbol, lookback, w).value.rows| == t.maxBars;
        assert w in keys';
      }
    }
  }

  /** An empty tally is right for no probes. */
  lemma EmptyTally(api: BarsQuery -> Option<Frame>, symbol: string, lookback: int)
    ensures TallyInv(api, symbol, lookback, Tally(false, 0), {})
  {
  }

  lemma ProbeStepKeeps(
    api: BarsQuery -> Option<Frame>, symbol: string, lookback: int, s: Survey, done: set<ProbeKey>,
    tf: string, feed: Option<string>)
    requires SurveyInv(api, symbol, lookback, s, done)
    requires tf in s.timeframeResults
    ensures var k := ProbeKey(tf, feed);
      SurveyInv(api, symbol, lookback, ProbeStep(s, tf, feed, Probe(api, symbol, lookback, k)), done + {k})
  {
    ProbeStepKeepsBest(api, symbol, lookback, s, done, tf, feed);
    ProbeStepKeepsTimeframes(api, symbol, lookback, s, done, tf, feed);
    ProbeStepKeepsFeeds(api, symbol, lookback, s, done, tf, feed);
  }

  lemma ProbeStepKeepsBest(
    api: BarsQuery -> Option<Frame>, symbol: string, lookback: int, s: Survey, done: set<ProbeKey>,
    tf: string, feed: Option<string>)
    requires BestInv(api, symbol, lookback, s, done)
    ensures var k := ProbeKey(tf, feed);
      BestInv(api, symbol, lookback, ProbeStep(s, tf, feed, Probe(api, symbol, lookback, k)), done + {k})
  {
    var k := ProbeKey(tf, feed);
    var outcome := Probe(api, symbol, lookback, k);
    var s' := ProbeStep(s, tf, feed, outcome);
    var done' := done + {k};
    if outcome.Some? {
      var c := |outcome.value.rows|;
      assert c >= 1;
      if c > s.highest {
        assert s'.best == Some(Hit(FeedName(feed), tf)) && s'.highest == c;
        forall k2 | k2 in done' && Probe(api, symbol, lookback, k2).Some?
          ensures |Probe(api, symbol, lookback, k2).value.rows| <= s'.highest
        {
          if k2 != k {
            assert k2 in done;
          }
        }
      }
      assert k in done' && Probe(api, symbol, lookback, k).Some?;
    } else {
      if exists k2 :: k2 in done' && Probe(api, symbol, lookback, k2).Some? {
        var k2 :| k2 in done' && Probe(api, symbol, lookback, k2).Some?;
        assert k2 in done;
      }
    }
  }

  lemma ProbeStepKeepsTimeframes(
    api: BarsQuery -> Option<Frame>, symbol: string, lookback: int, s: Survey, done: set<ProbeKey>,
    tf: string, feed: Option<string>)
    requires TimeframesInv(api, symbol, lookback, s, done)
    requires tf in s.timeframeResults
    ensures var k := ProbeKey(tf, feed);
      TimeframesInv(api, symbol, lookback, ProbeStep(s, tf, feed, Probe(api, symbol, lookback, k)), done + {k})
  {
    var k := ProbeKey(tf, feed);
    var outcome := Probe(api, symbol, lookback, k);
    var s' := ProbeStep(s, tf, feed, outcome);
    var done' := done + {k};
    ProbeStepEntries(s, tf, feed, outcome);
    forall t | t in s'.timeframeResults
      ensures TallyInv(api, symbol, lookback, s'.timeframeResults[t], ProbesAt(done', t))
    {
      if t == tf {
        assert ProbesAt(done', t) == ProbesAt(done, t) + {k};
        TallyStep(api, symbol, lookback, s.timeframeResults[tf], ProbesAt(done, t), k);
      } else {
        assert ProbesAt(done', t) == ProbesAt(done, t);
      }
    }
  }

  lemma ProbeStepKeepsFeeds(
    api: BarsQuery -> Option<Frame>, symbol: string, lookback: int, s: Survey, done: set<ProbeKey>,
    tf: string, feed: Option<string>)
    requires FeedsInv(api, symbol, lookback, s, done)
    requires tf in s.timeframeResults
    ensures var k := ProbeKey(tf, feed);
      FeedsInv(api, symbol, lookback, ProbeStep(s, tf, feed, Probe(api, symbol, lookback, k)), done + {k})
  {
    var k := ProbeKey(tf, feed);
    var name := FeedName(feed);
    var outcome := Probe(api, symbol, lookback, k);
    var s' := ProbeStep(s, tf, feed, outcome);
    var done' := done + {k};
    ProbeStepEntries(s, tf, feed, outcome);
    forall n | n in s'.feedResults
      ensures TallyInv(api, symbol, lookback, s'.feedResults[n], ProbesOn(done', n))
    {
      if n == name {
        assert ProbesOn(done', n) == ProbesOn(done, n) + {k};
        if name in s.feedResults {
          TallyStep(api, symbol, lookback, s.feedResults[name], ProbesOn(done, n), k);
        } else {
          assert ProbesOn(done, n) == {};
          EmptyTally(api, symbol, lookback);
          TallyStep(api, symbol, lookback, Tally(false, 0), {}, k);
        }
      } else {
        assert ProbesOn(done', n) == ProbesOn(done, n);
      }
    }
  }

  lemma ProbesOfSnoc(tf: string, feeds: seq<Option<string>>)
    requires feeds != []
    ensures ProbesOf(tf, feeds) == ProbesOf(tf, feeds[..|feeds| - 1]) + {ProbeKey(tf, feeds[|feeds| - 1])}
    ensures NamesOf(feeds) == NamesOf(feeds[..|feeds| - 1]) + {FeedName(feeds[|feeds| - 1])}
  {
    assert feeds == feeds[..|feeds| - 1] + [feeds[|feeds| - 1]];
  }

  lemma ProbesSnoc(tfs: seq<string>)
    requires tfs != []
    ensures Probes(tfs) == Probes(tfs[..|tfs| - 1]) + ProbesOf(tfs[|tfs| - 1], Feeds)
  {
    assert tfs == tfs[..|tfs| - 1] + [tfs[|tfs| - 1]];
  }

  lemma {:induction false} SurveyFeedsKeeps(
    api: BarsQuery -> Option<Frame>, symbol: string, lookback: int, s: Survey, done: set<ProbeKey>,
    tf: string, feeds: seq<Option<string>>)
    requires SurveyInv(api, symbol, lookback, s, done)
    requires tf in s.timeframeResults
    ensures SurveyInv(api, symbol, lookback, SurveyFeeds(api, symbol, lookback, s, tf, feeds),
                      done + ProbesOf(tf, feeds))
    decreases |feeds|
  {
    if feeds == [] {
      assert done + ProbesOf(tf, feeds) == done;
    } else {
      var init := feeds[..|feeds| - 1];
      var f := feeds[|feeds| - 1];
      SurveyFeedsKeeps(api, symbol, lookback, s, done, tf, init);
      SurveyFeedsKeys(api, symbol, lookback, s, tf, init);
      var mid := SurveyFeeds(api, symbol, lookback, s, tf, init);
      var before := done + ProbesOf(tf, init);
      ProbeStepKeeps(api, symbol, lookback, mid, before, tf, f);
      ProbesOfSnoc(tf, feeds);
      assert done + ProbesOf(tf, feeds) == before + {ProbeKey(tf, f)};
      assert SurveyFeeds(api, symbol, lookback, s, tf, feeds) ==
             ProbeStep(mid, tf, f, Probe(api, symbol, lookback, ProbeKey(tf, f)));
    }
  }

  lemma {:induction false} SurveyFeedsKeys(
    api: BarsQuery -> Option<Frame>, symbol: string, lookback: int, s: Survey, tf: string,
    feeds: seq<Option<string>>)
    requires tf in s.timeframeResults
    ensures var s' := SurveyFeeds(api, symbol, lookback, s, tf, feeds);
      && s'.timeframeResults.Keys == s.timeframeResults.Keys
      && s'.feedResults.Keys == s.feedResults.Keys + NamesOf(feeds)
    decreases |feeds|
  {
    if feeds != [] {
      SurveyFeedsKeys(api, symbol, lookback, s, tf, feeds[..|feeds| - 1]);
      ProbesOfSnoc(tf, feeds);
    }
  }

  /** The diagnostic's results are right: the highest bar count is at least
      the count of every successful probe; there is a best combination
      exactly when some probe succeeded, and it names a probe that got the
      highest count; each timeframe's and each feed's entry is marked
      successful exactly when one of its probes succeeded, and holds the
      largest bar count of its probes (0 when none succeeded); every
      timeframe asked for has an entry, and every feed has one once a
      timeframe was probed. */
  lemma SurveyMeaning(api: BarsQuery -> Option<Frame>, symbol: string, lookback: int, tfs: seq<string>)
    ensures var s := SurveyTimeframes(api, symbol, lookback, tfs);
      && SurveyInv(api, symbol, lookback, s, Probes(tfs))
      && (forall tf :: tf in s.timeframeResults <==> tf in tfs)
      && s.feedResults.Keys == (if tfs == [] then {} else FeedNames)
  {
    SurveyKeys(api, symbol, lookback, tfs);
    SurveyInvHolds(api, symbol, lookback, tfs);
  }

  lemma SurveyKeys(api: BarsQuery -> Option<Frame>, symbol: string, lookback: int, tfs: seq<string>)
    ensures var s := SurveyTimeframes(api, symbol, lookback, tfs);
      && (forall tf :: tf in s.timeframeResults <==> tf in tfs)
      && s.feedResults.Keys == (if tfs == [] then {} else FeedNames)
  {
    SurveyTimeframeKeys(api, symbol, lookback, tfs);
    SurveyFeedKeys(api, symbol, lookback, tfs);
  }

  lemma {:induction false} SurveyTimeframeKeys(
    api: BarsQuery -> Option<Frame>, symbol: string, lookback: int, tfs: seq<string>)
    ensures forall tf :: tf in SurveyTimeframes(api, symbol, lookback, tfs).timeframeResults <==> tf in tfs
    decreases |tfs|
  {
    if tfs != [] {
      var init := tfs[..|tfs| - 1];
      var tf := tfs[|tfs| - 1];
      SurveyTimeframeKeys(api, symbol, lookback, init);
      var start := StartTimeframe(SurveyTimeframes(api, symbol, lookback, init), tf);
      SurveyFeedsKeys(api, symbol, lookback, start, tf, Feeds);
      SnocMembers(tfs);
    }
  }

  lemma {:induction false} SurveyFeedKeys(
    api: BarsQuery -> Option<Frame>, symbol: string, lookback: int, tfs: seq<string>)
    ensures SurveyTimeframes(api, symbol, lookback, tfs).feedResults.Keys == (if tfs == [] then {} else FeedNames)
    decreases |tfs|
  {
    if tfs != [] {
      var init := tfs[..|tfs| - 1];
      var tf := tfs[|tfs| - 1];
      SurveyFeedKeys(api, symbol, lookback, init);
      var start := StartTimeframe(SurveyTimeframes(api, symbol, lookback, init), tf);
      SurveyFeedsKeys(api, symbol, lookback, start, tf, Feeds);
      NamesOfFeeds();
    }
  }

  lemma NamesOfFeeds()
    ensures NamesOf(Feeds) == FeedNames
  {
    assert FeedName(Feeds[0]) == "sip" && FeedName(Feeds[1]) == "default" && FeedName(Feeds[2]) == "iex";
  }

  lemma {:induction false} SurveyInvHolds(
    api: BarsQuery -> Option<Frame>, symbol: string, lookback: int, tfs: seq<string>)
    ensures SurveyInv(api, symbol, lookback, SurveyTimeframes(api, symbol, lookback, tfs), Probes(tfs))
    decreases |tfs|
  {
    if tfs != [] {
      var init := tfs[..|tfs| - 1];
      var tf := tfs[|tfs| - 1];
      SurveyInvHolds(api, symbol, lookback, init);
      SurveyKeys(api, symbol, lookback, init);
      var prev := SurveyTimeframes(api, symbol, lookback, init);
      forall k | k in Probes(init) ensures k.timeframe in prev.timeframeResults {
        assert k.timeframe in init;
      }
      StartTimeframeKeeps(api, symbol, lookback, prev, Probes(init), tf);
      SurveyFeedsKeeps(api, symbol, lookback, StartTimeframe(prev, tf), Probes(init), tf, Feeds);
      ProbesSnoc(tfs);
    }
  }

  lemma StartTimeframeKeeps(
    api: BarsQuery -> Option<Frame>, symbol: string, lookback: int, s: Survey, done: set<ProbeKey>, tf: string)
    requires SurveyInv(api, symbol, lookback, s, done)
    requires forall k :: k in done ==> k.timeframe in s.timeframeResults
    ensures SurveyInv(api, symbol, lookback, StartTimeframe(s, tf), done)
    ensures StartTimeframe(s, tf).timeframeResults.Keys == s.timeframeResults.Keys + {tf}
    ensures StartTimeframe(s, tf).feedResults == s.feedResults
  {
    if tf !in s.timeframeResults {
      assert ProbesAt(done, tf) == {};
      EmptyTally(api, symbol, lookback);
    }
  }

  /** The enhanced-method entry of the diagnostic. */
  datatype EnhancedCheck = Failed | Succeeded(barCount: nat, start: int, end: int)

  function EnhancedOf(bars: Option<Frame>): (e: EnhancedCheck)
    ensures e.Succeeded? <==> bars.Some? && !IsEmpty(bars.value)
    ensures e.Succeeded? ==>
      && e.barCount == |bars.value.rows|
      && e.start in TsSet(bars.value.rows) && e.end in TsSet(bars.value.rows)
      && forall x :: x in bars.value.rows ==> e.start <= x.ts <= e.end
  {
    if bars.Some? && !IsEmpty(bars.value) then
      Succeeded(|bars.value.rows|, MinTs(bars.value.rows), MaxTs(bars.value.rows))
    else Failed
  }

  /** The queries of the diagnostic's probes, in order. */
  function SurveyQueries(symbol: string, lookback: int, tfs: seq<string>): seq<BarsQuery>
    decreases |tfs|
  {
    if tfs == [] then []
    else
      var tf := tfs[|tfs| - 1];
      SurveyQueries(symbol, lookback, tfs[..|tfs| - 1]) + FeedProbeQueries(symbol, lookback, tf, Feeds)
  }

  /** The timeframes up to index `i` inclusive: those before it, then
      timeframe `i` with every feed. */
  lemma SurveyTimeframesNext(api: BarsQuery -> Option<Frame>, symbol: string, lookback: int, tfs: seq<string>, i: nat)
    requires i < |tfs|
    ensures SurveyTimeframes(api, symbol, lookback, tfs[..i + 1]) ==
      SurveyFeeds(api, symbol, lookback, StartTimeframe(SurveyTimeframes(api, symbol, lookback, tfs[..i]), tfs[i]),
                  tfs[i], Feeds)
    ensures SurveyQueries(symbol, lookback, tfs[..i + 1]) ==
      SurveyQueries(symbol, lookback, tfs[..i]) + FeedProbeQueries(symbol, lookback, tfs[i], Feeds)
  {
    assert tfs[..i + 1][..i] == tfs[..i];
  }

  function FeedProbeQueries(symbol: string, lookback: int, tf: string, feeds: seq<Option<string>>)
    : seq<BarsQuery>
    decreases |feeds|
  {
    if feeds == [] then []
    else
      FeedProbeQueries(symbol, lookback, tf, feeds[..|feeds| - 1])
        + [ProbeQuery(symbol, lookback, ProbeKey(tf, feeds[|feeds| - 1]))]
  }

  datatype FetchStats = FetchStats(
    attempts: int, successes: int, feedSuccesses: map<string, int>,
    timeframeSuccesses: map<string, int>, lastSuccessfulFetch: Option<int>)

  class MarketDataFetcher {
    var attempts: int
    var successes: int
    var feedSuccesses: map<string, int>
    var timeframeSuccesses: map<string, int>
    /** The clock reading of the last successful fetch. */
    var lastSuccessfulFetch: Option<int>
    /** Every bars request issued so far, in order. */
    ghost var issued: seq<BarsQuery>

    /** Every success is one attempt and is counted under exactly one of the
        three feeds and under its timeframe. */
    ghost predicate Valid()
      reads this
    {
      && 0 <= successes <= attempts
      && feedSuccesses.Keys == FeedNames
      && feedSuccesses["sip"] + feedSuccesses["default"] + feedSuccesses["iex"] == successes
      && (forall f :: f in feedSuccesses ==> feedSuccesses[f] >= 0)
      && (forall tf :: tf in timeframeSuccesses ==> 1 <= timeframeSuccesses[tf] <= successes)
    }

    constructor()
      ensures Valid()
      ensures attempts == 0 && successes == 0 && lastSuccessfulFetch == None
      ensures feedSuccesses == map["sip" := 0, "default" := 0, "iex" := 0]
      ensures timeframeSuccesses == map[] && issued == []
    {
      attempts := 0;
      successes := 0;
      feedSuccesses := map["sip" := 0, "default" := 0, "iex" := 0];
      timeframeSuccesses := map[];
      lastSuccessfulFetch := None;
      issued := [];
    }

    /** The `data_stats` dictionary. */
    ghost function Statistics(): FetchStats
      reads this
    {
      FetchStats(attempts, successes, feedSuccesses, timeframeSuccesses, lastSuccessfulFetch)
    }

    /** The statistics after a run, given the statistics before it. */
    ghost predicate Recorded(
      attempts0: int, successes0: int, feeds0: map<string, int>, timeframes0: map<string, int>,
      last0: Option<int>, run: FetchRun, now: int)
      reads this
    {
      && attempts == attempts0 + run.invocations
      && (run.success.None? ==>
            && successes == successes0 && feedSuccesses == feeds0
            && timeframeSuccesses == timeframes0 && lastSuccessfulFetch == last0)
      && (run.success.Some? ==>
            && successes == successes0 + 1
            && feedSuccesses == Bump(feeds0, run.success.value.feed)
            && timeframeSuccesses == Bump(timeframes0, run.success.value.timeframe)
            && lastSuccessfulFetch == Some(now))
    }

    /** One pass of the feed loop of `get_bars` with the request parameters
        `params`. */
    method FetchFromFeed(params: BarsQuery, lookback: int, minReq: int, api: BarsQuery -> Option<Frame>)
      returns (r: Option<Frame>)
      modifies this
      ensures r == AttemptFeed(api, params, lookback, minReq).result
      ensures issued == old(issued) + AttemptFeed(api, params, lookback, minReq).queries
      ensures Statistics() == old(Statistics())
    {
      var barsDf := Fetched(api, params);
      issued := issued + [params];
      if barsDf.Some? && |barsDf.value.rows| < lookback {
        var oldestTs := MinTs(barsDf.value.rows);
        var paginationParams := params.(end := Some(oldestTs));
        var moreBarsDf := Fetched(api, paginationParams);
        issued := issued + [paginationParams];
        if moreBarsDf.Some? {
          barsDf := Some(Merge(moreBarsDf.value, barsDf.value));
        }
      }
      r := None;
      if barsDf.Some? && !IsEmpty(barsDf.value) {
        var standardized := Standardize(barsDf.value);
        if standardized.Some? && |standardized.value.rows| >= minReq {
          r := standardized;
        }
      }
    }

    /** The feed loop of `get_bars`: the request parameters are one
        dictionary whose feed entry is set, or removed for the default feed,
        before each pass; the loop stops at the first feed that yields a
        sufficient frame and reports which feed that was. */
    method PollFeeds(symbol: string, lookback: int, timeframe: string, minReq: int, api: BarsQuery -> Option<Frame>)
      returns (r: Option<Frame>, feedIndex: nat)
      modifies this
      ensures var run := TryFeeds(api, symbol, timeframe, lookback, minReq);
        r == run.result && feedIndex == run.feedIndex && issued == old(issued) + run.queries
      ensures r.Some? ==> feedIndex < |Feeds|
      ensures Statistics() == old(Statistics())
    {
      var params := BarsQuery(symbol, timeframe, Min(1000, lookback), None, None);
      ghost var sofar: seq<BarsQuery> := [];
      ghost var atts := Attempts(api, symbol, timeframe, lookback, minReq);
      var i := 0;
      while i < |Feeds|
        invariant 0 <= i <= |Feeds|
        invariant issued == old(issued) + sofar
        invariant params.symbol == symbol && params.timeframe == timeframe
        invariant params.limit == Min(1000, lookback) && params.end.None?
        invariant Statistics() == old(Statistics())
        invariant var rest := FirstSuccess(atts, i);
          FirstSuccess(atts, 0) == FeedsRun(rest.result, rest.feedIndex, sofar + rest.queries)
        decreases |Feeds| - i
      {
        var feed := Feeds[i];
        if Truthy(feed) {
          params := params.(feed := feed);
        } else if params.feed.Some? {
          params := params.(feed := None);
        }
        assert params == FeedQuery(symbol, timeframe, lookback, i);
        assert atts[i] == AttemptFeed(api, params, lookback, minReq);
        ghost var issuedBefore := issued;
        var barsDf := FetchFromFeed(params, lookback, minReq, api);
        ghost var sofar0 := sofar;
        sofar := sofar + atts[i].queries;
        ConcatAssoc(old(issued), sofar0, atts[i].queries);
        if barsDf.Some? {
          assert FirstSuccess(atts, i) == FeedsRun(barsDf, i, atts[i].queries);
          return barsDf, i;
        }
        ghost var next := FirstSuccess(atts, i + 1);
        assert FirstSuccess(atts, i) == FeedsRun(next.result, next.feedIndex, atts[i].queries + next.queries);
        ConcatAssoc(sofar0, atts[i].queries, next.queries);
        i := i + 1;
      }
      return None, |Feeds|;
    }

    /** `get_bars` */
    method GetBars(
      symbol: string, lookback: int, timeframe: string, minRequired: Option<int>,
      api: BarsQuery -> Option<Frame>, now: int)
      returns (r: Option<Frame>)
      requires Valid()
      modifies this
      ensures Valid()
      ensures var run := Fetch(api, symbol, lookback, timeframe, minRequired);
        && r == run.result
        && issued == old(issued) + run.queries
        && Recorded(old(attempts), old(successes), old(feedSuccesses), old(timeframeSuccesses),
                    old(lastSuccessfulFetch), run, now)
      decreases Rank(timeframe), if lookback > 100 then 1 else 0, 1
    {
      attempts := attempts + 1;
      var minReq := EffectiveMin(minRequired, lookback);
      ghost var feeds := TryFeeds(api, symbol, timeframe, lookback, minReq);
      var feedIndex;
      r, feedIndex := PollFeeds(symbol, lookback, timeframe, minReq, api);
      if r.Some? {
        var feedName := FeedName(Feeds[feedIndex]);
        FeedNamesOfFeeds();
        successes := successes + 1;
        feedSuccesses := Bump(feedSuccesses, feedName);
        timeframeSuccesses := Bump(timeframeSuccesses, timeframe);
        lastSuccessfulFetch := Some(now);
        return;
      }
      r := TryTimeframeFallbacks(symbol, lookback, timeframe, minReq, api, now);
      ConcatAssoc(old(issued), feeds.queries, Fallback(api, symbol, lookback, timeframe, minReq).queries);
    }

    /** `_try_timeframe_fallbacks` */
    method TryTimeframeFallbacks(
      symbol: string, lookback: int, timeframe: string, minReq: int,
      api: BarsQuery -> Option<Frame>, now: int)
      returns (r: Option<Frame>)
      requires Valid()
      modifies this
      ensures Valid()
      ensures var run := Fallback(api, symbol, lookback, timeframe, minReq);
        && r == run.result
        && issued == old(issued) + run.queries
        && Recorded(old(attempts), old(successes), old(feedSuccesses), old(timeframeSuccesses),
                    old(lastSuccessfulFetch), run, now)
      decreases Rank(timeframe), if lookback > 100 then 1 else 0, 0
    {
      var next := NextTimeframe(timeframe);
      if next.None? {
        if timeframe == "1D" && lookback > 100 {
          var reducedLookback := Min(100, minReq);
          r := GetBars(symbol, reducedLookback, timeframe, Some(minReq), api, now);
          return;
        }
      } else {
        r := GetBars(symbol, lookback, next.value, Some(minReq), api, now);
        return;
      }
      r := None;
    }

    /** One pass of the outer loop of `test_data_feeds`: the timeframe's
        entry, then one probe per feed. */
    method ProbeTimeframe(
      symbol: string, tf: string, lookback: int, api: BarsQuery -> Option<Frame>, survey0: Survey)
      returns (survey: Survey)
      modifies this
      ensures survey == SurveyFeeds(api, symbol, lookback, StartTimeframe(survey0, tf), tf, Feeds)
      ensures issued == old(issued) + FeedProbeQueries(symbol, lookback, tf, Feeds)
      ensures Statistics() == old(Statistics())
    {
      survey := survey0;
      if tf !in survey.timeframeResults {
        survey := survey.(timeframeResults := survey.timeframeResults[tf := Tally(false, 0)]);
      }
      ghost var start := survey;
      var j := 0;
      while j < |Feeds|
        invariant 0 <= j <= |Feeds|
        invariant survey == SurveyFeeds(api, symbol, lookback, start, tf, Feeds[..j])
        invariant issued == old(issued) + FeedProbeQueries(symbol, lookback, tf, Feeds[..j])
        invariant Statistics() == old(Statistics())
      {
        var feed := Feeds[j];
        SurveyFeedsNext(api, symbol, lookback, start, tf, Feeds, j);
        ConcatAssoc(old(issued), FeedProbeQueries(symbol, lookback, tf, Feeds[..j]),
                    [ProbeQuery(symbol, lookback, ProbeKey(tf, feed))]);
        survey := ProbeFeed(symbol, tf, feed, lookback, api, survey);
        j := j + 1;
      }
      assert Feeds[..|Feeds|] == Feeds;
    }

    /** The body of the inner loop of `test_data_feeds`: the feed's entry,
        one probe, and the bookkeeping of a non-empty answer. */
    method ProbeFeed(
      symbol: string, tf: string, feed: Option<string>, lookback: int, api: BarsQuery -> Option<Frame>,
      survey0: Survey)
      returns (survey: Survey)
      modifies this
      ensures survey == ProbeStep(survey0, tf, feed, Probe(api, symbol, lookback, ProbeKey(tf, feed)))
      ensures issued == old(issued) + [ProbeQuery(symbol, lookback, ProbeKey(tf, feed))]
      ensures Statistics() == old(Statistics())
    {
      survey := survey0;
      var feedName := FeedName(feed);
      if feedName !in survey.feedResults {
        survey := survey.(feedResults := survey.feedResults[feedName := Tally(false, 0)]);
      }
      var params := BarsQuery(symbol, tf, lookback, feed, None);
      var barsDf := Fetched(api, params);
      issued := issued + [params];
      if barsDf.Some? && !IsEmpty(barsDf.value) {
        var barCount := |barsDf.value.rows|;
        survey := survey.(feedResults := Record(survey.feedResults, feedName, barCount),
                          timeframeResults := Record(survey.timeframeResults, tf, barCount));
        if barCount > survey.highest {
          survey := survey.(highest := barCount, best := Some(Hit(feedName, tf)));
        }
      }
    }

    /** `test_data_feeds`: probes every timeframe (the three defaults when
        none are given) on every feed, then runs `get_bars` once with the
        lookback at the hourly timeframe. The out-parameters are the results
        dictionary it logs as its `diagnostic_test_results` event and
        returns. */
    method TestDataFeeds(
      symbol: string, timeframes: seq<string>, lookback: int,
      api: BarsQuery -> Option<Frame>, now: int)
      returns (survey: Survey, enhanced: EnhancedCheck)
      requires Valid()
      modifies this
      ensures Valid()
      ensures var tfs := if timeframes == [] then DefaultTimeframes else timeframes;
        survey == SurveyTimeframes(api, symbol, lookback, tfs)
      ensures var tfs := if timeframes == [] then DefaultTimeframes else timeframes;
        var run := Fetch(api, symbol, lookback, "1H", None);
        && enhanced == EnhancedOf(run.result)
        && issued == old(issued) + SurveyQueries(symbol, lookback, tfs) + run.queries
        && Recorded(old(attempts), old(successes), old(feedSuccesses), old(timeframeSuccesses),
                    old(lastSuccessfulFetch), run, now)
    {
      var tfs := if timeframes == [] then DefaultTimeframes else timeframes;
      survey := Survey(map[], map[], None, 0);
      var i := 0;
      while i < |tfs|
        invariant 0 <= i <= |tfs|
        invariant survey == SurveyTimeframes(api, symbol, lookback, tfs[..i])
        invariant issued == old(issued) + SurveyQueries(symbol, lookback, tfs[..i])
        invariant Valid()
        invariant Statistics() == old(Statistics())
      {
        var tf := tfs[i];
        SurveyTimeframesNext(api, symbol, lookback, tfs, i);
        ConcatAssoc(old(issued), SurveyQueries(symbol, lookback, tfs[..i]), FeedProbeQueries(symbol, lookback, tf, Feeds));
        survey := ProbeTimeframe(symbol, tf, lookback, api, survey);
        i := i + 1;
      }
      assert tfs[..|tfs|] == tfs;
      var bars := GetBars(symbol, lookback, "1H", None, api, now);
      enhanced := EnhancedOf(bars);
    }
  }
}
