/** The data provider the trading bot reads bars through (src/data/provider.py):
    a time-limited cache in front of the broker binding, a cleaning pipeline
    for each symbol's frame, and request statistics.

    The clock is a parameter `now`, in microseconds. The broker binding's
    bars call is a parameter `client`, giving for a request and the time it
    is made either an exception escaping the call, or the API's answer (None
    when the API itself raised, which the binding turns into {}). */
module Provider {
  import opened Common
  import opened Frames
  import Alpaca

  /** Five minutes, in microseconds. */
  const CacheDuration: int := 300_000_000

  /** Python's `<=` on strings: lexicographic by code point. */
  predicate LexLe(a: string, b: string)
    decreases |a|
  {
    |a| == 0 || (|b| > 0 && (a[0] < b[0] || (a[0] == b[0] && LexLe(a[1..], b[1..]))))
  }

  lemma {:induction false} LexLeTotal(a: string, b: string)
    ensures LexLe(a, b) || LexLe(b, a)
    decreases |a|
  {
    if |a| > 0 && |b| > 0 && a[0] == b[0] {
      LexLeTotal(a[1..], b[1..]);
    }
  }

  lemma {:induction false} LexLeAntisymmetric(a: string, b: string)
    requires LexLe(a, b) && LexLe(b, a)
    ensures a == b
    decreases |a|
  {
    if |a| > 0 {
      LexLeAntisymmetric(a[1..], b[1..]);
      assert a == [a[0]] + a[1..] && b == [b[0]] + b[1..];
    }
  }

  predicate SortedStrings(s: seq<string>)
  {
    forall i, j :: 0 <= i < j < |s| ==> LexLe(s[i], s[j])
  }

  function InsertString(x: string, s: seq<string>): seq<string>
  {
    if s == [] then [x]
    else if LexLe(x, s[0]) then [x] + s
    else [s[0]] + InsertString(x, s[1..])
  }

  /** Inserting into a sorted list keeps it sorted and adds exactly the one
      string. */
  lemma {:induction false} InsertStringMeaning(x: string, s: seq<string>)
    requires SortedStrings(s)
    ensures SortedStrings(InsertString(x, s))
    ensures multiset(InsertString(x, s)) == multiset(s) + multiset{x}
    decreases |s|
  {
    if s == [] {
    } else if LexLe(x, s[0]) {
      InsertBelow(x, s);
    } else {
      LexLeTotal(x, s[0]);
      InsertStringMeaning(x, s[1..]);
      var tail := InsertString(x, s[1..]);
      assert s == [s[0]] + s[1..];
      HeadBelowStrings(x, s, tail);
    }
  }

  /** The head of a sorted list is at or below every string of the rest with
      a string above the head inserted. */
  lemma HeadBelowStrings(x: string, s: seq<string>, tail: seq<string>)
    requires SortedStrings(s) && s != [] && LexLe(s[0], x)
    requires multiset(tail) == multiset(s[1..]) + multiset{x}
    ensures forall k :: 0 <= k < |tail| ==> LexLe(s[0], tail[k])
  {
    forall k | 0 <= k < |tail| ensures LexLe(s[0], tail[k]) {
      assert tail[k] in multiset(tail);
      if tail[k] != x {
        assert tail[k] in multiset(s[1..]);
        var m :| 0 <= m < |s[1..]| && s[1..][m] == tail[k];
        assert s[m + 1] == tail[k];
      }
    }
  }

  lemma {:induction false} LexLeTransitive(a: string, b: string, c: string)
    requires LexLe(a, b) && LexLe(b, c)
    ensures LexLe(a, c)
    decreases |a|
  {
    if |a| > 0 && a[0] == b[0] && b[0] == c[0] {
      LexLeTransitive(a[1..], b[1..], c[1..]);
    }
  }

  lemma InsertBelow(x: string, s: seq<string>)
    requires SortedStrings(s) && s != [] && LexLe(x, s[0])
    ensures SortedStrings([x] + s)
  {
    forall j | 0 <= j < |s| ensures LexLe(x, s[j]) {
      if j > 0 {
        LexLeTransitive(x, s[0], s[j]);
      }
    }
  }

  /** `sorted(symbols)` */
  function SortStrings(s: seq<string>): seq<string>
  {
    if s == [] then [] else InsertString(s[0], SortStrings(s[1..]))
  }

  /** `sorted` gives an ascending list with the same elements. */
  lemma {:induction false} SortStringsMeaning(s: seq<string>)
    ensures SortedStrings(SortStrings(s))
    ensures multiset(SortStrings(s)) == multiset(s)
    decreases |s|
  {
    if s != [] {
      var t := SortStrings(s[1..]);
      SortStringsMeaning(s[1..]);
      InsertStringMeaning(s[0], t);
      assert SortStrings(s) == InsertString(s[0], t);
      MultisetOfCons(s);
    }
  }

  lemma MultisetOfCons(s: seq<string>)
    requires s != []
    ensures multiset(s) == multiset(s[1..]) + multiset{s[0]}
  {
    assert s == [s[0]] + s[1..];
  }

  /** Two sorted lists with the same elements are the same list. */
  lemma {:induction false} SortedUnique(a: seq<string>, b: seq<string>)
    requires SortedStrings(a) && SortedStrings(b) && multiset(a) == multiset(b)
    ensures a == b
    decreases |a|
  {
    assert |a| == |multiset(a)| == |multiset(b)| == |b|;
    if a != [] {
      SameHead(a, b);
      SameTail(a, b);
      SortedUnique(a[1..], b[1..]);
      assert a == [a[0]] + a[1..] && b == [b[0]] + b[1..];
    }
  }

  lemma SameHead(a: seq<string>, b: seq<string>)
    requires SortedStrings(a) && SortedStrings(b) && multiset(a) == multiset(b) && a != []
    ensures b != [] && a[0] == b[0]
  {
    assert a[0] in multiset(b) && a[0] in b;
    assert b != [] && b[0] in multiset(a);
    var i :| 0 <= i < |b| && b[i] == a[0];
    var j :| 0 <= j < |a| && a[j] == b[0];
    LexLeTotal(a[0], a[0]);
    LexLeTotal(b[0], b[0]);
    assert LexLe(b[0], a[0]) by {
      if i > 0 { assert LexLe(b[0], b[i]); }
    }
    assert LexLe(a[0], b[0]) by {
      if j > 0 { assert LexLe(a[0], a[j]); }
    }
    LexLeAntisymmetric(a[0], b[0]);
  }

  lemma SameTail(a: seq<string>, b: seq<string>)
    requires multiset(a) == multiset(b) && a != [] && b != [] && a[0] == b[0]
    ensures multiset(a[1..]) == multiset(b[1..])
  {
    assert a == [a[0]] + a[1..] && b == [b[0]] + b[1..];
    assert multiset(a[1..]) == multiset(a) - multiset{a[0]};
    assert multiset(b[1..]) == multiset(b) - multiset{b[0]};
  }

  /** `sep.join(parts)` */
  function Join(parts: seq<string>, sep: string): string
  {
    if parts == [] then ""
    else if |parts| == 1 then parts[0]
    else parts[0] + sep + Join(parts[1..], sep)
  }

  function DigitChar(d: int): char
    requires 0 <= d < 10
  {
    "0123456789"[d]
  }

  /** `str(n)` for an integer. */
  function IntToString(n: int): string
    decreases if n < 0 then -n + 1 else n
  {
    if n < 0 then "-" + IntToString(-n)
    else if n < 10 then [DigitChar(n)]
    else IntToString(n / 10) + [DigitChar(n % 10)]
  }

  /** The cache key of a bars request: the sorted symbols joined with
      commas, the timeframe and the limit. */
  function CacheKey(symbols: seq<string>, timeframe: string, limit: int): string
  {
    Join(SortStrings(symbols), ",") + "_" + timeframe + "_" + IntToString(limit)
  }

  /** The key of a one-symbol request is the symbol, the timeframe and the
      limit, joined by underscores. */
  lemma CacheKeySingle(symbol: string, timeframe: string, limit: int)
    ensures CacheKey([symbol], timeframe, limit) == symbol + "_" + timeframe + "_" + IntToString(limit)
  {
    assert [symbol][1..] == [];
    assert SortStrings([symbol]) == InsertString(symbol, []) == [symbol];
  }

  /** The key does not depend on the order of the symbols. */
  lemma CacheKeyOrderFree(a: seq<string>, b: seq<string>, timeframe: string, limit: int)
    requires multiset(a) == multiset(b)
    ensures CacheKey(a, timeframe, limit) == CacheKey(b, timeframe, limit)
  {
    SortStringsMeaning(a);
    SortStringsMeaning(b);
    SortedUnique(SortStrings(a), SortStrings(b));
  }

  /** `df.dropna(subset=cols)`: the rows that have a value in every one of
      the columns. */
  function DropMissing(rows: seq<Row>, cols: set<string>): (r: seq<Row>)
    ensures |r| <= |rows|
    ensures forall x :: x in r <==> x in rows && cols <= x.cells.Keys
  {
    if rows == [] then []
    else
      var rest := DropMissing(rows[1..], cols);
      assert forall x :: x in rows <==> x == rows[0] || x in rows[1..];
      if cols <= rows[0].cells.Keys then [rows[0]] + rest else rest
  }

  /** Dropping keeps the order of the rows: dropping from a concatenation
      drops from each part in turn. */
  lemma {:induction false} DropMissingConcat(a: seq<Row>, b: seq<Row>, cols: set<string>)
    ensures DropMissing(a + b, cols) == DropMissing(a, cols) + DropMissing(b, cols)
    decreases |a|
  {
    if a == [] {
      assert a + b == b;
    } else {
      var ab := a + b;
      assert ab[0] == a[0] && ab[1..] == a[1..] + b;
      DropMissingConcat(a[1..], b, cols);
      var rest := DropMissing(a[1..], cols) + DropMissing(b, cols);
      if cols <= a[0].cells.Keys {
        calc {
          DropMissing(ab, cols);
          [a[0]] + DropMissing(ab[1..], cols);
          [a[0]] + rest;
          ([a[0]] + DropMissing(a[1..], cols)) + DropMissing(b, cols);
        }
      }
    }
  }

  /** One more row is kept at the end exactly when it has every column. */
  lemma DropMissingSnoc(rows: seq<Row>, x: Row, cols: set<string>)
    ensures DropMissing(rows + [x], cols) == DropMissing(rows, cols) + (if cols <= x.cells.Keys then [x] else [])
  {
    DropMissingConcat(rows, [x], cols);
    assert [x][1..] == [];
  }

  /** The first row with timestamp `t`, if any. */
  function FirstAt(rows: seq<Row>, t: int): (r: Option<Row>)
    ensures r.None? <==> t !in TsSet(rows)
    ensures r.Some? ==> r.value in rows && r.value.ts == t
  {
    if rows == [] then None
    else if rows[0].ts == t then Some(rows[0])
    else
      assert TsSet(rows) == {rows[0].ts} + TsSet(rows[1..]) by {
        assert forall x :: x in rows <==> x == rows[0] || x in rows[1..];
      }
      FirstAt(rows[1..], t)
  }

  /** A row that no earlier row shares its timestamp with is the first at
      that timestamp. */
  lemma {:induction false} FirstAtIndex(rows: seq<Row>, i: int)
    requires 0 <= i < |rows|
    requires forall j :: 0 <= j < i ==> rows[j].ts != rows[i].ts
    ensures FirstAt(rows, rows[i].ts) == Some(rows[i])
  {
    if i > 0 {
      FirstAtIndex(rows[1..], i - 1);
    }
  }

  /** `astype(int64)` of the volume column: truncation toward zero. */
  function WholeVolume(x: Row): (r: Row)
    ensures r.ts == x.ts && r.cells.Keys == x.cells.Keys
    ensures "volume" in x.cells ==> r.cells["volume"] == Trunc(x.cells["volume"]) as real
    ensures forall c :: c in x.cells && c != "volume" ==> r.cells[c] == x.cells[c]
  {
    if "volume" in x.cells then x.(cells := x.cells["volume" := Trunc(x.cells["volume"]) as real]) else x
  }

  function WholeVolumes(rows: seq<Row>): (r: seq<Row>)
    ensures |r| == |rows|
    ensures forall i :: 0 <= i < |r| ==> r[i] == WholeVolume(rows[i])
  {
    seq(|rows|, i requires 0 <= i < |rows| => WholeVolume(rows[i]))
  }

  /** A row whose volume is a whole number. */
  predicate WholeVolumeRow(x: Row)
  {
    "volume" in x.cells ==> x.cells["volume"] == Trunc(x.cells["volume"]) as real
  }

  lemma TruncWhole(n: int)
    ensures Trunc(n as real) == n
  {
  }

  /** `_clean_and_prepare_data` */
  function Clean(f: Frame): (r: Frame)
    ensures IsEmpty(f) ==> r == f
    ensures !IsEmpty(f) && !(Required <= f.columns) ==> r.columns == {} && r.rows == []
    ensures !IsEmpty(f) && Required <= f.columns ==>
      && r.columns == f.columns && r.timeIndexed == f.timeIndexed
      && StrictlySorted(r.rows)
      && |r.rows| <= |f.rows|
      && TsSet(r.rows) == TsSet(DropMissing(f.rows, Required))
      && (forall x :: x in r.rows ==> Required <= x.cells.Keys && WholeVolumeRow(x))
      && forall x :: x in r.rows ==>
           var first := FirstAt(DropMissing(f.rows, Required), x.ts);
           first.Some? && x == WholeVolume(first.value)
  {
    if IsEmpty(f) then f
    else if !(Required <= f.columns) then Frame(false, {}, [])
    else
      var complete := DropMissing(f.rows, Required);
      var unique := DedupFirst(complete, {});
      var sorted := SortByTs(unique);
      var result := WholeVolumes(sorted);
      DedupFirstUnique(complete, {});
      DedupFirstKeepsAllTimestamps(complete, {});
      SortByTsStrict(unique);
      MultisetTsSet(sorted, unique);
      forall x | x in sorted ensures Required <= x.cells.Keys {
        assert x in multiset(sorted);
        assert x in unique;
      }
      CleanTail(sorted);
      KeptAreFirst(complete, unique, sorted);
      Frame(f.timeIndexed, f.columns, result)
  }

  /** Each row left after deduplicating and sorting, volume converted, is the
      first complete row at its timestamp, volume converted. */
  lemma KeptAreFirst(complete: seq<Row>, unique: seq<Row>, sorted: seq<Row>)
    requires unique == DedupFirst(complete, {})
    requires multiset(sorted) == multiset(unique)
    ensures forall x :: x in WholeVolumes(sorted) ==>
      var first := FirstAt(complete, x.ts);
      first.Some? && x == WholeVolume(first.value)
  {
    var r := WholeVolumes(sorted);
    forall x | x in r
      ensures var first := FirstAt(complete, x.ts); first.Some? && x == WholeVolume(first.value)
    {
      var i :| 0 <= i < |r| && r[i] == x;
      var y := sorted[i];
      assert y in multiset(sorted);
      assert y in unique;
      DedupFirstKeepsFirst(complete, {}, y);
      var k :| 0 <= k < |complete| && complete[k] == y && forall j :: 0 <= j < k ==> complete[j].ts != y.ts;
      FirstAtIndex(complete, k);
    }
  }

  /** The final volume conversion keeps the row order and timestamps, and
      leaves whole volumes. */
  lemma CleanTail(sorted: seq<Row>)
    requires StrictlySorted(sorted)
    requires forall x :: x in sorted ==> Required <= x.cells.Keys
    ensures var r := WholeVolumes(sorted);
      && StrictlySorted(r) && TsSet(r) == TsSet(sorted)
      && forall x :: x in r ==> Required <= x.cells.Keys && WholeVolumeRow(x)
  {
    var r := WholeVolumes(sorted);
    forall x | x in r ensures Required <= x.cells.Keys && WholeVolumeRow(x) {
      var i :| 0 <= i < |r| && r[i] == x;
      assert sorted[i] in sorted;
      TruncWhole(Trunc(sorted[i].cells["volume"]));
    }
    forall t | t in TsSet(sorted) ensures t in TsSet(r) {
      var x :| x in sorted && x.ts == t;
      var i :| 0 <= i < |sorted| && sorted[i] == x;
      assert r[i] in r;
    }
  }

  /** Every frame of a bars response cleaned. */
  function CleanAll(data: map<string, Frame>): (r: map<string, Frame>)
    ensures r.Keys == data.Keys
  {
    map k | k in data :: Clean(data[k])
  }

  /** Every frame of the response is replaced by its cleaned copy, and an
      empty frame stays as it was. */
  lemma CleanAllMeaning(data: map<string, Frame>)
    ensures var r := CleanAll(data);
      && r.Keys == data.Keys
      && (forall k :: k in data ==> r[k] == Clean(data[k]))
      && forall k :: k in data && IsEmpty(data[k]) ==> r[k] == data[k]
  {
  }

  /** The cleaning loop of `get_bars`: each symbol's frame is replaced by its
      cleaned copy unless it is empty; the dictionary keeps its keys. */
  method CleanBars(data0: map<string, Frame>) returns (data: map<string, Frame>)
    ensures data == CleanAll(data0)
  {
    data := data0;
    var pending := data0.Keys;
    while pending != {}
      invariant pending <= data0.Keys && data.Keys == data0.Keys
      invariant forall k :: k in data0 && k in pending ==> data[k] == data0[k]
      invariant forall k :: k in data0 && k !in pending ==> data[k] == Clean(data0[k])
      decreases |pending|
    {
      var symbol :| symbol in pending;
      if symbol in data && !IsEmpty(data[symbol]) {
        data := data[symbol := Clean(data[symbol])];
      }
      pending := pending - {symbol};
    }
  }

  /** What the broker binding hands back for a request: the grouped bars, or
      {} when the API raised. */
  function Response(symbols: seq<string>, api: Option<seq<Alpaca.RawBar>>): map<string, Frame>
  {
    CleanAll(Alpaca.BarsResponse(symbols, api))
  }

  /** One call of the broker binding's bars method. */
  datatype BarsCall = BarsCall(symbols: seq<string>, params: map<string, Alpaca.Param>)

  /** The provider's cache as a value: the cached answers and the time each
      was stored, by key. */
  datatype CacheState = CacheState(entries: map<string, map<string, Frame>>, stamps: map<string, int>)

  /** What one `get_bars` call does: its answer, whether it was a cache hit,
      whether the broker call raised, and the cache afterwards. */
  datatype Served = Served(data: map<string, Frame>, hit: bool, raised: bool, after: CacheState)

  /** An entry is fresh when it was stored less than five minutes ago. */
  predicate Fresh(st: CacheState, key: string, now: int)
  {
    key in st.entries && key in st.stamps && now - st.stamps[key] < CacheDuration
  }

  /** `get_bars` on a cache given as a value. */
  function Serve(
    st: CacheState, symbols: seq<string>, timeframe: string, limit: int, start: Option<string>,
    end: Option<string>, useCache: bool, client: (BarsCall, int) -> Reply<Option<seq<Alpaca.RawBar>>>,
    now: int): Served
  {
    var key := CacheKey(symbols, timeframe, limit);
    if useCache && Fresh(st, key, now) then Served(st.entries[key], true, false, st)
    else Miss(st, key, BarsCall(symbols, Alpaca.BarsParams(timeframe, limit, start, end)), useCache, client, now)
  }

  /** The miss path of `get_bars`: one broker call; its cleaned answer
      stored under `key` when caching and non-empty. */
  function Miss(
    st: CacheState, key: string, call: BarsCall, useCache: bool,
    client: (BarsCall, int) -> Reply<Option<seq<Alpaca.RawBar>>>, now: int): Served
  {
    match client(call, now)
    case Raised => Served(map[], false, true, st)
    case Returned(api) =>
      var data := Response(call.symbols, api);
      Served(data, false, false,
             if useCache && data != map[] then CacheState(st.entries[key := data], st.stamps[key := now]) else st)
  }

  /** A non-empty answer is served again from the cache, without a broker
      call: a fetched answer for as long as it is fresh, and a cached one at
      the same moment. The second request, for the same symbols in any
      order, timeframe and limit, is a hit with the same answer, whatever
      the broker would answer then. */
  lemma ServeCached(
    st: CacheState, symbols: seq<string>, timeframe: string, limit: int,
    start: Option<string>, end: Option<string>, start2: Option<string>, end2: Option<string>,
    client: (BarsCall, int) -> Reply<Option<seq<Alpaca.RawBar>>>,
    client2: (BarsCall, int) -> Reply<Option<seq<Alpaca.RawBar>>>,
    symbols2: seq<string>, now: int, later: int)
    requires multiset(symbols2) == multiset(symbols)
    requires now <= later < now + CacheDuration
    ensures var first := Serve(st, symbols, timeframe, limit, start, end, true, client, now);
      var second := Serve(first.after, symbols2, timeframe, limit, start2, end2, true, client2, later);
      first.data != map[] && (!first.hit || later == now) ==>
        second.hit && second.data == first.data && second.after == first.after
  {
    CacheKeyOrderFree(symbols, symbols2, timeframe, limit);
    var key := CacheKey(symbols, timeframe, limit);
    ServeMeaning(st, symbols, timeframe, limit, start, end, true, client, now);
  }

  /** What `get_bars` does, case by case: a fresh cached entry is served
      without calling the broker and leaves the cache as it was; otherwise
      the broker is called once, an exception answers {} and leaves the
      cache as it was, and an answer is cleaned and, when non-empty and
      caching, stored under the key with the current time. */
  lemma ServeMeaning(
    st: CacheState, symbols: seq<string>, timeframe: string, limit: int, start: Option<string>,
    end: Option<string>, useCache: bool, client: (BarsCall, int) -> Reply<Option<seq<Alpaca.RawBar>>>, now: int)
    ensures var key := CacheKey(symbols, timeframe, limit);
      var r := Serve(st, symbols, timeframe, limit, start, end, useCache, client, now);
      && (r.hit <==> useCache && Fresh(st, key, now))
      && (r.hit ==> r.data == st.entries[key] && r.after == st && !r.raised)
    ensures var key := CacheKey(symbols, timeframe, limit);
      var r := Serve(st, symbols, timeframe, limit, start, end, useCache, client, now);
      var reply := client(BarsCall(symbols, Alpaca.BarsParams(timeframe, limit, start, end)), now);
      && (!r.hit ==> (r.raised <==> reply.Raised?))
      && (r.raised ==> r.data == map[] && r.after == st)
      && (!r.hit && !r.raised ==>
            && r.data == Response(symbols, reply.value)
            && (useCache && r.data != map[] ==>
                  r.after == CacheState(st.entries[key := r.data], st.stamps[key := now]) && Fresh(r.after, key, now))
            && (!useCache || r.data == map[] ==> r.after == st))
  {
  }

  /** The dictionary returned by `get_cache_stats`. */
  datatype CacheStats = CacheStats(
    cacheSize: nat, cacheHits: int, requests: int, hitRatio: real, failedRequests: int,
    lastRequestTime: Option<int>)

  class DataProvider {
    var cache: map<string, map<string, Frame>>
    var cacheTimestamps: map<string, int>
    var requests: int
    var cacheHits: int
    var failedRequests: int
    var lastRequestTime: Option<int>
    /** Every call made to the broker binding, in order. */
    ghost var calls: seq<BarsCall>

    /** Every cached entry has its timestamp and is non-empty; every request
        is at most one of a hit and a failure. */
    ghost predicate Valid()
      reads this
    {
      && cache.Keys == cacheTimestamps.Keys
      && (forall k :: k in cache ==> cache[k] != map[])
      && 0 <= cacheHits && 0 <= failedRequests && cacheHits + failedRequests <= requests
    }

    constructor()
      ensures Valid()
      ensures cache == map[] && cacheTimestamps == map[] && calls == []
      ensures requests == 0 && cacheHits == 0 && failedRequests == 0 && lastRequestTime == None
    {
      cache := map[];
      cacheTimestamps := map[];
      requests := 0;
      cacheHits := 0;
      failedRequests := 0;
      lastRequestTime := None;
      calls := [];
    }

    /** The cache as a value. */
    ghost function State(): CacheState
      reads this
    {
      CacheState(cache, cacheTimestamps)
    }

    /** `_is_cache_valid`: an unstamped key is never valid; a stamped one is
        valid while it is less than five minutes old. */
    predicate IsCacheValid(key: string, now: int): (valid: bool)
      reads this
      ensures key !in cacheTimestamps ==> !valid
      ensures valid ==> cacheTimestamps[key] > now - 300_000_000
      ensures key in cacheTimestamps && cacheTimestamps[key] > now - 300_000_000 ==> valid
    {
      key in cacheTimestamps && now - cacheTimestamps[key] < CacheDuration
    }

    /** `get_bars`: a fresh cached entry is served without calling the broker;
        otherwise the broker is called once, its frames are cleaned, and a
        non-empty answer is cached when the cache is in use. An exception
        from the call counts as a failed request and leaves the cache as it
        was. */
    method GetBars(
      symbols: seq<string>, timeframe: string, limit: int, start: Option<string>, end: Option<string>,
      useCache: bool, client: (BarsCall, int) -> Reply<Option<seq<Alpaca.RawBar>>>, now: int)
      returns (data: map<string, Frame>)
      requires Valid()
      modifies this
      ensures Valid()
      ensures requests == old(requests) + 1 && lastRequestTime == Some(now)
      ensures var served := Serve(old(State()), symbols, timeframe, limit, start, end, useCache, client, now);
        && data == served.data && State() == served.after
        && cacheHits == old(cacheHits) + (if served.hit then 1 else 0)
        && failedRequests == old(failedRequests) + (if served.raised then 1 else 0)
        && calls == old(calls) + (if served.hit then [] else [BarsCall(symbols, Alpaca.BarsParams(timeframe, limit, start, end))])
    {
      ghost var st := State();
      requests := requests + 1;
      lastRequestTime := Some(now);
      var cacheKey := CacheKey(symbols, timeframe, limit);
      var call := BarsCall(symbols, Alpaca.BarsParams(timeframe, limit, start, end));
      if useCache {
        if cacheKey in cache && IsCacheValid(cacheKey, now) {
          cacheHits := cacheHits + 1;
          assert Serve(st, symbols, timeframe, limit, start, end, useCache, client, now) ==
                 Served(cache[cacheKey], true, false, st);
          return cache[cacheKey];
        }
      }
      assert Serve(st, symbols, timeframe, limit, start, end, useCache, client, now) ==
             Miss(st, cacheKey, call, useCache, client, now);
      data := Refresh(cacheKey, call, useCache, client, now);
    }

    /** The miss path of `get_bars`: one broker call, logged; its cleaned
        answer stored under `key` when caching and non-empty. */
    method Refresh(
      key: string, call: BarsCall, useCache: bool,
      client: (BarsCall, int) -> Reply<Option<seq<Alpaca.RawBar>>>, now: int)
      returns (data: map<string, Frame>)
      requires Valid() && cacheHits + failedRequests < requests
      modifies this
      ensures Valid()
      ensures requests == old(requests) && lastRequestTime == old(lastRequestTime)
      ensures cacheHits == old(cacheHits) && calls == old(calls) + [call]
      ensures var served := Miss(old(State()), key, call, useCache, client, now);
        && data == served.data && State() == served.after
        && failedRequests == old(failedRequests) + (if served.raised then 1 else 0)
    {
      calls := calls + [call];
      var reply := client(call, now);
      match reply {
        case Raised =>
          failedRequests := failedRequests + 1;
          return map[];
        case Returned(api) =>
          var grouped := Alpaca.GetBars(call.symbols, api);
          data := CleanBars(grouped);
          Store(key, data, useCache, now);
      }
    }

    /** Caches a non-empty answer under `key`, stamped `now`, when the cache
        is in use. */
    method Store(key: string, data: map<string, Frame>, useCache: bool, now: int)
      requires Valid()
      modifies this
      ensures Valid()
      ensures requests == old(requests) && lastRequestTime == old(lastRequestTime)
      ensures cacheHits == old(cacheHits) && calls == old(calls) && failedRequests == old(failedRequests)
      ensures useCache && data != map[] ==>
        cache == old(cache)[key := data] && cacheTimestamps == old(cacheTimestamps)[key := now]
      ensures !useCache || data == map[] ==> cache == old(cache) && cacheTimestamps == old(cacheTimestamps)
    {
      if useCache && data != map[] {
        cache := cache[key := data];
        cacheTimestamps := cacheTimestamps[key := now];
      }
    }

    /** `get_latest_price`: the last close of the symbol's one-bar
        one-minute request, if it has one. */
    method GetLatestPrice(
      symbol: string, client: (BarsCall, int) -> Reply<Option<seq<Alpaca.RawBar>>>, now: int)
      returns (price: Option<real>)
      requires Valid()
      modifies this
      ensures Valid()
      ensures requests == old(requests) + 1 && lastRequestTime == Some(now)
      ensures var served := Serve(old(State()), [symbol], "1Min", 1, None, None, true, client, now);
        var bars := served.data;
        && State() == served.after
        && cacheHits == old(cacheHits) + (if served.hit then 1 else 0)
        && failedRequests == old(failedRequests) + (if served.raised then 1 else 0)
        && calls == old(calls) + (if served.hit then [] else [BarsCall([symbol], Alpaca.BarsParams("1Min", 1, None, None))])
        && (price.Some? <==>
              && symbol in bars && !IsEmpty(bars[symbol])
              && "close" in bars[symbol].rows[|bars[symbol].rows| - 1].cells)
        && (price.Some? ==> price.value == bars[symbol].rows[|bars[symbol].rows| - 1].cells["close"])
    {
      var data := GetBars([symbol], "1Min", 1, None, None, true, client, now);
      if symbol in data && !IsEmpty(data[symbol]) {
        var last := data[symbol].rows[|data[symbol].rows| - 1];
        if "close" in last.cells {
          return Some(last.cells["close"]);
        }
      }
      price := None;
    }

    /** `get_multi_timeframe_data`: one cached request per timeframe for the
        symbol, each counted as `get_bars` counts it; the answers that have
        the symbol are collected by timeframe. */
    method GetMultiTimeframeData(
      symbol: string, timeframes: seq<string>, limit: int,
      client: (BarsCall, int) -> Reply<Option<seq<Alpaca.RawBar>>>, now: int)
      returns (result: map<string, Frame>)
      requires Valid()
      modifies this
      ensures Valid()
      ensures var each := ServeEach(old(State()), symbol, timeframes, limit, client, now);
        && result == Gather(symbol, timeframes, each.answers) && State() == each.after
        && cacheHits == old(cacheHits) + each.hits && failedRequests == old(failedRequests) + each.failures
        && calls == old(calls) + each.misses
      ensures requests == old(requests) + |timeframes|
      ensures lastRequestTime == if timeframes == [] then old(lastRequestTime) else Some(now)
    {
      result := map[];
      ghost var done := Answers([], 0, 0, [], State());
      ghost var total := ServeEach(old(State()), symbol, timeframes, limit, client, now);
      var i := 0;
      while i < |timeframes|
        invariant 0 <= i <= |timeframes| && |done.answers| == i
        invariant Valid()
        invariant total == Chain(done, ServeEach(State(), symbol, timeframes[i..], limit, client, now))
        invariant result == Gather(symbol, timeframes[..i], done.answers)
        invariant cacheHits == old(cacheHits) + done.hits && failedRequests == old(failedRequests) + done.failures
        invariant calls == old(calls) + done.misses
        invariant requests == old(requests) + i
        invariant lastRequestTime == if i == 0 then old(lastRequestTime) else Some(now)
      {
        var tf := timeframes[i];
        ghost var one := ServeOne(State(), symbol, tf, limit, client, now);
        var data := RequestTimeframe(symbol, timeframes, i, limit, client, now);
        ChainAssoc(done, one, ServeEach(State(), symbol, timeframes[i + 1..], limit, client, now));
        ChainMisses(old(calls), done, one);
        GatherNext(symbol, timeframes, i, done.answers, data);
        done := Chain(done, one);
        if symbol in data {
          result := result[tf := data[symbol]];
        }
        i := i + 1;
      }
      assert timeframes[..i] == timeframes && timeframes[i..] == [];
      ChainEmpty(done, State());
    }

    /** One cached request of `get_multi_timeframe_data`, the one for
        `timeframes[i]`: counted and stamped now, its hit, failure and broker
        call counted as `get_bars` counts them; its answer is the first of
        the cached requests still to make, after which the rest are made on
        the cache it leaves. */
    method RequestTimeframe(
      symbol: string, timeframes: seq<string>, i: nat, limit: int,
      client: (BarsCall, int) -> Reply<Option<seq<Alpaca.RawBar>>>, now: int)
      returns (data: map<string, Frame>)
      requires Valid() && i < |timeframes|
      modifies this
      ensures Valid()
      ensures requests == old(requests) + 1 && lastRequestTime == Some(now)
      ensures var one := ServeOne(old(State()), symbol, timeframes[i], limit, client, now);
        && one.answers == [data] && State() == one.after
        && cacheHits == old(cacheHits) + one.hits && failedRequests == old(failedRequests) + one.failures
        && calls == old(calls) + one.misses
        && ServeEach(old(State()), symbol, timeframes[i..], limit, client, now)
             == Chain(one, ServeEach(State(), symbol, timeframes[i + 1..], limit, client, now))
    {
      ServeEachFirst(State(), symbol, timeframes, i, limit, client, now);
      data := GetBars([symbol], timeframes[i], limit, None, None, true, client, now);
    }

    /** `get_cache_stats` */
    function GetCacheStats(): (s: CacheStats)
      reads this
      ensures s.cacheSize == |cache| && s.cacheHits == cacheHits && s.requests == requests
      ensures s.hitRatio * (if requests > 1 then requests else 1) as real == cacheHits as real
      ensures Valid() ==> 0.0 <= s.hitRatio <= 1.0
      ensures requests <= 0 ==> s.hitRatio == cacheHits as real
    {
      var denominator := if requests > 1 then requests else 1;
      RatioBounds(cacheHits, denominator);
      CacheStats(|cache|, cacheHits, requests, cacheHits as real / denominator as real, failedRequests,
                 lastRequestTime)
    }

    /** `clear_cache`: both maps emptied, statistics kept. */
    method ClearCache()
      requires Valid()
      modifies this
      ensures Valid()
      ensures cache == map[] && cacheTimestamps == map[]
      ensures requests == old(requests) && cacheHits == old(cacheHits)
      ensures failedRequests == old(failedRequests) && lastRequestTime == old(lastRequestTime)
      ensures calls == old(calls)
    {
      cache := map[];
      cacheTimestamps := map[];
    }
  }

  /** Dividing by a positive count: the quotient times the count gives back
      the numerator, and a numerator between 0 and the count gives a ratio in
      [0, 1]. */
  lemma RatioBounds(hits: int, denominator: int)
    requires denominator >= 1
    ensures (hits as real / denominator as real) * denominator as real == hits as real
    ensures 0 <= hits <= denominator ==> 0.0 <= hits as real / denominator as real <= 1.0
  {
    var q := hits as real / denominator as real;
    assert q * denominator as real == hits as real;
    ScaleSign(q, denominator as real);
  }

  lemma ScaleSign(q: real, d: real)
    requires d > 0.0
    ensures q < 0.0 ==> q * d < 0.0
    ensures q > 1.0 ==> q * d > d
  {
  }

  /** The timeframes whose answer had the symbol, each with the frame of its
      last such answer. */
  function Gather(symbol: string, timeframes: seq<string>, answers: seq<map<string, Frame>>)
    : map<string, Frame>
    requires |answers| == |timeframes|
    decreases |timeframes|
  {
    if timeframes == [] then map[]
    else
      var n := |timeframes| - 1;
      var prev := Gather(symbol, timeframes[..n], answers[..n]);
      if symbol in answers[n] then prev[timeframes[n] := answers[n][symbol]] else prev
  }

  /** What a run of cached requests did: the answers, in order, how many
      were cache hits and how many raised, the broker calls made (one per
      miss), and the cache afterwards. */
  datatype Answers = Answers(
    answers: seq<map<string, Frame>>, hits: nat, failures: nat, misses: seq<BarsCall>, after: CacheState)

  /** One cached request for the symbol at a timeframe, as a run of one. */
  function ServeOne(
    st: CacheState, symbol: string, timeframe: string, limit: int,
    client: (BarsCall, int) -> Reply<Option<seq<Alpaca.RawBar>>>, now: int): Answers
  {
    var served := Serve(st, [symbol], timeframe, limit, None, None, true, client, now);
    Answers([served.data], if served.hit then 1 else 0, if served.raised then 1 else 0,
            if served.hit then [] else [BarsCall([symbol], Alpaca.BarsParams(timeframe, limit, None, None))],
            served.after)
  }

  /** A run followed by another, made on the cache the first one left. */
  function Chain(done: Answers, rest: Answers): Answers
  {
    Answers(done.answers + rest.answers, done.hits + rest.hits, done.failures + rest.failures,
            done.misses + rest.misses, rest.after)
  }

  /** One cached request per timeframe, in order, each made on the cache the
      previous one left. */
  function ServeEach(
    st: CacheState, symbol: string, timeframes: seq<string>, limit: int,
    client: (BarsCall, int) -> Reply<Option<seq<Alpaca.RawBar>>>, now: int): (r: Answers)
    ensures |r.answers| == |timeframes|
    decreases |timeframes|
  {
    if timeframes == [] then Answers([], 0, 0, [], st)
    else
      var first := ServeOne(st, symbol, timeframes[0], limit, client, now);
      Chain(first, ServeEach(first.after, symbol, timeframes[1..], limit, client, now))
  }

  /** The requests from index `i` on: the one for `timeframes[i]` first,
      then the rest on the cache it leaves. */
  lemma ServeEachFirst(
    st: CacheState, symbol: string, timeframes: seq<string>, i: nat, limit: int,
    client: (BarsCall, int) -> Reply<Option<seq<Alpaca.RawBar>>>, now: int)
    requires i < |timeframes|
    ensures var first := ServeOne(st, symbol, timeframes[i], limit, client, now);
      ServeEach(st, symbol, timeframes[i..], limit, client, now)
        == Chain(first, ServeEach(first.after, symbol, timeframes[i + 1..], limit, client, now))
  {
    var tail := timeframes[i..];
    assert tail[0] == timeframes[i] && tail[1..] == timeframes[i + 1..];
  }

  lemma ChainAssoc(a: Answers, b: Answers, c: Answers)
    ensures Chain(Chain(a, b), c) == Chain(a, Chain(b, c))
  {
    assert (a.answers + b.answers) + c.answers == a.answers + (b.answers + c.answers);
    assert (a.misses + b.misses) + c.misses == a.misses + (b.misses + c.misses);
  }

  /** The broker calls logged before a run, then by the run, then by one
      more request, are those logged before the two together. */
  lemma ChainMisses(before: seq<BarsCall>, done: Answers, one: Answers)
    ensures (before + done.misses) + one.misses == before + Chain(done, one).misses
  {
  }

  /** A run followed by no request is that run. */
  lemma ChainEmpty(done: Answers, st: CacheState)
    ensures Chain(done, Answers([], 0, 0, [], st)) == done.(after := st)
  {
    assert done.answers + [] == done.answers;
    assert done.misses + [] == done.misses;
  }

  /** Every request of a run is a hit, a failed broker call or a broker
      call that answered: hits and failures together are at most the number
      of timeframes, and there is one broker call for each request that was
      not a hit. */
  lemma {:induction false} ServeEachCounts(
    st: CacheState, symbol: string, timeframes: seq<string>, limit: int,
    client: (BarsCall, int) -> Reply<Option<seq<Alpaca.RawBar>>>, now: int)
    ensures var e := ServeEach(st, symbol, timeframes, limit, client, now);
      && e.hits + e.failures <= |timeframes|
      && e.hits + |e.misses| == |timeframes|
      && forall j :: 0 <= j < |e.misses| ==> e.misses[j].symbols == [symbol]
    decreases |timeframes|
  {
    if timeframes != [] {
      var first := ServeOne(st, symbol, timeframes[0], limit, client, now);
      var rest := ServeEach(first.after, symbol, timeframes[1..], limit, client, now);
      ServeEachCounts(first.after, symbol, timeframes[1..], limit, client, now);
      ServeMeaning(st, [symbol], timeframes[0], limit, None, None, true, client, now);
      forall j | 0 <= j < |first.misses + rest.misses|
        ensures (first.misses + rest.misses)[j].symbols == [symbol]
      {
        if j >= |first.misses| {
          assert (first.misses + rest.misses)[j] == rest.misses[j - |first.misses|];
        }
      }
    }
  }

  /** Asking for the same timeframe twice in a row in one call gives the
      same answer twice when the first was non-empty: the second is served
      from the cache. */
  lemma {:induction false} ServeEachRepeats(
    st: CacheState, symbol: string, timeframes: seq<string>, limit: int,
    client: (BarsCall, int) -> Reply<Option<seq<Alpaca.RawBar>>>, now: int, i: int)
    requires 0 <= i && i + 1 < |timeframes| && timeframes[i] == timeframes[i + 1]
    ensures var e := ServeEach(st, symbol, timeframes, limit, client, now);
      e.answers[i] != map[] ==> e.answers[i + 1] == e.answers[i]
    decreases i
  {
    var served := Serve(st, [symbol], timeframes[0], limit, None, None, true, client, now);
    var rest := timeframes[1..];
    var e := ServeEach(st, symbol, timeframes, limit, client, now);
    var tail := ServeEach(served.after, symbol, rest, limit, client, now);
    assert e.answers == [served.data] + tail.answers;
    if i == 0 {
      var next := Serve(served.after, [symbol], rest[0], limit, None, None, true, client, now);
      ServeCached(st, [symbol], timeframes[0], limit, None, None, None, None, client, client, [symbol], now, now);
      assert tail.answers[0] == next.data;
    } else {
      ServeEachRepeats(served.after, symbol, rest, limit, client, now, i - 1);
      assert e.answers[i] == tail.answers[i - 1] && e.answers[i + 1] == tail.answers[i];
    }
  }

  lemma GatherSnoc(
    symbol: string, timeframes: seq<string>, answers: seq<map<string, Frame>>, tf: string, data: map<string, Frame>)
    requires |answers| == |timeframes|
    ensures var prev := Gather(symbol, timeframes, answers);
      Gather(symbol, timeframes + [tf], answers + [data]) ==
        if symbol in data then prev[tf := data[symbol]] else prev
  {
    assert (timeframes + [tf])[..|timeframes|] == timeframes;
    assert (answers + [data])[..|answers|] == answers;
  }

  /** The collected result after one more answer, for `timeframes[i]`. */
  lemma GatherNext(
    symbol: string, timeframes: seq<string>, i: nat, answers: seq<map<string, Frame>>, data: map<string, Frame>)
    requires i == |answers| < |timeframes|
    ensures var prev := Gather(symbol, timeframes[..i], answers);
      Gather(symbol, timeframes[..i + 1], answers + [data]) ==
        if symbol in data then prev[timeframes[i] := data[symbol]] else prev
  {
    assert timeframes[..i + 1] == timeframes[..i] + [timeframes[i]];
    GatherSnoc(symbol, timeframes[..i], answers, timeframes[i], data);
  }

  /** A timeframe is in the collected result exactly when one of its answers
      had the symbol, and it holds the frame of the last such answer. */
  lemma GatherMeaning(symbol: string, timeframes: seq<string>, answers: seq<map<string, Frame>>)
    requires |answers| == |timeframes|
    ensures var g := Gather(symbol, timeframes, answers);
      forall tf :: tf in g <==> exists i :: 0 <= i < |timeframes| && timeframes[i] == tf && symbol in answers[i]
    ensures var g := Gather(symbol, timeframes, answers);
      forall i :: 0 <= i < |timeframes| && symbol in answers[i] &&
                  (forall j :: i < j < |timeframes| && timeframes[j] == timeframes[i] ==> symbol !in answers[j])
        ==> timeframes[i] in g && g[timeframes[i]] == answers[i][symbol]
  {
    forall tf {
      GatherHas(symbol, timeframes, answers, tf);
    }
    forall i | 0 <= i < |timeframes| && symbol in answers[i] &&
               (forall j :: i < j < |timeframes| && timeframes[j] == timeframes[i] ==> symbol !in answers[j])
    {
      GatherLast(symbol, timeframes, answers, i);
    }
  }

  lemma {:induction false} GatherHas(
    symbol: string, timeframes: seq<string>, answers: seq<map<string, Frame>>, tf: string)
    requires |answers| == |timeframes|
    ensures tf in Gather(symbol, timeframes, answers) <==>
      exists i :: 0 <= i < |timeframes| && timeframes[i] == tf && symbol in answers[i]
    decreases |timeframes|
  {
    if timeframes != [] {
      var n := |timeframes| - 1;
      var ts, as_ := timeframes[..n], answers[..n];
      GatherHas(symbol, ts, as_, tf);
      var prev := Gather(symbol, ts, as_);
      var g := Gather(symbol, timeframes, answers);
      assert g == if symbol in answers[n] then prev[timeframes[n] := answers[n][symbol]] else prev;
      if tf in g {
        if symbol in answers[n] && tf == timeframes[n] {
          assert timeframes[n] == tf && symbol in answers[n];
        } else {
          assert tf in prev;
          var i :| 0 <= i < |ts| && ts[i] == tf && symbol in as_[i];
          assert timeframes[i] == tf && symbol in answers[i];
        }
      }
      if exists i :: 0 <= i < |timeframes| && timeframes[i] == tf && symbol in answers[i] {
        var i :| 0 <= i < |timeframes| && timeframes[i] == tf && symbol in answers[i];
        if i < n {
          assert ts[i] == tf && symbol in as_[i];
          assert tf in prev;
        }
      }
    }
  }

  lemma {:induction false} GatherLast(
    symbol: string, timeframes: seq<string>, answers: seq<map<string, Frame>>, i: int)
    requires |answers| == |timeframes|
    requires 0 <= i < |timeframes| && symbol in answers[i]
    requires forall j :: i < j < |timeframes| && timeframes[j] == timeframes[i] ==> symbol !in answers[j]
    ensures var g := Gather(symbol, timeframes, answers);
      timeframes[i] in g && g[timeframes[i]] == answers[i][symbol]
    decreases |timeframes|
  {
    var n := |timeframes| - 1;
    var ts, as_ := timeframes[..n], answers[..n];
    var prev := Gather(symbol, ts, as_);
    var g := Gather(symbol, timeframes, answers);
    assert g == if symbol in answers[n] then prev[timeframes[n] := answers[n][symbol]] else prev;
    if i < n {
      assert ts[i] == timeframes[i] && as_[i] == answers[i];
      forall j | i < j < |ts| && ts[j] == ts[i] ensures symbol !in as_[j] {
        assert ts[j] == timeframes[j] && as_[j] == answers[j];
      }
      GatherLast(symbol, ts, as_, i);
      assert !(timeframes[n] == timeframes[i] && symbol in answers[n]);
    }
  }
}
