/** Bar tables as the bot sees them: a pandas DataFrame of OHLCV rows indexed
    by timestamp, reduced to what the pipeline inspects.

    A row carries its timestamp (epoch microseconds) and its cells; a column
    whose cell is absent from a row holds NaN in that row. A frame records
    whether it has a datetime index, which columns it has (for a frame without
    a datetime index, the columns once the index has been moved into a column)
    and its rows in order. */
module Frames {

  datatype Row = Row(ts: int, cells: map<string, real>)

  datatype Frame = Frame(timeIndexed: bool, columns: set<string>, rows: seq<Row>)

  /** The OHLCV columns every consumer requires. */
  const Required: set<string> := {"open", "high", "low", "close", "volume"}

  /** pandas' `df.empty`: no rows, or no columns. */
  predicate IsEmpty(f: Frame) { |f.rows| == 0 || f.columns == {} }

  predicate SortedByTs(rows: seq<Row>)
  {
    forall i, j :: 0 <= i < j < |rows| ==> rows[i].ts <= rows[j].ts
  }

  predicate UniqueTs(rows: seq<Row>)
  {
    forall i, j :: 0 <= i < j < |rows| ==> rows[i].ts != rows[j].ts
  }

  function TsSet(rows: seq<Row>): set<int>
  {
    set r | r in rows :: r.ts
  }

  /** `df.index.min()` */
  function MinTs(rows: seq<Row>): (m: int)
    requires |rows| > 0
    ensures m in TsSet(rows)
    ensures forall r :: r in rows ==> m <= r.ts
  {
    if |rows| == 1 then rows[0].ts
    else
      var rest := MinTs(rows[1..]);
      assert forall r :: r in rows ==> r == rows[0] || r in rows[1..];
      if rows[0].ts <= rest then rows[0].ts else rest
  }

  /** `df.index.max()` */
  function MaxTs(rows: seq<Row>): (m: int)
    requires |rows| > 0
    ensures m in TsSet(rows)
    ensures forall r :: r in rows ==> r.ts <= m
  {
    if |rows| == 1 then rows[0].ts
    else
      var rest := MaxTs(rows[1..]);
      assert forall r :: r in rows ==> r == rows[0] || r in rows[1..];
      if rows[0].ts >= rest then rows[0].ts else rest
  }

  /** Inserts a row into a sorted sequence, before every row with an equal or
      later timestamp. */
  function InsertByTs(x: Row, s: seq<Row>): (r: seq<Row>)
    requires SortedByTs(s)
    ensures SortedByTs(r)
    ensures multiset(r) == multiset(s) + multiset{x}
    ensures |r| == |s| + 1
  {
    if s == [] then [x]
    else if x.ts <= s[0].ts then [x] + s
    else
      var tail := InsertByTs(x, s[1..]);
      assert s == [s[0]] + s[1..];
      HeadBelowTail(x, s, tail);
      [s[0]] + tail
  }

  /** The head of a sorted list is at or below every row of the rest with a
      later row inserted. */
  lemma HeadBelowTail(x: Row, s: seq<Row>, tail: seq<Row>)
    requires SortedByTs(s) && s != [] && s[0].ts < x.ts
    requires multiset(tail) == multiset(s[1..]) + multiset{x}
    ensures forall k :: 0 <= k < |tail| ==> s[0].ts <= tail[k].ts
  {
    forall k | 0 <= k < |tail| ensures s[0].ts <= tail[k].ts {
      assert tail[k] in multiset(tail);
      if tail[k] != x {
        assert tail[k] in multiset(s[1..]);
        var m :| 0 <= m < |s[1..]| && s[1..][m] == tail[k];
        assert s[m + 1] == tail[k];
      }
    }
  }

  /** `df.sort_index()`: rows in ascending timestamp order. The model sorts
      stably; the source's sort kind is not guaranteed stable, so nothing in
      the model depends on the order of rows that share a timestamp. */
  function SortByTs(rows: seq<Row>): (r: seq<Row>)
    ensures SortedByTs(r)
    ensures multiset(r) == multiset(rows)
    ensures |r| == |rows|
  {
    if rows == [] then []
    else
      assert rows == [rows[0]] + rows[1..];
      InsertByTs(rows[0], SortByTs(rows[1..]))
  }

  /** `df[~df.index.duplicated(keep='first')]`, with `seen` the timestamps
      already kept. */
  function DedupFirst(rows: seq<Row>, seen: set<int>): (r: seq<Row>)
    ensures |r| <= |rows|
    ensures forall x :: x in r ==> x in rows && x.ts !in seen
  {
    if rows == [] then []
    else if rows[0].ts in seen then DedupFirst(rows[1..], seen)
    else [rows[0]] + DedupFirst(rows[1..], seen + {rows[0].ts})
  }

  lemma TsSetCons(x: Row, s: seq<Row>)
    ensures TsSet([x] + s) == {x.ts} + TsSet(s)
  {
    assert forall r :: r in [x] + s <==> r == x || r in s;
  }

  /** Deduplication leaves every timestamp once: the result has no repeated
      timestamp. */
  lemma {:induction false} DedupFirstUnique(rows: seq<Row>, seen: set<int>)
    ensures UniqueTs(DedupFirst(rows, seen))
  {
    if rows != [] {
      var rest := rows[1..];
      if rows[0].ts in seen {
        DedupFirstUnique(rest, seen);
      } else {
        var s' := seen + {rows[0].ts};
        DedupFirstUnique(rest, s');
        var d := DedupFirst(rest, s');
        var r := [rows[0]] + d;
        forall i, j | 0 <= i < j < |r| ensures r[i].ts != r[j].ts {
          if i == 0 {
            assert r[j] == d[j - 1] && r[j] in d;
          } else {
            assert r[i] == d[i - 1] && r[j] == d[j - 1];
          }
        }
      }
    }
  }

  /** Deduplication loses no timestamp: every timestamp of the input that was
      not already seen is kept. */
  lemma {:induction false} DedupFirstKeepsAllTimestamps(rows: seq<Row>, seen: set<int>)
    ensures TsSet(DedupFirst(rows, seen)) == TsSet(rows) - seen
  {
    if rows != [] {
      var rest := rows[1..];
      assert rows == [rows[0]] + rest;
      TsSetCons(rows[0], rest);
      if rows[0].ts in seen {
        DedupFirstKeepsAllTimestamps(rest, seen);
      } else {
        var s' := seen + {rows[0].ts};
        DedupFirstKeepsAllTimestamps(rest, s');
        TsSetCons(rows[0], DedupFirst(rest, s'));
      }
    }
  }

  /** Deduplication keeps the first occurrence: each row it keeps is, at the
      position where it stands in the input, the first row with its
      timestamp. */
  lemma {:induction false} DedupFirstKeepsFirst(rows: seq<Row>, seen: set<int>, x: Row)
    requires x in DedupFirst(rows, seen)
    ensures exists i :: 0 <= i < |rows| && rows[i] == x &&
              forall j :: 0 <= j < i ==> rows[j].ts != x.ts
  {
    var rest := rows[1..];
    if rows[0].ts in seen {
      DedupFirstKeepsFirst(rest, seen, x);
      var i :| 0 <= i < |rest| && rest[i] == x && forall j :: 0 <= j < i ==> rest[j].ts != x.ts;
      assert rows[i + 1] == x;
      assert forall j :: 1 <= j < i + 1 ==> rows[j].ts == rest[j - 1].ts;
    } else if x == rows[0] {
      assert rows[0] == x;
    } else {
      var s' := seen + {rows[0].ts};
      DedupFirstKeepsFirst(rest, s', x);
      var i :| 0 <= i < |rest| && rest[i] == x && forall j :: 0 <= j < i ==> rest[j].ts != x.ts;
      assert x.ts != rows[0].ts;
      assert rows[i + 1] == x;
      assert forall j :: 1 <= j < i + 1 ==> rows[j].ts == rest[j - 1].ts;
    }
  }

  /** Restricts every row to the given columns (`df[cols]`). */
  function Project(rows: seq<Row>, cols: set<string>): (r: seq<Row>)
    ensures |r| == |rows|
    ensures forall i :: 0 <= i < |r| ==>
              r[i].ts == rows[i].ts && r[i].cells.Keys == rows[i].cells.Keys * cols &&
              forall c :: c in cols && c in rows[i].cells ==> c in r[i].cells && r[i].cells[c] == rows[i].cells[c]
  {
    seq(|rows|, i requires 0 <= i < |rows| =>
      Row(rows[i].ts, map c | c in rows[i].cells && c in cols :: rows[i].cells[c]))
  }

  /** Rows in strictly ascending timestamp order. */
  predicate StrictlySorted(rows: seq<Row>)
  {
    forall i, j :: 0 <= i < j < |rows| ==> rows[i].ts < rows[j].ts
  }

  lemma MultisetTsSet(a: seq<Row>, b: seq<Row>)
    requires multiset(a) == multiset(b)
    ensures TsSet(a) == TsSet(b)
  {
    forall r ensures r in a <==> r in b {
      assert r in a <==> r in multiset(a);
      assert r in b <==> r in multiset(b);
    }
  }

  lemma {:induction false} InsertByTsStrict(x: Row, s: seq<Row>)
    requires StrictlySorted(s) && x.ts !in TsSet(s)
    ensures StrictlySorted(InsertByTs(x, s))
  {
    if s != [] && x.ts > s[0].ts {
      var rest := s[1..];
      assert s == [s[0]] + rest;
      TsSetCons(s[0], rest);
      InsertByTsStrict(x, rest);
      HeadBelowInsert(x, s);
    } else if s != [] {
      assert x.ts != s[0].ts by {
        assert s[0] in s;
      }
      forall j | 0 <= j < |s| ensures x.ts < s[j].ts {
        if j > 0 {
          assert s[0].ts < s[j].ts;
        }
      }
    }
  }

  lemma HeadBelowInsert(x: Row, s: seq<Row>)
    requires StrictlySorted(s) && s != [] && x.ts > s[0].ts
    ensures forall k :: 0 <= k < |InsertByTs(x, s[1..])| ==> s[0].ts < InsertByTs(x, s[1..])[k].ts
  {
    var rest := s[1..];
    var tail := InsertByTs(x, rest);
    forall k | 0 <= k < |tail| ensures s[0].ts < tail[k].ts {
      assert tail[k] in multiset(tail);
      if tail[k] != x {
        assert tail[k] in multiset(rest);
        var m :| 0 <= m < |rest| && rest[m] == tail[k];
        assert s[m + 1] == tail[k];
      }
    }
  }

  /** Sorting rows whose timestamps are all distinct gives strictly ascending
      timestamps. */
  lemma {:induction false} SortByTsStrict(rows: seq<Row>)
    requires UniqueTs(rows)
    ensures StrictlySorted(SortByTs(rows))
  {
    if rows != [] {
      var rest := rows[1..];
      assert UniqueTs(rest) by {
        forall i, j | 0 <= i < j < |rest| ensures rest[i].ts != rest[j].ts {
          assert rest[i] == rows[i + 1] && rest[j] == rows[j + 1];
        }
      }
      SortByTsStrict(rest);
      MultisetTsSet(SortByTs(rest), rest);
      assert rows[0].ts !in TsSet(rest);
      InsertByTsStrict(rows[0], SortByTs(rest));
    }
  }

  /** Strictly ascending timestamps are in particular distinct and sorted. */
  lemma StrictlySortedUnique(rows: seq<Row>)
    requires StrictlySorted(rows)
    ensures UniqueTs(rows) && SortedByTs(rows)
  {
  }
}
