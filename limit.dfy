/** `limit_symbol_instances` of data_operations.py: sort the table by symbol
    ascending and timestamp descending, then keep the first `max_instances`
    rows of every symbol (`groupby("symbol").head(max_instances)`).
    Symbols and timestamps are compared as Python strings. */
module Limit {
  import Json
  import Text
  import opened Numbers

  const DefaultMaxInstances: nat := 60

  /** A table row: the two columns the function looks at, and the rest. */
  datatype Record = Record(symbol: string, timestamp: string, rest: Json.Value)


  /** The sort order: symbol ascending, then timestamp descending. */
  predicate RowLe(a: Record, b: Record) {
    Text.LexLt(a.symbol, b.symbol) || (a.symbol == b.symbol && Text.LexLe(b.timestamp, a.timestamp))
  }

  lemma RowLeTotal(a: Record, b: Record)
    ensures RowLe(a, b) || RowLe(b, a)
  {
    Text.LexLeTotal(a.symbol, b.symbol);
    Text.LexLeTotal(a.timestamp, b.timestamp);
  }

  lemma RowLeTransitive(a: Record, b: Record, c: Record)
    requires RowLe(a, b) && RowLe(b, c)
    ensures RowLe(a, c)
  {
    if a.symbol == b.symbol && b.symbol == c.symbol {
      Text.LexLeTransitive(c.timestamp, b.timestamp, a.timestamp);
    } else {
      Text.LexLeReflexive(a.symbol);
      Text.LexLeReflexive(b.symbol);
      Text.LexLeTransitive(a.symbol, b.symbol, c.symbol);
      if a.symbol == c.symbol {
        Text.LexLeAntisymmetric(a.symbol, b.symbol);
      }
    }
  }

  predicate Sorted(rows: seq<Record>) {
    forall i, j :: 0 <= i < j < |rows| ==> RowLe(rows[i], rows[j])
  }

  function Insert(x: Record, rows: seq<Record>): seq<Record>
    decreases |rows|
  {
    if rows == [] then [x]
    else if RowLe(x, rows[0]) then [x] + rows
    else [rows[0]] + Insert(x, rows[1..])
  }

  /** `sort_values(by=["symbol", "timestamp"], ascending=[True, False])`;
      rows with equal symbol and timestamp keep their input order. */
  function SortRows(rows: seq<Record>): seq<Record>
    decreases |rows|
  {
    if rows == [] then [] else Insert(rows[0], SortRows(rows[1..]))
  }

  lemma {:induction false} InsertPermutes(x: Record, rows: seq<Record>)
    ensures multiset(Insert(x, rows)) == multiset(rows) + multiset{x}
    decreases |rows|
  {
    if rows != [] && !RowLe(x, rows[0]) {
      InsertPermutes(x, rows[1..]);
      assert rows == [rows[0]] + rows[1..];
    }
  }

  lemma {:induction false} InsertSorted(x: Record, rows: seq<Record>)
    requires Sorted(rows)
    ensures Sorted(Insert(x, rows))
    decreases |rows|
  {
    if rows == [] {
    } else if RowLe(x, rows[0]) {
      var r := [x] + rows;
      forall i, j | 0 <= i < j < |r| ensures RowLe(r[i], r[j]) {
        if i == 0 && j > 1 {
          RowLeTransitive(x, rows[0], rows[j - 1]);
        }
      }
    } else {
      RowLeTotal(x, rows[0]);
      InsertSorted(x, rows[1..]);
      InsertPermutes(x, rows[1..]);
      var tail := Insert(x, rows[1..]);
      var r := [rows[0]] + tail;
      forall j | 0 <= j < |tail| ensures RowLe(rows[0], tail[j]) {
        assert tail[j] in multiset(rows[1..]) + multiset{x};
        if tail[j] != x {
          assert tail[j] in rows[1..];
          var k :| 0 <= k < |rows[1..]| && rows[1..][k] == tail[j];
          assert rows[k + 1] == tail[j];
        }
      }
      forall i, j | 0 <= i < j < |r| ensures RowLe(r[i], r[j]) {
        if i == 0 {
          assert r[j] == tail[j - 1];
        } else {
          assert r[i] == tail[i - 1] && r[j] == tail[j - 1];
        }
      }
    }
  }

  lemma {:induction false} SortPermutesAndSorts(rows: seq<Record>)
    ensures multiset(SortRows(rows)) == multiset(rows)
    ensures Sorted(SortRows(rows))
    decreases |rows|
  {
    if rows != [] {
      SortPermutesAndSorts(rows[1..]);
      InsertPermutes(rows[0], SortRows(rows[1..]));
      InsertSorted(rows[0], SortRows(rows[1..]));
      assert rows == [rows[0]] + rows[1..];
    }
  }

  /** The rows of one symbol, in table order. */
  function OfSymbol(rows: seq<Record>, symbol: string): seq<Record>
    decreases |rows|
  {
    if rows == [] then []
    else
      var last := rows[|rows| - 1];
      OfSymbol(rows[..|rows| - 1], symbol) + (if last.symbol == symbol then [last] else [])
  }

  lemma {:induction false} OfSymbolAppend(a: seq<Record>, b: seq<Record>, symbol: string)
    ensures OfSymbol(a + b, symbol) == OfSymbol(a, symbol) + OfSymbol(b, symbol)
    decreases |b|
  {
    if b == [] {
      assert a + b == a;
    } else {
      OfSymbolAppend(a, b[..|b| - 1], symbol);
      assert (a + b)[..|a + b| - 1] == a + b[..|b| - 1];
    }
  }

  lemma {:induction false} OfSymbolSubMultiset(rows: seq<Record>, symbol: string)
    ensures multiset(OfSymbol(rows, symbol)) <= multiset(rows)
    ensures forall x :: x in OfSymbol(rows, symbol) ==> x.symbol == symbol
    decreases |rows|
  {
    if rows != [] {
      OfSymbolSubMultiset(rows[..|rows| - 1], symbol);
      assert rows == rows[..|rows| - 1] + [rows[|rows| - 1]];
    }
  }

  lemma {:induction false} OfSymbolSorted(rows: seq<Record>, symbol: string)
    requires Sorted(rows)
    ensures Sorted(OfSymbol(rows, symbol))
    decreases |rows|
  {
    if rows != [] {
      var init := rows[..|rows| - 1];
      var last := rows[|rows| - 1];
      assert Sorted(init);
      OfSymbolSorted(init, symbol);
      OfSymbolSubMultiset(init, symbol);
      var f := OfSymbol(init, symbol);
      forall i | 0 <= i < |f| ensures RowLe(f[i], last) {
        assert f[i] in multiset(init);
        var k :| 0 <= k < |init| && init[k] == f[i];
        assert rows[k] == f[i];
      }
      var tail := if last.symbol == symbol then [last] else [];
      assert OfSymbol(rows, symbol) == f + tail;
    }
  }

  /** Sorting moves rows but keeps each symbol's rows, with multiplicity. */
  lemma {:induction false} InsertOfSymbol(x: Record, rows: seq<Record>, symbol: string)
    ensures multiset(OfSymbol(Insert(x, rows), symbol)) == multiset(OfSymbol([x] + rows, symbol))
    decreases |rows|
  {
    if rows != [] && !RowLe(x, rows[0]) {
      var r0, t := rows[0], rows[1..];
      assert rows == [r0] + t;
      InsertOfSymbol(x, t, symbol);
      OfSymbolAppend([r0], Insert(x, t), symbol);
      OfSymbolAppend([x], t, symbol);
      OfSymbolAppend([x], rows, symbol);
      OfSymbolAppend([r0], t, symbol);
      var a, xs, ts := OfSymbol([r0], symbol), OfSymbol([x], symbol), OfSymbol(t, symbol);
      assert OfSymbol(Insert(x, rows), symbol) == a + OfSymbol(Insert(x, t), symbol);
      assert multiset(OfSymbol(Insert(x, t), symbol)) == multiset(xs + ts);
      assert OfSymbol([x] + rows, symbol) == xs + (a + ts);
      assert multiset(a + (xs + ts)) == multiset(xs + (a + ts));
      assert multiset(a + OfSymbol(Insert(x, t), symbol)) == multiset(a) + multiset(xs + ts);
    }
  }

  lemma {:induction false} SortOfSymbol(rows: seq<Record>, symbol: string)
    ensures multiset(OfSymbol(SortRows(rows), symbol)) == multiset(OfSymbol(rows, symbol))
    ensures |OfSymbol(SortRows(rows), symbol)| == |OfSymbol(rows, symbol)|
    decreases |rows|
  {
    if rows != [] {
      SortOfSymbol(rows[1..], symbol);
      InsertOfSymbol(rows[0], SortRows(rows[1..]), symbol);
      OfSymbolAppend([rows[0]], SortRows(rows[1..]), symbol);
      OfSymbolAppend([rows[0]], rows[1..], symbol);
      assert rows == [rows[0]] + rows[1..];
      assert |OfSymbol(SortRows(rows), symbol)| == |multiset(OfSymbol(SortRows(rows), symbol))|;
      assert |OfSymbol(rows, symbol)| == |multiset(OfSymbol(rows, symbol))|;
    }
  }

  /** `groupby("symbol").head(n)`: a row is kept when fewer than `n` earlier
      rows share its symbol; kept rows stay in table order. */
  function HeadPerSymbol(rows: seq<Record>, n: nat): seq<Record>
    decreases |rows|
  {
    if rows == [] then []
    else
      var init := rows[..|rows| - 1];
      var last := rows[|rows| - 1];
      HeadPerSymbol(init, n) + (if |OfSymbol(init, last.symbol)| < n then [last] else [])
  }

  /** Each symbol keeps exactly its first `n` rows. */
  lemma {:induction false} HeadOfSymbol(rows: seq<Record>, n: nat, symbol: string)
    ensures var all := OfSymbol(rows, symbol);
            OfSymbol(HeadPerSymbol(rows, n), symbol) == all[..Min(n, |all|)]
    decreases |rows|
  {
    if rows != [] {
      var init := rows[..|rows| - 1];
      var last := rows[|rows| - 1];
      HeadOfSymbol(init, n, symbol);
      var tail := if |OfSymbol(init, last.symbol)| < n then [last] else [];
      assert HeadPerSymbol(rows, n) == HeadPerSymbol(init, n) + tail;
      OfSymbolAppend(HeadPerSymbol(init, n), tail, symbol);
      var before := OfSymbol(init, symbol);
      var kept := before[..Min(n, |before|)];
      assert OfSymbol(HeadPerSymbol(rows, n), symbol) == kept + OfSymbol(tail, symbol);
      if last.symbol == symbol {
        assert OfSymbol(rows, symbol) == before + [last];
        if |before| < n {
          assert tail == [last];
          assert OfSymbol(tail, symbol) == OfSymbol([], symbol) + [last];
          assert kept == before;
          assert (before + [last])[..Min(n, |before| + 1)] == before + [last];
        } else {
          assert tail == [];
          assert (before + [last])[..n] == before[..n];
        }
      } else {
        assert OfSymbol(rows, symbol) == before;
        if tail != [] {
          assert OfSymbol(tail, symbol) == OfSymbol([], symbol) + [];
        }
      }
    }
  }

  lemma {:induction false} HeadSubMultiset(rows: seq<Record>, n: nat)
    ensures multiset(HeadPerSymbol(rows, n)) <= multiset(rows)
    decreases |rows|
  {
    if rows != [] {
      HeadSubMultiset(rows[..|rows| - 1], n);
      assert rows == rows[..|rows| - 1] + [rows[|rows| - 1]];
    }
  }

  lemma {:induction false} HeadSorted(rows: seq<Record>, n: nat)
    requires Sorted(rows)
    ensures Sorted(HeadPerSymbol(rows, n))
    decreases |rows|
  {
    if rows != [] {
      var init := rows[..|rows| - 1];
      var last := rows[|rows| - 1];
      HeadSorted(init, n);
      HeadSubMultiset(init, n);
      var h := HeadPerSymbol(init, n);
      forall i | 0 <= i < |h| ensures RowLe(h[i], last) {
        assert h[i] in multiset(init);
        var k :| 0 <= k < |init| && init[k] == h[i];
        assert rows[k] == h[i];
      }
    }
  }

  /** The function itself. */
  function LimitSymbolInstances(rows: seq<Record>, maxInstances: nat := DefaultMaxInstances): seq<Record> {
    HeadPerSymbol(SortRows(rows), maxInstances)
  }

  /** Every symbol keeps min(its row count, `maxInstances`) rows, so a symbol
      present in the input stays present whenever `maxInstances` > 0. */
  lemma LimitCounts(rows: seq<Record>, maxInstances: nat, symbol: string)
    ensures |OfSymbol(LimitSymbolInstances(rows, maxInstances), symbol)| ==
            Min(maxInstances, |OfSymbol(rows, symbol)|)
  {
    HeadOfSymbol(SortRows(rows), maxInstances, symbol);
    SortOfSymbol(rows, symbol);
  }

  /** The result is ordered by symbol ascending, then timestamp descending,
      and holds only rows of the input (no row more often than in the input). */
  lemma LimitSortedSubset(rows: seq<Record>, maxInstances: nat)
    ensures Sorted(LimitSymbolInstances(rows, maxInstances))
    ensures multiset(LimitSymbolInstances(rows, maxInstances)) <= multiset(rows)
  {
    SortPermutesAndSorts(rows);
    HeadSorted(SortRows(rows), maxInstances);
    HeadSubMultiset(SortRows(rows), maxInstances);
  }

  /** The kept rows of a symbol are a prefix of its sorted rows and the
      dropped ones the rest. */
  lemma KeptAndDropped(rows: seq<Record>, maxInstances: nat, symbol: string)
    ensures var all := OfSymbol(SortRows(rows), symbol);
            var k := Min(maxInstances, |all|);
            OfSymbol(LimitSymbolInstances(rows, maxInstances), symbol) == all[..k] &&
            multiset(OfSymbol(rows, symbol)) - multiset(all[..k]) == multiset(all[k..])
  {
    var all := OfSymbol(SortRows(rows), symbol);
    var k := Min(maxInstances, |all|);
    HeadOfSymbol(SortRows(rows), maxInstances, symbol);
    SortOfSymbol(rows, symbol);
    MultisetSplit(all, k);
  }

  lemma MultisetSplit(s: seq<Record>, k: nat)
    requires k <= |s|
    ensures multiset(s) - multiset(s[..k]) == multiset(s[k..])
  {
    assert s == s[..k] + s[k..];
  }

  /** The rows kept for a symbol are its latest: every kept row's timestamp
      is at least that of every dropped row of the same symbol. */
  lemma LimitKeepsLatest(rows: seq<Record>, maxInstances: nat, symbol: string, kept: Record, dropped: Record)
    requires kept in OfSymbol(LimitSymbolInstances(rows, maxInstances), symbol)
    requires dropped in multiset(OfSymbol(rows, symbol)) -
                        multiset(OfSymbol(LimitSymbolInstances(rows, maxInstances), symbol))
    ensures Text.LexLe(dropped.timestamp, kept.timestamp)
  {
    var sorted := SortRows(rows);
    var all := OfSymbol(sorted, symbol);
    var k := Min(maxInstances, |all|);
    KeptAndDropped(rows, maxInstances, symbol);
    assert kept in all[..k];
    assert dropped in multiset(all[k..]);
    SortPermutesAndSorts(rows);
    OfSymbolSorted(sorted, symbol);
    OfSymbolSubMultiset(sorted, symbol);
    PrefixNotOlder(all, k, symbol, kept, dropped);
  }

  /** In a sorted run of one symbol, a row of the prefix is at least as recent
      as a row of the rest. */
  lemma PrefixNotOlder(all: seq<Record>, k: nat, symbol: string, kept: Record, dropped: Record)
    requires Sorted(all) && k <= |all|
    requires forall x :: x in all ==> x.symbol == symbol
    requires kept in all[..k] && dropped in all[k..]
    ensures Text.LexLe(dropped.timestamp, kept.timestamp)
  {
    var j :| k <= j < |all| && all[j] == dropped;
    var i :| 0 <= i < k && all[i] == kept;
    assert RowLe(all[i], all[j]);
    assert all[i] in all && all[j] in all;
  }
}
