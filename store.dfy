/** The shared per-pair history `ohlc_data` of the two list-frame scripts: a
    dict from pair to the list of its latest entries, created on first sight,
    appended to, and cut back to its last 60 entries. Each locked block is one
    sequential step here. A Python dict keeps its keys in insertion order,
    which `convert_to_dataframe` follows, so the class keeps that order
    beside the map. */
module Store {
  import opened Wrappers
  import opened Frames
  import opened Numbers

  /** The cap applied after every append. */
  const MaxInstances: nat := 60


  /** `lst[-60:]` when the list has grown past 60, the list itself otherwise:
      the last min(|s|, 60) entries, in their original order. */
  function Trim(s: seq<OhlcEntry>): (r: seq<OhlcEntry>)
    ensures |r| == Min(|s|, MaxInstances)
  {
    if |s| > MaxInstances then s[|s| - MaxInstances..] else s
  }

  /** The kept entries are the latest ones, in their original order. */
  lemma TrimKeepsLatest(s: seq<OhlcEntry>)
    ensures forall i :: 0 <= i < |Trim(s)| ==> Trim(s)[i] == s[|s| - |Trim(s)| + i]
  {
    if |s| > MaxInstances {
      assert Trim(s) == s[|s| - MaxInstances..];
    } else {
      assert Trim(s) == s;
    }
  }

  /** The list stored for a pair, or the empty list the handler creates. */
  function SeriesOf(series: map<Symbol, seq<OhlcEntry>>, pair: Symbol): seq<OhlcEntry> {
    if pair in series then series[pair] else []
  }

  /** The dict after one update of `pair` with `e`: `e` is appended to the
      pair's list (created empty on first sight), which is then cut back. */
  function Appended(series: map<Symbol, seq<OhlcEntry>>, pair: Symbol, e: OhlcEntry)
    : map<Symbol, seq<OhlcEntry>>
  {
    series[pair := Trim(SeriesOf(series, pair) + [e])]
  }

  /** What one update does to the dict: the pair is present, a pair seen for
      the first time holds just `e`, an existing list keeps its latest entries
      with `e` last and at most 60 in all, and every other pair is untouched. */
  lemma AppendedEffect(series: map<Symbol, seq<OhlcEntry>>, pair: Symbol, e: OhlcEntry)
    ensures var r := Appended(series, pair, e);
      && r.Keys == series.Keys + {pair}
      && (pair !in series ==> r[pair] == [e])
      && 1 <= |r[pair]| <= MaxInstances && r[pair][|r[pair]| - 1] == e
      && |r[pair]| == Min(|SeriesOf(series, pair)| + 1, MaxInstances)
      && (forall q :: q in series && q != pair ==> r[q] == series[q])
  {
    var grown := SeriesOf(series, pair) + [e];
    var kept := Trim(grown);
    assert Appended(series, pair, e) == series[pair := kept];
    LatestKept(grown);
    assert kept[|kept| - 1] == e;
  }

  /** Cutting back keeps the newest entry last. */
  lemma LatestKept(s: seq<OhlcEntry>)
    requires s != []
    ensures Trim(s) != [] && Trim(s)[|Trim(s)| - 1] == s[|s| - 1]
  {
  }

  /** One update seen from any single pair. */
  lemma SeriesOfAppended(series: map<Symbol, seq<OhlcEntry>>, pair: Symbol, e: OhlcEntry, q: Symbol)
    ensures SeriesOf(Appended(series, pair, e), q) ==
            if q == pair then Trim(SeriesOf(series, pair) + [e]) else SeriesOf(series, q)
  {
  }

  /** Cutting back before appending more loses nothing that cutting back
      afterwards would keep. */
  lemma TrimAbsorbs(a: seq<OhlcEntry>, b: seq<OhlcEntry>)
    ensures Trim(Trim(a) + b) == Trim(a + b)
  {
    var x, y := Trim(Trim(a) + b), Trim(a + b);
    TrimKeepsLatest(a);
    TrimKeepsLatest(Trim(a) + b);
    TrimKeepsLatest(a + b);
    assert |x| == |y|;
    forall i | 0 <= i < |x| ensures x[i] == y[i] {
      var k := |Trim(a) + b| - |x| + i;
      if k < |Trim(a)| {
        assert (Trim(a) + b)[k] == a[|a| - |Trim(a)| + k];
      } else {
        assert (Trim(a) + b)[k] == b[k - |Trim(a)|];
      }
    }
  }

  /** A stream of (pair, entry) updates applied one by one. */
  function Replay(series: map<Symbol, seq<OhlcEntry>>, events: seq<(Symbol, OhlcEntry)>)
    : map<Symbol, seq<OhlcEntry>>
    decreases |events|
  {
    if events == [] then series
    else Replay(Appended(series, events[0].0, events[0].1), events[1..])
  }

  /** The first update of a stream, seen from one pair. */
  lemma ReplayHead(series: map<Symbol, seq<OhlcEntry>>, events: seq<(Symbol, OhlcEntry)>, pair: Symbol)
    requires events != []
    ensures SeriesOf(Replay(series, events), pair) ==
            SeriesOf(Replay(Appended(series, events[0].0, events[0].1), events[1..]), pair)
  {
  }

  /** The entries of a stream that belong to one pair, in arrival order. */
  function EntriesFor(events: seq<(Symbol, OhlcEntry)>, pair: Symbol): seq<OhlcEntry>
    decreases |events|
  {
    if events == [] then []
    else (if events[0].0 == pair then [events[0].1] else []) + EntriesFor(events[1..], pair)
  }

  /** Whatever the interleaving of pairs, a pair's list ends up as the last
      (at most) 60 of its old entries followed by its own new entries, in
      arrival order; other pairs never disturb it. */
  lemma {:induction false} ReplayPerPair(series: map<Symbol, seq<OhlcEntry>>,
                                         events: seq<(Symbol, OhlcEntry)>, pair: Symbol)
    requires |SeriesOf(series, pair)| <= MaxInstances
    ensures SeriesOf(Replay(series, events), pair) == Trim(SeriesOf(series, pair) + EntriesFor(events, pair))
    decreases |events|
  {
    var prior := SeriesOf(series, pair);
    if events == [] {
      assert Replay(series, events) == series;
      assert EntriesFor(events, pair) == [];
      assert prior + [] == prior;
      assert Trim(prior) == prior;
    } else {
      var p, e := events[0].0, events[0].1;
      var next := Appended(series, p, e);
      var rest := EntriesFor(events[1..], pair);
      ReplayHead(series, events, pair);
      SeriesOfAppended(series, p, e, pair);
      if p == pair {
        assert EntriesFor(events, pair) == [e] + rest;
        ReplayPerPair(next, events[1..], pair);
        TrimAbsorbs(prior + [e], rest);
        AppendAssociates(prior, [e], rest);
      } else {
        assert EntriesFor(events, pair) == rest;
        ReplayPerPair(next, events[1..], pair);
      }
    }
  }

  /** Regrouping a concatenation, kept apart so that the sequence axioms
      stay out of the replay proof. */
  lemma AppendAssociates(a: seq<OhlcEntry>, b: seq<OhlcEntry>, c: seq<OhlcEntry>)
    ensures a + b + c == a + (b + c)
  {
  }

  /** One row of the data frame built from the store: an entry tagged with
      its pair (`df["pair"] = pair`). */
  datatype Row = Row(pair: Symbol, entry: OhlcEntry)

  /** Why `convert_to_dataframe` raised: `pd.concat([])` on an empty store,
      or the name `pd`, which test_fetch_pairs.py never imports. */
  datatype TableError = NoObjectsToConcatenate | PandasNotImported

  /** `pd.DataFrame(ohlc_list)` with the "pair" column added. */
  function Tag(pair: Symbol, entries: seq<OhlcEntry>): seq<Row> {
    seq(|entries|, i requires 0 <= i < |entries| => Row(pair, entries[i]))
  }

  function Concat(frames: seq<seq<Row>>): seq<Row>
    decreases |frames|
  {
    if frames == [] then [] else frames[0] + Concat(frames[1..])
  }

  /** The per-pair frames in dict order. */
  function PairFrames(keys: seq<Symbol>, series: map<Symbol, seq<OhlcEntry>>): seq<seq<Row>>
    requires forall k :: k in keys ==> k in series
  {
    seq(|keys|, i requires 0 <= i < |keys| => Tag(keys[i], series[keys[i]]))
  }

  function SumLengths(keys: seq<Symbol>, series: map<Symbol, seq<OhlcEntry>>): nat
    requires forall k :: k in keys ==> k in series
    decreases |keys|
  {
    if keys == [] then 0 else |series[keys[0]]| + SumLengths(keys[1..], series)
  }

  /** The entries of the rows tagged with `pair`, in row order. */
  function EntriesOf(rows: seq<Row>, pair: Symbol): seq<OhlcEntry>
    decreases |rows|
  {
    if rows == [] then []
    else (if rows[0].pair == pair then [rows[0].entry] else []) + EntriesOf(rows[1..], pair)
  }

  lemma {:induction false} EntriesOfAppend(a: seq<Row>, b: seq<Row>, pair: Symbol)
    ensures EntriesOf(a + b, pair) == EntriesOf(a, pair) + EntriesOf(b, pair)
    decreases |a|
  {
    if a == [] {
      assert a + b == b;
    } else {
      EntriesOfAppend(a[1..], b, pair);
      assert (a + b)[0] == a[0];
      assert (a + b)[1..] == a[1..] + b;
      var head := if a[0].pair == pair then [a[0].entry] else [];
      assert EntriesOf(a + b, pair) == head + EntriesOf(a[1..] + b, pair);
      assert EntriesOf(a, pair) == head + EntriesOf(a[1..], pair);
    }
  }

  lemma {:induction false} EntriesOfTag(p: Symbol, entries: seq<OhlcEntry>, pair: Symbol)
    ensures EntriesOf(Tag(p, entries), pair) == if p == pair then entries else []
    decreases |entries|
  {
    if entries != [] {
      EntriesOfTag(p, entries[1..], pair);
      assert Tag(p, entries)[1..] == Tag(p, entries[1..]);
    }
  }

  /** The table has one row per stored entry, and grouping it back by pair
      gives each pair's list unchanged: for a stored pair exactly its entries,
      for any other pair none. */
  lemma {:induction false} TableRoundTrip(keys: seq<Symbol>, series: map<Symbol, seq<OhlcEntry>>, pair: Symbol)
    requires forall k :: k in keys ==> k in series
    requires forall i, j :: 0 <= i < j < |keys| ==> keys[i] != keys[j]
    ensures |Concat(PairFrames(keys, series))| == SumLengths(keys, series)
    ensures EntriesOf(Concat(PairFrames(keys, series)), pair) ==
            if pair in keys then series[pair] else []
    decreases |keys|
  {
    if keys != [] {
      var frames := PairFrames(keys, series);
      assert frames[1..] == PairFrames(keys[1..], series);
      TableRoundTrip(keys[1..], series, pair);
      EntriesOfAppend(frames[0], Concat(frames[1..]), pair);
      EntriesOfTag(keys[0], series[keys[0]], pair);
      if pair == keys[0] {
        assert pair !in keys[1..];
      } else {
        assert pair in keys <==> pair in keys[1..];
      }
    }
  }

  /** The dict's keys are exactly the ordered keys, each once, and every list
      holds between one and 60 entries. */
  ghost predicate WellFormed(keys: seq<Symbol>, series: map<Symbol, seq<OhlcEntry>>) {
    && (forall i, j :: 0 <= i < j < |keys| ==> keys[i] != keys[j])
    && (forall k :: k in series <==> k in keys)
    && (forall k :: k in series ==> 1 <= |series[k]| <= MaxInstances)
  }

  /** The key order after one update: a new pair goes to the end. */
  function KeysAfter(keys: seq<Symbol>, series: map<Symbol, seq<OhlcEntry>>, pair: Symbol): seq<Symbol> {
    if pair in series then keys else keys + [pair]
  }

  /** One update keeps the dict well formed. */
  lemma AppendedWellFormed(keys: seq<Symbol>, series: map<Symbol, seq<OhlcEntry>>, pair: Symbol, e: OhlcEntry)
    requires WellFormed(keys, series)
    ensures WellFormed(KeysAfter(keys, series, pair), Appended(series, pair, e))
  {
    AppendedEffect(series, pair, e);
  }

  class OhlcStore {
    /** The keys of `ohlc_data` in insertion order. */
    var keys: seq<Symbol>
    /** `ohlc_data` itself. */
    var series: map<Symbol, seq<OhlcEntry>>

    ghost predicate Valid()
      reads this
    {
      WellFormed(keys, series)
    }

    constructor ()
      ensures Valid() && keys == [] && series == map[]
    {
      keys := [];
      series := map[];
    }

    /** The locked block: create the list on first sight, append, cut back to
        the last 60. The new pair, if any, goes to the end of the key order;
        nothing else changes. */
    method Append(pair: Symbol, e: OhlcEntry)
      requires Valid()
      modifies this
      ensures Valid()
      ensures series == Appended(old(series), pair, e)
      ensures keys == if pair in old(series) then old(keys) else old(keys) + [pair]
    {
      AppendedWellFormed(keys, series, pair, e);
      var entries := if pair in series then series[pair] else [];
      if pair !in series {
        keys := keys + [pair];
      }
      entries := entries + [e];
      if |entries| > MaxInstances {
        entries := entries[|entries| - MaxInstances..];
      }
      series := series[pair := entries];
    }

    /** The effect of one handled frame. */
    method Apply(o: Outcome)
      requires Valid()
      modifies this
      ensures Valid()
      ensures o.Update? ==> series == Appended(old(series), o.pair, o.entry) &&
                            keys == if o.pair in old(series) then old(keys) else old(keys) + [o.pair]
      ensures !o.Update? ==> series == old(series) && keys == old(keys)
    {
      if o.Update? {
        Append(o.pair, o.entry);
      }
    }

    /** `on_message` of test_fetch_pairs.py with `datetime` imported. */
    method OnListMessage(msg: Json.Value)
      requires Valid()
      modifies this
      ensures Valid()
      ensures ClassifyAnyList(msg).Update? ==>
                series == Appended(old(series), ClassifyAnyList(msg).pair, ClassifyAnyList(msg).entry) &&
                keys == if ClassifyAnyList(msg).pair in old(series) then old(keys) else old(keys) + [ClassifyAnyList(msg).pair]
      ensures !msg.Arr? ==> series == old(series) && keys == old(keys)
      ensures !ClassifyAnyList(msg).Update? ==> series == old(series) && keys == old(keys)
    {
      Apply(ClassifyAnyList(msg));
    }

    /** `on_message` of test_fetch_pairs.py as it stands: the `NameError`
        leaves the handler before the locked block, so nothing changes. */
    method OnListMessageAsWritten(msg: Json.Value)
      requires Valid()
      modifies this
      ensures Valid()
      ensures series == old(series) && keys == old(keys)
    {
      AnyListNeverUpdatesAsWritten(msg);
      Apply(ClassifyAnyListAsWritten(msg));
    }

    /** `on_message` of fetch_data.py. */
    method OnOhlcMessage(msg: Json.Value)
      requires Valid()
      modifies this
      ensures Valid()
      ensures ClassifyOhlcGuarded(msg).Update? ==>
                series == Appended(old(series), ClassifyOhlcGuarded(msg).pair, ClassifyOhlcGuarded(msg).entry) &&
                keys == if ClassifyOhlcGuarded(msg).pair in old(series) then old(keys) else old(keys) + [ClassifyOhlcGuarded(msg).pair]
      ensures !ClassifyOhlcGuarded(msg).Update? ==> series == old(series) && keys == old(keys)
    {
      Apply(ClassifyOhlcGuarded(msg));
    }

    /** The handler with the corrected Kraken v1 frame reading. */
    method OnKrakenFrame(msg: Json.Value)
      requires Valid()
      modifies this
      ensures Valid()
      ensures ClassifyKrakenFrame(msg).Update? ==>
                series == Appended(old(series), ClassifyKrakenFrame(msg).pair, ClassifyKrakenFrame(msg).entry) &&
                keys == if ClassifyKrakenFrame(msg).pair in old(series) then old(keys) else old(keys) + [ClassifyKrakenFrame(msg).pair]
      ensures !ClassifyKrakenFrame(msg).Update? ==> series == old(series) && keys == old(keys)
    {
      Apply(ClassifyKrakenFrame(msg));
    }

    /** The loop of `convert_to_dataframe`: one frame per pair, in dict order,
        each pair's entries tagged with the pair. The store is only read. */
    method CollectFrames() returns (frames: seq<seq<Row>>)
      requires Valid()
      ensures frames == PairFrames(keys, series)
      ensures |frames| == |keys|
    {
      frames := [];
      var i := 0;
      while i < |keys|
        invariant 0 <= i <= |keys|
        invariant frames == PairFrames(keys[..i], series)
      {
        var pair := keys[i];
        var rows := Tag(pair, series[pair]);
        frames := frames + [rows];
        i := i + 1;
        assert keys[..i] == keys[..i - 1] + [pair];
      }
      assert keys[..i] == keys;
    }

    /** test_fetch_pairs.py with pandas imported as `pd`: `pd.concat(frames)`
        raises on an empty store. */
    method ToDataFrame() returns (r: Result<seq<Row>, TableError>)
      requires Valid()
      ensures keys == [] <==> r.Err?
      ensures r.Ok? ==> r.value == Concat(PairFrames(keys, series))
    {
      var frames := CollectFrames();
      if frames == [] {
        return Err(NoObjectsToConcatenate);
      }
      return Ok(Concat(frames));
    }

    /** test_fetch_pairs.py as it stands: `pd` is looked up at the first
        `pd.DataFrame` of a non-empty store, or at `pd.concat` of an empty
        one, and is undefined either way. */
    method ToDataFrameAsWritten() returns (r: Result<seq<Row>, TableError>)
      requires Valid()
      ensures r == Err(PandasNotImported)
    {
      r := Err(PandasNotImported);
    }

    /** fetch_data.py: an empty store gives an empty table. */
    method ToDataFrameOrEmpty() returns (rows: seq<Row>)
      requires Valid()
      ensures keys == [] ==> rows == []
      ensures rows == Concat(PairFrames(keys, series))
    {
      var frames := CollectFrames();
      if frames == [] {
        return [];
      }
      return Concat(frames);
    }
  }
}
