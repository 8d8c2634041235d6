/** Classification of list-style feed frames and the mapping of the candle
    tuple to an OHLC entry, as the two list-frame `on_message` handlers do it
    (test_fetch_pairs.py and fetch_data.py). The numeric fields and the
    timestamp stay opaque: an entry holds the decoded values the handler
    passes to `float(...)` and `utcfromtimestamp(...)`. */
module Frames {
  import opened Wrappers
  import opened Json
  import Text

  type Symbol = string

  datatype OhlcEntry = OhlcEntry(
    timestamp: Value, open: Value, high: Value, low: Value,
    close: Value, volume: Value, vwap: Value)

  /** Why a frame raised inside the handler: `data[1]` or `data[-1]` out of
      range; the pair tag not a string or without a '-'; the candle not
      indexable to the needed position or a field `float()` rejects; the
      `"ohlc" in data[-1]` test applied to a number, boolean or null; a name
      the module never imports (`NameError`). */
  datatype FrameError = MissingElement | BadPairTag | BadCandle | NotSearchable | UndefinedName

  /** What one frame does to the store: nothing, one append, or nothing
      because the handler raised (the exception leaves the handler before
      the locked block, so the store is untouched either way). */
  datatype Outcome = Ignored | Update(pair: Symbol, entry: OhlcEntry) | Rejected(error: FrameError)

  /** `float(v)` accepts numbers, booleans and strings; whether a string
      parses as a number is not modelled. */
  predicate Convertible(v: Value) {
    v.Num? || v.Bool? || v.Str?
  }

  /** `ohlc[k]` for the decoded candle: an element of a list, a one-character
      string of a string; a dict has no integer keys and other values cannot
      be indexed. */
  function Field(ohlc: Value, k: nat): Option<Value> {
    match ohlc
    case Arr(items) => if k < |items| then Some(items[k]) else None
    case Str(s) => if k < |s| then Some(Str([s[k]])) else None
    case _ => None
  }

  /** The field at position `k`, provided `float()` can be applied to it. */
  function Numeric(ohlc: Value, k: nat): Option<Value> {
    match Field(ohlc, k)
    case Some(v) => if Convertible(v) then Some(v) else None
    case None => None
  }

  /** The entry as the handlers build it: positions 0..6 of the candle become
      timestamp, open, high, low, close, volume and vwap. */
  function CandleAsWritten(ohlc: Value): Option<OhlcEntry> {
    match (Numeric(ohlc, 0), Numeric(ohlc, 1), Numeric(ohlc, 2), Numeric(ohlc, 3),
           Numeric(ohlc, 4), Numeric(ohlc, 5), Numeric(ohlc, 6))
    case (Some(t), Some(o), Some(h), Some(l), Some(c), Some(v), Some(w)) =>
      Some(OhlcEntry(t, o, h, l, c, v, w))
    case _ => None
  }

  /** The fields of an entry in the order the as-written mapping reads them. */
  function AsWrittenFields(e: OhlcEntry): seq<Value> {
    [e.timestamp, e.open, e.high, e.low, e.close, e.volume, e.vwap]
  }

  predicate AllConvertible(fields: seq<Value>) {
    forall i :: 0 <= i < |fields| ==> Convertible(fields[i])
  }

  /** A candle laid out as the as-written mapping expects, followed by any
      further fields, maps back to the entry it was built from. */
  lemma CandleAsWrittenRoundTrip(e: OhlcEntry, extra: seq<Value>)
    requires AllConvertible(AsWrittenFields(e))
    ensures CandleAsWritten(Arr(AsWrittenFields(e) + extra)) == Some(e)
  {
    var items := AsWrittenFields(e) + extra;
    assert items[0] == e.timestamp && items[1] == e.open && items[2] == e.high;
    assert items[3] == e.low && items[4] == e.close && items[5] == e.volume && items[6] == e.vwap;
    assert Convertible(AsWrittenFields(e)[0]) && Convertible(AsWrittenFields(e)[1]);
    assert Convertible(AsWrittenFields(e)[2]) && Convertible(AsWrittenFields(e)[3]);
    assert Convertible(AsWrittenFields(e)[4]) && Convertible(AsWrittenFields(e)[5]);
    assert Convertible(AsWrittenFields(e)[6]);
  }

  /** `tag.split('-')[1]`: the second '-'-separated component of a string
      tag; a tag without '-' (IndexError) or not a string (AttributeError)
      has none. */
  function PairKey(tag: Value): Option<Symbol> {
    if tag.Str? && |Text.Split(tag.s, '-')| >= 2 then Some(Text.Split(tag.s, '-')[1]) else None
  }

  /** A pair key exists exactly when the tag is a string holding a '-'; it is
      the text between the first '-' and the next one (or the end). */
  lemma PairKeyCharacterisation(tag: Value)
    ensures PairKey(tag).Some? <==> tag.Str? && '-' in tag.s
    ensures PairKey(tag).Some? ==> '-' !in PairKey(tag).value
  {
    if tag.Str? {
      if '-' in tag.s {
        Text.SplitWithSeparator(tag.s, '-');
        Text.SplitPartsHaveNoSeparator(tag.s, '-');
      } else {
        Text.SplitWithoutSeparator(tag.s, '-');
      }
    }
  }

  /** A tag composed as `head-pair` or `head-pair-tail` yields `pair`. */
  lemma PairKeyOfComposedTag(head: string, pair: string, tail: string)
    requires '-' !in head && '-' !in pair
    requires tail == [] || tail[0] == '-'
    ensures PairKey(Str(head + "-" + pair + tail)) == Some(pair)
  {
    var s := head + "-" + pair + tail;
    assert s == head + ['-'] + (pair + tail);
    Text.SplitAtFirstSeparator(head, pair + tail, '-');
    if tail == [] {
      assert pair + tail == pair;
      Text.SplitWithoutSeparator(pair, '-');
    } else {
      assert pair + tail == pair + ['-'] + tail[1..];
      Text.SplitAtFirstSeparator(pair, tail[1..], '-');
    }
  }

  /** Lines 27-37 shared by both list-frame handlers: `data[1]` is the
      candle, `data[-1].split('-')[1]` the pair, then the fields in order. */
  function ParseListFrame(items: seq<Value>): Outcome {
    if |items| < 2 then Rejected(MissingElement)
    else
      match PairKey(items[|items| - 1])
      case None => Rejected(BadPairTag)
      case Some(pair) =>
        match CandleAsWritten(items[1])
        case None => Rejected(BadCandle)
        case Some(e) => Update(pair, e)
  }

  /** test_fetch_pairs.py with `datetime` imported: every list frame is
      parsed; anything else is ignored. */
  function ClassifyAnyList(msg: Value): Outcome {
    if msg.Arr? then ParseListFrame(msg.items) else Ignored
  }

  /** test_fetch_pairs.py as it stands: it never imports `datetime`, and the
      name is looked up before any candle field is read, so once `data[1]`
      and the pair tag have been read the handler raises `NameError`. */
  function ClassifyAnyListAsWritten(msg: Value): Outcome {
    if !msg.Arr? then Ignored
    else if |msg.items| < 2 then Rejected(MissingElement)
    else if PairKey(msg.items[|msg.items| - 1]).None? then Rejected(BadPairTag)
    else Rejected(UndefinedName)
  }

  /** As written, the first handler never changes the store: every frame it
      would apply, and every frame whose candle is malformed, raises
      `NameError`; every other frame fares as with the import in place. */
  lemma AnyListNeverUpdatesAsWritten(msg: Value)
    ensures !ClassifyAnyListAsWritten(msg).Update?
    ensures ClassifyAnyListAsWritten(msg) ==
            if ClassifyAnyList(msg).Update? || ClassifyAnyList(msg) == Rejected(BadCandle)
            then Rejected(UndefinedName) else ClassifyAnyList(msg)
  {
  }

  /** fetch_data.py: a list frame is parsed only when `"ohlc" in data[-1]`. */
  function ClassifyOhlcGuarded(msg: Value): Outcome {
    if !msg.Arr? then Ignored
    else if msg.items == [] then Rejected(MissingElement)
    else
      match InOperator("ohlc", msg.items[|msg.items| - 1])
      case None => Rejected(NotSearchable)
      case Some(false) => Ignored
      case Some(true) => ParseListFrame(msg.items)
  }

  /** A frame the first handler accepts: a list of at least two elements whose
      last element is a string holding a '-', and whose second element is a
      candle with seven convertible fields. The pair and entry are exactly the
      second '-'-component and the as-written field mapping. */
  lemma AnyListUpdateIff(msg: Value)
    ensures ClassifyAnyList(msg).Update? <==>
            msg.Arr? && |msg.items| >= 2 && msg.items[|msg.items| - 1].Str? &&
            '-' in msg.items[|msg.items| - 1].s && CandleAsWritten(msg.items[1]).Some?
    ensures ClassifyAnyList(msg).Update? ==>
            ClassifyAnyList(msg).pair == Text.Split(msg.items[|msg.items| - 1].s, '-')[1] &&
            ClassifyAnyList(msg).entry == CandleAsWritten(msg.items[1]).value
    ensures !msg.Arr? ==> ClassifyAnyList(msg) == Ignored
  {
    if msg.Arr? && |msg.items| >= 2 {
      PairKeyCharacterisation(msg.items[|msg.items| - 1]);
    }
  }

  /** Only a list whose last element is a string containing "ohlc" (and a
      '-') can change the store in the guarded handler; when it does, it does
      exactly what the unguarded handler does. A frame the guard admits is
      handled as by the unguarded handler, and anything else is ignored or
      rejected, never applied. */
  lemma GuardedUpdateIff(msg: Value)
    ensures ClassifyOhlcGuarded(msg).Update? <==>
            ClassifyAnyList(msg).Update? && Text.Contains(msg.items[|msg.items| - 1].s, "ohlc")
    ensures ClassifyOhlcGuarded(msg).Update? ==> ClassifyOhlcGuarded(msg) == ClassifyAnyList(msg)
  {
    AnyListUpdateIff(msg);
  }

  /** A candle list and a `head-pair` tag, as the handlers expect them, parse
      back to that pair and entry. */
  lemma ListFrameRoundTrip(chanId: Value, e: OhlcEntry, extra: seq<Value>,
                           middle: seq<Value>, head: string, pair: string)
    requires AllConvertible(AsWrittenFields(e))
    requires '-' !in head && '-' !in pair
    ensures ClassifyAnyList(Arr([chanId, Arr(AsWrittenFields(e) + extra)] + middle +
                                [Str(head + "-" + pair)])) == Update(pair, e)
  {
    var items := [chanId, Arr(AsWrittenFields(e) + extra)] + middle + [Str(head + "-" + pair)];
    assert items[1] == Arr(AsWrittenFields(e) + extra);
    assert items[|items| - 1] == Str(head + "-" + pair);
    CandleAsWrittenRoundTrip(e, extra);
    PairKeyOfComposedTag(head, pair, "");
    assert head + "-" + pair + "" == head + "-" + pair;
  }

  /** A frame the handler is meant to apply raises as written. */
  lemma ListFrameRaisesAsWritten(chanId: Value, e: OhlcEntry, extra: seq<Value>,
                                 middle: seq<Value>, head: string, pair: string)
    requires AllConvertible(AsWrittenFields(e))
    requires '-' !in head && '-' !in pair
    ensures ClassifyAnyList(Arr([chanId, Arr(AsWrittenFields(e) + extra)] + middle +
                                [Str(head + "-" + pair)])) == Update(pair, e)
    ensures ClassifyAnyListAsWritten(Arr([chanId, Arr(AsWrittenFields(e) + extra)] + middle +
                                         [Str(head + "-" + pair)])) == Rejected(UndefinedName)
  {
    ListFrameRoundTrip(chanId, e, extra, middle, head, pair);
    AnyListNeverUpdatesAsWritten(Arr([chanId, Arr(AsWrittenFields(e) + extra)] + middle +
                                     [Str(head + "-" + pair)]));
  }

  // The sample frame recorded in test_fetch_pairs.py and the Kraken v1 layout
  // it shows: [channelID, [time, etime, open, high, low, close, vwap, volume,
  // count], channelName, pair].

  function SampleCandle(): seq<Value> {
    [Str("1737996675.228397"), Str("1737996720.000000"), Str("99804.50000"),
     Str("99804.60000"), Str("99804.50000"), Str("99804.60000"), Str("99804.59979"),
     Str("9.83629309"), Num(73.0)]
  }

  function SampleFrame(): Value {
    Arr([Num(4414898189.0), Arr(SampleCandle()), Str("ohlc-1"), Str("XBT/USD")])
  }

  /** The recorded pair tag holds neither a '-' nor "ohlc". */
  lemma SampleTagFacts()
    ensures '-' !in "XBT/USD"
    ensures !Text.Contains("XBT/USD", "ohlc")
  {
    assert !Text.Contains("USD", "ohlc");
    assert !Text.Contains("/USD", "ohlc") by {
      assert "/USD"[..4][0] == "/USD"[0] != 'o' && "/USD"[1..] == "USD";
    }
    assert !Text.Contains("T/USD", "ohlc") by {
      assert "T/USD"[..4][0] == "T/USD"[0] != 'o' && "T/USD"[1..] == "/USD";
    }
    assert !Text.Contains("BT/USD", "ohlc") by {
      assert "BT/USD"[..4][0] == "BT/USD"[0] != 'o' && "BT/USD"[1..] == "T/USD";
    }
    assert "XBT/USD"[..4][0] == "XBT/USD"[0] != 'o' && "XBT/USD"[1..] == "BT/USD";
  }

  /** As written, the recorded frame is lost by both handlers: the last
      element "XBT/USD" has no '-', so the first handler raises, and it does
      not contain "ohlc", so the guarded handler ignores it. */
  lemma SampleFrameLostAsWritten()
    ensures ClassifyAnyList(SampleFrame()) == Rejected(BadPairTag)
    ensures ClassifyAnyListAsWritten(SampleFrame()) == Rejected(BadPairTag)
    ensures ClassifyOhlcGuarded(SampleFrame()) == Ignored
  {
    var tag := Str("XBT/USD");
    SampleTagFacts();
    PairKeyCharacterisation(tag);
    var items := SampleFrame().items;
    assert items[|items| - 1] == tag;
    assert InOperator("ohlc", tag) == Some(false);
  }

  /** As written, positions 1..5 of a Kraken candle land in the wrong fields:
      the interval end time becomes `open` and the close price `volume`. */
  lemma SampleFieldsShiftedAsWritten()
    ensures CandleAsWritten(Arr(SampleCandle())).Some?
    ensures CandleAsWritten(Arr(SampleCandle())).value.open == Str("1737996720.000000")
    ensures CandleAsWritten(Arr(SampleCandle())).value.volume == Str("99804.60000")
  {
  }

  /** The Kraken v1 candle mapping: time, then open, high, low, close at
      positions 2..5, vwap at 6 and volume at 7. */
  function KrakenCandle(ohlc: Value): Option<OhlcEntry> {
    match (Numeric(ohlc, 0), Numeric(ohlc, 2), Numeric(ohlc, 3), Numeric(ohlc, 4),
           Numeric(ohlc, 5), Numeric(ohlc, 7), Numeric(ohlc, 6))
    case (Some(t), Some(o), Some(h), Some(l), Some(c), Some(v), Some(w)) =>
      Some(OhlcEntry(t, o, h, l, c, v, w))
    case _ => None
  }

  /** Corrected handler: the channel name is `data[-2]` and must contain
      "ohlc", the pair is `data[-1]` itself, the candle `data[1]` is read in
      the Kraken v1 layout. Non-list frames (events, heartbeats) are ignored. */
  function ClassifyKrakenFrame(msg: Value): Outcome {
    if !msg.Arr? then Ignored
    else if |msg.items| < 3 then Rejected(MissingElement)
    else
      var items := msg.items;
      match InOperator("ohlc", items[|items| - 2])
      case None => Rejected(NotSearchable)
      case Some(false) => Ignored
      case Some(true) =>
        if !items[|items| - 1].Str? then Rejected(BadPairTag)
        else
          match KrakenCandle(items[1])
          case None => Rejected(BadCandle)
          case Some(e) => Update(items[|items| - 1].s, e)
  }

  /** The Kraken v1 frame for a pair and an entry, with the fields the entry
      does not keep (end time, trade count) given separately. */
  function KrakenFrame(chanId: Value, e: OhlcEntry, etime: Value, count: Value,
                       channel: string, pair: Symbol): Value {
    Arr([chanId,
         Arr([e.timestamp, etime, e.open, e.high, e.low, e.close, e.vwap, e.volume, count]),
         Str(channel), Str(pair)])
  }

  /** Every well-formed Kraken v1 OHLC frame is applied to its own pair with
      its own prices: the corrected handler inverts the frame layout. */
  lemma KrakenFrameRoundTrip(chanId: Value, e: OhlcEntry, etime: Value, count: Value,
                             channel: string, pair: Symbol)
    requires AllConvertible(AsWrittenFields(e))
    requires Text.Contains(channel, "ohlc")
    ensures ClassifyKrakenFrame(KrakenFrame(chanId, e, etime, count, channel, pair)) == Update(pair, e)
  {
    assert Convertible(AsWrittenFields(e)[0]) && Convertible(AsWrittenFields(e)[1]);
    assert Convertible(AsWrittenFields(e)[2]) && Convertible(AsWrittenFields(e)[3]);
    assert Convertible(AsWrittenFields(e)[4]) && Convertible(AsWrittenFields(e)[5]);
    assert Convertible(AsWrittenFields(e)[6]);
  }

  /** The recorded frame, read by the corrected handler, updates XBT/USD with
      the prices it carries. */
  lemma SampleFrameCorrected()
    ensures ClassifyKrakenFrame(SampleFrame()) ==
            Update("XBT/USD", OhlcEntry(Str("1737996675.228397"), Str("99804.50000"),
                   Str("99804.60000"), Str("99804.50000"), Str("99804.60000"),
                   Str("9.83629309"), Str("99804.59979")))
  {
    assert Text.Contains("ohlc-1", "ohlc") by { assert "ohlc-1"[..4] == "ohlc"; }
  }
}
