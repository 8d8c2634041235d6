/** The subscription requests sent when a connection opens: the v1 form of
    the list-frame scripts (`on_open` in test_fetch_pairs.py) and the v2 form
    of the object-frame handler (`WebSocketHandler.on_open`). */
module Subscribe {
  import opened Wrappers
  import opened Json

  /** The v2 handler's fallback when no group (or an empty one) is given. */
  function DefaultSymbols(): seq<Value> { [Str("BTC/USD")] }

  /** The v1 request: `{"event": "subscribe", "pair": group,
      "subscription": {"name": "ohlc", "interval": 1}}`. */
  function V1Request(pairGroup: seq<Value>): Value {
    Obj([("event", Str("subscribe")), ("pair", Arr(pairGroup)),
         ("subscription", Obj([("name", Str("ohlc")), ("interval", Num(1.0))]))])
  }

  /** `pair_group if pair_group else ["BTC/USD"]`: `None` and `[]` are falsy. */
  function SymbolsFor(pairGroup: Option<seq<Value>>): seq<Value> {
    if pairGroup.Some? && pairGroup.value != [] then pairGroup.value else DefaultSymbols()
  }

  /** The v2 request: `{"method": "subscribe", "params": {"channel": "ohlc",
      "symbol": ..., "interval": self.interval}}`. */
  function V2Request(pairGroup: Option<seq<Value>>, interval: int): Value {
    Obj([("method", Str("subscribe")),
         ("params", Obj([("channel", Str("ohlc")), ("symbol", Arr(SymbolsFor(pairGroup))),
                         ("interval", Num(interval as real))]))])
  }

  /** `req[k1][k2]` on a decoded request, if both keys are there. */
  function Field2(req: Value, k1: string, k2: string): Option<Value> {
    if !req.Obj? then None
    else
      match Get<Value>(req.members, k1)
      case Some(Obj(inner)) => Get(inner, k2)
      case _ => None
  }

  /** What a v1 request asks for: the pairs, the channel name, the interval. */
  lemma V1RequestFields(pairGroup: seq<Value>)
    ensures Get(V1Request(pairGroup).members, "event") == Some(Str("subscribe"))
    ensures Get(V1Request(pairGroup).members, "pair") == Some(Arr(pairGroup))
    ensures Field2(V1Request(pairGroup), "subscription", "name") == Some(Str("ohlc"))
    ensures Field2(V1Request(pairGroup), "subscription", "interval") == Some(Num(1.0))
  {
    var m := V1Request(pairGroup).members;
    assert m[..2] == [("event", Str("subscribe")), ("pair", Arr(pairGroup))];
    assert m[..2][..1] == [("event", Str("subscribe"))];
    assert "subscription" != "event" && "pair" != "event";
    assert Get(m, "event") == Get(m[..2], "event");
    assert Get(m[..2], "event") == Get(m[..2][..1], "event");
  }

  /** What a v2 request asks for: method "subscribe", channel "ohlc", the
      handler's interval, and the given group when it is non-empty, otherwise
      exactly ["BTC/USD"]; the symbol list is never empty. */
  lemma V2RequestFields(pairGroup: Option<seq<Value>>, interval: int)
    ensures Get(V2Request(pairGroup, interval).members, "method") == Some(Str("subscribe"))
    ensures Field2(V2Request(pairGroup, interval), "params", "channel") == Some(Str("ohlc"))
    ensures Field2(V2Request(pairGroup, interval), "params", "interval") == Some(Num(interval as real))
    ensures Field2(V2Request(pairGroup, interval), "params", "symbol") ==
            Some(Arr(if pairGroup.Some? && pairGroup.value != [] then pairGroup.value else [Str("BTC/USD")]))
    ensures Field2(V2Request(pairGroup, interval), "params", "symbol").value.items != []
  {
    var m := V2Request(pairGroup, interval).members;
    assert m[..1] == [("method", Str("subscribe"))];
    var p := [("channel", Str("ohlc")), ("symbol", Arr(SymbolsFor(pairGroup))),
              ("interval", Num(interval as real))];
    assert Get(m, "params") == Some(Obj(p));
    assert p[..2] == [("channel", Str("ohlc")), ("symbol", Arr(SymbolsFor(pairGroup)))];
    assert p[..2][..1] == [("channel", Str("ohlc"))];
    assert "interval" != "channel" && "symbol" != "channel" && "interval" != "symbol";
    assert Get(p, "channel") == Get(p[..2], "channel");
    assert Get(p[..2], "channel") == Get(p[..2][..1], "channel");
    assert Get(p, "symbol") == Get(p[..2], "symbol");
  }
}
