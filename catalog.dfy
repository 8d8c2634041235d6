/** `fetch_kraken_pairs` of fetch_kraken_pairs.py, with the HTTP exchange
    abstracted to its status code and the members of the "result" object as
    they appear in the body (absent when the body has no "result" key). Each
    asset pair is its name and its fields; `response.json()` turns the
    members into a dict, so a repeated name is kept once. */
module Catalog {
  import opened Wrappers
  import opened Json

  const OkStatus: int := 200

  type AssetPair = (string, seq<(string, Value)>)

  datatype Response = Response(status: int, result: Option<seq<AssetPair>>)

  /** `response.json().get("result", {}).items()`. */
  function AssetPairs(resp: Response): seq<AssetPair> {
    if resp.result.Some? then DictOf(resp.result.value) else []
  }

  /** The truthy `wsname` of one asset pair, if any. */
  function WsName(pair: AssetPair): Option<Value> {
    match Get(pair.1, "wsname")
    case Some(v) => if Truthy(v) then Some(v) else None
    case None => None
  }

  /** The truthy `wsname` values, in response order. */
  function WsNames(pairs: seq<AssetPair>): seq<Value>
    decreases |pairs|
  {
    if pairs == [] then []
    else WsNames(pairs[..|pairs| - 1]) +
         (if WsName(pairs[|pairs| - 1]).Some? then [WsName(pairs[|pairs| - 1]).value] else [])
  }

  /** The loop over `asset_pairs.items()`, with the early exit on a status
      other than 200. */
  method FetchKrakenPairs(resp: Response) returns (websocketPairs: seq<Value>)
    ensures resp.status != OkStatus ==> websocketPairs == []
    ensures resp.status == OkStatus ==> websocketPairs == WsNames(AssetPairs(resp))
    ensures resp.result.None? ==> websocketPairs == []
  {
    if resp.status != OkStatus {
      return [];
    }
    var assetPairs := AssetPairs(resp);
    websocketPairs := [];
    var i := 0;
    while i < |assetPairs|
      invariant 0 <= i <= |assetPairs|
      invariant websocketPairs == WsNames(assetPairs[..i])
    {
      var wsname := Get(assetPairs[i].1, "wsname");
      if wsname.Some? && Truthy(wsname.value) {
        websocketPairs := websocketPairs + [wsname.value];
      }
      i := i + 1;
      assert assetPairs[..i][..i - 1] == assetPairs[..i - 1];
    }
    assert assetPairs[..i] == assetPairs;
  }

  lemma {:induction false} WsNamesAppend(a: seq<AssetPair>, b: seq<AssetPair>)
    ensures WsNames(a + b) == WsNames(a) + WsNames(b)
    decreases |b|
  {
    if b == [] {
      assert a + b == a;
    } else {
      WsNamesAppend(a, b[..|b| - 1]);
      assert (a + b)[..|a + b| - 1] == a + b[..|b| - 1];
    }
  }

  /** A value is listed exactly when some asset pair has it as a truthy
      `wsname`. */
  lemma {:induction false} WsNamesExactly(pairs: seq<AssetPair>, v: Value)
    ensures v in WsNames(pairs) <==> exists i :: 0 <= i < |pairs| && WsName(pairs[i]) == Some(v)
    decreases |pairs|
  {
    if pairs != [] {
      var init := pairs[..|pairs| - 1];
      var last := pairs[|pairs| - 1];
      WsNamesExactly(init, v);
      var found := if WsName(last).Some? then [WsName(last).value] else [];
      assert WsNames(pairs) == WsNames(init) + found;
      if v in WsNames(init) {
        var i :| 0 <= i < |init| && WsName(init[i]) == Some(v);
        assert pairs[i] == init[i];
      }
      if exists i :: 0 <= i < |pairs| && WsName(pairs[i]) == Some(v) {
        var i :| 0 <= i < |pairs| && WsName(pairs[i]) == Some(v);
        if i < |init| {
          assert init[i] == pairs[i];
        }
      }
    }
  }

  /** Pairs with a missing or falsy `wsname` are skipped, so the list is
      never longer than the response and holds only truthy values. */
  lemma {:induction false} WsNamesShape(pairs: seq<AssetPair>)
    ensures |WsNames(pairs)| <= |pairs|
    ensures forall k :: 0 <= k < |WsNames(pairs)| ==> Truthy(WsNames(pairs)[k])
    decreases |pairs|
  {
    if pairs != [] {
      var init := pairs[..|pairs| - 1];
      var last := pairs[|pairs| - 1];
      WsNamesShape(init);
      var found := if WsName(last).Some? then [WsName(last).value] else [];
      assert WsNames(pairs) == WsNames(init) + found;
    }
  }

  /** The names fetched from a 200 response: a value is listed exactly when
      some asset pair name, looked up in the response as `json.loads` keeps
      it, has that value as a truthy `wsname`; each name contributes at most
      once, however often the body repeats it. */
  lemma FetchedNamesExactly(raw: seq<AssetPair>, v: Value)
    ensures v in WsNames(DictOf(raw)) <==>
            exists name :: Get(raw, name).Some? && Get(Get(raw, name).value, "wsname") == Some(v) && Truthy(v)
    ensures |WsNames(DictOf(raw))| <= |raw|
  {
    DictOfLookup(raw);
    WsNamesShape(DictOf(raw));
    if v in WsNames(DictOf(raw)) {
      FetchedNameHasPair(raw, v);
    }
    if exists name :: Get(raw, name).Some? && Get(Get(raw, name).value, "wsname") == Some(v) && Truthy(v) {
      var name :| Get(raw, name).Some? && Get(Get(raw, name).value, "wsname") == Some(v) && Truthy(v);
      PairNameIsFetched(raw, name, v);
    }
  }

  lemma FetchedNameHasPair(raw: seq<AssetPair>, v: Value)
    requires v in WsNames(DictOf(raw))
    ensures exists name :: Get(raw, name).Some? && Get(Get(raw, name).value, "wsname") == Some(v) && Truthy(v)
  {
    var d := DictOf(raw);
    DictOfLookup(raw);
    WsNamesExactly(d, v);
    var i :| 0 <= i < |d| && WsName(d[i]) == Some(v);
    DistinctLookup(d, i);
    assert Get(raw, d[i].0) == Some(d[i].1);
  }

  lemma PairNameIsFetched(raw: seq<AssetPair>, name: string, v: Value)
    requires Get(raw, name).Some? && Get(Get(raw, name).value, "wsname") == Some(v) && Truthy(v)
    ensures v in WsNames(DictOf(raw))
  {
    var d := DictOf(raw);
    DictOfLookup(raw);
    WsNamesExactly(d, v);
    assert Get(d, name) == Get(raw, name);
    var i :| 0 <= i < |d| && d[i] == (name, Get(d, name).value) &&
             forall j :: i < j < |d| ==> d[j].0 != name;
    assert WsName(d[i]) == Some(v);
  }

  /** In a list without repeated keys, each member is what its key looks up. */
  lemma DistinctLookup(d: seq<AssetPair>, i: nat)
    requires DistinctKeys(d) && i < |d|
    ensures Get(d, d[i].0) == Some(d[i].1)
  {
    var r := Get(d, d[i].0);
    var k :| 0 <= k < |d| && d[k] == (d[i].0, r.value) && forall j :: k < j < |d| ==> d[j].0 != d[i].0;
    assert k == i;
  }

  /** A body naming the same pair twice lists its `wsname` once, from the
      later occurrence, as the dict does. */
  lemma RepeatedPairListedOnce()
    ensures WsNames(DictOf([("A", [("wsname", Str("X"))]), ("A", [("wsname", Str("Y"))])])) == [Str("Y")]
  {
    var raw := [("A", [("wsname", Str("X"))]), ("A", [("wsname", Str("Y"))])];
    assert raw[..1] == [("A", [("wsname", Str("X"))])];
    assert DictOf(raw[..1]) == [("A", [("wsname", Str("X"))])];
    assert DictOf(raw) == [("A", [("wsname", Str("Y"))])];
  }
}
