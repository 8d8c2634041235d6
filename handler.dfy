/** `WebSocketHandler` of fetch_pairs_v2_test.py and its main loop: the
    pairs are split into groups at construction, every object frame on the
    "ohlc" channel puts its `data` rows in front of the table, and the main
    loop hands the table to `convert_to_csv` and resets it once it holds more
    than 500 rows. */
module Handler {
  import opened Wrappers
  import opened Json
  import Partition

  const DefaultUrl: string := "wss://ws.kraken.com/v2"
  const DefaultInterval: int := 1
  const DefaultChunkSize: nat := 450
  const FlushThreshold: nat := 500

  /** What `on_message` does with a decoded frame: nothing (another channel),
      add rows, or nothing because an exception was caught and logged. */
  datatype V2Outcome = NotOhlc | Rows(items: seq<Value>) | Caught

  /** `data['channel'] == 'ohlc'`, then `pd.DataFrame(data['data'])`: a list
      gives one row per element and `null` an empty frame; a missing key,
      a non-object frame or any other payload raises. */
  function ClassifyV2(msg: Value): V2Outcome {
    if !msg.Obj? then Caught
    else
      match Get(msg.members, "channel")
      case None => Caught
      case Some(ch) =>
        if ch != Str("ohlc") then NotOhlc
        else
          match Get<Value>(msg.members, "data")
          case Some(Arr(items)) => Rows(items)
          case Some(Null) => Rows([])
          case _ => Caught
  }

  /** Rows are added only for an object frame whose "channel" is "ohlc", and
      then they are exactly its "data" list; such a frame with a list payload
      always adds its rows. */
  lemma OnlyOhlcChannelAddsRows(msg: Value)
    ensures ClassifyV2(msg).Rows? ==> msg.Obj? && Get(msg.members, "channel") == Some(Str("ohlc"))
    ensures ClassifyV2(msg).Rows? && ClassifyV2(msg).items != [] ==>
            Get(msg.members, "data") == Some(Arr(ClassifyV2(msg).items))
    ensures msg.Obj? && Get(msg.members, "channel") == Some(Str("ohlc")) &&
            Get(msg.members, "data").Some? && Get(msg.members, "data").value.Arr? ==>
            ClassifyV2(msg) == Rows(Get(msg.members, "data").value.items)
  {
  }

  class WebSocketHandler {
    const websocketUrl: string
    const chunkSize: nat
    const interval: int
    /** One group of pairs per connection. */
    const connections: seq<seq<Value>>
    /** `self.ohlc_data`: the rows received so far, newest message first. */
    var table: seq<Value>

    constructor (pairs: seq<Value>, websocketUrl: string, chunkSize: nat, interval: int)
      requires chunkSize > 0
      ensures this.websocketUrl == websocketUrl && this.chunkSize == chunkSize
      ensures this.interval == interval
      ensures connections == Partition.Chunks(pairs, chunkSize)
      ensures Partition.Flatten(connections) == pairs
      ensures Partition.WellSized(connections, chunkSize)
      ensures table == []
    {
      this.websocketUrl := websocketUrl;
      this.chunkSize := chunkSize;
      this.interval := interval;
      connections := Partition.Chunks(pairs, chunkSize);
      table := [];
      Partition.ChunksConcatenate(pairs, chunkSize);
      Partition.ChunkSizes(pairs, chunkSize);
    }

    /** The constructor called with its defaults: the v2 endpoint, groups of
        450 pairs and one-minute candles. */
    constructor Default(pairs: seq<Value>)
      ensures websocketUrl == "wss://ws.kraken.com/v2" && chunkSize == 450 && interval == 1
      ensures connections == Partition.Chunks(pairs, 450)
      ensures Partition.Flatten(connections) == pairs
      ensures Partition.WellSized(connections, 450)
      ensures table == []
    {
      websocketUrl := DefaultUrl;
      chunkSize := DefaultChunkSize;
      interval := DefaultInterval;
      connections := Partition.Chunks(pairs, DefaultChunkSize);
      table := [];
      Partition.ChunksConcatenate(pairs, DefaultChunkSize);
      Partition.ChunkSizes(pairs, DefaultChunkSize);
    }

    /** `convert_to_dataframe`: `pd.concat([new_data, self.ohlc_data])`. */
    method ConvertToDataFrame(rows: seq<Value>)
      modifies this
      ensures table == rows + old(table)
      ensures |table| == |rows| + |old(table)|
    {
      table := rows + table;
    }

    /** `on_message`: only "ohlc" frames change the table; everything else,
        including frames that raise, leaves it as it was. */
    method OnMessage(msg: Value)
      modifies this
      ensures ClassifyV2(msg).Rows? ==> table == ClassifyV2(msg).items + old(table)
      ensures !ClassifyV2(msg).Rows? ==> table == old(table)
    {
      var outcome := ClassifyV2(msg);
      if outcome.Rows? {
        ConvertToDataFrame(outcome.items);
      }
    }

    /** One pass of the main loop: above 500 rows the table is handed to
        `convert_to_csv` and reset; otherwise nothing happens. Afterwards the
        table never holds more than 500 rows. */
    method FlushIfFull() returns (written: Option<seq<Value>>)
      modifies this
      ensures |old(table)| > FlushThreshold ==> written == Some(old(table)) && table == []
      ensures |old(table)| <= FlushThreshold ==> written == None && table == old(table)
      ensures |table| <= FlushThreshold
    {
      if |table| > FlushThreshold {
        written := Some(table);
        table := [];
      } else {
        written := None;
      }
    }
  }
}
