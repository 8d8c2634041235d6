# Kraken OHLC ingestion, modelled in Dafny

This project models the ingestion core of Kraken_All_pairs. The system subscribes to Kraken's OHLC (candle) feed for every tradable pair and keeps a bounded history per pair. Part of that history can be written out as one CSV file per symbol. The model covers:

- **Partition** — how the pair list is cut into one group per connection. The size is 450 in test_fetch_pairs.py, 500 in fetch_data.py, and 450 by default in the v2 `WebSocketHandler`.
- **Frames** — how the two list-frame `on_message` handlers classify a decoded frame. It also covers how they read the pair (`data[-1].split('-')[1]`) and map the candle tuple to an entry. test_fetch_pairs.py never imports `datetime`, so its handler is modelled twice: as it stands, where every frame that gets past the pair tag raises `NameError`, and with the import in place.
- **Store** — the shared `ohlc_data` dict, as the class `OhlcStore`. Its keys are kept in insertion order, and each list is capped at its last 60 entries. The class also models the two `convert_to_dataframe` functions. test_fetch_pairs.py never imports pandas, so its version raises `NameError` on every store; with the import it would raise only on an empty store. The version in fetch_data.py returns an empty frame for an empty store.
- **Backoff** — the `reconnect` loop of test_fetch_pairs.py. It makes at most five attempts, waits `min(2**k, 30)` seconds before each, and stops on the stop flag or on the first attempt that succeeds.
- **FileNames** — the file name chosen by `convert_to_csv`: the characters `<>:"/\|?*` become `_`, then `_data.csv` is appended and the result is joined onto the save directory.
- **Limit** — `limit_symbol_instances`. It sorts by symbol ascending, then timestamp descending, keeps the first `max_instances` rows of each symbol, and defaults to 60.
- **Subscribe** and **Handler** — the v1 and v2 subscription requests, and the v2 `WebSocketHandler`. The handler keeps only "ohlc" channel frames and puts the new rows in front of the table. Its main loop flushes and resets the table once it holds more than 500 rows.
- **Catalog** — `fetch_kraken_pairs`. It returns the truthy `wsname` values in response order, or `[]` when the status is not 200.

Supporting modules:

- **Json** — decoded JSON values. A dict lookup returns the last occurrence of a key.
- **Text** — `str.split`, the substring `in` test and Python string order.
- **Wrappers** — `Option` and `Result`.

The Python `in` operator, truthiness and `str.split` are written out explicitly. This is because the handlers' behaviour on unexpected frames depends on them.

Where the code departs from what the system is meant to do, the model follows the code. The defects listed under "## Findings" are modelled both as written and corrected. Elsewhere:

- Retries stop after five failed attempts; they are not unbounded.
- A duplicate timestamp is appended like any other entry; it does not replace the existing one.
- The cap rebuilds the list with a `[-60:]` slice; there is no ring buffer.

## Model

| member | source | states |
|---|---|---|
| Partition.ChunksConcatenate | test_fetch_pairs.py:10-11 | concatenating the groups gives back the pair list exactly, in order, so every pair is assigned to exactly one connection |
| Partition.ChunkSizes | fetch_data.py:10-11 | every group is non-empty and holds at most `size` pairs; every group but the last holds exactly `size`; there are no groups exactly when there are no pairs |
| Text.Split | test_fetch_pairs.py:28 | `str.split` on one character always yields at least one part |
| Text.SplitPartsHaveNoSeparator | test_fetch_pairs.py:28 | no part of a split contains the separator |
| Text.JoinSplit | test_fetch_pairs.py:28 | joining the parts with the separator gives back the string |
| Text.SplitJoin | test_fetch_pairs.py:28 | splitting a join of separator-free parts gives back the parts |
| Text.SplitWithoutSeparator | test_fetch_pairs.py:28 | a string without the separator splits into itself alone, so index 1 does not exist |
| Text.SplitWithSeparator | test_fetch_pairs.py:28 | a string with the separator splits into at least two parts |
| Text.SplitAtFirstSeparator | fetch_data.py:28 | the first part is the text before the first separator, and the rest is the split of what follows |
| Text.ContainsIffOccurs | fetch_data.py:26 | the substring test holds exactly when the needle occurs at some offset |
| Text.LexLeReflexive | data_operations.py:37 | Python string order is reflexive |
| Text.LexLeTotal | data_operations.py:37 | Python string order is total |
| Text.LexLeAntisymmetric | data_operations.py:37 | Python string order is antisymmetric |
| Text.LexLeTransitive | data_operations.py:37 | Python string order is transitive |
| Json.Get | fetch_kraken_pairs.py:16 | a dict lookup misses exactly when no member has the key; on a hit, the value is that of the last member with the key |
| Json.InOperator | fetch_data.py:26 | `in` raises exactly on numbers, booleans and null; on a string it is the substring test, on a list element membership, on a dict key membership |
| Json.StoreEffect | fetch_kraken_pairs.py:10 | storing a key into a dict without repeated keys keeps the keys distinct; the key then looks up the new value, every other key looks up what it did before, and the dict grows by at most one member |
| Json.DictOfLookup | fetch_kraken_pairs.py:10 | the dict built from an object's members holds each key once and answers every lookup as the last occurrence in the members does; it is never longer than the members |
| Frames.CandleAsWrittenRoundTrip | test_fetch_pairs.py:27-37 | a candle laid out as positions 0..6 (timestamp, open, high, low, close, volume, vwap) maps back to the entry it came from, whatever follows position 6 |
| Frames.PairKeyCharacterisation | test_fetch_pairs.py:28 | `data[-1].split('-')[1]` exists exactly when the tag is a string containing '-', and the key it yields holds no '-' |
| Frames.PairKeyOfComposedTag | fetch_data.py:28 | a tag `head-pair` or `head-pair-tail` yields exactly `pair` |
| Frames.AnyListUpdateIff | fetch_data.py:27-37 | a frame updates the store iff it is a list of at least two elements whose last element is a string with a '-' and whose second element is a candle with seven convertible fields; the pair and entry are then the second '-' component and the as-written mapping; non-lists are ignored (the handler of test_fetch_pairs.py with `datetime` imported) |
| Frames.GuardedUpdateIff | fetch_data.py:26-37 | the guarded handler updates exactly when the unguarded one would and the last element contains "ohlc", and then it makes the same update |
| Frames.ListFrameRoundTrip | fetch_data.py:27-37 | a list frame carrying a candle in the expected layout and a `head-pair` tag parses back to that pair and entry (with `datetime` imported) |
| Frames.AnyListNeverUpdatesAsWritten | test_fetch_pairs.py:26-37 | as written, the handler never produces an update: every frame that would update the store, or whose candle is malformed, raises `NameError`; every other frame fares as with the import |
| Frames.ListFrameRaisesAsWritten | test_fetch_pairs.py:30 | a well-formed list frame that the handler with the import applies raises `NameError` as written |
| Frames.SampleTagFacts | test_fetch_pairs.py:114-116 | the recorded last element "XBT/USD" contains neither '-' nor "ohlc" |
| Frames.SampleFrameLostAsWritten | test_fetch_pairs.py:114-116 | the recorded frame makes the first handler raise (no pair tag), with or without the `datetime` import, and the guarded handler ignore it |
| Frames.SampleFieldsShiftedAsWritten | fetch_data.py:30-36 | as written, the recorded candle's end time becomes `open` and its close price becomes `volume` |
| Frames.KrakenFrameRoundTrip | test_fetch_pairs.py:114-116 | the corrected reader applies every Kraken v1 OHLC frame to its own pair, with open/high/low/close/vwap/volume taken from their own positions |
| Frames.SampleFrameCorrected | test_fetch_pairs.py:114-116 | the recorded frame, read by the corrected reader, updates XBT/USD with the prices it carries |
| Store.Trim | test_fetch_pairs.py:43-44 | cutting back leaves min(length, 60) entries |
| Store.TrimKeepsLatest | test_fetch_pairs.py:43-44 | the entries kept are the latest ones, in their original order |
| Store.TrimAbsorbs | fetch_data.py:43-44 | cutting back after each append keeps the same entries as cutting back once at the end |
| Store.AppendedWellFormed | test_fetch_pairs.py:39-44 | one update keeps the dict consistent: keys in order without repeats, exactly the dict's keys, every list 1..60 long |
| Store.AppendedEffect | test_fetch_pairs.py:39-44 | one update makes the pair present; a new pair holds just the new entry; the pair's list holds min(old length + 1, 60) entries with the new one last; every other pair is untouched |
| Store.SeriesOfAppended | fetch_data.py:39-44 | one update changes only the updated pair's list, to its old list plus the new entry, cut back to the last 60 |
| Store.ReplayPerPair | test_fetch_pairs.py:39-44 | after any stream of updates, however the pairs interleave, a pair's list is the last (at most) 60 entries of its old list followed by its own new entries in arrival order |
| Store.EntriesOfTag | test_fetch_pairs.py:109-110 | a pair's tagged frame holds exactly that pair's entries and none for any other pair |
| Store.TableRoundTrip | test_fetch_pairs.py:105-112 | the concatenated table has one row per stored entry, and the rows tagged with a pair are exactly its stored list, in order (none for an unknown pair) |
| Store.OhlcStore.constructor | test_fetch_pairs.py:14 | the store starts empty and consistent |
| Store.OhlcStore.Append | test_fetch_pairs.py:39-44 | the locked block performs exactly one `Appended` update; a new pair is added at the end of the key order; the store stays consistent (no duplicate keys, every list 1..60 long) |
| Store.OhlcStore.Apply | fetch_data.py:39-44 | a handled frame changes the store only when it is an update, and then by exactly that update |
| Store.OhlcStore.OnListMessage | test_fetch_pairs.py:19-46 | with `datetime` imported, `on_message` applies exactly the update the frame classifies to, adding a new pair at the end of the key order; any other frame, including one that raises, leaves the store as it was |
| Store.OhlcStore.OnListMessageAsWritten | test_fetch_pairs.py:19-46 | as written, `on_message` leaves the store exactly as it was, whatever the frame |
| Store.OhlcStore.OnOhlcMessage | fetch_data.py:20-46 | the guarded handler applies exactly the update the frame classifies to, adding a new pair at the end of the key order; any other frame leaves the store as it was |
| Store.OhlcStore.OnKrakenFrame | test_fetch_pairs.py:114-116 | the same for the corrected frame reader |
| Store.OhlcStore.CollectFrames | test_fetch_pairs.py:107-111 | one frame per pair, in dict order, each pair's entries tagged with the pair |
| Store.OhlcStore.ToDataFrame | test_fetch_pairs.py:105-112 | with pandas imported as `pd`, `pd.concat` fails exactly when the store is empty; otherwise the table is the frames concatenated in dict order |
| Store.OhlcStore.ToDataFrameAsWritten | test_fetch_pairs.py:109-112 | as written, the function raises `NameError` on every store, empty or not |
| Store.OhlcStore.ToDataFrameOrEmpty | fetch_data.py:80-91 | an empty store gives an empty table; otherwise the frames concatenated in dict order |
| Backoff.Reconnect | test_fetch_pairs.py:66-77 | at most five attempts; the k-th wait is `min(2**k, 30)`; no attempt starts once the stop flag is seen; it connects iff the last attempt succeeded; it stops only on the flag and gives up only after five failures; every attempt before the last failed |
| Backoff.ScheduleBelowCap | test_fetch_pairs.py:68-70 | within the five attempts the waits are 1, 2, 4, 8 and 16 seconds, so the 30-second cap is never reached |
| Backoff.CapReachedFromFive | test_fetch_pairs.py:70 | the cap of 30 seconds takes effect only from a sixth attempt on, which the loop never makes; with ScheduleBelowCap this shows the `min` never changes a wait |
| Backoff.TotalWaitBeforeCap | test_fetch_pairs.py:68-72 | the first n waits add up to 2^n - 1 seconds, at most 31 in all |
| FileNames.Sanitize | data_operations.py:16 | the same length; every forbidden character becomes '_', every other character is kept, and no forbidden character remains |
| FileNames.SanitizeIdempotent | data_operations.py:16 | sanitising twice is the same as sanitising once |
| FileNames.SanitizeKeepsSafeNames | fetch_pairs_v2_test.py:133 | a symbol without forbidden characters is left unchanged |
| FileNames.SanitizeNotInjective | data_operations.py:14-22 | "XBT/USD" and "XBT:USD" map to the same file, so one group's CSV overwrites the other's |
| FileNames.FileName | data_operations.py:19 | the file name is the sanitised symbol followed by `_data.csv` and holds no forbidden character |
| FileNames.DefaultFilePath | data_operations.py:5 | without a save path the file is `./crypto_data/` followed by the file name |
| FileNames.FilePathStaysInDirectory | fetch_pairs_v2_test.py:136 | for a non-empty save directory the path is the directory, an optional '/', then the file name, and the file name holds no '/' |
| Limit.RowLeTotal | data_operations.py:37 | the sort key order is total |
| Limit.RowLeTransitive | data_operations.py:37 | the sort key order is transitive |
| Limit.InsertPermutes | data_operations.py:37 | insertion adds exactly one row |
| Limit.InsertSorted | data_operations.py:37 | insertion keeps a sorted table sorted |
| Limit.SortPermutesAndSorts | data_operations.py:37 | `sort_values` returns a permutation of the rows, sorted by symbol ascending and then timestamp descending |
| Limit.OfSymbolAppend | data_operations.py:40 | a symbol's rows in a concatenation are its rows in each part |
| Limit.OfSymbolSubMultiset | data_operations.py:40 | a symbol's rows are rows of the table and all carry that symbol |
| Limit.OfSymbolSorted | data_operations.py:40 | a symbol's rows of a sorted table are sorted |
| Limit.InsertOfSymbol | data_operations.py:37 | insertion keeps each symbol's rows, with multiplicity |
| Limit.SortOfSymbol | data_operations.py:37 | sorting keeps each symbol's rows, with multiplicity |
| Limit.HeadOfSymbol | data_operations.py:40 | `groupby.head(n)` keeps exactly the first min(n, count) rows of each symbol, in table order |
| Limit.HeadSubMultiset | data_operations.py:40 | `head` only drops rows |
| Limit.HeadSorted | data_operations.py:40 | `head` keeps a sorted table sorted |
| Limit.LimitCounts | data_operations.py:25-42 | each symbol keeps min(`max_instances`, its row count) rows, so no symbol disappears when `max_instances` > 0 |
| Limit.LimitSortedSubset | data_operations.py:37-40 | the result is sorted by symbol ascending and timestamp descending, and holds only input rows, none more often than in the input |
| Limit.KeptAndDropped | data_operations.py:37-40 | a symbol's kept rows are a prefix of its sorted rows, and the dropped ones are exactly the rest |
| Limit.PrefixNotOlder | data_operations.py:37-40 | in a table sorted by the key, every row of one symbol's prefix is at least as recent as every row after it |
| Limit.LimitKeepsLatest | data_operations.py:27-28 | every kept row of a symbol has a timestamp at least that of every dropped row of the same symbol |
| Subscribe.V1RequestFields | test_fetch_pairs.py:57-63 | the v1 request subscribes the given pairs to "ohlc" with interval 1 |
| Subscribe.V2RequestFields | fetch_pairs_v2_test.py:60-73 | the v2 request subscribes to channel "ohlc" with the handler's interval, for the given group when it is non-empty and otherwise exactly ["BTC/USD"]; the symbol list is never empty |
| Handler.OnlyOhlcChannelAddsRows | fetch_pairs_v2_test.py:34-44 | rows are added only for an object frame whose channel is "ohlc", and then they are exactly its `data` list; such a frame with a list payload always adds it |
| Handler.WebSocketHandler.constructor | fetch_pairs_v2_test.py:13-26 | the settings are stored; the groups cover the pairs exactly once, in order, each of at most `chunk_size` pairs; the table starts empty |
| Handler.WebSocketHandler.Default | fetch_pairs_v2_test.py:13 | with its defaults the handler uses the v2 endpoint, groups of 450 pairs and interval 1, and the groups cover the pairs exactly once |
| Handler.WebSocketHandler.ConvertToDataFrame | fetch_pairs_v2_test.py:28-32 | the new rows are put in front of the table |
| Handler.WebSocketHandler.OnMessage | fetch_pairs_v2_test.py:34-44 | only an "ohlc" frame changes the table, by putting its rows in front; every other frame, including one that raises, leaves it unchanged |
| Handler.WebSocketHandler.FlushIfFull | fetch_pairs_v2_test.py:151-153 | above 500 rows the whole table is handed over and reset to empty; otherwise nothing happens; afterwards the table holds at most 500 rows |
| Catalog.FetchKrakenPairs | fetch_kraken_pairs.py:4-23 | a status other than 200 gives `[]`; otherwise the result is the truthy `wsname` values of the decoded "result" dict in its order, a repeated pair name counted once; a missing "result" gives `[]` |
| Catalog.WsNamesAppend | fetch_kraken_pairs.py:14-18 | the collected names of a concatenation are the names of each part, in order |
| Catalog.WsNamesExactly | fetch_kraken_pairs.py:14-18 | a value is listed iff some asset pair has it as a truthy `wsname` |
| Catalog.WsNamesShape | fetch_kraken_pairs.py:14-18 | the list is never longer than the asset pairs, and every listed value is truthy |
| Catalog.FetchedNamesExactly | fetch_kraken_pairs.py:10-18 | from a 200 response, a value is listed iff some pair name, looked up in the decoded body, has it as a truthy `wsname`; the list is never longer than the members of the body |
| Catalog.RepeatedPairListedOnce | fetch_kraken_pairs.py:10-14 | a body naming the same pair twice lists the later `wsname` only, as the decoded dict holds it |

## Left out

- The WebSocket transport, threads, the data lock and `time.sleep` are left out. Each locked block is one sequential step of a class method, so interleavings between connections are not modelled.
- The stop event and the outcome of each `run_forever()` call become inputs of `Backoff.Reconnect`. The sleep becomes the returned list of waits.
- `run_persistent_websocket`, `start_websockets` and the `on_close` hook that calls `reconnect` are transport glue and are not modelled.
- `json.loads` of the text frame is left out: the handlers receive the decoded value. A frame that is not valid JSON raises before any state changes.
- Frames.Convertible: `float()` on a string that is not a number raises, but the model accepts every string. Numbers are exact reals, not IEEE doubles.
- The `utcfromtimestamp(...).strftime(...)` conversion is left out: the entry keeps the decoded timestamp value.
- pandas is modelled only as the rows it holds: `pd.DataFrame`, `pd.concat`, `sort_values`, `groupby(...).head(...)` and `reset_index`. Index values, column dtypes and `to_csv` are left out.
- Handler.ClassifyV2: a `data` payload that is a dict of columns is treated as raising. pandas would build a frame from a dict of lists.
- `os.makedirs`, the `df.groupby("symbol")` loop of `convert_to_csv` and the file writes are left out. The model keeps the file name and path each group is written to.
- Partition.Chunks: a chunk size of 0 makes `range` raise `ValueError`. Both this function and the `WebSocketHandler` constructor require a positive size instead of modelling the exception.
- Limit.LimitSymbolInstances: `max_instances` is a `nat`. pandas gives a negative `head(n)` another meaning, and that is not modelled.
- Catalog.FetchKrakenPairs: the HTTP request becomes a response value with a status and an optional "result" object, kept as its members in body order and turned into a dict as `json.loads` does. A "result" that is present but not a dict, an asset pair that is not a dict, and the write of kraken_pairs.py are left out.
- Handler.WebSocketHandler.FlushIfFull: the main loop reads the table at line 152 and resets it at line 153 without holding `data_lock`. Rows that `convert_to_dataframe` puts in front in between are neither written nor kept. The model runs the two lines as one step, so this lost update is not captured.
- main.py and testing_websocket.py are callers and are not part of this model. The `print` logging of every handler is left out.

## Findings

| source | as written | input that shows it | evidently intended | confidence | as-written member | corrected member |
|---|---|---|---|---|---|---|
| test_fetch_pairs.py:28 | the pair is `data[-1].split('-')[1]`, and fetch_data.py:26 also requires `"ohlc" in data[-1]` | the recorded frame of test_fetch_pairs.py:114-116, whose last element is "XBT/USD": the first handler raises `IndexError`, and the guarded handler ignores the frame | the channel name is `data[-2]` (it must contain "ohlc") and the pair is `data[-1]` itself | high (a deduction from the recorded frame and the Kraken v1 layout), not executed | Frames.SampleFrameLostAsWritten | Frames.SampleFrameCorrected |
| fetch_data.py:31-36 | `open, high, low, close, volume, vwap = ohlc[1..6]` (test_fetch_pairs.py:31-36 is the same) | the same recorded candle `[time, etime, open, high, low, close, vwap, volume, count]`: `open` becomes the end time 1737996720.0 and `volume` the close price 99804.6 | open/high/low/close from positions 2..5, vwap from 6, volume from 7 | high (a deduction from the recorded frame), not executed | Frames.SampleFieldsShiftedAsWritten | Frames.KrakenFrameRoundTrip |
| test_fetch_pairs.py:30 | the handler calls `datetime.utcfromtimestamp`, but the module never imports `datetime` (lines 1-6) | any well-formed list frame `[id, [t, o, h, l, c, v, w], "ohlc-1", "ohlc-XBT"]`: `data[1]` and the pair are read, then `NameError` is raised and the store never changes | `from datetime import datetime`, as fetch_data.py:5 has | high, not executed | Frames.ListFrameRaisesAsWritten | Frames.AnyListUpdateIff |
| test_fetch_pairs.py:109-112 | `convert_to_dataframe` calls `pd.DataFrame` and `pd.concat`, but the module never imports pandas | any store: a non-empty one raises `NameError` at line 109, an empty one at line 112 | `import pandas as pd`, as fetch_data.py:4 has | high, not executed | Store.OhlcStore.ToDataFrameAsWritten | Store.OhlcStore.ToDataFrame |
