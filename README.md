# ClientServer competition model

A Dafny model of the sequential core of the ClientServer competition system.

- **Clients.** Each client belongs to a country. It reads a list of (competitor id, score) pairs from a file. It sends the country id on a line of its own, then sends the pairs in batches of at most 20, one `id,score` line per pair.
- **The server.** It parses each batch into competitors of that country and queues them. On request it computes a per-country ranking, which is cached for `delta_t` milliseconds. Requests that find the cache stale wait on promises, and the next ranking computation fulfils them. At the end the server sorts all competitors by score and writes two files: the competitor ranking and the country totals.
- **The analyser.** A Python performance analyser turns each test run's logs into a record of metrics. It keeps one record per run directory and reports, for each metric, the run with the largest value.

The modules follow the program:

| module | file | models |
|---|---|---|
| `Wrappers` | wrappers.dfy | an `Option` type |
| `Decimal` | decimal.dfy | integers as decimal text, both ways: `std::to_string` and `operator<<`; reading with `sscanf("%d")` and `operator>>(int&)` |
| `Text` | text.dfy | splitting text with `std::getline`; Python's `pat in s` |
| `Wire` | wire.dfy | the `id,score\n` line protocol shared by client and server |
| `ServerTypes` | server_types.dfy | `Competitor`, its `operator<`, and the `ThreadSafeQueue` |
| `Client` | client.dfy | `CompetitionClient`: loading, batching and sending |
| `Server` | server.dfy | `CompetitionServer`: parsing, the ranking cache and promises, the final results |
| `Analyzer` | analyser.dfy | `TestAnalyzer` from `performance_analyser.py` |

Some resolutions of what the code leaves open:

- **Ticket ids for promises.** Each promise the server registers is identified by a ticket number. `promises` lists the waiting tickets. `fulfilled` records the value each fulfilled ticket received.
- **Key order of the country-score map.** `std::unordered_map` does not fix an iteration order. Every serialisation of `country_scores_` therefore returns, as a ghost value, the key order it happened to use. The contracts hold for every such order.
- **`std::sort`.** The final sort is specified only by what `std::sort` guarantees: the result is a permutation of the input, in non-increasing score order. The order among equal scores is not fixed.
- **The countries file.** `final_countries.txt` is written from `countryScores` as the last ranking computation left it, as the code does. Competitors that arrived after that computation are not in it.
- **The analyser's records.** A record is a `map<string, Metric>`. `dict.update` is map union, with the right-hand side taking priority. `test_results` keeps its insertion order in `testOrder`, which is the row order of the report table.

## Model

| member | source | states |
|---|---|---|
| Decimal.IntToString | src/client.cpp:40 | the decimal text of an integer is non-empty and starts with neither white space nor '+', so a '-' or a digit; `NatToDigits`, `DigitsValueOfNat` and `ScanIntString` state what it reads back as |
| Decimal.ScanInt | src/server.cpp:49 | one `%d` or `>>` read: when it succeeds it consumes at least one character and stops within the text; `ScanIntString`, `ScanIntShift`, `ScanIntSkipsSpace` and `ScanIntAtEnd` state which integer it reads |
| Decimal.NatToDigits | src/server.cpp:97 | the decimal text of a natural number is non-empty, all digits, and has no leading zero |
| Decimal.DigitsValueOfNat | src/server.cpp:97 | reading the digits written for `n` gives back `n` |
| Decimal.ScanIntString | src/server.cpp:49 | `%d` at the text of `std::to_string(n)`, when it is not followed by a digit, reads `n` and stops right after the text |
| Decimal.ScanIntShift | src/client.cpp:32 | reading an integer does not depend on the text before the reading position |
| Decimal.ScanIntSkipsSpace | src/client.cpp:32 | leading white space is skipped before an integer is read |
| Decimal.ScanIntAtEnd | src/client.cpp:32 | no integer can be read at end of input |
| Text.NewlineFrom | src/server.cpp:47 | the index of the first '\n' at or after `i`, or the end when there is none |
| Text.Lines | src/server.cpp:47 | no line read by `getline` contains '\n' |
| Text.LinesCons | src/server.cpp:47 | a line followed by '\n' is read as that line, then the lines of the rest |
| Text.Contains | performance_analyser.py:48 | Python's `pat in s`, computed by trying each offset in turn; `ContainsIff` states its meaning |
| Text.ContainsIff | performance_analyser.py:48 | `pat in s` holds exactly when some offset of `s` starts a copy of `pat` |
| Text.LinesOfTerminated | src/server.cpp:173-177 | text written one line at a time, each line ending in '\n', reads back as the lines written |
| Wire.ScanPair | src/server.cpp:49 | one `"%d,%d"` scan of a line: an integer, a ',' right after it, a second integer, or nothing; `ScanPairText` and `ParsedPairsMembers` state what it accepts |
| Wire.PairText | src/client.cpp:40 | the `id,score` text written for one pair: both integers in decimal with a ',' between them; `ScanPairText` states that it scans back to the pair |
| Wire.BatchText | src/client.cpp:38-41 | a batch's text is empty exactly when the batch is, and holds at least four characters per pair; `LinesOfBatch` and `BatchRoundTrip` state its lines |
| Wire.ParsedPairs | src/server.cpp:47-51 | no more pairs are parsed than there are lines |
| Wire.ParsedPairsMembers | src/server.cpp:47-51 | a pair is parsed exactly when some line scans to it with `"%d,%d"` |
| Wire.ParsedPairsAppend | src/server.cpp:47-51 | parsing is line by line: the pairs of two texts are the pairs of each, in order |
| Wire.ScanPairText | src/client.cpp:40 | the `id,score` line written for a pair has no '\n' and scans back to that pair |
| Wire.LinesOfBatch | src/client.cpp:39-41 | a serialised batch has one line per pair, in batch order |
| Wire.BatchRoundTrip | src/client.cpp:39-41 | the server's line parser, run on a serialised batch, returns the batch |
| Wire.BatchTextAppend | src/client.cpp:39-41 | serialising two batches one after the other is serialising their concatenation |
| ServerTypes.Less | src/server.hpp:27-29 | `operator<` on competitors compares only their scores; `LessOrdersByScore` states the order it is |
| ServerTypes.LessOrdersByScore | src/server.hpp:27-29 | `operator<` compares scores only: it is irreflexive, asymmetric and transitive; equal scores are incomparable; the ids play no part |
| ServerTypes.CompetitorQueue.Push | src/server.hpp:44-48 | the item is appended at the back; nothing else changes |
| ServerTypes.CompetitorQueue.TryPop | src/server.hpp:50-56 | empty queue: false, with the queue and `item` unchanged; otherwise true, `item` is the old front, and exactly that element is removed |
| ServerTypes.PushAllThenDrain | src/server.hpp:44-56 | items pushed and then drained with `try_pop` come out in push order, after what was queued before, and the queue ends empty |
| Client.Batches | src/client.cpp:59-64 | the slices the send loop cuts the list into, each holding between 1 and 20 pairs; `BatchesFlatten`, `BatchesCount` and `BatchAt` state which slices |
| Client.BatchesFlatten | src/client.cpp:59-65 | the batches, concatenated, give the competitor list in order |
| Client.BatchesCount | src/client.cpp:59-60 | there are ceil(n / 20) batches, so none when n = 0 |
| Client.BatchAt | src/client.cpp:59-64 | batch k starts at 20k and holds `min(20, n - 20k)` pairs, at least one; every batch but the last holds 20 |
| Client.BatchTexts | src/client.cpp:65 | one message per batch, each the serialisation of its batch |
| Client.BatchesFrom | src/client.cpp:59-65 | the loop step: the batches from index i are the batch at i followed by the batches from i + 20 |
| Client.BatchedTextIsWholeText | src/client.cpp:59-65 | all batch messages together are the serialisation of the whole list, and the server parses them back into that list |
| Client.ReadPairs | src/client.cpp:32-34 | the pairs the loading loop reads from an index on; there are at most half as many as characters left, since each read consumes at least one; `ReadPairsStep`, `ReadPairsNoFirst` and `ReadPairsNoSecond` state the loop's three cases |
| Client.ReadPairsNoFirst | src/client.cpp:32 | a failed id read ends the loading with nothing more read |
| Client.ReadPairsNoSecond | src/client.cpp:32 | a failed score read ends the loading, dropping the id just read |
| Client.ReadPairsStep | src/client.cpp:32-33 | two successful reads append one pair and continue after the second integer |
| Client.ReadPairsShift | src/client.cpp:32-34 | reading pairs does not depend on the text already consumed |
| Client.ReadPairsSkipsSpace | src/client.cpp:32 | white space before a pair is skipped |
| Client.ReadGenerated | src/client.cpp:32-34 | a file of `id score` lines followed by more text is read as its pairs, then what the rest yields |
| Client.GeneratedRoundTrip | src/client.cpp:32-34 | a file of `id score` lines, as the data generator writes it, is read back as exactly its pairs |
| Client.TrailingTokenDropped | src/client.cpp:32-34 | a trailing id without a score is dropped |
| Client.StopsAtFirstFailure | src/client.cpp:32-34 | reading stops at the first id that cannot be read as an integer, and nothing after it is read |
| Client.StopsAtMissingScore | src/client.cpp:32-34 | reading also stops when an id is read but its score cannot be: that id is dropped and nothing after it is read |
| Client.NotANumber | src/client.cpp:32 | a token that starts with neither white space, a sign nor a digit cannot be read as an integer |
| Client.CompetitionClient.constructor | src/client.cpp:3-19 | a client starts with the pairs read from its competitor file and nothing sent |
| Client.CompetitionClient.LoadCompetitors | src/client.cpp:29-35 | the pairs read are appended after the existing entries, in order |
| Client.CompetitionClient.SendCompetitorBatch | src/client.cpp:37-49 | one message is sent: the batch's `id,score\n` lines, in batch order |
| Client.CompetitionClient.SendCompetitorData | src/client.cpp:51-68 | the country id as decimal text and '\n' is sent first, then one message per batch of 20, in order |
| Server.Tagged | src/server.cpp:55-56 | each parsed pair becomes a competitor `{country_id, id, score}` of the sending country, in parse order; `ProcessCompetitorData` states that exactly these are queued |
| Server.AddedMessage | src/server.cpp:58 | the log line recording how many competitors arrived from which country; `ProcessCompetitorData` states that it is appended to the log |
| Server.ParseCompetitorLines | src/server.cpp:44-52 | the pairs kept are, in input order, those of the lines `"%d,%d"` reads two integers from |
| Server.CompetitionServer.constructor | src/server.cpp:3-18 | a server starts with an empty queue, an empty ranking, no promises, and an empty cached ranking stamped at time 0 |
| Server.CompetitionServer.ProcessCompetitorData | src/server.cpp:43-60 | each parsed pair is queued as `{country_id, id, score}` in parse order; the log line records the number parsed |
| Server.CompetitionServer.RequestRanking | src/server.cpp:62-84 | within `delta_t` ms of the cache stamp, the cached ranking is returned and nothing changes; otherwise exactly one new promise is registered, and its ticket is not yet fulfilled |
| Server.CountryScore | src/server.cpp:92-93 | the sum of the scores of one country's competitors in the ranking; `CountryScoreAbsent`, `TotalSplit` and `ScoreWithout` state its properties |
| Server.CountryTotals | src/server.cpp:90-94 | the reference totals: one entry per country of the ranking, holding the sum of its competitors' scores; `CountryTotalsSnoc`, `TotalsAddUp` and `SumByCountry` state its properties and tie it to the loop |
| Server.CountryScoreAbsent | src/server.cpp:93 | a country with no competitors has total 0, the value `operator[]` starts from |
| Server.CountryTotalsSnoc | src/server.cpp:92-94 | one `+=` step adds the competitor's score to its country's entry, creating the entry at 0 first if needed |
| Server.SumByCountry | src/server.cpp:90-94 | starting from an empty map, the loop leaves one entry per country of the ranking, holding the sum of that country's scores |
| Server.TotalSplit | src/server.cpp:92-94 | removing one country's competitors removes exactly that country's total from the overall sum |
| Server.ScoreWithout | src/server.cpp:92-94 | removing one country's competitors leaves every other country's total unchanged |
| Server.TotalsAddUp | src/server.cpp:90-94 | the country totals, summed in any iteration order, equal the total of all scores |
| Server.SerializeScores | src/server.cpp:96-99 | the ranking text has one `country,total\n` line per map entry, in some order that visits every key once |
| Server.RankingRoundTrip | src/server.cpp:96-99 | parsing the ranking returns one pair per country, each `(country, total)`, and every country appears |
| Server.Fulfil | src/server.cpp:112-114 | every drained promise is fulfilled with the same ranking |
| Server.CompetitionServer.CalculateRankings | src/server.cpp:86-115 | the scores are rebuilt from the ranking alone; the cache holds the new ranking stamped `now`; every promise that was waiting is fulfilled with it; none waits afterwards |
| Server.InsertByScore | src/server.cpp:167-170 | inserting into a list sorted by non-increasing score keeps it sorted and adds exactly that competitor |
| Server.SortByScoreDesc | src/server.cpp:167-170 | the result is sorted by non-increasing score and is a permutation of the input |
| Server.RankingLine | src/server.cpp:174-176 | one competitor's line of the competitors file: country, id and score in decimal, separated by commas; `FinalCompetitorLines` states that the file reads back as these lines |
| Server.WriteRanking | src/server.cpp:172-177 | the file text is one `country,competitor,score\n` line per competitor, in ranking order |
| Server.FinalCompetitorLines | src/server.cpp:173-177 | the competitors file, read back line by line, has one line per competitor, in ranking order |
| Server.CompetitionServer.SaveFinalRankings | src/server.cpp:166-183 | the ranking becomes a score-sorted permutation of itself; both files are written from it and from the current country scores |
| Server.CompetitionServer.SendFinalResults | src/server.cpp:150-164 | the reply is the competitors file, '\n', then the countries file; the log records it |
| Analyzer.CountContaining | performance_analyser.py:48-51 | a count is never more than the number of lines |
| Analyzer.CountIsMatchingLines | performance_analyser.py:48-51 | a count is the number of distinct lines holding the marker |
| Analyzer.AnalyzeServerLog | performance_analyser.py:43-54 | the log record has exactly the four count keys; `ServerLogCounts` states what each count is |
| Analyzer.ServerLogCounts | performance_analyser.py:43-54 | exactly the four keys, each the number of lines with its marker, each at most the number of lines, all 0 for an empty log |
| Analyzer.OneLineTwoCounts | performance_analyser.py:49-50 | the markers are counted independently: one line can count as both a ranking sent and final results sent |
| Analyzer.LastStampIsLast | performance_analyser.py:62-66 | the last marked line wins; without a marked line there is no time |
| Analyzer.BothMarkersCountAsStart | performance_analyser.py:63-66 | a line with both markers sets the start time only, because of the `elif` |
| Analyzer.NoStartNoRuntime | performance_analyser.py:68-70 | without a start line the runtime is 0 |
| Analyzer.Marks | performance_analyser.py:63-66 | which branch of the `if`/`elif` a line takes: the start marker wins over the shutdown marker; `BothMarkersCountAsStart` states it |
| Analyzer.LastStamp | performance_analyser.py:60-66 | the time of the last line holding a marker, scanning in file order; `LastStampIsLast` states it |
| Analyzer.Runtime | performance_analyser.py:60-70 | the end time minus the start time when both were seen, else 0; `NoStartNoRuntime` and `BothMarkersCountAsStart` state its cases |
| Analyzer.AnalyzeServerOutput | performance_analyser.py:56-72 | the only key is `total_runtime`: end minus start, unclamped, when both markers were seen, otherwise 0 |
| Analyzer.AnalyzeTest | performance_analyser.py:22-41 | the record is the defaults, overlaid by the log metrics and then by the runtime, each only when its file exists |
| Analyzer.OutputFileName | performance_analyser.py:24 | the name of a run's server output file, built from the run directory's name; `AnalyzeTest` and `TestMetricsFields` state when it is read |
| Analyzer.Defaults | performance_analyser.py:26-33 | the record every run starts from: the timestamp `now` and five numeric metrics at 0; `TestMetricsFields` states which of them survive |
| Analyzer.TestMetrics | performance_analyser.py:22-41 | the reference record of one run; `TestMetricsFields` states its fields |
| Analyzer.TestMetricsFields | performance_analyser.py:26-41 | the record always has the six default keys; numeric defaults stay 0 unless replaced; the log's `errors` replaces the default; `total_runtime` is present exactly when the output file exists |
| Analyzer.Recorded | performance_analyser.py:16-20 | the reference table after a listing: each directory's record stored under its name in listing order; `RecordedKeys` and `RecordedValue` state its contents |
| Analyzer.RecordedKeys | performance_analyser.py:16-20 | exactly one key is added per directory entry; files add none; other keys keep their records |
| Analyzer.RecordedValue | performance_analyser.py:16-20 | a directory's record is the analysis of that directory |
| Analyzer.NewNames | performance_analyser.py:17-20 | the names a listing adds to the table, in dict insertion order: each directory name not yet present, at its first appearance; `NewNamesMembers` states its contents |
| Analyzer.NewNamesMembers | performance_analyser.py:17-20 | the names a listing adds to the table are exactly its directory names not already present, each once |
| Analyzer.TestAnalyzer.constructor | performance_analyser.py:11-14 | the table starts empty and is filled from the listing; its row order is the listing order of the directories, each at its first appearance |
| Analyzer.TestAnalyzer.ProcessAllTests | performance_analyser.py:16-20 | the table gains the directories' records; the existing rows keep their place and the new names follow them in listing order, as a dict's insertion order gives |
| Analyzer.Column | performance_analyser.py:105 | the values of one metric in row order, missing where a record has no number for it; it has one entry per row |
| Analyzer.IdxMax | performance_analyser.py:105 | the first position holding the largest value, ignoring missing values; none exactly when every value is missing |
| Analyzer.BestRun | performance_analyser.py:105-106 | the row `idxmax` picks for one metric with the column's maximum, or none; `BestRunIsFirstMax` states its meaning |
| Analyzer.BestLines | performance_analyser.py:103-106 | one best-run entry for each column except `timestamp`, in column order; `BestConfigurations` computes it with a loop |
| Analyzer.BestRunIsFirstMax | performance_analyser.py:103-106 | the run reported for a metric has the metric's largest value, and no earlier row has that value |
| Analyzer.TestAnalyzer.BestConfigurations | performance_analyser.py:102-106 | one best-run entry for every column except `timestamp`, in column order |

## Left out

- Networking and concurrency are not modelled. That covers sockets, `async_accept`, `read_until` and `write`, the thread pools, mutexes and atomics, `wait_and_pop`, `process_queue`, the client's deadline timer, and `sleep_for`. Each operation is modelled as one sequential step, and the caller makes every call directly. The `boost::asio::post` of `calculate_rankings` from `request_ranking` is not modelled either, so `CalculateRankings` is called on its own.
- `final_ranking_` is filled only by the writer threads' `process_queue` loop, which is not in the model. `finalRanking` is therefore state that the caller sets.
- The message dispatch in `handle_client_data` is not modelled, and neither are its log lines ("Client connected", "Sent ranking", "Error handling"). It is socket I/O.
- Write errors, and the exceptions they raise, are not modelled. A batch or message that is written is recorded in `sent`.
- File I/O is modelled by contents only. A file's contents are a string, or a sequence of lines for `readlines()`. A file that cannot be opened reads as empty text for the C++ streams, which is what `ifstream` gives. `final_competitors.txt` and `final_countries.txt` are fields holding what was written. The file read in `send_final_results` is assumed to return exactly what `save_final_rankings` wrote.
- Directory listings are a sequence of entries. Each entry has a name, a directory flag and the files it contains. `os.path.exists` is membership of a file name in that map.
- `extract_timestamp` is not part of this model, because the file does not define it. It is the parameter `extractTimestamp`, which maps a line to a time in integer seconds. A `datetime` is always truthy, so `start_time and end_time` is modelled as "both markers were seen".
- `datetime.now()` and `steady_clock::now()` are parameters: `now`, and the clock `clock(k)` for the k-th listing entry. Times are integers, and elapsed times are integer milliseconds for the cache rule.
- Floating point is not modelled: `total_seconds()` is an integer difference. The mean section and the `:.2f` formatting of the summary report are left out.
- pandas, matplotlib and seaborn are not modelled: plotting and CSV export are left out.
- The DataFrame's column order is given as the `columns` parameter of `BestConfigurations`. Which columns exist, and in what order, would come from pandas' union of record keys, and that is not modelled.
- C++ `int` is unbounded here. Overflow in `sscanf`, in `operator>>` and in `+=` is undefined behaviour, or a failed read, in the source. No overflow is modelled.
- Server.SortByScoreDesc: this is one particular sort, an insertion sort that keeps ties in order. `SaveFinalRankings` promises only what `std::sort` does: a sorted permutation.
- `data_generator.py`, `client_main.cpp` and `server_main.cpp` are not modelled. The generator's file format appears only as the `GeneratedText` input of the client's read lemmas.
