/**
 * The performance analyser that turns the logs of each test run into a
 * record of metrics, collects one record per run directory and picks, for
 * every metric, the run with the largest value.
 */
module Analyzer {
  import opened Wrappers
  import opened Text

  /** A metric value: the time a record was made, or a number. */
  datatype Metric = Time(at: int) | Num(n: int)

  type Metrics = map<string, Metric>

  // ---------------------------------------------------------------------
  // analyze_server_log

  /** The number of lines in which `pat` occurs. */
  function CountContaining(content: seq<string>, pat: string): (r: nat)
    ensures r <= |content|
  {
    if content == [] then 0
    else
      CountContaining(content[..|content| - 1], pat)
        + (if Contains(content[|content| - 1], pat) then 1 else 0)
  }

  /** The positions of the lines of `content` in which `pat` occurs. */
  ghost function MatchingLines(content: seq<string>, pat: string): set<nat>
  {
    set k: nat | k < |content| && Contains(content[k], pat)
  }

  /** The count is the number of matching lines, each line counted once. */
  lemma {:induction false} CountIsMatchingLines(content: seq<string>, pat: string)
    ensures CountContaining(content, pat) == |MatchingLines(content, pat)|
  {
    if content != [] {
      var init := content[..|content| - 1];
      CountIsMatchingLines(init, pat);
      MatchingLinesSnoc(content, pat);
    }
  }

  /** The last line adds its own position to the matches of the lines before it, or nothing. */
  lemma MatchingLinesSnoc(content: seq<string>, pat: string)
    requires content != []
    ensures |MatchingLines(content, pat)| == |MatchingLines(content[..|content| - 1], pat)|
      + (if Contains(content[|content| - 1], pat) then 1 else 0)
  {
    var init := content[..|content| - 1];
    var n := |init|;
    var before := MatchingLines(init, pat);
    var here: set<nat> := if Contains(content[n], pat) then {n} else {};
    assert MatchingLines(content, pat) == before + here by {
      forall k: nat | k in MatchingLines(content, pat) ensures k in before + here {
        if k < n {
          assert init[k] == content[k];
        }
      }
      forall k: nat | k in before ensures k in MatchingLines(content, pat) {
        assert init[k] == content[k];
      }
    }
    assert n !in before;
    assert |before + here| == |before| + |here|;
  }

  /** `analyze_server_log`: four independent substring counts over the lines. */
  function AnalyzeServerLog(content: seq<string>): (r: Metrics)
    ensures r.Keys == {"data_receipts", "rankings_sent", "final_results_sent", "errors"}
  {
    map[
      "data_receipts" := Num(CountContaining(content, "Added")),
      "rankings_sent" := Num(CountContaining(content, "Sent ranking")),
      "final_results_sent" := Num(CountContaining(content, "Sent final results")),
      "errors" := Num(CountContaining(content, "Error"))
    ]
  }

  /**
   * The four keys of the log metrics; each is the number of lines holding its
   * marker, at most the number of lines, and 0 for an empty log.  The markers
   * are counted separately: one line can count for several of them.
   */
  lemma ServerLogCounts(content: seq<string>)
    ensures AnalyzeServerLog(content).Keys == {"data_receipts", "rankings_sent", "final_results_sent", "errors"}
    ensures AnalyzeServerLog(content)["data_receipts"] == Num(|MatchingLines(content, "Added")|)
    ensures AnalyzeServerLog(content)["rankings_sent"] == Num(|MatchingLines(content, "Sent ranking")|)
    ensures AnalyzeServerLog(content)["final_results_sent"] == Num(|MatchingLines(content, "Sent final results")|)
    ensures AnalyzeServerLog(content)["errors"] == Num(|MatchingLines(content, "Error")|)
    ensures forall k :: k in AnalyzeServerLog(content) ==>
      AnalyzeServerLog(content)[k].Num? && 0 <= AnalyzeServerLog(content)[k].n <= |content|
    ensures content == [] ==> forall k :: k in AnalyzeServerLog(content) ==> AnalyzeServerLog(content)[k] == Num(0)
  {
    CountIsMatchingLines(content, "Added");
    CountIsMatchingLines(content, "Sent ranking");
    CountIsMatchingLines(content, "Sent final results");
    CountIsMatchingLines(content, "Error");
  }

  /**
   * The markers are counted separately: a line that reports both a ranking
   * and final results counts once for each.
   */
  lemma OneLineTwoCounts(line: string)
    requires Contains(line, "Sent ranking") && Contains(line, "Sent final results")
    ensures AnalyzeServerLog([line])["rankings_sent"] == Num(1)
    ensures AnalyzeServerLog([line])["final_results_sent"] == Num(1)
  {
    assert [line][..0] == [];
  }

  // ---------------------------------------------------------------------
  // analyze_server_output

  datatype Marker = Start | Shutdown

  /**
   * Which branch of the `if`/`elif` a line takes: a line with "Starting
   * server" is a start line, even when it also says "Shutting down".
   */
  predicate Marks(line: string, m: Marker)
  {
    match m
    case Start => Contains(line, "Starting server")
    case Shutdown => !Contains(line, "Starting server") && Contains(line, "Shutting down")
  }

  /** The timestamp of the last line of `content` marked `m`, if any. */
  function LastStamp(content: seq<string>, m: Marker, extractTimestamp: string -> int): Option<int>
  {
    if content == [] then None
    else if Marks(content[|content| - 1], m) then Some(extractTimestamp(content[|content| - 1]))
    else LastStamp(content[..|content| - 1], m, extractTimestamp)
  }

  /**
   * The last match wins: the stamp is that of a marked line after which no
   * line is marked, and there is none exactly when no line is marked.
   */
  lemma {:induction false} LastStampIsLast(content: seq<string>, m: Marker, extractTimestamp: string -> int)
    ensures LastStamp(content, m, extractTimestamp).None? <==> forall j :: 0 <= j < |content| ==> !Marks(content[j], m)
    ensures LastStamp(content, m, extractTimestamp).Some? ==>
      exists k :: 0 <= k < |content| && Marks(content[k], m)
        && LastStamp(content, m, extractTimestamp).value == extractTimestamp(content[k])
        && forall j :: k < j < |content| ==> !Marks(content[j], m)
  {
    if content != [] {
      var n := |content| - 1;
      var init := content[..n];
      LastStampIsLast(init, m, extractTimestamp);
      if !Marks(content[n], m) {
        forall j | 0 <= j < n ensures init[j] == content[j] { }
      }
    }
  }

  /**
   * `total_runtime`: end minus start when both markers were seen, not
   * clamped, so a shutdown logged before the last start gives a negative
   * value; 0 when either marker is missing.
   */
  function Runtime(content: seq<string>, extractTimestamp: string -> int): int
  {
    match (LastStamp(content, Start, extractTimestamp), LastStamp(content, Shutdown, extractTimestamp))
    case (Some(s), Some(e)) => e - s
    case _ => 0
  }

  /** A line with both markers sets the start time and leaves the end time as it was. */
  lemma BothMarkersCountAsStart(content: seq<string>, line: string, extractTimestamp: string -> int)
    requires Contains(line, "Starting server") && Contains(line, "Shutting down")
    ensures LastStamp(content + [line], Start, extractTimestamp) == Some(extractTimestamp(line))
    ensures LastStamp(content + [line], Shutdown, extractTimestamp) == LastStamp(content, Shutdown, extractTimestamp)
  {
    assert (content + [line])[..|content|] == content;
  }

  /** Without a start line the runtime is 0, whatever the shutdown lines say. */
  lemma NoStartNoRuntime(content: seq<string>, extractTimestamp: string -> int)
    requires forall j :: 0 <= j < |content| ==> !Contains(content[j], "Starting server")
    ensures Runtime(content, extractTimestamp) == 0
  {
    LastStampIsLast(content, Start, extractTimestamp);
  }

  /**
   * `analyze_server_output`: one pass over the lines, overwriting the start
   * and end times at every marked line.
   */
  method AnalyzeServerOutput(content: seq<string>, extractTimestamp: string -> int) returns (metrics: Metrics)
    ensures metrics == map["total_runtime" := Num(Runtime(content, extractTimestamp))]
  {
    var startTime: Option<int> := None;
    var endTime: Option<int> := None;
    for i := 0 to |content|
      invariant startTime == LastStamp(content[..i], Start, extractTimestamp)
      invariant endTime == LastStamp(content[..i], Shutdown, extractTimestamp)
    {
      var line := content[i];
      assert content[..i + 1][..i] == content[..i] && content[..i + 1][i] == line;
      if Contains(line, "Starting server") {
        startTime := Some(extractTimestamp(line));
      } else if Contains(line, "Shutting down") {
        endTime := Some(extractTimestamp(line));
      }
    }
    assert content[..|content|] == content;
    var runtime := if startTime.Some? && endTime.Some? then endTime.value - startTime.value else 0;
    metrics := map["total_runtime" := Num(runtime)];
  }

  // ---------------------------------------------------------------------
  // analyze_test

  /** A directory entry of the results directory and, for a directory, the files in it. */
  datatype Entry = Entry(name: string, isDir: bool, files: map<string, seq<string>>)

  /** The file of a run's server output, named after the run directory. */
  function OutputFileName(name: string): string
  {
    "server_output_" + name + ".log"
  }

  const DefaultKeys: set<string> :=
    {"timestamp", "total_processing_time", "requests_processed", "avg_response_time", "throughput", "errors"}

  /** The record every run starts from, stamped `now`. */
  function Defaults(now: int): Metrics
  {
    map[
      "timestamp" := Time(now),
      "total_processing_time" := Num(0),
      "requests_processed" := Num(0),
      "avg_response_time" := Num(0),
      "throughput" := Num(0),
      "errors" := Num(0)
    ]
  }

  /** The record of one run: the defaults, overlaid by whichever analyses have a file. */
  function TestMetrics(entry: Entry, now: int, extractTimestamp: string -> int): Metrics
  {
    var withLog := if "server_log.txt" in entry.files
      then Defaults(now) + AnalyzeServerLog(entry.files["server_log.txt"])
      else Defaults(now);
    if OutputFileName(entry.name) in entry.files
    then withLog + map["total_runtime" := Num(Runtime(entry.files[OutputFileName(entry.name)], extractTimestamp))]
    else withLog
  }

  /**
   * `analyze_test`: the defaults are built, then `update`d with the log
   * metrics when `server_log.txt` exists and with the runtime when the
   * output file exists.
   */
  method AnalyzeTest(entry: Entry, now: int, extractTimestamp: string -> int) returns (metrics: Metrics)
    ensures metrics == TestMetrics(entry, now, extractTimestamp)
  {
    metrics := Defaults(now);
    if "server_log.txt" in entry.files {
      metrics := metrics + AnalyzeServerLog(entry.files["server_log.txt"]);
    }
    var output := OutputFileName(entry.name);
    if output in entry.files {
      var runtime := AnalyzeServerOutput(entry.files[output], extractTimestamp);
      metrics := metrics + runtime;
    }
  }

  /**
   * What a run's record holds: always the six default keys, with the
   * timestamp `now` and the numeric ones 0 unless an analysis replaced them;
   * the log counts exactly when the log exists (its `errors` replacing the
   * default); `total_runtime` exactly when the output file exists.
   */
  lemma TestMetricsFields(entry: Entry, now: int, extractTimestamp: string -> int)
    ensures DefaultKeys <= TestMetrics(entry, now, extractTimestamp).Keys
    ensures TestMetrics(entry, now, extractTimestamp)["timestamp"] == Time(now)
    ensures forall k :: k in {"total_processing_time", "requests_processed", "avg_response_time", "throughput"} ==>
      TestMetrics(entry, now, extractTimestamp)[k] == Num(0)
    ensures "server_log.txt" in entry.files ==>
      forall k :: k in AnalyzeServerLog(entry.files["server_log.txt"]) ==>
        TestMetrics(entry, now, extractTimestamp)[k] == AnalyzeServerLog(entry.files["server_log.txt"])[k]
    ensures "server_log.txt" !in entry.files ==>
      TestMetrics(entry, now, extractTimestamp)["errors"] == Num(0)
      && "data_receipts" !in TestMetrics(entry, now, extractTimestamp)
    ensures ("total_runtime" in TestMetrics(entry, now, extractTimestamp)) <==> OutputFileName(entry.name) in entry.files
    ensures OutputFileName(entry.name) in entry.files ==>
      TestMetrics(entry, now, extractTimestamp)["total_runtime"]
        == Num(Runtime(entry.files[OutputFileName(entry.name)], extractTimestamp))
  {
    var d := Defaults(now);
    var withLog := if "server_log.txt" in entry.files
      then d + AnalyzeServerLog(entry.files["server_log.txt"])
      else d;
    assert DefaultKeys <= withLog.Keys;
    assert "total_runtime" !in withLog;
  }

  // ---------------------------------------------------------------------
  // process_all_tests

  /**
   * The results after the entries of `entries` were visited in order; the
   * `k`-th entry's record is stamped `clock(k)`.
   */
  function Recorded(results: map<string, Metrics>, entries: seq<Entry>, clock: nat -> int,
                    extractTimestamp: string -> int): map<string, Metrics>
  {
    if entries == [] then results
    else
      var n := |entries| - 1;
      var before := Recorded(results, entries[..n], clock, extractTimestamp);
      if entries[n].isDir then before[entries[n].name := TestMetrics(entries[n], clock(n), extractTimestamp)]
      else before
  }

  /** The names of the directories among the first entries. */
  function DirNames(entries: seq<Entry>): set<string>
  {
    set k | 0 <= k < |entries| && entries[k].isDir :: entries[k].name
  }

  /**
   * The results gain exactly one key per directory entry; plain files add
   * nothing, and keys that no directory names keep their records.
   */
  lemma {:induction false} RecordedKeys(results: map<string, Metrics>, entries: seq<Entry>, clock: nat -> int,
                                        extractTimestamp: string -> int)
    ensures Recorded(results, entries, clock, extractTimestamp).Keys == results.Keys + DirNames(entries)
    ensures forall name :: name in results && name !in DirNames(entries) ==>
      Recorded(results, entries, clock, extractTimestamp)[name] == results[name]
  {
    if entries != [] {
      var n := |entries| - 1;
      RecordedKeys(results, entries[..n], clock, extractTimestamp);
      DirNamesSnoc(entries);
    }
  }

  lemma DirNamesSnoc(entries: seq<Entry>)
    requires entries != []
    ensures DirNames(entries) == DirNames(entries[..|entries| - 1])
      + (if entries[|entries| - 1].isDir then {entries[|entries| - 1].name} else {})
  {
    var n := |entries| - 1;
    var init := entries[..n];
    forall name | name in DirNames(entries)
      ensures name in DirNames(init) + (if entries[n].isDir then {entries[n].name} else {})
    {
      var k :| 0 <= k < |entries| && entries[k].isDir && entries[k].name == name;
      if k < n {
        assert init[k] == entries[k];
      }
    }
    forall name | name in DirNames(init) ensures name in DirNames(entries) {
      var k :| 0 <= k < n && init[k].isDir && init[k].name == name;
      assert entries[k] == init[k];
    }
  }

  /**
   * The directory names of `entries` that are not in `known`, each at its
   * first appearance, in listing order: the keys a dict with keys `known`
   * gains, in insertion order, when the listing's directories are stored.
   */
  function NewNames(known: set<string>, entries: seq<Entry>): seq<string>
  {
    if entries == [] then []
    else
      var n := |entries| - 1;
      var before := NewNames(known, entries[..n]);
      if entries[n].isDir && entries[n].name !in known && entries[n].name !in DirNames(entries[..n])
      then before + [entries[n].name]
      else before
  }

  /** The new names are exactly the directory names not already known, each listed once. */
  lemma {:induction false} NewNamesMembers(known: set<string>, entries: seq<Entry>)
    ensures forall name :: name in NewNames(known, entries) <==> name in DirNames(entries) && name !in known
    ensures forall i, j :: 0 <= i < j < |NewNames(known, entries)| ==> NewNames(known, entries)[i] != NewNames(known, entries)[j]
  {
    if entries != [] {
      var n := |entries| - 1;
      NewNamesMembers(known, entries[..n]);
      DirNamesSnoc(entries);
    }
  }

  /**
   * The record kept under a directory's name is the analysis of the last
   * directory entry of that name (the only one, for a real listing).
   */
  lemma {:induction false} RecordedValue(results: map<string, Metrics>, entries: seq<Entry>, clock: nat -> int,
                                         extractTimestamp: string -> int, k: nat)
    requires k < |entries| && entries[k].isDir
    requires forall j :: k < j < |entries| && entries[j].isDir ==> entries[j].name != entries[k].name
    ensures entries[k].name in Recorded(results, entries, clock, extractTimestamp)
    ensures Recorded(results, entries, clock, extractTimestamp)[entries[k].name]
      == TestMetrics(entries[k], clock(k), extractTimestamp)
  {
    var n := |entries| - 1;
    if k < n {
      var init := entries[..n];
      assert init[k] == entries[k];
      RecordedValue(results, init, clock, extractTimestamp, k);
    }
  }

  // ---------------------------------------------------------------------
  // Best run per metric

  /**
   * `Series.idxmax()`: the position of the first largest value, skipping
   * missing ones; none when every value is missing.
   */
  function IdxMax(vals: seq<Option<int>>): (r: Option<nat>)
    ensures r.None? <==> forall j :: 0 <= j < |vals| ==> vals[j].None?
    ensures r.Some? ==> r.value < |vals| && vals[r.value].Some?
    ensures r.Some? ==> forall j :: 0 <= j < |vals| && vals[j].Some? ==> vals[j].value <= vals[r.value].value
    ensures r.Some? ==> forall j :: 0 <= j < r.value && vals[j].Some? ==> vals[j].value < vals[r.value].value
  {
    if vals == [] then None
    else
      var n := |vals| - 1;
      var init := vals[..n];
      var best := IdxMax(init);
      assert forall j :: 0 <= j < n ==> init[j] == vals[j];
      if vals[n].Some? && (best.None? || vals[n].value > vals[best.value].value) then Some(n)
      else best
  }

  /** The value of `metric` in each row of the table, in row order; missing when a record has no number for it. */
  function Column(results: map<string, Metrics>, rows: seq<string>, metric: string): (col: seq<Option<int>>)
    ensures |col| == |rows|
  {
    seq(|rows|, k requires 0 <= k < |rows| =>
      if rows[k] in results && metric in results[rows[k]] && results[rows[k]][metric].Num?
      then Some(results[rows[k]][metric].n) else None)
  }

  /** The best run of `metric`: the row label `idxmax` picks, with the column's maximum. */
  function BestRun(results: map<string, Metrics>, rows: seq<string>, metric: string): Option<(string, int)>
  {
    var col := Column(results, rows, metric);
    match IdxMax(col)
    case None => None
    case Some(k) => Some((rows[k], col[k].value))
  }

  /**
   * The run reported for a metric has that metric's largest value over all
   * runs, and no earlier row has the same value; there is one exactly when
   * some run has a number for the metric.
   */
  lemma BestRunIsFirstMax(results: map<string, Metrics>, rows: seq<string>, metric: string)
    ensures BestRun(results, rows, metric).None? <==> forall k :: 0 <= k < |rows| ==> Column(results, rows, metric)[k].None?
    ensures BestRun(results, rows, metric).Some? ==>
      exists k :: 0 <= k < |rows| && Column(results, rows, metric)[k].Some?
        && BestRun(results, rows, metric) == Some((rows[k], Column(results, rows, metric)[k].value))
        && (forall j :: 0 <= j < |rows| && Column(results, rows, metric)[j].Some? ==>
              Column(results, rows, metric)[j].value <= Column(results, rows, metric)[k].value)
        && (forall j :: 0 <= j < k && Column(results, rows, metric)[j].Some? ==>
              Column(results, rows, metric)[j].value < Column(results, rows, metric)[k].value)
  {
    var col := Column(results, rows, metric);
    var r := IdxMax(col);
    if r.Some? {
      var k := r.value;
      assert BestRun(results, rows, metric) == Some((rows[k], col[k].value));
    }
  }

  // ---------------------------------------------------------------------
  // The analyser

  class TestAnalyzer {
    /** `test_results`, keyed by run directory. */
    var testResults: map<string, Metrics>
    /** The insertion order of `test_results`: the row order of the table. */
    var testOrder: seq<string>

    ghost predicate Valid()
      reads this
    {
      (forall i, j :: 0 <= i < j < |testOrder| ==> testOrder[i] != testOrder[j]) &&
      (forall name :: name in testResults <==> name in testOrder)
    }

    /** `TestAnalyzer(results_dir)`: an empty table, then `process_all_tests`. */
    constructor (entries: seq<Entry>, clock: nat -> int, extractTimestamp: string -> int)
      ensures Valid()
      ensures testResults == Recorded(map[], entries, clock, extractTimestamp)
      ensures testOrder == NewNames({}, entries)
    {
      testResults := map[];
      testOrder := [];
      new;
      assert testResults.Keys == {};
      ProcessAllTests(entries, clock, extractTimestamp);
      assert [] + NewNames({}, entries) == NewNames({}, entries);
    }

    /**
     * `process_all_tests`: every entry that is a directory gets its record,
     * analysed at time `clock(k)`; a name seen for the first time joins the
     * row order at the end.
     */
    method ProcessAllTests(entries: seq<Entry>, clock: nat -> int, extractTimestamp: string -> int)
      requires Valid()
      modifies this
      ensures Valid()
      ensures testResults == Recorded(old(testResults), entries, clock, extractTimestamp)
      ensures testOrder == old(testOrder) + NewNames(old(testResults).Keys, entries)
    {
      for i := 0 to |entries|
        invariant Valid()
        invariant testResults == Recorded(old(testResults), entries[..i], clock, extractTimestamp)
        invariant testOrder == old(testOrder) + NewNames(old(testResults).Keys, entries[..i])
      {
        var entry := entries[i];
        assert entries[..i + 1][..i] == entries[..i] && entries[..i + 1][i] == entry;
        RecordedKeys(old(testResults), entries[..i], clock, extractTimestamp);
        if entry.isDir {
          var metrics := AnalyzeTest(entry, clock(i), extractTimestamp);
          if entry.name !in testResults {
            testOrder := testOrder + [entry.name];
          }
          testResults := testResults[entry.name := metrics];
        }
      }
      assert entries[..|entries|] == entries;
    }

    /**
     * The "Best Configurations" section of `generate_summary_report`: for
     * every column but `timestamp`, in column order, the metric, the run
     * `idxmax` picks and the column's maximum.
     */
    method BestConfigurations(columns: seq<string>) returns (best: seq<(string, Option<(string, int)>)>)
      ensures best == BestLines(testResults, testOrder, columns)
    {
      best := [];
      for i := 0 to |columns|
        invariant best == BestLines(testResults, testOrder, columns[..i])
      {
        assert columns[..i + 1][..i] == columns[..i] && columns[..i + 1][i] == columns[i];
        if columns[i] != "timestamp" {
          best := best + [(columns[i], BestRun(testResults, testOrder, columns[i]))];
        }
      }
      assert columns[..|columns|] == columns;
    }
  }

  /** The best run of each column but `timestamp`, in column order. */
  function BestLines(results: map<string, Metrics>, rows: seq<string>, columns: seq<string>): seq<(string, Option<(string, int)>)>
  {
    if columns == [] then []
    else
      var n := |columns| - 1;
      BestLines(results, rows, columns[..n])
        + (if columns[n] != "timestamp" then [(columns[n], BestRun(results, rows, columns[n]))] else [])
  }
}
