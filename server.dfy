/**
 * The competition server: the batches of `id,score` lines clients send are
 * parsed and queued, the per-country ranking is computed and cached for
 * `deltaT` milliseconds, and the final results are sorted and written out.
 */
module Server {
  import opened Wrappers
  import opened Decimal
  import opened Text
  import opened Wire
  import opened ServerTypes

  /** `RankingCache`: the last ranking text and the time (in ms) it was computed. */
  datatype RankingCache = RankingCache(timestamp: int, rankingData: string)

  /**
   * What `request_ranking` returns: a future that is already set, or one that
   * is set when the promise registered under `ticket` is fulfilled.
   */
  datatype Future = Ready(value: string) | Pending(ticket: nat)

  /** The parsed pairs of one client, tagged with that client's country. */
  function Tagged(countryId: int, pairs: seq<Pair>): seq<Competitor>
  {
    seq(|pairs|, k requires 0 <= k < |pairs| => Competitor(countryId, pairs[k].0, pairs[k].1))
  }

  /** The log line written after a batch of `n` competitors is queued. */
  function AddedMessage(n: int, countryId: int): string
  {
    "Added " + IntToString(n) + " competitors from country " + IntToString(countryId)
  }

  /**
   * The `getline` / `sscanf` loop of `process_competitor_data`: every line of
   * `data` that starts with two integers separated by ',' contributes one
   * pair, in the order of the lines.
   */
  method ParseCompetitorLines(data: string) returns (competitors: seq<Pair>)
    ensures competitors == ParsedPairs(Lines(data))
  {
    competitors := [];
    var rest := data;
    while rest != []
      invariant competitors + ParsedPairs(Lines(rest)) == ParsedPairs(Lines(data))
      decreases |rest|
    {
      var k := NewlineFrom(rest, 0);
      var line := rest[..k];
      LinesStep(rest);
      var next := if k == |rest| then [] else rest[k + 1..];
      assert Lines(rest) == [line] + Lines(next) by {
        if k == |rest| {
          assert line == rest;
        }
      }
      ParsedPairsAppend([line], Lines(next));
      AppendAssoc(competitors, ParsedPairs([line]), ParsedPairs(Lines(next)));
      competitors := competitors + ParsedPairs([line]);
      rest := next;
    }
  }

  // ---------------------------------------------------------------------
  // Country totals

  /** The total score of the competitors of country `c` in `rs`. */
  function CountryScore(rs: seq<Competitor>, c: int): int
  {
    if rs == [] then 0
    else CountryScore(rs[..|rs| - 1], c) + (if rs[|rs| - 1].countryId == c then rs[|rs| - 1].score else 0)
  }

  /** The countries that have at least one competitor in `rs`. */
  function Countries(rs: seq<Competitor>): set<int>
  {
    set k | 0 <= k < |rs| :: rs[k].countryId
  }

  /** One entry per country of `rs`, holding that country's total score. */
  function CountryTotals(rs: seq<Competitor>): map<int, int>
  {
    map c | c in Countries(rs) :: CountryScore(rs, c)
  }

  /** A country without competitors in `rs` has score 0. */
  lemma {:induction false} CountryScoreAbsent(rs: seq<Competitor>, c: int)
    requires c !in Countries(rs)
    ensures CountryScore(rs, c) == 0
  {
    if rs != [] {
      var init := rs[..|rs| - 1];
      assert Countries(init) <= Countries(rs) by {
        forall d | d in Countries(init) ensures d in Countries(rs) {
          var k :| 0 <= k < |init| && init[k].countryId == d;
          assert rs[k].countryId == d;
        }
      }
      assert rs[|rs| - 1].countryId in Countries(rs);
      CountryScoreAbsent(init, c);
    }
  }

  /**
   * One step of adding a competitor's score to the running total of its
   * country: the totals of `rs + [x]` are those of `rs` with `x`'s score added to its
   * country's entry, which starts at 0 when the country is new.
   */
  lemma CountryTotalsSnoc(rs: seq<Competitor>, x: Competitor)
    ensures CountryTotals(rs + [x]) ==
      CountryTotals(rs)[x.countryId := (if x.countryId in CountryTotals(rs) then CountryTotals(rs)[x.countryId] else 0) + x.score]
  {
    var rs' := rs + [x];
    assert rs'[..|rs'| - 1] == rs;
    CountriesSnoc(rs, x);
    if x.countryId !in Countries(rs) {
      CountryScoreAbsent(rs, x.countryId);
    }
  }

  /** The sum of all scores in `rs`. */
  function TotalScore(rs: seq<Competitor>): int
  {
    if rs == [] then 0 else TotalScore(rs[..|rs| - 1]) + rs[|rs| - 1].score
  }

  /** `rs` without the competitors of country `d`, in order. */
  function Without(rs: seq<Competitor>, d: int): seq<Competitor>
  {
    if rs == [] then []
    else Without(rs[..|rs| - 1], d) + (if rs[|rs| - 1].countryId == d then [] else [rs[|rs| - 1]])
  }

  /** Taking out one country's competitors takes out exactly that country's score. */
  lemma {:induction false} TotalSplit(rs: seq<Competitor>, d: int)
    ensures TotalScore(rs) == CountryScore(rs, d) + TotalScore(Without(rs, d))
  {
    if rs != [] {
      var init := rs[..|rs| - 1];
      var x := rs[|rs| - 1];
      TotalSplit(init, d);
      var w := Without(init, d);
      if x.countryId != d {
        assert Without(rs, d) == w + [x];
        assert (w + [x])[..|w + [x]| - 1] == w && (w + [x])[|w|] == x;
        assert TotalScore(w + [x]) == TotalScore(w) + x.score;
      } else {
        assert Without(rs, d) == w + [] == w;
      }
    }
  }

  /** ... and leaves every other country's score as it was. */
  lemma {:induction false} ScoreWithout(rs: seq<Competitor>, d: int, c: int)
    requires c != d
    ensures CountryScore(Without(rs, d), c) == CountryScore(rs, c)
  {
    if rs != [] {
      var init := rs[..|rs| - 1];
      var x := rs[|rs| - 1];
      ScoreWithout(init, d, c);
      var w := Without(init, d);
      if x.countryId != d {
        assert Without(rs, d) == w + [x];
        assert (w + [x])[..|w + [x]| - 1] == w && (w + [x])[|w|] == x;
      } else {
        assert Without(rs, d) == w + [] == w;
      }
    }
  }

  lemma {:induction false} CountriesWithout(rs: seq<Competitor>, d: int)
    ensures Countries(Without(rs, d)) == Countries(rs) - {d}
  {
    if rs != [] {
      var init := rs[..|rs| - 1];
      var x := rs[|rs| - 1];
      CountriesWithout(init, d);
      CountriesSnoc(init, x);
      assert init + [x] == rs;
      if x.countryId != d {
        CountriesSnoc(Without(init, d), x);
      } else {
        assert Without(rs, d) == Without(init, d);
      }
    }
  }

  lemma CountriesSnoc(rs: seq<Competitor>, x: Competitor)
    ensures Countries(rs + [x]) == Countries(rs) + {x.countryId}
  {
    var rs' := rs + [x];
    forall d | d in Countries(rs') ensures d in Countries(rs) + {x.countryId} {
      var k :| 0 <= k < |rs'| && rs'[k].countryId == d;
      if k < |rs| {
        assert rs[k].countryId == d;
      }
    }
    forall d | d in Countries(rs) ensures d in Countries(rs') {
      var k :| 0 <= k < |rs| && rs[k].countryId == d;
      assert rs'[k].countryId == d;
    }
    assert rs'[|rs|].countryId == x.countryId;
  }

  /** The sum of the values `order` visits in `m`. */
  function SumEntries(order: seq<int>, m: map<int, int>): int
    requires forall k :: 0 <= k < |order| ==> order[k] in m
  {
    if order == [] then 0 else m[order[0]] + SumEntries(order[1..], m)
  }

  /** Two tables that agree on the keys `order` visits give the same sum. */
  lemma {:induction false} SumEntriesAgree(order: seq<int>, m: map<int, int>, m': map<int, int>)
    requires forall k :: 0 <= k < |order| ==> order[k] in m && order[k] in m' && m[order[k]] == m'[order[k]]
    ensures SumEntries(order, m) == SumEntries(order, m')
  {
    if order != [] {
      SumEntriesAgree(order[1..], m, m');
    }
  }

  /**
   * The country totals account for every score exactly once: added up in any
   * iteration order of the table, they give the total score of all competitors.
   */
  lemma {:induction false} TotalsAddUp(rs: seq<Competitor>, order: seq<int>)
    requires Enumerates(order, CountryTotals(rs))
    ensures SumEntries(order, CountryTotals(rs)) == TotalScore(rs)
    decreases |order|
  {
    var m := CountryTotals(rs);
    if order == [] {
      assert forall c :: c in Countries(rs) ==> c in m;
      assert Countries(rs) == {};
      NoCountriesNoScore(rs);
    } else {
      var d := order[0];
      var rs' := Without(rs, d);
      var m' := CountryTotals(rs');
      var tail := order[1..];
      CountriesWithout(rs, d);
      forall k | 0 <= k < |tail| ensures tail[k] in m' && m[tail[k]] == m'[tail[k]] {
        assert tail[k] == order[k + 1] && order[k + 1] != order[0];
        ScoreWithout(rs, d, tail[k]);
      }
      forall c | c in m' ensures c in tail {
        assert c in m && c != d;
        var k :| 0 <= k < |order| && order[k] == c;
        assert tail[k - 1] == c;
      }
      assert Enumerates(tail, m');
      SumEntriesAgree(tail, m, m');
      TotalsAddUp(rs', tail);
      TotalSplit(rs, d);
    }
  }

  /** With no countries there are no competitors, so nothing to add up. */
  lemma NoCountriesNoScore(rs: seq<Competitor>)
    requires Countries(rs) == {}
    ensures rs == [] && TotalScore(rs) == 0
  {
    LastCountry(rs);
  }

  lemma LastCountry(rs: seq<Competitor>)
    ensures rs != [] ==> rs[|rs| - 1].countryId in Countries(rs)
  {
  }

  // ---------------------------------------------------------------------
  // Serialising a score table

  /**
   * `order` lists every key of `m` exactly once: one possible iteration order
   * of an `std::unordered_map`, whose order the program does not fix.
   */
  predicate Enumerates(order: seq<int>, m: map<int, int>)
  {
    (forall i, j :: 0 <= i < j < |order| ==> order[i] != order[j]) &&
    (forall k :: 0 <= k < |order| ==> order[k] in m) &&
    (forall c :: c in m ==> c in order)
  }

  /** The entries of `m`, in the order `order` visits its keys. */
  function ScoreEntries(order: seq<int>, m: map<int, int>): seq<Pair>
    requires forall k :: 0 <= k < |order| ==> order[k] in m
  {
    seq(|order|, k requires 0 <= k < |order| => (order[k], m[order[k]]))
  }

  lemma SomeKeyLeft(s: set<int>)
    requires s != {}
    ensures exists c :: c in s
  {
    if forall c :: c !in s {
      assert false;
    }
  }

  /** Visiting one more key appends its `key,value` line. */
  lemma ScoreEntriesSnoc(order: seq<int>, m: map<int, int>, c: int)
    requires forall k :: 0 <= k < |order| ==> order[k] in m
    requires c in m
    ensures forall k :: 0 <= k < |order + [c]| ==> (order + [c])[k] in m
    ensures BatchText(ScoreEntries(order + [c], m))
      == BatchText(ScoreEntries(order, m)) + PairText((c, m[c])) + "\n"
  {
    var longer := ScoreEntries(order + [c], m);
    var snoc := ScoreEntries(order, m) + [(c, m[c])];
    assert |longer| == |snoc|;
    forall k | 0 <= k < |longer| ensures longer[k] == snoc[k] {
      if k < |order| {
        assert (order + [c])[k] == order[k];
      }
    }
    assert longer == snoc;
    BatchTextSnoc(ScoreEntries(order, m), (c, m[c]));
  }

  /**
   * The text of the country totals that `calculate_rankings` and
   * `save_final_rankings` produce: one `country,total` line per entry of the
   * table, in the map's (unspecified) iteration order.
   */
  method SerializeScores(m: map<int, int>) returns (text: string, ghost order: seq<int>)
    ensures Enumerates(order, m)
    ensures text == BatchText(ScoreEntries(order, m))
  {
    text := "";
    order := [];
    var remaining := m.Keys;
    while remaining != {}
      invariant remaining <= m.Keys
      invariant forall i, j :: 0 <= i < j < |order| ==> order[i] != order[j]
      invariant forall k :: 0 <= k < |order| ==> order[k] in m && order[k] !in remaining
      invariant forall c :: c in m ==> c in order || c in remaining
      invariant text == BatchText(ScoreEntries(order, m))
      decreases remaining
    {
      SomeKeyLeft(remaining);
      var c :| c in remaining;
      ScoreEntriesSnoc(order, m, c);
      text := text + PairText((c, m[c])) + "\n";
      order := order + [c];
      remaining := remaining - {c};
    }
  }

  /** A sequence without repetitions has as many distinct elements as it is long. */
  lemma {:induction false} DistinctCard(order: seq<int>)
    requires forall i, j :: 0 <= i < j < |order| ==> order[i] != order[j]
    ensures |set k | 0 <= k < |order| :: order[k]| == |order|
  {
    if order != [] {
      var tail := order[1..];
      DistinctCard(tail);
      var all := set k | 0 <= k < |order| :: order[k];
      var rest := set k | 0 <= k < |tail| :: tail[k];
      assert all == rest + {order[0]} by {
        forall c | c in all ensures c in rest + {order[0]} {
          var k :| 0 <= k < |order| && order[k] == c;
          if k > 0 {
            assert tail[k - 1] == c;
          }
        }
        forall c | c in rest ensures c in all {
          var k :| 0 <= k < |tail| && tail[k] == c;
          assert order[k + 1] == c;
        }
      }
      assert order[0] !in rest;
    }
  }

  /**
   * The ranking text read back with the server's own line rule (split into
   * lines, each scanned as two comma-separated integers) gives the entries
   * of the table: one line per country, each with that country's value.
   */
  lemma RankingRoundTrip(order: seq<int>, m: map<int, int>)
    requires Enumerates(order, m)
    ensures ParsedPairs(Lines(BatchText(ScoreEntries(order, m)))) == ScoreEntries(order, m)
    ensures |ScoreEntries(order, m)| == |m|
    ensures forall c :: c in m ==> (c, m[c]) in ScoreEntries(order, m)
    ensures forall p :: p in ScoreEntries(order, m) ==> p.0 in m && p.1 == m[p.0]
  {
    BatchRoundTrip(ScoreEntries(order, m));
    EnumerationSize(order, m);
    EnumerationCovers(order, m);
  }

  lemma EnumerationSize(order: seq<int>, m: map<int, int>)
    requires Enumerates(order, m)
    ensures |order| == |m|
  {
    DistinctCard(order);
    var keys := set k | 0 <= k < |order| :: order[k];
    forall c | c in m ensures c in keys {
      var k :| 0 <= k < |order| && order[k] == c;
    }
    assert m.Keys == keys;
  }

  lemma EnumerationCovers(order: seq<int>, m: map<int, int>)
    requires Enumerates(order, m)
    ensures forall c :: c in m ==> (c, m[c]) in ScoreEntries(order, m)
  {
    var entries := ScoreEntries(order, m);
    forall c | c in m ensures (c, m[c]) in entries {
      var k :| 0 <= k < |order| && order[k] == c;
      assert entries[k] == (c, m[c]);
    }
  }

  // ---------------------------------------------------------------------
  // Final results

  /** Non-increasing by score, the order `std::sort` with `a.score > b.score` produces. */
  predicate SortedByScoreDesc(rs: seq<Competitor>)
  {
    forall i, j :: 0 <= i < j < |rs| ==> rs[i].score >= rs[j].score
  }

  /** `x` placed before the first competitor of `rs` with a lower score. */
  function InsertByScore(x: Competitor, rs: seq<Competitor>): (r: seq<Competitor>)
    requires SortedByScoreDesc(rs)
    ensures |r| == |rs| + 1
    ensures multiset(r) == multiset(rs) + multiset{x}
    ensures SortedByScoreDesc(r)
  {
    if rs == [] || x.score >= rs[0].score then
      ConsSorted(x, rs);
      [x] + rs
    else
      var t := InsertByScore(x, rs[1..]);
      assert rs == [rs[0]] + rs[1..];
      BoundedByHead(x, rs, t);
      ConsSorted(rs[0], t);
      [rs[0]] + t
  }

  /** A competitor that scores at least as much as the head of a sorted list can go in front of it. */
  lemma ConsSorted(c: Competitor, rs: seq<Competitor>)
    requires SortedByScoreDesc(rs)
    requires rs != [] ==> c.score >= rs[0].score
    ensures SortedByScoreDesc([c] + rs)
  {
    var r := [c] + rs;
    forall i, j | 0 <= i < j < |r| ensures r[i].score >= r[j].score {
      if i == 0 {
        assert r[j] == rs[j - 1];
      } else {
        assert r[i] == rs[i - 1] && r[j] == rs[j - 1];
      }
    }
  }

  /** Every element of the tail of a sorted list, or `x` scoring lower than its head, scores at most the head. */
  lemma BoundedByHead(x: Competitor, rs: seq<Competitor>, t: seq<Competitor>)
    requires SortedByScoreDesc(rs) && rs != [] && x.score < rs[0].score
    requires multiset(t) == multiset(rs[1..]) + multiset{x}
    ensures t != [] ==> rs[0].score >= t[0].score
  {
    if t != [] {
      assert t[0] in multiset(t);
      if t[0] != x {
        assert t[0] in rs[1..];
        var k :| 0 <= k < |rs[1..]| && rs[1..][k] == t[0];
        assert rs[k + 1] == t[0];
      }
    }
  }

  /** `rs` sorted by non-increasing score, keeping every competitor. */
  function SortByScoreDesc(rs: seq<Competitor>): (r: seq<Competitor>)
    ensures SortedByScoreDesc(r)
    ensures multiset(r) == multiset(rs)
  {
    if rs == [] then []
    else
      assert rs == [rs[0]] + rs[1..];
      InsertByScore(rs[0], SortByScoreDesc(rs[1..]))
  }

  /** One line of `final_competitors.txt`, without its '\n'. */
  function RankingLine(c: Competitor): string
  {
    IntToString(c.countryId) + "," + IntToString(c.competitorId) + "," + IntToString(c.score)
  }

  /** The lines of `final_competitors.txt` for the ranking `rs`. */
  function RankingLines(rs: seq<Competitor>): seq<string>
  {
    seq(|rs|, k requires 0 <= k < |rs| => RankingLine(rs[k]))
  }

  /**
   * `final_competitors.txt` read back line by line has one line per
   * competitor, in ranking order, each holding its three fields.
   */
  lemma FinalCompetitorLines(rs: seq<Competitor>)
    ensures |Lines(Terminated(RankingLines(rs)))| == |rs|
    ensures forall k :: 0 <= k < |rs| ==> Lines(Terminated(RankingLines(rs)))[k] == RankingLine(rs[k])
  {
    forall k | 0 <= k < |rs| ensures '\n' !in RankingLines(rs)[k] {
      NoNewlineInInt(rs[k].countryId);
      NoNewlineInInt(rs[k].competitorId);
      NoNewlineInInt(rs[k].score);
    }
    LinesOfTerminated(RankingLines(rs));
  }

  lemma RankingLinesSnoc(rs: seq<Competitor>, i: nat)
    requires i < |rs|
    ensures Terminated(RankingLines(rs[..i + 1])) == Terminated(RankingLines(rs[..i])) + RankingLine(rs[i]) + "\n"
  {
    var longer := RankingLines(rs[..i + 1]);
    var snoc := RankingLines(rs[..i]) + [RankingLine(rs[i])];
    assert |longer| == |snoc|;
    forall k | 0 <= k < |longer| ensures longer[k] == snoc[k] {
      assert rs[..i + 1][k] == rs[k];
      if k < i {
        assert rs[..i][k] == rs[k];
      }
    }
    assert longer == snoc;
    TerminatedSnoc(RankingLines(rs[..i]), RankingLine(rs[i]));
  }

  /**
   * The loop of `save_final_rankings` that writes, for each competitor in
   * ranking order, its country, id and score separated by commas, then a newline.
   */
  method WriteRanking(rs: seq<Competitor>) returns (text: string)
    ensures text == Terminated(RankingLines(rs))
  {
    text := "";
    for i := 0 to |rs|
      invariant text == Terminated(RankingLines(rs[..i]))
    {
      RankingLinesSnoc(rs, i);
      text := text + RankingLine(rs[i]) + "\n";
    }
    assert rs[..|rs|] == rs;
  }

  /**
   * The first loop of `calculate_rankings`: starting from an empty table,
   * each competitor's score is added to the entry of its country.
   */
  method SumByCountry(rs: seq<Competitor>) returns (scores: map<int, int>)
    ensures scores == CountryTotals(rs)
  {
    scores := map[];
    for i := 0 to |rs|
      invariant scores == CountryTotals(rs[..i])
    {
      var comp := rs[i];
      CountryTotalsSnoc(rs[..i], comp);
      assert rs[..i + 1] == rs[..i] + [comp];
      var current := if comp.countryId in scores then scores[comp.countryId] else 0;
      scores := scores[comp.countryId := current + comp.score];
    }
    assert rs[..|rs|] == rs;
  }

  /** Every drained ticket is fulfilled with the ranking text, recorded by ticket. */
  method Fulfil(fulfilled: map<nat, string>, tickets: seq<nat>, value: string) returns (done: map<nat, string>)
    ensures done == fulfilled + map t | t in tickets :: value
  {
    done := fulfilled;
    for i := 0 to |tickets|
      invariant done == fulfilled + map t | t in tickets[..i] :: value
    {
      assert tickets[..i + 1] == tickets[..i] + [tickets[i]];
      done := done[tickets[i] := value];
    }
    assert tickets[..|tickets|] == tickets;
  }

  // ---------------------------------------------------------------------
  // The server state

  class CompetitionServer {
    /** `competitor_queue_`, filled by `process_competitor_data`. */
    const queue: CompetitorQueue
    /** `delta_t_`: how long (ms) a computed ranking is served from the cache. */
    const deltaT: int
    /** `final_ranking_`: the competitors the writer threads moved out of the queue. */
    var finalRanking: seq<Competitor>
    var cache: RankingCache
    /** `country_scores_`, rebuilt by every ranking computation. */
    var countryScores: map<int, int>
    /** `ranking_promises_`: the tickets of the requests waiting for a ranking. */
    var promises: seq<nat>
    /** The value each fulfilled promise was set to. */
    var fulfilled: map<nat, string>
    var nextTicket: nat
    /** The lines of `server_log.txt`. */
    var log: seq<string>
    /** The contents of `final_competitors.txt` and `final_countries.txt`. */
    var competitorsFile: string
    var countriesFile: string

    /** Waiting tickets are distinct, were handed out, and are not fulfilled yet. */
    ghost predicate Valid()
      reads this
    {
      (forall i, j :: 0 <= i < j < |promises| ==> promises[i] != promises[j]) &&
      (forall i :: 0 <= i < |promises| ==> promises[i] < nextTicket && promises[i] !in fulfilled) &&
      (forall t :: t in fulfilled ==> t < nextTicket)
    }

    /** A server with nothing received; the cache holds an empty ranking stamped at time 0. */
    constructor (deltaT: int)
      ensures Valid()
      ensures this.deltaT == deltaT && fresh(queue) && queue.items == []
      ensures finalRanking == [] && cache == RankingCache(0, "") && countryScores == map[]
      ensures promises == [] && fulfilled == map[] && nextTicket == 0 && log == []
      ensures competitorsFile == "" && countriesFile == ""
    {
      this.deltaT := deltaT;
      queue := new CompetitorQueue();
      finalRanking := [];
      cache := RankingCache(0, "");
      countryScores := map[];
      promises := [];
      fulfilled := map[];
      nextTicket := 0;
      log := [];
      competitorsFile := "";
      countriesFile := "";
    }

    /**
     * `process_competitor_data`: the pairs parsed from `data` are pushed onto
     * the queue in order, tagged with `countryId`, and the log records how
     * many there were.
     */
    method ProcessCompetitorData(data: string, countryId: int)
      modifies this`log, queue
      ensures queue.items == old(queue.items) + Tagged(countryId, ParsedPairs(Lines(data)))
      ensures log == old(log) + [AddedMessage(|ParsedPairs(Lines(data))|, countryId)]
    {
      var competitors := ParseCompetitorLines(data);
      for i := 0 to |competitors|
        invariant queue.items == old(queue.items) + Tagged(countryId, competitors[..i])
        invariant log == old(log)
      {
        queue.Push(Competitor(countryId, competitors[i].0, competitors[i].1));
        assert Tagged(countryId, competitors[..i + 1])
          == Tagged(countryId, competitors[..i]) + [Competitor(countryId, competitors[i].0, competitors[i].1)];
      }
      assert competitors[..|competitors|] == competitors;
      log := log + [AddedMessage(|competitors|, countryId)];
    }

    /**
     * `request_ranking` at time `now`: while the cached ranking is younger
     * than `deltaT` it is returned at once and nothing changes; otherwise a
     * new promise joins the waiting list and its future is returned.
     */
    method RequestRanking(countryId: int, now: int) returns (future: Future)
      requires Valid()
      modifies this`promises, this`nextTicket
      ensures Valid()
      ensures now - cache.timestamp < deltaT ==>
        future == Ready(cache.rankingData) && promises == old(promises) && nextTicket == old(nextTicket)
      ensures now - cache.timestamp >= deltaT ==>
        future == Pending(old(nextTicket)) && promises == old(promises) + [old(nextTicket)]
        && nextTicket == old(nextTicket) + 1
      ensures future.Pending? ==> future.ticket !in fulfilled
    {
      if now - cache.timestamp < deltaT {
        return Ready(cache.rankingData);
      }
      future := Pending(nextTicket);
      promises := promises + [nextTicket];
      nextTicket := nextTicket + 1;
    }

    /**
     * `calculate_rankings` at time `now`: `countryScores` becomes the
     * per-country totals of `finalRanking`, the ranking text lists them in
     * some iteration order, the cache holds that text stamped `now`, and
     * every waiting promise is fulfilled with it and leaves the list.
     */
    method CalculateRankings(now: int) returns (ghost order: seq<int>)
      requires Valid()
      modifies this`countryScores, this`cache, this`promises, this`fulfilled
      ensures Valid()
      ensures countryScores == CountryTotals(finalRanking)
      ensures Enumerates(order, countryScores)
      ensures cache == RankingCache(now, BatchText(ScoreEntries(order, countryScores)))
      ensures promises == []
      ensures fulfilled == old(fulfilled) + map t | t in old(promises) :: cache.rankingData
    {
      var scores := SumByCountry(finalRanking);
      countryScores := scores;
      var ranking;
      ranking, order := SerializeScores(scores);
      cache := RankingCache(now, ranking);
      fulfilled := Fulfil(fulfilled, promises, ranking);
      promises := [];
    }

    /**
     * `save_final_rankings`: the ranking is sorted by non-increasing score
     * (ties in an unspecified order), written one `country,competitor,score`
     * line per competitor, and the current `countryScores` (as the last
     * ranking computation left them) are written one `country,total` line each.
     */
    method SaveFinalRankings() returns (ghost order: seq<int>)
      modifies this`finalRanking, this`competitorsFile, this`countriesFile
      ensures SortedByScoreDesc(finalRanking)
      ensures multiset(finalRanking) == multiset(old(finalRanking))
      ensures competitorsFile == Terminated(RankingLines(finalRanking))
      ensures Enumerates(order, countryScores)
      ensures countriesFile == BatchText(ScoreEntries(order, countryScores))
    {
      finalRanking := SortByScoreDesc(finalRanking);
      var text := WriteRanking(finalRanking);
      competitorsFile := text;
      var countries;
      countries, order := SerializeScores(countryScores);
      countriesFile := countries;
    }

    /**
     * `send_final_results`: after saving, the reply is the competitors file,
     * a '\n', then the countries file, and the log records it.
     */
    method SendFinalResults() returns (message: string, ghost order: seq<int>)
      modifies this`finalRanking, this`competitorsFile, this`countriesFile, this`log
      ensures SortedByScoreDesc(finalRanking)
      ensures multiset(finalRanking) == multiset(old(finalRanking))
      ensures competitorsFile == Terminated(RankingLines(finalRanking))
      ensures Enumerates(order, countryScores)
      ensures countriesFile == BatchText(ScoreEntries(order, countryScores))
      ensures message == competitorsFile + "\n" + countriesFile
      ensures log == old(log) + ["Sent final results"]
    {
      order := SaveFinalRankings();
      message := competitorsFile + "\n" + countriesFile;
      log := log + ["Sent final results"];
    }
  }
}
