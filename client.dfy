/**
 * The competition client: it reads its country's competitors from a text
 * file, then sends the country id and the competitors in batches of at most
 * twenty `id,score` lines.
 */
module Client {
  import opened Wrappers
  import opened Decimal
  import opened Text
  import opened Wire

  /** The most competitors one batch carries. */
  const BatchSize: nat := 20

  /** The batches the send loop cuts `s` into: consecutive slices of `BatchSize`, the last one possibly shorter. */
  function Batches(s: seq<Pair>): (r: seq<seq<Pair>>)
    ensures forall k :: 0 <= k < |r| ==> 1 <= |r[k]| <= BatchSize
    decreases |s|
  {
    if s == [] then []
    else if |s| <= BatchSize then [s]
    else [s[..BatchSize]] + Batches(s[BatchSize..])
  }

  function Flatten(bs: seq<seq<Pair>>): seq<Pair>
  {
    if bs == [] then [] else bs[0] + Flatten(bs[1..])
  }

  /** The texts of a sequence of batches, one socket write each. */
  function BatchTexts(bs: seq<seq<Pair>>): (r: seq<string>)
    ensures |r| == |bs|
    ensures forall k :: 0 <= k < |bs| ==> r[k] == BatchText(bs[k])
  {
    if bs == [] then [] else [BatchText(bs[0])] + BatchTexts(bs[1..])
  }

  function Min(a: int, b: int): int { if a <= b then a else b }

  /** Sending the batches in order sends every competitor, in order, exactly once. */
  lemma {:induction false} BatchesFlatten(s: seq<Pair>)
    ensures Flatten(Batches(s)) == s
    decreases |s|
  {
    if |s| > BatchSize {
      BatchesFlatten(s[BatchSize..]);
      assert s[..BatchSize] + s[BatchSize..] == s;
    }
  }

  /** There are ceil(n / 20) batches; in particular none for no competitors. */
  lemma {:induction false} BatchesCount(s: seq<Pair>)
    ensures |Batches(s)| == (|s| + BatchSize - 1) / BatchSize
    decreases |s|
  {
    if |s| > BatchSize {
      BatchesCount(s[BatchSize..]);
    }
  }

  /**
   * Batch `k` starts at index 20 * k and holds min(20, n - 20 * k) competitors,
   * so every batch is non-empty and all but the last hold exactly 20.
   */
  lemma {:induction false} BatchAt(s: seq<Pair>, k: nat)
    requires k < |Batches(s)|
    ensures BatchSize * k < |s|
    ensures Batches(s)[k] == s[BatchSize * k..BatchSize * k + Min(BatchSize, |s| - BatchSize * k)]
    ensures k + 1 < |Batches(s)| ==> |Batches(s)[k]| == BatchSize
    decreases |s|
  {
    if k > 0 {
      var rest := s[BatchSize..];
      assert Batches(s)[k] == Batches(rest)[k - 1];
      BatchAt(rest, k - 1);
      assert BatchSize * k == BatchSize + BatchSize * (k - 1);
      var a := BatchSize * (k - 1);
      var b := a + Min(BatchSize, |rest| - a);
      assert rest[a..b] == s[BatchSize + a..BatchSize + b];
    } else if |s| <= BatchSize {
      assert s[0..|s|] == s;
    }
  }

  /** The file text of a competitor list as the data generator writes it: `id score` per line. */
  function GeneratedText(ps: seq<Pair>): string
  {
    if ps == [] then "" else GeneratedLine(ps[0]) + GeneratedText(ps[1..])
  }

  /**
   * The competitors `load_competitors` reads from index `i` on: it reads an
   * id and then a score, each an integer after optional white space, and
   * appends the pair while both reads succeed. The first read that fails
   * ends the loading; an id whose score cannot be read is dropped.
   */
  function ReadPairs(text: string, i: nat): (r: seq<Pair>)
    requires i <= |text|
    ensures 2 * |r| <= |text| - i
    decreases |text| - i
  {
    var first := ScanInt(text, i);
    if first.None? then []
    else
      var second := ScanInt(text, first.value.1);
      if second.None? then []
      else [(first.value.0, second.value.0)] + ReadPairs(text, second.value.1)
  }

  /** An id and a score both read: the pair is appended and reading resumes after the score. */
  lemma ReadPairsStep(text: string, i: nat, id: int, j: nat, score: int, k: nat)
    requires i <= |text|
    requires ScanInt(text, i) == Some((id, j))
    requires ScanInt(text, j) == Some((score, k))
    ensures ReadPairs(text, i) == [(id, score)] + ReadPairs(text, k)
  {
  }

  /** A failed first read ends the loop. */
  lemma ReadPairsNoFirst(text: string, i: nat)
    requires i <= |text| && ScanInt(text, i).None?
    ensures ReadPairs(text, i) == []
  {
  }

  /** A failed second read ends the loop too, dropping the id just read. */
  lemma ReadPairsNoSecond(text: string, i: nat, j: nat)
    requires i <= |text| && ScanInt(text, i).Some? && ScanInt(text, i).value.1 == j
    requires ScanInt(text, j).None?
    ensures ReadPairs(text, i) == []
  {
  }

  lemma {:induction false} ReadPairsShift(p: string, s: string, i: nat)
    requires i <= |s|
    ensures ReadPairs(p + s, |p| + i) == ReadPairs(s, i)
    decreases |s| - i
  {
    var first := ScanInt(s, i);
    if first.None? {
      ShiftNoFirst(p, s, i);
    } else {
      var (a, j) := first.value;
      var second := ScanInt(s, j);
      if second.None? {
        ShiftNoSecond(p, s, i, a, j);
      } else {
        var (b, k) := second.value;
        ReadPairsShift(p, s, k);
        ShiftBoth(p, s, i, a, j, b, k);
      }
    }
  }

  lemma ShiftNoFirst(p: string, s: string, i: nat)
    requires i <= |s| && ScanInt(s, i).None?
    ensures ReadPairs(p + s, |p| + i) == ReadPairs(s, i) == []
  {
    ScanIntShift(p, s, i);
    ReadPairsNoFirst(s, i);
    ReadPairsNoFirst(p + s, |p| + i);
  }

  lemma ShiftNoSecond(p: string, s: string, i: nat, a: int, j: nat)
    requires i <= |s| && ScanInt(s, i) == Some((a, j)) && ScanInt(s, j).None?
    ensures ReadPairs(p + s, |p| + i) == ReadPairs(s, i) == []
  {
    ShiftSome(p, s, i, a, j);
    ScanIntShift(p, s, j);
    ReadPairsNoSecond(s, i, j);
    ReadPairsNoSecond(p + s, |p| + i, |p| + j);
  }

  lemma ShiftSome(p: string, s: string, i: nat, v: int, j: nat)
    requires i <= |s| && ScanInt(s, i) == Some((v, j))
    ensures ScanInt(p + s, |p| + i) == Some((v, |p| + j))
  {
    ScanIntShift(p, s, i);
  }

  lemma ShiftBoth(p: string, s: string, i: nat, a: int, j: nat, b: int, k: nat)
    requires i <= |s| && ScanInt(s, i) == Some((a, j)) && ScanInt(s, j) == Some((b, k))
    requires ReadPairs(p + s, |p| + k) == ReadPairs(s, k)
    ensures ReadPairs(p + s, |p| + i) == ReadPairs(s, i)
  {
    ShiftSome(p, s, i, a, j);
    ShiftSome(p, s, j, b, k);
    ReadPairsStep(s, i, a, j, b, k);
    ReadPairsStep(p + s, |p| + i, a, |p| + j, b, |p| + k);
  }

  lemma ReadPairsAfter(p: string, s: string)
    ensures ReadPairs(p + s, |p|) == ReadPairs(s, 0)
  {
    ReadPairsShift(p, s, 0);
    assert |p| + 0 == |p|;
  }

  lemma ReadPairsSkipsSpace(s: string, i: nat)
    requires i < |s| && IsSpace(s[i])
    ensures ReadPairs(s, i) == ReadPairs(s, i + 1)
  {
    ScanIntSkipsSpace(s, i);
  }

  /** The line the data generator writes for one pair. */
  function GeneratedLine(p: Pair): string
  {
    IntToString(p.0) + " " + IntToString(p.1) + "\n"
  }

  lemma GeneratedLineSplit(p: Pair, rest: string)
    ensures GeneratedLine(p) + rest == (IntToString(p.0) + " ") + (IntToString(p.1) + "\n" + rest)
  {
  }

  /** The two reads of one generated line return its id and its score; the second stops at the '\n'. */
  lemma ScanGeneratedLine(p: Pair, rest: string)
    ensures ScanInt(GeneratedLine(p) + rest, 0) == Some((p.0, |IntToString(p.0)|))
    ensures ScanInt(GeneratedLine(p) + rest, |IntToString(p.0)|) == Some((p.1, |GeneratedLine(p)| - 1))
  {
    ScanGeneratedId(p, rest);
    ScanGeneratedScore(p, rest);
  }

  lemma ScanGeneratedId(p: Pair, rest: string)
    ensures ScanInt(GeneratedLine(p) + rest, 0) == Some((p.0, |IntToString(p.0)|))
  {
    var t1 := IntToString(p.0);
    var s := (t1 + " ") + (IntToString(p.1) + "\n" + rest);
    GeneratedLineSplit(p, rest);
    assert s[0..|t1|] == t1;
    assert s[|t1|] == ' ';
    ScanIntString(s, 0, p.0);
  }

  lemma ScanGeneratedScore(p: Pair, rest: string)
    ensures ScanInt(GeneratedLine(p) + rest, |IntToString(p.0)|) == Some((p.1, |GeneratedLine(p)| - 1))
  {
    var t2 := IntToString(p.1);
    var head := IntToString(p.0) + " ";
    GeneratedLineSplit(p, rest);
    ScanScoreText(t2, rest, p.1);
    ScanAfterSpace(head, t2 + "\n" + rest, p.1, |t2|);
  }

  lemma ScanScoreText(t2: string, rest: string, n: int)
    requires t2 == IntToString(n)
    ensures ScanInt(t2 + "\n" + rest, 0) == Some((n, |t2|))
  {
    var tail := t2 + "\n" + rest;
    assert tail[0..|t2|] == t2;
    assert tail[|t2|] == '\n';
    ScanIntString(tail, 0, n);
  }

  /** A read that starts on the white space ending `head` reads what starts `tail`. */
  lemma ScanAfterSpace(head: string, tail: string, n: int, m: nat)
    requires |head| >= 1 && IsSpace(head[|head| - 1])
    requires ScanInt(tail, 0) == Some((n, m))
    ensures ScanInt(head + tail, |head| - 1) == Some((n, |head| + m))
  {
    assert (head + tail)[|head| - 1] == head[|head| - 1];
    ScanIntSkipsSpace(head + tail, |head| - 1);
    ShiftSome(head, tail, 0, n, m);
  }

  /**
   * A line of text from which an id and a score are read, the score
   * ending right before the line's final white-space character: reading
   * yields that pair and goes on with the text after the line.
   */
  lemma ReadOneLine(line: string, rest: string, id: int, j: nat, score: int)
    requires |line| >= 1 && IsSpace(line[|line| - 1])
    requires ScanInt(line + rest, 0) == Some((id, j))
    requires ScanInt(line + rest, j) == Some((score, |line| - 1))
    ensures ReadPairs(line + rest, 0) == [(id, score)] + ReadPairs(rest, 0)
  {
    var s := line + rest;
    var k := |line| - 1;
    ReadPairsStep(s, 0, id, j, score, k);
    assert s[k] == line[k];
    ReadPairsSkipsSpace(s, k);
    ReadPairsAfter(line, rest);
  }

  /** One generated line is read back as its pair, and reading continues after it. */
  lemma ReadGeneratedLine(p: Pair, rest: string)
    ensures ReadPairs(GeneratedLine(p) + rest, 0) == [p] + ReadPairs(rest, 0)
  {
    var line := GeneratedLine(p);
    ScanGeneratedLine(p, rest);
    assert line[|line| - 1] == '\n';
    ReadOneLine(line, rest, p.0, |IntToString(p.0)|, p.1);
  }

  /**
   * Loading a generated file followed by anything: every generated pair is
   * read, in order, then reading goes on with what follows.
   */
  lemma {:induction false} ReadGenerated(ps: seq<Pair>, rest: string)
    ensures ReadPairs(GeneratedText(ps) + rest, 0) == ps + ReadPairs(rest, 0)
  {
    if ps == [] {
      assert GeneratedText(ps) + rest == rest;
    } else {
      var after := GeneratedText(ps[1..]) + rest;
      GeneratedTextCons(ps, rest);
      ReadGeneratedLine(ps[0], after);
      ReadGenerated(ps[1..], rest);
      ConsAppend(ps, ReadPairs(rest, 0));
    }
  }

  lemma ConsAppend(ps: seq<Pair>, tail: seq<Pair>)
    requires ps != []
    ensures [ps[0]] + (ps[1..] + tail) == ps + tail
  {
  }

  lemma GeneratedTextCons(ps: seq<Pair>, rest: string)
    requires ps != []
    ensures GeneratedText(ps) + rest == GeneratedLine(ps[0]) + (GeneratedText(ps[1..]) + rest)
  {
  }

  /** A generated file is loaded exactly. */
  lemma GeneratedRoundTrip(ps: seq<Pair>)
    ensures ReadPairs(GeneratedText(ps), 0) == ps
  {
    ReadGenerated(ps, "");
    assert GeneratedText(ps) + "" == GeneratedText(ps);
  }

  /** A trailing id without its score is dropped. */
  lemma TrailingTokenDropped(ps: seq<Pair>, n: int)
    ensures ReadPairs(GeneratedText(ps) + IntToString(n), 0) == ps
  {
    ReadGenerated(ps, IntToString(n));
    var t := IntToString(n);
    assert t[0..|t|] == t;
    ScanIntString(t, 0, n);
  }

  /**
   * Reading stops at the first id that cannot be read as an integer, even if
   * numbers follow it.
   */
  lemma StopsAtFirstFailure(ps: seq<Pair>, rest: string)
    requires ScanInt(rest, 0).None?
    ensures ReadPairs(GeneratedText(ps) + rest, 0) == ps
  {
    ReadGenerated(ps, rest);
    ReadPairsNoFirst(rest, 0);
  }

  /**
   * Reading also stops when an id is read but the score after it cannot be:
   * that id is dropped, and nothing after it is read.
   */
  lemma StopsAtMissingScore(ps: seq<Pair>, rest: string)
    requires ScanInt(rest, 0).Some? && ScanInt(rest, ScanInt(rest, 0).value.1).None?
    ensures ReadPairs(GeneratedText(ps) + rest, 0) == ps
  {
    ReadGenerated(ps, rest);
    ReadPairsNoSecond(rest, 0, ScanInt(rest, 0).value.1);
  }

  /** A token that does not start with white space, a sign or a digit is not an integer. */
  lemma NotANumber(rest: string)
    requires rest != [] && !IsSpace(rest[0]) && !IsDigit(rest[0]) && rest[0] != '-' && rest[0] != '+'
    ensures ScanInt(rest, 0).None?
  {
    assert SkipSpace(rest, 0) == 0;
    assert DigitsEnd(rest, 0) == 0;
  }

  class CompetitionClient {
    const countryId: int
    var competitors: seq<Pair>
    /** The messages written to the server socket, in order. */
    var sent: seq<string>

    /**
     * Connecting is not modelled; the constructor loads the competitors from
     * the text of the competitors file (the empty text when it cannot be opened).
     */
    constructor (countryId: int, competitorsFile: string)
      ensures this.countryId == countryId
      ensures competitors == ReadPairs(competitorsFile, 0)
      ensures sent == []
    {
      this.countryId := countryId;
      competitors := [];
      sent := [];
      new;
      LoadCompetitors(competitorsFile);
    }

    /** `load_competitors`: appends the pairs read from the file; existing entries are kept. */
    method LoadCompetitors(text: string)
      modifies this`competitors
      ensures competitors == old(competitors) + ReadPairs(text, 0)
    {
      var pos := 0;
      while true
        invariant pos <= |text|
        invariant old(competitors) + ReadPairs(text, 0) == competitors + ReadPairs(text, pos)
        decreases |text| - pos
      {
        var first := ScanInt(text, pos);
        if first.None? {
          ReadPairsNoFirst(text, pos);
          break;
        }
        var (id, afterId) := first.value;
        var second := ScanInt(text, afterId);
        if second.None? {
          ReadPairsNoSecond(text, pos, afterId);
          break;
        }
        var (score, afterScore) := second.value;
        ReadPairsStep(text, pos, id, afterId, score, afterScore);
        AppendAssoc(competitors, [(id, score)], ReadPairs(text, afterScore));
        competitors := competitors + [(id, score)];
        pos := afterScore;
      }
    }

    /** `send_competitor_batch`: one write holding `id,score\n` for each pair of the batch, in order. */
    method SendCompetitorBatch(batch: seq<Pair>)
      modifies this`sent
      ensures sent == old(sent) + [BatchText(batch)]
    {
      var text := "";
      for k := 0 to |batch|
        invariant text == BatchText(batch[..k])
        invariant sent == old(sent)
      {
        assert batch[..k + 1] == batch[..k] + [batch[k]];
        BatchTextSnoc(batch[..k], batch[k]);
        text := text + PairText(batch[k]) + "\n";
      }
      assert batch[..|batch|] == batch;
      sent := sent + [text];
    }

    /**
     * `send_competitor_data`: the country id as decimal text and '\n' first,
     * then one write per batch of at most twenty competitors, in order.
     */
    method SendCompetitorData()
      modifies this`sent
      ensures sent == old(sent) + [IntToString(countryId) + "\n"] + BatchTexts(Batches(competitors))
    {
      sent := sent + [IntToString(countryId) + "\n"];
      var cs := competitors;
      ghost var total := sent + BatchTexts(Batches(cs));
      var i := 0;
      assert Drop(cs, 0) == cs;
      while i < |cs|
        invariant total == sent + BatchTexts(Batches(Drop(cs, i)))
        decreases |cs| - i
      {
        var batch := cs[i..i + Min(BatchSize, |cs| - i)];
        SendStep(sent, cs, i);
        SendCompetitorBatch(batch);
        i := i + BatchSize;
      }
      assert Drop(cs, i) == [];
    }
  }

  /** One turn of the batching loop: the batch at `i` moves from what is left to send to what was sent. */
  lemma SendStep(sent: seq<string>, s: seq<Pair>, i: nat)
    requires i < |s|
    ensures sent + BatchTexts(Batches(Drop(s, i)))
      == (sent + [BatchText(s[i..i + Min(BatchSize, |s| - i)])]) + BatchTexts(Batches(Drop(s, i + BatchSize)))
  {
    BatchesFrom(s, i);
    AppendAssoc(sent, [BatchText(s[i..i + Min(BatchSize, |s| - i)])], BatchTexts(Batches(Drop(s, i + BatchSize))));
  }

  /** The competitors from index `i` on; none once `i` is past the end. */
  function Drop(s: seq<Pair>, i: nat): seq<Pair>
  {
    if i <= |s| then s[i..] else []
  }

  /** The batches from index `i` on: the batch starting at `i`, then those from `i + 20`. */
  lemma BatchesFrom(s: seq<Pair>, i: nat)
    requires i < |s|
    ensures Batches(Drop(s, i)) == [s[i..i + Min(BatchSize, |s| - i)]] + Batches(Drop(s, i + BatchSize))
    ensures BatchTexts(Batches(Drop(s, i))) ==
      [BatchText(s[i..i + Min(BatchSize, |s| - i)])] + BatchTexts(Batches(Drop(s, i + BatchSize)))
  {
    var rest := s[i..];
    var batch := s[i..i + Min(BatchSize, |s| - i)];
    var later := Batches(Drop(s, i + BatchSize));
    if |rest| > BatchSize {
      assert rest[..BatchSize] == batch;
      assert rest[BatchSize..] == Drop(s, i + BatchSize);
    } else {
      assert batch == rest;
      assert Drop(s, i + BatchSize) == [];
    }
    assert ([batch] + later)[1..] == later;
  }

  /**
   * Everything the client sends after the country line, joined, is the
   * serialisation of its whole competitor list; the server's line parser reads
   * it back as exactly that list.
   */
  lemma {:induction false} BatchedTextIsWholeText(s: seq<Pair>)
    ensures Concat(BatchTexts(Batches(s))) == BatchText(s)
    ensures ParsedPairs(Lines(Concat(BatchTexts(Batches(s))))) == s
    decreases |s|
  {
    if |s| > BatchSize {
      BatchedTextIsWholeText(s[BatchSize..]);
      assert s[..BatchSize] + s[BatchSize..] == s;
      BatchTextAppend(s[..BatchSize], s[BatchSize..]);
    }
    BatchRoundTrip(s);
  }
}
