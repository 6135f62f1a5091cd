/**
 * The `id,score` line protocol between client and server: the client writes
 * each pair as decimal text, a ',' and a '\n'; the server splits what it
 * receives with `getline` and keeps the lines `sscanf(line, "%d,%d")` reads
 * two integers from.  The same `a,b\n` shape carries the country ranking.
 */
module Wire {
  import opened Wrappers
  import opened Decimal
  import opened Text

  type Pair = (int, int)

  /** The text of one pair, without its line terminator. */
  function PairText(p: Pair): string
  {
    IntToString(p.0) + "," + IntToString(p.1)
  }

  /** The text a batch is sent as: each pair's `id,score` followed by a newline, in batch order. */
  function BatchText(batch: seq<Pair>): (r: string)
    ensures r == [] <==> batch == []
    ensures |r| >= 4 * |batch|
  {
    if batch == [] then "" else PairText(batch[0]) + "\n" + BatchText(batch[1..])
  }

  /**
   * A line that scans as two integers with the "%d,%d" format: an integer, then a ',' right after
   * its last digit, then a second integer (white space may precede each
   * integer, not the comma); anything after the second integer is ignored.
   */
  function ScanPair(line: string): Option<Pair>
  {
    match ScanInt(line, 0)
    case None => None
    case Some((a, i)) =>
      if i < |line| && line[i] == ',' then
        match ScanInt(line, i + 1)
        case None => None
        case Some((b, _)) => Some((a, b))
      else None
  }

  /** The pairs read from `lines`, in order, skipping each line that does not scan. */
  function ParsedPairs(lines: seq<string>): (r: seq<Pair>)
    ensures |r| <= |lines|
  {
    if lines == [] then []
    else
      match ScanPair(lines[0])
      case Some(p) => [p] + ParsedPairs(lines[1..])
      case None => ParsedPairs(lines[1..])
  }

  /** A pair is parsed exactly when some line scans to it. */
  lemma {:induction false} ParsedPairsMembers(lines: seq<string>, p: Pair)
    ensures p in ParsedPairs(lines) <==> exists k :: 0 <= k < |lines| && ScanPair(lines[k]) == Some(p)
  {
    if lines != [] {
      ParsedPairsMembers(lines[1..], p);
      if exists k :: 0 <= k < |lines| && ScanPair(lines[k]) == Some(p) {
        var k :| 0 <= k < |lines| && ScanPair(lines[k]) == Some(p);
        if k > 0 {
          assert lines[1..][k - 1] == lines[k];
        }
      }
      if exists k :: 0 <= k < |lines| - 1 && ScanPair(lines[1..][k]) == Some(p) {
        var k :| 0 <= k < |lines| - 1 && ScanPair(lines[1..][k]) == Some(p);
        assert lines[k + 1] == lines[1..][k];
      }
    }
  }

  /** Parsing goes line by line: the pairs of two blocks of lines are concatenated in order. */
  lemma {:induction false} ParsedPairsAppend(a: seq<string>, b: seq<string>)
    ensures ParsedPairs(a + b) == ParsedPairs(a) + ParsedPairs(b)
  {
    if a == [] {
      assert a + b == b;
    } else {
      assert (a + b)[0] == a[0];
      assert (a + b)[1..] == a[1..] + b;
      ParsedPairsAppend(a[1..], b);
    }
  }

  lemma NoNewlineInInt(n: int)
    ensures '\n' !in IntToString(n)
  {
    var d := NatToDigits(if n < 0 then -n else n);
    assert forall k :: 0 <= k < |d| ==> d[k] != '\n';
  }

  /** Every line the client writes scans back to the pair it was written from. */
  lemma ScanPairText(p: Pair)
    ensures '\n' !in PairText(p)
    ensures ScanPair(PairText(p)) == Some(p)
  {
    var t1, t2 := IntToString(p.0), IntToString(p.1);
    var line := t1 + "," + t2;
    NoNewlineInInt(p.0);
    NoNewlineInInt(p.1);
    assert line[0..|t1|] == t1;
    assert line[|t1|] == ',';
    ScanIntString(line, 0, p.0);
    assert line[|t1| + 1..|t1| + 1 + |t2|] == t2;
    ScanIntString(line, |t1| + 1, p.1);
  }

  /** The lines of a serialised batch are the pairs' texts, one per pair, in order. */
  lemma {:induction false} LinesOfBatch(batch: seq<Pair>)
    ensures |Lines(BatchText(batch))| == |batch|
    ensures forall k :: 0 <= k < |batch| ==> Lines(BatchText(batch))[k] == PairText(batch[k])
  {
    if batch != [] {
      ScanPairText(batch[0]);
      LinesCons(PairText(batch[0]), BatchText(batch[1..]));
      LinesOfBatch(batch[1..]);
      var ls := Lines(BatchText(batch));
      assert ls == [PairText(batch[0])] + Lines(BatchText(batch[1..]));
      forall k | 0 < k < |batch| ensures ls[k] == PairText(batch[k]) {
        assert ls[k] == Lines(BatchText(batch[1..]))[k - 1];
        assert batch[1..][k - 1] == batch[k];
      }
    }
  }

  /** Round trip: the server's line parser returns exactly the batch the client serialised. */
  lemma {:induction false} BatchRoundTrip(batch: seq<Pair>)
    ensures ParsedPairs(Lines(BatchText(batch))) == batch
  {
    if batch != [] {
      ScanPairText(batch[0]);
      LinesCons(PairText(batch[0]), BatchText(batch[1..]));
      BatchRoundTrip(batch[1..]);
    }
  }

  /** Serialising two batches one after the other equals serialising them joined. */
  lemma {:induction false} BatchTextAppend(a: seq<Pair>, b: seq<Pair>)
    ensures BatchText(a + b) == BatchText(a) + BatchText(b)
  {
    if a == [] {
      assert a + b == b;
    } else {
      assert (a + b)[0] == a[0];
      assert (a + b)[1..] == a[1..] + b;
      BatchTextAppend(a[1..], b);
    }
  }

  /** Serialising one more pair appends its line. */
  lemma BatchTextSnoc(batch: seq<Pair>, p: Pair)
    ensures BatchText(batch + [p]) == BatchText(batch) + PairText(p) + "\n"
  {
    BatchTextAppend(batch, [p]);
    assert BatchText([p]) == PairText(p) + "\n" + "";
  }
}
