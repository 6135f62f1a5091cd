/**
 * The value types and the competitor queue the server is built on.
 */
module ServerTypes {

  /** One competitor's result, tagged with the country it was received from. */
  datatype Competitor = Competitor(countryId: int, competitorId: int, score: int)

  /** `Competitor::operator<`: competitors are compared by score alone. */
  predicate Less(a: Competitor, b: Competitor)
  {
    a.score < b.score
  }

  /**
   * `Less` is a strict weak order whose equivalence classes are the scores:
   * it never holds both ways, it is transitive, two competitors are
   * incomparable exactly when their scores are equal, and the ids play no part.
   */
  lemma LessOrdersByScore(a: Competitor, b: Competitor, c: Competitor)
    ensures !Less(a, a)
    ensures Less(a, b) ==> !Less(b, a)
    ensures Less(a, b) && Less(b, c) ==> Less(a, c)
    ensures (!Less(a, b) && !Less(b, a)) <==> a.score == b.score
    ensures Less(a, b) == Less(a.(countryId := c.countryId, competitorId := c.competitorId), b)
  {
  }

  /**
   * The sequential behaviour of the mutex-protected `std::queue` the readers
   * push parsed competitors into: first in, first out.
   */
  class CompetitorQueue {
    var items: seq<Competitor>

    constructor ()
      ensures items == []
    {
      items := [];
    }

    /** `push`: the item goes to the back; nothing else changes. */
    method Push(item: Competitor)
      modifies this
      ensures items == old(items) + [item]
    {
      items := items + [item];
    }

    /**
     * `try_pop(item)`: on an empty queue, false, and `item` keeps the value it
     * came in with; otherwise true, `item` becomes the front element and the
     * front element is removed.
     */
    method TryPop(item: Competitor) returns (ok: bool, itemOut: Competitor)
      modifies this
      ensures ok <==> old(items) != []
      ensures !ok ==> itemOut == item && items == old(items)
      ensures ok ==> itemOut == old(items)[0] && items == old(items)[1..]
    {
      if items == [] {
        return false, item;
      }
      itemOut := items[0];
      items := items[1..];
      ok := true;
    }
  }

  /**
   * First in, first out: pushing `xs` and then calling `try_pop` until it
   * fails yields what was queued before, followed by `xs`, in push order,
   * and leaves the queue empty.
   */
  method PushAllThenDrain(q: CompetitorQueue, xs: seq<Competitor>, item: Competitor)
    returns (popped: seq<Competitor>)
    modifies q
    ensures popped == old(q.items) + xs
    ensures q.items == []
  {
    for i := 0 to |xs|
      invariant q.items == old(q.items) + xs[..i]
    {
      q.Push(xs[i]);
      assert xs[..i + 1] == xs[..i] + [xs[i]];
    }
    assert xs[..|xs|] == xs;
    popped := [];
    var ok := true;
    var current := item;
    while ok
      invariant ok ==> popped + q.items == old(q.items) + xs
      invariant !ok ==> popped == old(q.items) + xs && q.items == []
      decreases |q.items|, ok
    {
      ghost var before := q.items;
      ok, current := q.TryPop(current);
      if ok {
        assert before == [current] + q.items;
        popped := popped + [current];
      }
    }
  }
}
