/** The list operations the ticket registry performs on the wait queue
    (a Python list of integer tickets), stated on sequences. */
module Tickets {

  /** Every ticket is smaller than every ticket queued after it; in particular
      no ticket occurs twice. */
  predicate Increasing(q: seq<int>) {
    forall i, j | 0 <= i < j < |q| :: q[i] < q[j]
  }

  /** No ticket in the queue is larger than `n`. */
  predicate AtMost(q: seq<int>, n: int) {
    forall i | 0 <= i < |q| :: q[i] <= n
  }

  /** The position of the first occurrence of `x`. */
  function FirstIndex(q: seq<int>, x: int): (i: nat)
    requires x in q
    ensures i < |q| && q[i] == x && x !in q[..i]
  {
    if q[0] == x then 0 else 1 + FirstIndex(q[1..], x)
  }

  /** What Python's `list.remove(x)` leaves behind: the first occurrence of `x`
      is dropped. On a list without `x` the list is unchanged (Python raises
      ValueError instead; the caller models that). */
  function RemoveFirst(q: seq<int>, x: int): seq<int>
  {
    if q == [] then []
    else if q[0] == x then q[1..]
    else [q[0]] + RemoveFirst(q[1..], x)
  }

  /** Removing a present ticket cuts exactly its first position out of the
      queue: the tickets before it and after it keep their relative order. */
  lemma {:induction false} RemoveFirstIsSplice(q: seq<int>, x: int)
    requires x in q
    ensures RemoveFirst(q, x) == q[..FirstIndex(q, x)] + q[FirstIndex(q, x) + 1..]
  {
    if q[0] != x {
      var k := FirstIndex(q[1..], x);
      RemoveFirstIsSplice(q[1..], x);
      assert q[..k + 1] == [q[0]] + q[1..][..k];
      assert q[k + 2..] == q[1..][k + 1..];
    }
  }

  /** Removing an absent ticket changes nothing. */
  lemma {:induction false} RemoveFirstAbsent(q: seq<int>, x: int)
    requires x !in q
    ensures RemoveFirst(q, x) == q
  {
    if q != [] {
      RemoveFirstAbsent(q[1..], x);
      assert q == [q[0]] + q[1..];
    }
  }

  /** Removal takes away one copy of `x` (none if absent) and nothing else. */
  lemma {:induction false} RemoveFirstMultiset(q: seq<int>, x: int)
    ensures multiset(RemoveFirst(q, x)) == multiset(q) - multiset{x}
  {
    if q != [] {
      assert q == [q[0]] + q[1..];
      if q[0] != x {
        RemoveFirstMultiset(q[1..], x);
      }
    }
  }

  /** On an increasing queue, removal keeps the queue increasing and leaves
      exactly the other tickets: `x` is gone and every other ticket stays. */
  lemma {:induction false} RemoveFirstFromIncreasing(q: seq<int>, x: int)
    requires Increasing(q)
    ensures Increasing(RemoveFirst(q, x))
    ensures forall y :: y in RemoveFirst(q, x) <==> y in q && y != x
  {
    if q != [] {
      assert q == [q[0]] + q[1..];
      assert Increasing(q[1..]);
      assert forall k | 0 <= k < |q[1..]| :: q[0] < q[1..][k];
      if q[0] != x {
        RemoveFirstFromIncreasing(q[1..], x);
        var r := RemoveFirst(q[1..], x);
        forall k | 0 <= k < |r|
          ensures q[0] < r[k]
        {
          assert r[k] in r;
        }
      }
    }
  }

  /** Appending a ticket larger than every queued one keeps the queue
      increasing, and the new ticket bounds the queue. */
  lemma AppendKeepsIncreasing(q: seq<int>, n: int)
    requires Increasing(q) && AtMost(q, n)
    ensures Increasing(q + [n + 1]) && AtMost(q + [n + 1], n + 1)
    ensures n + 1 !in q
  {
  }

  /** The head of an increasing queue is its oldest ticket: every queued ticket
      is at least the head, and the head does not occur again behind it. */
  lemma HeadIsOldest(q: seq<int>)
    requires Increasing(q) && q != []
    ensures forall i | 0 <= i < |q| :: q[0] <= q[i]
    ensures q[0] !in q[1..]
  {
    assert forall k | 0 <= k < |q[1..]| :: q[0] < q[1..][k];
  }

  /** Removing a ticket just appended, and not queued before, gives back the
      queue as it was. */
  lemma RemoveLastAppended(q: seq<int>, x: int)
    requires x !in q
    ensures RemoveFirst(q + [x], x) == q
  {
    var i := FirstIndex(q + [x], x);
    assert i == |q| by {
      assert forall j | 0 <= j < |q| :: (q + [x])[j] == q[j] && q[j] in q;
    }
    RemoveFirstIsSplice(q + [x], x);
    assert (q + [x])[..i] == q;
  }
}
