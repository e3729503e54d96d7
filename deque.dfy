/**
 * The two operations the service uses on `collections.deque(maxlen=...)`:
 * `append`, which drops the oldest entry when the deque is full, and `remove`,
 * which deletes the first occurrence of a value. A deque is its contents as a
 * sequence, oldest entry first.
 */
module Deque {

  /** The last `n` elements of `s` (all of `s` when it is shorter). */
  function LastN<T>(s: seq<T>, n: nat): seq<T>
  {
    if |s| <= n then s else s[|s| - n..]
  }

  /** `q.append(x)` on a deque bounded by `maxLen`. */
  function Append<T>(q: seq<T>, x: T, maxLen: nat): (r: seq<T>)
    requires 0 < maxLen && |q| <= maxLen
    ensures r == LastN(q + [x], maxLen)
    ensures |r| == if |q| < maxLen then |q| + 1 else maxLen
    ensures r[|r| - 1] == x
  {
    if |q| < maxLen then q + [x] else q[1..] + [x]
  }

  /** Appending to a full deque evicts exactly its oldest entry and keeps the rest in order. */
  lemma AppendFullEvictsOldest<T>(q: seq<T>, x: T, maxLen: nat)
    requires 0 < maxLen && |q| == maxLen
    ensures Append(q, x, maxLen)[..maxLen - 1] == q[1..]
    ensures multiset(Append(q, x, maxLen)) == multiset(q) - multiset{q[0]} + multiset{x}
  {
    assert q == [q[0]] + q[1..];
  }

  /** Index of the first occurrence of `x` in `q`. */
  function FirstIndex<T(==)>(q: seq<T>, x: T): (i: nat)
    requires x in q
    ensures i < |q| && q[i] == x && x !in q[..i]
  {
    if q[0] == x then 0 else 1 + FirstIndex(q[1..], x)
  }

  /** `q.remove(x)`: deletes the first occurrence of `x` (Python raises when there is none). */
  function RemoveFirst<T(==)>(q: seq<T>, x: T): seq<T>
    requires x in q
  {
    if q[0] == x then q[1..] else [q[0]] + RemoveFirst(q[1..], x)
  }

  /** Removing cuts out exactly the first occurrence and keeps everything else in order. */
  lemma {:induction false} RemoveFirstSplices<T>(q: seq<T>, x: T)
    requires x in q
    ensures RemoveFirst(q, x) == q[..FirstIndex(q, x)] + q[FirstIndex(q, x) + 1..]
  {
    if q[0] != x {
      var t := q[1..];
      RemoveFirstSplices(t, x);
      var i := FirstIndex(t, x);
      assert FirstIndex(q, x) == i + 1;
      calc {
        RemoveFirst(q, x);
        [q[0]] + (t[..i] + t[i + 1..]);
        { assert t[..i] == q[1..i + 1]; assert t[i + 1..] == q[i + 2..]; }
        [q[0]] + (q[1..i + 1] + q[i + 2..]);
        { assert [q[0]] + q[1..i + 1] == q[..i + 1]; }
        q[..i + 1] + q[i + 2..];
      }
    }
  }

  /** Removing takes exactly one copy of `x` out of the deque. */
  lemma RemoveFirstCount<T>(q: seq<T>, x: T)
    requires x in q
    ensures |RemoveFirst(q, x)| == |q| - 1
    ensures multiset(RemoveFirst(q, x)) == multiset(q) - multiset{x}
  {
    RemoveFirstSplices(q, x);
    var i := FirstIndex(q, x);
    assert q == q[..i] + [x] + q[i + 1..];
    assert multiset(q) == multiset(q[..i]) + multiset{x} + multiset(q[i + 1..]);
  }
}
