/**
 * The queue operations of a DESMO-J ProcessQueue, on sequences of process
 * ids: insert at the back, removeFirst, remove(x), and the insert that the
 * idle queues use, which leaves a queue that already holds the id alone.
 */
module Queues {

  /** No id occurs twice. */
  ghost predicate Distinct(q: seq<nat>) {
    forall i, j :: 0 <= i < j < |q| ==> q[i] != q[j]
  }

  /** Every id is below `n`. */
  ghost predicate IdsBelow(q: seq<nat>, n: int) {
    forall i :: 0 <= i < |q| ==> q[i] < n
  }

  /** ProcessQueue.remove(x): drops the first occurrence of x; without x the queue is unchanged. */
  function Remove(q: seq<nat>, x: nat): (r: seq<nat>)
    ensures x !in q ==> r == q
    ensures x in q ==> |r| == |q| - 1
  {
    if q == [] then []
    else if q[0] == x then q[1..]
    else [q[0]] + Remove(q[1..], x)
  }

  /** remove(x) keeps only ids that were there, and keeps every id other than x. */
  lemma {:induction false} RemoveMembers(q: seq<nat>, x: nat)
    ensures forall y :: y in Remove(q, x) ==> y in q
    ensures forall y :: y != x ==> (y in Remove(q, x) <==> y in q)
  {
    if q != [] && q[0] != x {
      RemoveMembers(q[1..], x);
      assert q == [q[0]] + q[1..];
    }
  }

  /** In a queue without repetitions, remove(x) takes out exactly x and keeps the rest distinct. */
  lemma {:induction false} RemoveDistinct(q: seq<nat>, x: nat)
    requires Distinct(q)
    ensures Distinct(Remove(q, x))
    ensures forall y :: y in Remove(q, x) <==> y in q && y != x
  {
    if q == [] {
    } else if q[0] == x {
      assert q == [q[0]] + q[1..];
      assert q[0] !in q[1..];
    } else {
      var t := q[1..];
      assert Distinct(t);
      RemoveDistinct(t, x);
      assert q[0] !in t;
      var r := Remove(t, x);
      assert Remove(q, x) == [q[0]] + r;
      assert q[0] !in r;
      forall y ensures y in [q[0]] + r <==> y in q && y != x {
        assert q == [q[0]] + t;
      }
    }
  }

  /** remove(x) keeps only ids that were there. */
  lemma RemoveKeepsIdsBelow(q: seq<nat>, x: nat, n: int)
    requires IdsBelow(q, n)
    ensures IdsBelow(Remove(q, x), n)
  {
    RemoveMembers(q, x);
    var r := Remove(q, x);
    forall i | 0 <= i < |r| ensures r[i] < n {
      assert r[i] in r;
    }
  }

  /**
   * The insert used for the idle queues.  The shop inserts each worker
   * before activating it and the worker's own life cycle inserts it again;
   * a second insert of an id already present is taken to change nothing.
   */
  function Enlist(q: seq<nat>, x: nat): (r: seq<nat>)
    ensures x in r
    ensures forall y :: y in r <==> y in q || y == x
    ensures Distinct(q) ==> Distinct(r)
  {
    if x in q then q else q + [x]
  }

  /** The ids 0, 1, ..., n - 1 in order. */
  function Ids(n: nat): (r: seq<nat>)
    ensures |r| == n
    ensures forall i :: 0 <= i < n ==> r[i] == i
    ensures Distinct(r)
  {
    seq(n, i => i)
  }

  /** Inserting x and then removing it gives the queue back, when x was not there. */
  lemma {:induction false} RemoveAppended(q: seq<nat>, x: nat)
    requires x !in q
    ensures Remove(q + [x], x) == q
  {
    if q == [] {
      assert q + [x] == [x];
    } else {
      assert (q + [x])[1..] == q[1..] + [x];
      RemoveAppended(q[1..], x);
      assert q == [q[0]] + q[1..];
    }
  }

  /** removeFirst keeps a queue without repetitions free of them, and the head is not in the rest. */
  lemma DistinctTail(q: seq<nat>)
    requires Distinct(q) && q != []
    ensures Distinct(q[1..]) && q[0] !in q[1..]
  {
  }

  /** Inserting an id that is not there keeps a queue free of repetitions. */
  lemma DistinctAppend(q: seq<nat>, x: nat)
    requires Distinct(q) && x !in q
    ensures Distinct(q + [x])
  {
  }
}
