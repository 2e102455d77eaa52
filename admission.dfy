/**
  The bounded top-score admission of NeuralSparseScorer.updateScore over a
  java.util.PriorityQueue<Float>. The heap is represented by its contents in ascending
  order, so `peek` is the first element and `poll` drops it.
 */
module Admission {
  import opened Wrappers

  /** The number of scores the queue keeps. */
  const Capacity: nat := 50

  ghost predicate Sorted(s: seq<real>)
  {
    forall i, j :: 0 <= i < j < |s| ==> s[i] <= s[j]
  }

  /** The ascending sequence with `x` added. */
  function Insert(s: seq<real>, x: real): seq<real>
  {
    if s == [] || x <= s[0] then [x] + s
    else [s[0]] + Insert(s[1..], x)
  }

  /** Insert adds exactly one copy of `x` and keeps the order. */
  lemma InsertProperties(s: seq<real>, x: real)
    ensures multiset(Insert(s, x)) == multiset(s) + multiset{x}
    ensures |Insert(s, x)| == |s| + 1
    ensures Insert(s, x)[0] == (if s == [] || x <= s[0] then x else s[0])
    ensures Sorted(s) ==> Sorted(Insert(s, x))
  {
    InsertContents(s, x);
    if Sorted(s) {
      InsertSorted(s, x);
    }
  }

  lemma {:induction false} InsertContents(s: seq<real>, x: real)
    ensures multiset(Insert(s, x)) == multiset(s) + multiset{x}
    ensures |Insert(s, x)| == |s| + 1
    ensures Insert(s, x)[0] == (if s == [] || x <= s[0] then x else s[0])
  {
    if !(s == [] || x <= s[0]) {
      var t := s[1..];
      InsertContents(t, x);
      assert s == [s[0]] + t;
      assert Insert(s, x) == [s[0]] + Insert(t, x);
    }
  }

  lemma {:induction false} InsertBounded(s: seq<real>, x: real, lo: real)
    requires forall i :: 0 <= i < |s| ==> lo <= s[i]
    requires lo <= x
    ensures forall i :: 0 <= i < |Insert(s, x)| ==> lo <= Insert(s, x)[i]
  {
    if !(s == [] || x <= s[0]) {
      var t := s[1..];
      InsertBounded(t, x, lo);
      var r := Insert(s, x);
      assert r == [s[0]] + Insert(t, x);
      forall i | 1 <= i < |r|
        ensures lo <= r[i]
      {
        assert r[i] == Insert(t, x)[i - 1];
      }
    }
  }

  lemma {:induction false} InsertSorted(s: seq<real>, x: real)
    requires Sorted(s)
    ensures Sorted(Insert(s, x))
  {
    var r := Insert(s, x);
    if s == [] || x <= s[0] {
      assert r == [x] + s;
      forall i, j | 0 <= i < j < |r|
        ensures r[i] <= r[j]
      {
        assert r[j] == s[j - 1];
        if i > 0 {
          assert r[i] == s[i - 1];
        } else {
          assert s[0] <= s[j - 1];
        }
      }
    } else {
      var t := s[1..];
      InsertSorted(t, x);
      InsertBounded(t, x, s[0]);
      var r' := Insert(t, x);
      assert r == [s[0]] + r';
      forall i, j | 0 <= i < j < |r|
        ensures r[i] <= r[j]
      {
        assert r[j] == r'[j - 1];
        if i > 0 {
          assert r[i] == r'[i - 1];
        }
      }
    }
  }

  /** Insert places `x` right before the first element it does not exceed. */
  lemma {:induction false} InsertAt(s: seq<real>, x: real, i: nat)
    requires i <= |s|
    requires forall j :: 0 <= j < i ==> s[j] < x
    requires i == |s| || x <= s[i]
    ensures Insert(s, x) == s[..i] + [x] + s[i..]
  {
    if i > 0 {
      var t := s[1..];
      InsertAt(t, x, i - 1);
      assert Insert(s, x) == [s[0]] + Insert(t, x);
      assert t[..i - 1] == s[1..i];
      assert t[i - 1..] == s[i..];
      assert s[..i] == [s[0]] + s[1..i];
    }
  }

  /** The outcome of one updateScore call: whether the score was admitted and the new contents. */
  datatype Outcome = Outcome(admitted: bool, queue: seq<real>)

  /**
    updateScore: add while fewer than Capacity scores are held; when full, replace the
    minimum by a strictly greater score; otherwise reject and keep the queue.
   */
  function Admit(q: seq<real>, x: real): (o: Outcome)
    requires Sorted(q)
    ensures Sorted(o.queue)
    ensures o.admitted <==> (|q| < Capacity || x > q[0])
    ensures |q| <= Capacity ==> |o.queue| <= Capacity
    ensures |q| >= Capacity ==> |o.queue| == |q|
    ensures !o.admitted ==> o.queue == q
  {
    if |q| < Capacity then
      InsertProperties(q, x);
      Outcome(true, Insert(q, x))
    else if x > q[0] then
      InsertProperties(q[1..], x);
      Outcome(true, Insert(q[1..], x))
    else Outcome(false, q)
  }

  /** The contents after a sequence of updateScore calls on one queue, in call order. */
  function AdmitAll(q: seq<real>, xs: seq<real>): (r: seq<real>)
    requires Sorted(q)
    ensures Sorted(r)
    decreases |xs|
  {
    if xs == [] then q else AdmitAll(Admit(q, xs[0]).queue, xs[1..])
  }

  /**
    `q` holds the largest min(|seen|, Capacity) of the scores in `seen`: it is drawn from
    them, has that many elements, and nothing left out is above anything kept.
   */
  ghost predicate IsTopK(q: multiset<real>, seen: multiset<real>)
  {
    && q <= seen
    && |q| == (if |seen| < Capacity then |seen| else Capacity)
    && forall a, b :: a in q && b in seen - q ==> b <= a
  }

  /** While the queue is not full it holds every score seen, so adding keeps it the top scores. */
  lemma AdmitNotFullKeepsTopK(q: seq<real>, seen: multiset<real>, x: real)
    requires Sorted(q) && |q| < Capacity
    requires IsTopK(multiset(q), seen)
    ensures IsTopK(multiset(Admit(q, x).queue), seen + multiset{x})
  {
    assert |seen - multiset(q)| == |seen| - |multiset(q)|;
    assert multiset(q) == seen;
    InsertProperties(q, x);
    assert multiset(Admit(q, x).queue) == seen + multiset{x};
  }

  /** A full queue swaps its minimum for a greater score and stays the top scores. */
  lemma AdmitReplaceKeepsTopK(q: seq<real>, seen: multiset<real>, x: real)
    requires Sorted(q) && |q| >= Capacity && x > q[0]
    requires IsTopK(multiset(q), seen)
    ensures IsTopK(multiset(Admit(q, x).queue), seen + multiset{x})
  {
    var seen' := seen + multiset{x};
    var m := q[0];
    var rest := q[1..];
    var kept := multiset(rest) + multiset{x};
    InsertProperties(rest, x);
    assert q == [m] + rest;
    assert multiset(q) == multiset{m} + multiset(rest);
    assert multiset(Admit(q, x).queue) == kept;
    assert seen' - kept == (seen - multiset(q)) + multiset{m};
    forall a, b | a in kept && b in seen' - kept
      ensures b <= a
    {
      assert m <= a by {
        if a != x {
          assert a in rest;
          var i :| 0 <= i < |rest| && rest[i] == a;
          assert q[i + 1] == a;
        }
      }
      if b != m {
        assert b in seen - multiset(q);
        assert m in multiset(q);
      }
    }
  }

  /** A rejected score leaves a queue that is still the top scores. */
  lemma AdmitRejectKeepsTopK(q: seq<real>, seen: multiset<real>, x: real)
    requires Sorted(q) && |q| >= Capacity && x <= q[0]
    requires IsTopK(multiset(q), seen)
    ensures IsTopK(multiset(Admit(q, x).queue), seen + multiset{x})
  {
    var seen' := seen + multiset{x};
    var kept := multiset(q);
    assert Admit(q, x).queue == q;
    assert seen' - kept == (seen - kept) + multiset{x};
    forall a, b | a in kept && b in seen' - kept
      ensures b <= a
    {
      var i :| 0 <= i < |q| && q[i] == a;
      assert q[0] <= a;
    }
  }

  /** One updateScore call keeps the queue the top scores of everything seen. */
  lemma AdmitKeepsTopK(q: seq<real>, seen: multiset<real>, x: real)
    requires Sorted(q)
    requires IsTopK(multiset(q), seen)
    ensures IsTopK(multiset(Admit(q, x).queue), seen + multiset{x})
  {
    if |q| < Capacity {
      AdmitNotFullKeepsTopK(q, seen, x);
    } else if x > q[0] {
      AdmitReplaceKeepsTopK(q, seen, x);
    } else {
      AdmitRejectKeepsTopK(q, seen, x);
    }
  }

  /** From an empty queue, the queue always holds the largest min(n, Capacity) scores seen. */
  lemma {:induction false} AdmitAllIsTopK(q: seq<real>, seen: multiset<real>, xs: seq<real>)
    requires Sorted(q)
    requires IsTopK(multiset(q), seen)
    ensures IsTopK(multiset(AdmitAll(q, xs)), seen + multiset(xs))
    decreases |xs|
  {
    if xs == [] {
      assert seen + multiset(xs) == seen;
    } else {
      var q' := Admit(q, xs[0]).queue;
      var seen' := seen + multiset{xs[0]};
      assert AdmitAll(q, xs) == AdmitAll(q', xs[1..]);
      assert xs == [xs[0]] + xs[1..];
      assert seen' + multiset(xs[1..]) == seen + multiset(xs);
      AdmitKeepsTopK(q, seen, xs[0]);
      AdmitAllIsTopK(q', seen', xs[1..]);
    }
  }

  /** Starting from the empty queue, it holds the largest min(n, Capacity) of the n scores offered. */
  lemma TopKFromEmpty(xs: seq<real>)
    ensures IsTopK(multiset(AdmitAll([], xs)), multiset(xs))
    ensures |AdmitAll([], xs)| <= Capacity
  {
    AdmitAllIsTopK([], multiset{}, xs);
    assert multiset{} + multiset(xs) == multiset(xs);
  }

  /** Once the queue is full, its minimum never decreases. */
  lemma FullQueueMinNeverDecreases(q: seq<real>, x: real)
    requires Sorted(q)
    requires |q| == Capacity
    ensures |Admit(q, x).queue| == Capacity
    ensures Admit(q, x).queue[0] >= q[0]
  {
    if x > q[0] {
      var rest := q[1..];
      InsertProperties(rest, x);
    }
  }

  /**
    The PriorityQueue<Float> shared by all scorers of one weight. It is unbounded, as in
    Java; only updateScore keeps it at no more than Capacity scores.
   */
  class ScoreQueue {
    var items: seq<real>

    ghost predicate Valid()
      reads this
    {
      Sorted(items)
    }

    constructor ()
      ensures Valid() && items == []
    {
      items := [];
    }

    function Size(): (n: nat)
      reads this
      ensures n == |items|
    {
      |items|
    }

    /** peek: the least score, or null when empty. */
    function Peek(): (r: Option<real>)
      reads this
      requires Valid()
      ensures items == [] <==> r.None?
      ensures r.Some? ==> r.value in items && forall j :: 0 <= j < |items| ==> r.value <= items[j]
    {
      if items == [] then None else Some(items[0])
    }

    /** poll: remove and return the least score, or null when empty. */
    method Poll() returns (r: Option<real>)
      requires Valid()
      modifies this
      ensures Valid()
      ensures old(items) == [] ==> r.None? && items == []
      ensures old(items) != [] ==> r == Some(old(items)[0]) && items == old(items)[1..]
    {
      if items == [] {
        r := None;
      } else {
        r := Some(items[0]);
        items := items[1..];
      }
    }

    /** add: insert a score at its place in the order. */
    method Add(x: real)
      requires Valid()
      modifies this
      ensures Valid()
      ensures items == Insert(old(items), x)
    {
      var i := 0;
      while i < |items| && items[i] < x
        invariant 0 <= i <= |items|
        invariant forall j :: 0 <= j < i ==> items[j] < x
      {
        i := i + 1;
      }
      InsertAt(items, x, i);
      InsertProperties(items, x);
      items := items[..i] + [x] + items[i..];
    }
  }

}
