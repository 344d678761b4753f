/** Facts about the bounded FIFO channels of the pool, seen as sequences. */
module Queues {

  datatype Option<+T> = None | Some(value: T)

  ghost predicate Distinct<T>(q: seq<T>) {
    forall i, j :: 0 <= i < j < |q| ==> q[i] != q[j]
  }

  /** The queue with every occurrence of `x` taken out, in the same order. */
  function Without(q: seq<nat>, x: nat): (r: seq<nat>)
    ensures x !in r
    ensures forall y :: y in r <==> y in q && y != x
  {
    if q == [] then []
    else
      var last := q[|q| - 1];
      Without(q[..|q| - 1], x) + (if last == x then [] else [last])
  }

  /** `r` lists, at strictly increasing positions `at`, all the positions of `q` that do not hold `x`. */
  ghost predicate Filters(q: seq<nat>, x: nat, at: seq<nat>, r: seq<nat>) {
    && |at| == |r|
    && (forall k :: 0 <= k < |at| ==> at[k] < |q| && r[k] == q[at[k]] != x)
    && (forall j, k :: 0 <= j < k < |at| ==> at[j] < at[k])
    && (forall p :: 0 <= p < |q| && q[p] != x ==> p in at)
  }

  lemma FiltersSnoc(q: seq<nat>, y: nat, x: nat, at: seq<nat>, r: seq<nat>)
    requires Filters(q, x, at, r)
    ensures y == x ==> Filters(q + [y], x, at, r)
    ensures y != x ==> Filters(q + [y], x, at + [|q|], r + [y])
  {
    var q' := q + [y];
    assert forall p :: 0 <= p < |q| ==> q'[p] == q[p];
    if y != x {
      assert (at + [|q|])[|at|] == |q|;
      assert forall p :: p in at ==> p in at + [|q|];
    }
  }

  /** `Without` is exactly order-preserving filtering. */
  lemma {:induction false} WithoutIsFilter(q: seq<nat>, x: nat) returns (at: seq<nat>)
    ensures Filters(q, x, at, Without(q, x))
  {
    if q == [] {
      at := [];
    } else {
      var init, last := q[..|q| - 1], q[|q| - 1];
      at := WithoutIsFilter(init, x);
      FiltersSnoc(init, last, x, at, Without(init, x));
      assert q == init + [last];
      if last == x {
        assert Without(init, x) + [] == Without(init, x);
      } else {
        at := at + [|init|];
      }
    }
  }

  lemma WithoutDistinct(q: seq<nat>, x: nat)
    requires Distinct(q)
    ensures Distinct(Without(q, x))
    ensures |Without(q, x)| <= |q|
  {
    var at := WithoutIsFilter(q, x);
    if |at| > |q| {
      SmallDistinct(at, |q|);
    }
  }

  lemma WithoutShorter(q: seq<nat>, x: nat)
    ensures |Without(q, x)| <= |q|
  {
  }

  lemma WithoutSnoc(q: seq<nat>, y: nat, x: nat)
    ensures Without(q + [y], x) == Without(q, x) + (if y == x then [] else [y])
  {
    assert (q + [y])[..|q|] == q;
  }

  /** Pigeonhole: distinct numbers below `n` number at most `n`. */
  lemma {:induction false} SmallDistinct(q: seq<nat>, n: nat)
    requires Distinct(q)
    requires forall i :: 0 <= i < |q| ==> q[i] < n
    ensures |q| <= n
    decreases n
  {
    assert |q| > 0 ==> q[0] < n;
    if n > 0 {
      var r := DropOne(q, n - 1);
      SmallDistinct(r, n - 1);
    }
  }

  lemma DropOne(q: seq<nat>, x: nat) returns (r: seq<nat>)
    requires Distinct(q)
    ensures Distinct(r)
    ensures |r| + 1 >= |q|
    ensures forall i :: 0 <= i < |r| ==> r[i] in q && r[i] != x
  {
    if x in q {
      var i :| 0 <= i < |q| && q[i] == x;
      r := q[..i] + q[i + 1..];
    } else {
      r := q;
    }
  }

  /** A distinct queue of ids below `n` that misses one of them has room for it. */
  lemma RoomFor(q: seq<nat>, x: nat, n: nat)
    requires Distinct(q) && x !in q && x < n
    requires forall y :: y in q ==> y < n
    ensures |q| < n
  {
    var r := q + [x];
    forall i | 0 <= i < |r|
      ensures r[i] < n
    {
      if i < |q| {
        assert r[i] in q;
      }
    }
    SmallDistinct(r, n);
  }

  lemma FirstIsIn(q: seq<nat>)
    ensures q != [] ==> q[0] in q
  {
  }

  /** A queue of ids below zero is empty. */
  lemma EmptyQueue(q: seq<nat>, n: nat)
    requires n == 0 && forall id: nat :: id in q ==> id < n
    ensures q == []
  {
    FirstIsIn(q);
  }

  lemma {:induction false} WithoutFirst(q: seq<nat>, x: nat)
    requires q != []
    ensures Without(q, x) == (if q[0] == x then [] else [q[0]]) + Without(q[1..], x)
  {
    var last := q[|q| - 1];
    if |q| == 1 {
      assert q[..0] == [] && q[1..] == [];
    } else {
      WithoutFirst(q[..|q| - 1], x);
      assert q[..|q| - 1][1..] == q[1..][..|q| - 2];
    }
  }
}
