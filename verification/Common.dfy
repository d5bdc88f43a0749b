/** Small collection vocabulary shared by the whole model. */
module Common {
  datatype Option<+T> = None | Some(value: T)

  function Min(a: int, b: int): int { if a < b then a else b }

  function Max(a: int, b: int): int { if a < b then b else a }

  // ----- Sums over finite maps -------------------------------------------------

  /** The sum of all values of a finite map. */
  ghost function Total<K(!new)>(m: map<K, int>): int {
    if m == map[] then 0 else
      var k :| k in m;
      m[k] + Total(m - {k})
  }

  /** Any key may be taken out first. */
  lemma {:induction false} TotalRemove<K(!new)>(m: map<K, int>, k: K)
    requires k in m
    ensures Total(m) == m[k] + Total(m - {k})
    decreases |m|
  {
    var j :| j in m && Total(m) == m[j] + Total(m - {j});
    if j != k {
      TotalRemove(m - {j}, k);
      TotalRemove(m - {k}, j);
      assert m - {j} - {k} == m - {k} - {j};
    }
  }

  lemma TotalPut<K(!new)>(m: map<K, int>, k: K, v: int)
    ensures Total(m[k := v]) == Total(m) - (if k in m then m[k] else 0) + v
  {
    TotalRemove(m[k := v], k);
    assert m[k := v] - {k} == m - {k};
    if k in m {
      TotalRemove(m, k);
    } else {
      assert m - {k} == m;
    }
  }

  // ----- Sequences without repetition -------------------------------------------

  ghost predicate NoDup<T>(xs: seq<T>) {
    forall i, j :: 0 <= i < j < |xs| ==> xs[i] != xs[j]
  }

  lemma {:induction false} NoDupCount<T>(xs: seq<T>, s: set<T>)
    requires NoDup(xs) && forall x :: x in xs ==> x in s
    ensures |xs| <= |s|
    ensures |xs| == |s| ==> forall x :: x in s ==> x in xs
    decreases |xs|
  {
    if xs != [] {
      var x := xs[0];
      NoDupCount(xs[1..], s - {x});
      assert xs == [x] + xs[1..];
    } else if |s| == 0 {
      assert s == {};
    }
  }

  lemma {:induction false} ElementsCount<T>(xs: seq<T>, s: set<T>)
    requires forall x :: x in s ==> x in xs
    ensures |s| <= |xs|
    decreases |xs|
  {
    if xs == [] {
      assert s == {};
    } else {
      assert xs == [xs[0]] + xs[1..];
      ElementsCount(xs[1..], s - {xs[0]});
    }
  }

  // ----- Ordered batches --------------------------------------------------------

  /** `ORDER BY rank LIMIT limit` over the rows `rank.Keys`: the answer is some
      ordered listing of the oldest rows; how ties are broken is left open. */
  ghost predicate IsBatch<K(!new)>(rank: map<K, int>, limit: nat, ids: seq<K>) {
    && NoDup(ids)
    && (forall k :: k in ids ==> k in rank)
    && |ids| == Min(limit, |rank|)
    && (forall i, j :: 0 <= i < j < |ids| ==> rank[ids[i]] <= rank[ids[j]])
    && (forall i, k :: 0 <= i < |ids| && k in rank && k !in ids ==> rank[ids[i]] <= rank[k])
  }

  lemma {:induction false} SomeOldest<K(!new)>(rank: map<K, int>) returns (k: K)
    requires rank != map[]
    ensures k in rank && forall j :: j in rank ==> rank[k] <= rank[j]
    decreases |rank|
  {
    k :| k in rank;
    assert forall i :: i in rank && i != k ==> i in rank - {k};
    if rank - {k} != map[] {
      var j := SomeOldest(rank - {k});
      if rank[j] < rank[k] { k := j; }
    }
  }

  lemma NoDupFront<T>(x: T, xs: seq<T>)
    requires NoDup(xs) && x !in xs
    ensures NoDup([x] + xs)
  {
    assert forall i :: 0 < i < |[x] + xs| ==> ([x] + xs)[i] == xs[i - 1];
  }

  /** The oldest row in front of a batch of the others is a batch. */
  lemma OldestThenBatch<K(!new)>(rank: map<K, int>, limit: nat, k: K, rest: seq<K>)
    requires limit > 0 && k in rank && forall j :: j in rank ==> rank[k] <= rank[j]
    requires IsBatch(rank - {k}, limit - 1, rest)
    ensures IsBatch(rank, limit, [k] + rest)
  {
    var ids := [k] + rest;
    NoDupFront(k, rest);
    hide NoDup;
    assert (rank - {k}).Keys == rank.Keys - {k} && |rank - {k}| == |rank| - 1;
    assert forall x :: x in ids <==> x == k || x in rest;
    assert forall x :: x in rest ==> x in rank - {k} && (rank - {k})[x] == rank[x];
    assert forall i :: 0 < i < |ids| ==> ids[i] == rest[i - 1];
    forall i, x | 0 <= i < |ids| && x in rank && x !in ids ensures rank[ids[i]] <= rank[x] {
      assert x in rank - {k} && x !in rest;
    }
  }

  /** A batch always exists, whatever the limit. */
  lemma {:induction false} SomeBatch<K(!new)>(rank: map<K, int>, limit: nat) returns (ids: seq<K>)
    ensures IsBatch(rank, limit, ids)
    decreases limit
  {
    if limit == 0 || rank == map[] {
      ids := [];
    } else {
      var k := SomeOldest(rank);
      var rest := SomeBatch(rank - {k}, limit - 1);
      OldestThenBatch(rank, limit, k, rest);
      ids := [k] + rest;
    }
  }

  /** The oldest of the remaining rows behind a batch is a longer batch. */
  lemma BatchThenNext<K(!new)>(rank: map<K, int>, ids: seq<K>, k: K)
    requires IsBatch(rank, |ids|, ids) && k in rank && k !in ids
    requires forall j :: j in rank && j !in ids ==> rank[k] <= rank[j]
    ensures IsBatch(rank, |ids| + 1, ids + [k])
  {
    var more := ids + [k];
    NoDupBack(ids, k);
    hide NoDup;
    assert forall x :: x in more <==> x in ids || x == k;
    assert forall i :: 0 <= i < |ids| ==> more[i] == ids[i];
    NoDupCountMap(rank, more);
  }

  lemma NoDupBack<T>(xs: seq<T>, x: T)
    requires NoDup(xs) && x !in xs
    ensures NoDup(xs + [x])
  {
  }

  lemma NoDupCountMap<K>(rank: map<K, int>, ids: seq<K>)
    requires NoDup(ids) && forall k :: k in ids ==> k in rank
    ensures |ids| <= |rank|
  {
    NoDupCount(ids, rank.Keys);
  }

  /** The answer to `ORDER BY rank LIMIT limit`, by repeated selection of the oldest row. */
  method TakeOldest<K(==, !new)>(rank: map<K, int>, limit: nat) returns (ids: seq<K>)
    ensures IsBatch(rank, limit, ids)
  {
    ids := [];
    var rest := rank.Keys;
    while |ids| < limit && rest != {}
      invariant |ids| <= limit && IsBatch(rank, |ids|, ids)
      invariant forall k :: k in rest <==> k in rank && k !in ids
      decreases rest
    {
      var oldest :| oldest in rest;
      var todo := rest - {oldest};
      while todo != {}
        invariant oldest in rest && todo <= rest
        invariant forall k :: k in rest && k !in todo ==> rank[oldest] <= rank[k]
        decreases todo
      {
        var k :| k in todo;
        todo := todo - {k};
        if rank[k] < rank[oldest] { oldest := k; }
      }
      BatchThenNext(rank, ids, oldest);
      ids := ids + [oldest];
      rest := rest - {oldest};
    }
    if rest == {} {
      assert forall k :: k in rank.Keys ==> k in ids;
      ElementsCount(ids, rank.Keys);
    }
  }

  // ----- Fresh identifiers -----------------------------------------------------------

  lemma {:induction false} UpperBound(s: set<nat>) returns (n: nat)
    ensures forall x :: x in s ==> x < n
    decreases |s|
  {
    n := 0;
    if s != {} {
      var x :| x in s;
      n := UpperBound(s - {x});
      assert forall y :: y in s && y != x ==> y in s - {x};
      if n <= x { n := x + 1; }
    }
  }
}
