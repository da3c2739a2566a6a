/**
 `ORDER BY key LIMIT n` over a pool of rows, each mapped to its sort key. SQL leaves ties
 open, so a selection is described by a predicate rather than computed by a function.
 */
module Ranking {

  function Min(a: nat, b: nat): nat {
    if a <= b then a else b
  }

  ghost predicate IsFirst(chosen: set<nat>, pool: map<nat, int>, limit: nat) {
    && chosen <= pool.Keys
    && |chosen| == Min(limit, |pool|)
    && forall a, b :: a in chosen && b in pool.Keys - chosen ==> pool[a] <= pool[b]
  }

  ghost predicate DistinctKeys(pool: map<nat, int>) {
    forall a, b :: a in pool && b in pool && a != b ==> pool[a] != pool[b]
  }

  lemma SubsetSize(a: set<nat>, b: set<nat>)
    requires a <= b
    ensures |a| <= |b|
    ensures |a| == |b| ==> a == b
  {
    assert b == a + (b - a);
  }

  /** Without ties there is only one selection. */
  lemma FirstIsUnique(c1: set<nat>, c2: set<nat>, pool: map<nat, int>, limit: nat)
    requires IsFirst(c1, pool, limit) && IsFirst(c2, pool, limit)
    requires DistinctKeys(pool)
    ensures c1 == c2
  {
    if c1 <= c2 {
      SubsetSize(c1, c2);
    } else if c2 <= c1 {
      SubsetSize(c2, c1);
    }
  }

  /** A row of the pool is left out only for the limit, and then for rows that are no later. */
  lemma LeftOutForEarlier(chosen: set<nat>, pool: map<nat, int>, limit: nat, id: nat)
    requires IsFirst(chosen, pool, limit) && id in pool
    ensures id in chosen || (|chosen| == limit && forall taken :: taken in chosen ==> pool[taken] <= pool[id])
  {
    if id !in chosen {
      SubsetSize(chosen + {id}, pool.Keys);
      assert |pool| == |pool.Keys|;
    }
  }

  lemma EarliestExists(rest: set<nat>, pool: map<nat, int>)
    requires rest != {} && rest <= pool.Keys
    ensures exists x :: x in rest && forall y :: y in rest ==> pool[x] <= pool[y]
  {
    var z :| z in rest;
    if rest != {z} {
      EarliestExists(rest - {z}, pool);
      var x :| x in rest - {z} && forall y :: y in rest - {z} ==> pool[x] <= pool[y];
      var w := if pool[z] <= pool[x] then z else x;
      assert forall y :: y in rest ==> y == z || y in rest - {z};
      assert w in rest && forall y :: y in rest ==> pool[w] <= pool[y];
    }
  }

  /** `chosen` holds earliest rows so far and `rest` the others: what the query keeps true as it goes. */
  ghost predicate Progress(chosen: set<nat>, rest: set<nat>, pool: map<nat, int>, limit: nat) {
    && chosen !! rest && chosen + rest == pool.Keys
    && |chosen| <= limit
    && forall a, b :: a in chosen && b in rest ==> pool[a] <= pool[b]
  }

  lemma ProgressEnds(chosen: set<nat>, rest: set<nat>, pool: map<nat, int>, limit: nat)
    requires Progress(chosen, rest, pool, limit) && (|chosen| == limit || rest == {})
    ensures IsFirst(chosen, pool, limit)
  {
    assert pool.Keys - chosen == rest;
    assert |pool| == |pool.Keys| == |chosen| + |rest|;
  }

  lemma ProgressSteps(chosen: set<nat>, rest: set<nat>, pool: map<nat, int>, limit: nat, x: nat)
    requires Progress(chosen, rest, pool, limit) && |chosen| < limit
    requires x in rest && forall y :: y in rest ==> pool[x] <= pool[y]
    ensures Progress(chosen + {x}, rest - {x}, pool, limit)
  {
  }

  lemma FirstExists(chosen: set<nat>, rest: set<nat>, pool: map<nat, int>, limit: nat)
    requires Progress(chosen, rest, pool, limit)
    ensures exists c :: IsFirst(c, pool, limit)
    decreases rest
  {
    if |chosen| == limit || rest == {} {
      ProgressEnds(chosen, rest, pool, limit);
    } else {
      EarliestExists(rest, pool);
      var x :| x in rest && forall y :: y in rest ==> pool[x] <= pool[y];
      ProgressSteps(chosen, rest, pool, limit, x);
      FirstExists(chosen + {x}, rest - {x}, pool, limit);
    }
  }

  /** The query itself: repeatedly take an earliest remaining row, any one of them when several tie. */
  method TakeFirst(pool: map<nat, int>, limit: nat) returns (chosen: set<nat>)
    ensures IsFirst(chosen, pool, limit)
  {
    chosen := {};
    var rest := pool.Keys;
    while |chosen| < limit && rest != {}
      invariant Progress(chosen, rest, pool, limit)
      decreases rest
    {
      EarliestExists(rest, pool);
      var x :| x in rest && forall y :: y in rest ==> pool[x] <= pool[y];
      ProgressSteps(chosen, rest, pool, limit, x);
      chosen, rest := chosen + {x}, rest - {x};
    }
    ProgressEnds(chosen, rest, pool, limit);
  }
}
