/**
 The canonical form of a request that the idempotency hash is taken of: every object's entries
 sorted by key. Keys are compared by locale, which may rank different keys equally; `rank`
 stands for that comparison, and any total preorder on strings can be written this way.
 */
module CanonicalJson {
  import opened JsonTrees
  import Sorting
  import Idempotency

  type Rank = string -> real

  function ByRank(rank: Rank): (Field, Field) -> bool {
    (a: Field, b: Field) => rank(a.key) <= rank(b.key)
  }

  function Normalize(j: Json, rank: Rank): Json
    decreases j
  {
    match j
    case Arr(items) => Arr(NormalizeItems(items, rank))
    case Obj(fields) => Obj(Sorting.SortBy(NormalizeFields(fields, rank), ByRank(rank)))
    case _ => j
  }

  function NormalizeItems(items: seq<Json>, rank: Rank): (r: seq<Json>)
    ensures |r| == |items| && forall i :: 0 <= i < |items| ==> r[i] == Normalize(items[i], rank)
    decreases items
  {
    if items == [] then [] else [Normalize(items[0], rank)] + NormalizeItems(items[1..], rank)
  }

  /** Values are normalised in place; the sort looks at keys only, so it may as well come second. */
  function NormalizeFields(fields: seq<Field>, rank: Rank): (r: seq<Field>)
    ensures |r| == |fields|
    ensures forall i :: 0 <= i < |fields| ==> r[i] == Field(fields[i].key, Normalize(fields[i].value, rank))
    decreases fields
  {
    if fields == [] then []
    else [Field(fields[0].key, Normalize(fields[0].value, rank))] + NormalizeFields(fields[1..], rank)
  }

  /** No object has the same key twice. */
  ghost predicate WellFormed(j: Json) {
    match j
    case Arr(items) => forall i :: 0 <= i < |items| ==> WellFormed(items[i])
    case Obj(fields) =>
      && UniqueKeys(fields)
      && forall i :: 0 <= i < |fields| ==> WellFormed(fields[i].value)
    case _ => true
  }

  ghost predicate UniqueKeys(fields: seq<Field>) {
    forall i, j :: 0 <= i < j < |fields| ==> fields[i].key != fields[j].key
  }

  /** No object has two keys that the comparison cannot tell apart. */
  ghost predicate NoTies(j: Json, rank: Rank) {
    match j
    case Arr(items) => forall i :: 0 <= i < |items| ==> NoTies(items[i], rank)
    case Obj(fields) =>
      && UniqueRanks(fields, rank)
      && forall i :: 0 <= i < |fields| ==> NoTies(fields[i].value, rank)
    case _ => true
  }

  ghost predicate UniqueRanks(fields: seq<Field>, rank: Rank) {
    forall i, j :: 0 <= i < j < |fields| ==> rank(fields[i].key) != rank(fields[j].key)
  }

  /** Equal up to the order of keys, at every level. */
  ghost predicate Equivalent(a: Json, b: Json)
    decreases a
  {
    match a
    case Arr(items) =>
      && b.Arr? && |items| == |b.items|
      && forall i :: 0 <= i < |items| ==> Equivalent(items[i], b.items[i])
    case Obj(fields) =>
      && b.Obj? && |fields| == |b.fields|
      && forall i :: 0 <= i < |fields| ==> HasMatch(fields[i], b.fields)
    case _ => a == b
  }

  ghost predicate HasMatch(x: Field, fields: seq<Field>)
    decreases x
  {
    exists k :: 0 <= k < |fields| && x.key == fields[k].key && Equivalent(x.value, fields[k].value)
  }

  lemma RankOrders(rank: Rank)
    ensures Sorting.TotalPreorder(ByRank(rank))
  {
  }

  /** The normal form has its keys in ascending order. */
  lemma KeysAscend(fields: seq<Field>, rank: Rank, i: nat, j: nat)
    requires i < j < |Normalize(Obj(fields), rank).fields|
    ensures rank(Normalize(Obj(fields), rank).fields[i].key) <= rank(Normalize(Obj(fields), rank).fields[j].key)
  {
    RankOrders(rank);
    Sorting.SortBySorts(NormalizeFields(fields, rank), ByRank(rank));
    var sorted := Normalize(Obj(fields), rank).fields;
    assert ByRank(rank)(sorted[i], sorted[j]);
  }

  // ----- Equal normal forms mean equal up to key order -----

  lemma SameMembers(a: seq<Field>, b: seq<Field>, rank: Rank, i: nat) returns (k: nat)
    requires Normalize(Obj(a), rank) == Normalize(Obj(b), rank) && i < |a|
    ensures |a| == |b| && k < |b| && a[i].key == b[k].key && Normalize(a[i].value, rank) == Normalize(b[k].value, rank)
  {
    var na, nb := NormalizeFields(a, rank), NormalizeFields(b, rank);
    assert multiset(na) == multiset(nb);
    Sorting.SameElements(na, nb);
    assert |multiset(na)| == |multiset(nb)|;
    assert na[i] in nb;
    k :| 0 <= k < |nb| && nb[k] == na[i];
  }

  lemma {:induction false} NormalImpliesEquivalent(a: Json, b: Json, rank: Rank)
    requires Normalize(a, rank) == Normalize(b, rank)
    ensures Equivalent(a, b)
    decreases a
  {
    match a
    case Arr(items) =>
      forall i | 0 <= i < |items|
        ensures Equivalent(items[i], b.items[i])
      {
        assert NormalizeItems(items, rank)[i] == NormalizeItems(b.items, rank)[i];
        NormalImpliesEquivalent(items[i], b.items[i], rank);
      }
    case Obj(fields) =>
      if fields != [] {
        var _ := SameMembers(fields, b.fields, rank, 0);
      } else {
        assert |b.fields| == 0;
      }
      forall i | 0 <= i < |fields|
        ensures HasMatch(fields[i], b.fields)
      {
        var k := SameMembers(fields, b.fields, rank, i);
        NormalImpliesEquivalent(fields[i].value, b.fields[k].value, rank);
      }
    case _ =>
  }

  // ----- Without ties, equal up to key order means equal normal forms -----

  lemma NormalizedStaysUnique(fields: seq<Field>, rank: Rank)
    ensures UniqueKeys(fields) ==> Sorting.Distinct(NormalizeFields(fields, rank))
    ensures UniqueRanks(fields, rank) ==>
      var n := NormalizeFields(fields, rank);
      forall x, y :: x in n && y in n && ByRank(rank)(x, y) && ByRank(rank)(y, x) ==> x == y
  {
  }

  lemma {:induction false} EquivalentImpliesNormal(a: Json, b: Json, rank: Rank)
    requires Equivalent(a, b) && WellFormed(a) && WellFormed(b) && NoTies(a, rank)
    ensures Normalize(a, rank) == Normalize(b, rank)
    decreases a
  {
    match a
    case Arr(items) =>
      forall i | 0 <= i < |items|
        ensures NormalizeItems(items, rank)[i] == NormalizeItems(b.items, rank)[i]
      {
        EquivalentImpliesNormal(items[i], b.items[i], rank);
      }
    case Obj(fields) =>
      var na, nb := NormalizeFields(fields, rank), NormalizeFields(b.fields, rank);
      forall x | x in na
        ensures x in nb
      {
        var i :| 0 <= i < |na| && na[i] == x;
        assert HasMatch(fields[i], b.fields);
        var k :| 0 <= k < |b.fields| && fields[i].key == b.fields[k].key
          && Equivalent(fields[i].value, b.fields[k].value);
        EquivalentImpliesNormal(fields[i].value, b.fields[k].value, rank);
        assert nb[k] == x;
      }
      SameSorted(fields, b.fields, rank);
    case _ =>
  }

  lemma SameSorted(a: seq<Field>, b: seq<Field>, rank: Rank)
    requires UniqueKeys(a) && UniqueKeys(b) && UniqueRanks(a, rank) && |a| == |b|
    requires forall x :: x in NormalizeFields(a, rank) ==> x in NormalizeFields(b, rank)
    ensures Sorting.SortBy(NormalizeFields(a, rank), ByRank(rank))
      == Sorting.SortBy(NormalizeFields(b, rank), ByRank(rank))
  {
    var na, nb, le := NormalizeFields(a, rank), NormalizeFields(b, rank), ByRank(rank);
    NormalizedStaysUnique(a, rank);
    NormalizedStaysUnique(b, rank);
    Sorting.DistinctSameElements(na, nb);
    RankOrders(rank);
    Sorting.SortBySorts(na, le);
    Sorting.SortBySorts(nb, le);
    Sorting.SameElements(na, Sorting.SortBy(na, le));
    Sorting.SortedIsUnique(Sorting.SortBy(na, le), Sorting.SortBy(nb, le), le);
  }

  // ----- With a tie, some reordering changes the normal form -----

  lemma {:induction false} EquivalentToItself(j: Json)
    ensures Equivalent(j, j)
  {
    match j
    case Arr(items) =>
      forall i | 0 <= i < |items| { EquivalentToItself(items[i]); }
    case Obj(fields) =>
      forall i | 0 <= i < |fields|
        ensures HasMatch(fields[i], fields)
      {
        EquivalentToItself(fields[i].value);
      }
    case _ =>
  }

  lemma {:induction false} EarliestOfRank(fields: seq<Field>, rank: Rank, n: nat) returns (i: nat)
    requires n < |fields|
    ensures i <= n && rank(fields[i].key) == rank(fields[n].key)
    ensures forall k :: 0 <= k < i ==> rank(fields[k].key) != rank(fields[n].key)
    decreases n
  {
    i := n;
    if k: nat :| k < n && rank(fields[k].key) == rank(fields[n].key) {
      i := EarliestOfRank(fields, rank, k);
    }
  }

  function Swapped(fields: seq<Field>, i: nat, j: nat): seq<Field>
    requires i < |fields| && j < |fields|
  {
    fields[i := fields[j]][j := fields[i]]
  }

  /** Two lists that first differ among fields of a rank that none has earlier are sorted differently. */
  lemma TiedFieldShows(na: seq<Field>, nb: seq<Field>, rank: Rank, i: nat)
    requires i < |na| && i < |nb| && na[i] != nb[i] && rank(na[i].key) == rank(nb[i].key)
    requires forall k :: 0 <= k < i ==> rank(na[k].key) != rank(na[i].key)
    requires forall k :: 0 <= k < i ==> rank(nb[k].key) != rank(na[i].key)
    ensures Sorting.SortBy(na, ByRank(rank)) != Sorting.SortBy(nb, ByRank(rank))
  {
    RankOrders(rank);
    Sorting.FirstTiedShows(na, nb, na[i], ByRank(rank), i);
  }

  /** The two lists have the same keys in the same places. */
  predicate SameKeys(fields: seq<Field>, others: seq<Field>) {
    |fields| == |others| && forall k :: 0 <= k < |fields| ==> fields[k].key == others[k].key
  }

  lemma KeysStay(fields: seq<Field>, rank: Rank)
    ensures SameKeys(fields, NormalizeFields(fields, rank))
  {
  }

  lemma NormalObject(fields: seq<Field>, rank: Rank)
    ensures Normalize(Obj(fields), rank) == Obj(Sorting.SortBy(NormalizeFields(fields, rank), ByRank(rank)))
  {
  }

  lemma SwapDiffersFirstAt(fields: seq<Field>, rank: Rank, i: nat, j: nat, na: seq<Field>, nb: seq<Field>)
    requires i < j < |fields| && UniqueKeys(fields) && rank(fields[i].key) == rank(fields[j].key)
    requires forall k :: 0 <= k < i ==> rank(fields[k].key) != rank(fields[i].key)
    requires SameKeys(fields, na) && SameKeys(Swapped(fields, i, j), nb)
    ensures Sorting.SortBy(na, ByRank(rank)) != Sorting.SortBy(nb, ByRank(rank))
  {
    assert Swapped(fields, i, j)[i] == fields[j];
    assert na[i].key != nb[i].key;
    forall k | 0 <= k < i
      ensures rank(na[k].key) != rank(na[i].key) && rank(nb[k].key) != rank(na[i].key)
    {
      assert Swapped(fields, i, j)[k] == fields[k];
    }
    TiedFieldShows(na, nb, rank, i);
  }

  /** Swapping two tied entries, the earliest of their rank and a later one, shows in the normal form. */
  lemma SwapShows(fields: seq<Field>, rank: Rank, i: nat, j: nat)
    requires i < j < |fields| && UniqueKeys(fields) && rank(fields[i].key) == rank(fields[j].key)
    requires forall k :: 0 <= k < i ==> rank(fields[k].key) != rank(fields[i].key)
    ensures Normalize(Obj(fields), rank) != Normalize(Obj(Swapped(fields, i, j)), rank)
  {
    var swapped := Swapped(fields, i, j);
    KeysStay(fields, rank);
    KeysStay(swapped, rank);
    SwapDiffersFirstAt(fields, rank, i, j, NormalizeFields(fields, rank), NormalizeFields(swapped, rank));
    NormalObject(fields, rank);
    NormalObject(swapped, rank);
  }

  lemma SwapIsEquivalent(fields: seq<Field>, i: nat, j: nat)
    requires i < j < |fields| && WellFormed(Obj(fields))
    ensures var swapped := Obj(Swapped(fields, i, j));
      WellFormed(swapped) && Equivalent(Obj(fields), swapped)
  {
    var swapped := Swapped(fields, i, j);
    forall n | 0 <= n < |fields|
      ensures HasMatch(fields[n], swapped)
    {
      EquivalentToItself(fields[n].value);
      assert swapped[if n == i then j else if n == j then i else n] == fields[n];
    }
  }

  /** Replacing one entry's value by an equivalent one with another normal form shows as well. */
  lemma ReplacementShows(fields: seq<Field>, rank: Rank, n: nat, v: Json)
    requires n < |fields| && UniqueKeys(fields) && Normalize(fields[n].value, rank) != Normalize(v, rank)
    ensures Normalize(Obj(fields), rank) != Normalize(Obj(fields[n := Field(fields[n].key, v)]), rank)
  {
    var other := fields[n := Field(fields[n].key, v)];
    if Normalize(Obj(fields), rank) == Normalize(Obj(other), rank) {
      var k := SameMembers(fields, other, rank, n);
      assert false;
    }
  }

  lemma MatchAt(x: Field, fields: seq<Field>, k: nat)
    requires k < |fields| && x.key == fields[k].key && Equivalent(x.value, fields[k].value)
    ensures HasMatch(x, fields)
  {
  }

  lemma ReplacementIsWellFormed(fields: seq<Field>, n: nat, v: Json)
    requires n < |fields| && WellFormed(Obj(fields)) && WellFormed(v)
    ensures WellFormed(Obj(fields[n := Field(fields[n].key, v)]))
  {
  }

  lemma ReplacementIsEquivalent(fields: seq<Field>, n: nat, v: Json)
    requires n < |fields| && WellFormed(Obj(fields)) && WellFormed(v) && Equivalent(fields[n].value, v)
    ensures var other := Obj(fields[n := Field(fields[n].key, v)]); WellFormed(other) && Equivalent(Obj(fields), other)
  {
    var other := fields[n := Field(fields[n].key, v)];
    ReplacementIsWellFormed(fields, n, v);
    forall i: nat | i < |fields|
      ensures HasMatch(fields[i], other)
    {
      if i != n {
        EquivalentToItself(fields[i].value);
      }
      MatchAt(fields[i], other, i);
    }
  }

  lemma ItemShows(items: seq<Json>, rank: Rank, n: nat, v: Json)
    requires n < |items| && WellFormed(Arr(items)) && WellFormed(v)
    requires Equivalent(items[n], v) && Normalize(items[n], rank) != Normalize(v, rank)
    ensures var other := Arr(items[n := v]);
      WellFormed(other) && Equivalent(Arr(items), other) && Normalize(Arr(items), rank) != Normalize(other, rank)
  {
    var other := items[n := v];
    forall i | 0 <= i < |items|
      ensures Equivalent(items[i], other[i])
    {
      EquivalentToItself(items[i]);
    }
    assert NormalizeItems(items, rank)[n] != NormalizeItems(other, rank)[n];
  }

  lemma TieInObjectShows(fields: seq<Field>, rank: Rank) returns (b: Json)
    requires WellFormed(Obj(fields)) && !UniqueRanks(fields, rank)
    ensures WellFormed(b) && Equivalent(Obj(fields), b) && Normalize(Obj(fields), rank) != Normalize(b, rank)
  {
    var m, j :| 0 <= m < j < |fields| && rank(fields[m].key) == rank(fields[j].key);
    var i := EarliestOfRank(fields, rank, m);
    SwapShows(fields, rank, i, j);
    SwapIsEquivalent(fields, i, j);
    b := Obj(Swapped(fields, i, j));
  }

  lemma {:induction false} TieShows(a: Json, rank: Rank) returns (b: Json)
    requires WellFormed(a) && !NoTies(a, rank)
    ensures WellFormed(b) && Equivalent(a, b) && Normalize(a, rank) != Normalize(b, rank)
    decreases a
  {
    if a.Arr? {
      var n :| 0 <= n < |a.items| && !NoTies(a.items[n], rank);
      var v := TieShows(a.items[n], rank);
      ItemShows(a.items, rank, n, v);
      b := Arr(a.items[n := v]);
    } else if UniqueRanks(a.fields, rank) {
      var n :| 0 <= n < |a.fields| && !NoTies(a.fields[n].value, rank);
      var v := TieShows(a.fields[n].value, rank);
      ReplacementShows(a.fields, rank, n, v);
      ReplacementIsEquivalent(a.fields, n, v);
      b := Obj(a.fields[n := Field(a.fields[n].key, v)]);
    } else {
      b := TieInObjectShows(a.fields, rank);
    }
  }

  ghost predicate Canonical(a: Json, rank: Rank) {
    forall b :: WellFormed(b) && Equivalent(a, b) ==> Normalize(a, rank) == Normalize(b, rank)
  }

  /**
   The normal form decides equality up to key order for exactly those requests in which the
   locale comparison ties no two keys of an object.
   */
  lemma CanonicalIffNoTies(a: Json, rank: Rank)
    requires WellFormed(a)
    ensures Canonical(a, rank) <==> NoTies(a, rank)
    ensures NoTies(a, rank) ==>
      forall b :: WellFormed(b) ==> (Normalize(a, rank) == Normalize(b, rank) <==> Equivalent(a, b))
  {
    if NoTies(a, rank) {
      forall b | WellFormed(b)
        ensures Normalize(a, rank) == Normalize(b, rank) <==> Equivalent(a, b)
      {
        if Equivalent(a, b) {
          EquivalentImpliesNormal(a, b, rank);
        } else if Normalize(a, rank) == Normalize(b, rank) {
          NormalImpliesEquivalent(a, b, rank);
        }
      }
    } else {
      var b := TieShows(a, rank);
    }
  }

  lemma ItemsStay(items: seq<Json>, rank: Rank)
    requires forall i :: 0 <= i < |items| ==> Normalize(items[i], rank) == items[i]
    ensures NormalizeItems(items, rank) == items
  {
  }

  lemma FieldsStay(fields: seq<Field>, rank: Rank)
    requires forall i :: 0 <= i < |fields| ==> Normalize(fields[i].value, rank) == fields[i].value
    ensures NormalizeFields(fields, rank) == fields
  {
  }

  /** Normalising twice changes nothing more, ties or not. */
  lemma {:induction false} NormalizeIsIdempotent(j: Json, rank: Rank)
    ensures Normalize(Normalize(j, rank), rank) == Normalize(j, rank)
    decreases j
  {
    match j
    case Arr(items) =>
      var n := NormalizeItems(items, rank);
      forall i | 0 <= i < |items|
        ensures Normalize(n[i], rank) == n[i]
      {
        NormalizeIsIdempotent(items[i], rank);
      }
      ItemsStay(n, rank);
    case Obj(fields) =>
      var n := NormalizeFields(fields, rank);
      var sorted := Sorting.SortBy(n, ByRank(rank));
      Sorting.SameElements(n, sorted);
      forall i | 0 <= i < |fields|
        ensures Normalize(n[i].value, rank) == n[i].value
      {
        NormalizeIsIdempotent(fields[i].value, rank);
      }
      forall k | 0 <= k < |sorted|
        ensures Normalize(sorted[k].value, rank) == sorted[k].value
      {
        assert sorted[k] in n;
      }
      FieldsStay(sorted, rank);
      RankOrders(rank);
      Sorting.SortBySorts(n, ByRank(rank));
      Sorting.SortedIsFixed(sorted, ByRank(rank));
    case _ =>
  }

  // ----- Retries -----

  /** What the request hash is taken of. */
  function RequestTree(body: Json, params: Json, query: Json): Json {
    Obj([Field("body", body), Field("params", params), Field("query", query)])
  }

  function RequestHash(body: Json, params: Json, query: Json,
                       rank: Rank, hash: Json -> Idempotency.Hash): Idempotency.Hash
  {
    hash(Normalize(RequestTree(body, params, query), rank))
  }

  lemma MatchByPosition(f: seq<Field>, f': seq<Field>, i: nat)
    requires |f| == |f'| && i < |f|
    requires forall j :: 0 <= j < |f| ==> f'[j].key == f[j].key
    requires forall j :: 0 <= j < |f| && j != i ==> f[j].key != f[i].key
    ensures HasMatch(f[i], f') <==> Equivalent(f[i].value, f'[i].value)
  {
  }

  lemma NamesDiffer(b: Json, p: Json, q: Json)
    ensures UniqueKeys(RequestTree(b, p, q).fields)
  {
    assert "body"[0] == 'b' && "params"[0] == 'p' && "query"[0] == 'q';
  }

  /** Objects with the same distinct keys in the same places are equivalent exactly if their values are, one by one. */
  lemma EquivalentByPosition(f: seq<Field>, f': seq<Field>)
    requires UniqueKeys(f) && |f| == |f'| && forall j :: 0 <= j < |f| ==> f'[j].key == f[j].key
    ensures Equivalent(Obj(f), Obj(f')) <==> forall i :: 0 <= i < |f| ==> Equivalent(f[i].value, f'[i].value)
  {
    forall i | 0 <= i < |f| ensures HasMatch(f[i], f') <==> Equivalent(f[i].value, f'[i].value) {
      MatchByPosition(f, f', i);
    }
  }

  lemma RequestTreeParts(b: Json, p: Json, q: Json, b': Json, p': Json, q': Json)
    ensures Equivalent(RequestTree(b, p, q), RequestTree(b', p', q')) <==>
      Equivalent(b, b') && Equivalent(p, p') && Equivalent(q, q')
  {
    var f, f' := RequestTree(b, p, q).fields, RequestTree(b', p', q').fields;
    NamesDiffer(b, p, q);
    EquivalentByPosition(f, f');
    assert f[0].value == b && f[1].value == p && f[2].value == q;
    assert f'[0].value == b' && f'[1].value == p' && f'[2].value == q';
  }

  lemma SameFieldsSameForm(f: seq<Field>, f': seq<Field>, rank: Rank)
    requires NormalizeFields(f, rank) == NormalizeFields(f', rank)
    ensures Normalize(Obj(f), rank) == Normalize(Obj(f'), rank)
  {
  }

  lemma SamePartsSameFields(b: Json, p: Json, q: Json, b': Json, p': Json, q': Json, rank: Rank)
    requires Normalize(b, rank) == Normalize(b', rank)
    requires Normalize(p, rank) == Normalize(p', rank)
    requires Normalize(q, rank) == Normalize(q', rank)
    ensures NormalizeFields(RequestTree(b, p, q).fields, rank) == NormalizeFields(RequestTree(b', p', q').fields, rank)
  {
  }

  /** Requests whose parts have the same normal forms have the same normal form, however their names compare. */
  lemma SamePartsSameForm(b: Json, p: Json, q: Json, b': Json, p': Json, q': Json, rank: Rank)
    requires Normalize(b, rank) == Normalize(b', rank)
    requires Normalize(p, rank) == Normalize(p', rank)
    requires Normalize(q, rank) == Normalize(q', rank)
    ensures Normalize(RequestTree(b, p, q), rank) == Normalize(RequestTree(b', p', q'), rank)
  {
    SamePartsSameFields(b, p, q, b', p', q', rank);
    SameFieldsSameForm(RequestTree(b, p, q).fields, RequestTree(b', p', q').fields, rank);
  }

  /** Only the n-th field of the request tree differs. */
  predicate DiffersAt(t: Json, t': Json, n: nat, v: Json) {
    t.Obj? && n < |t.fields| && t' == Obj(t.fields[n := Field(t.fields[n].key, v)])
  }

  lemma PartsDiffer(b: Json, p: Json, q: Json, v: Json)
    ensures DiffersAt(RequestTree(b, p, q), RequestTree(v, p, q), 0, v)
    ensures DiffersAt(RequestTree(b, p, q), RequestTree(b, v, q), 1, v)
    ensures DiffersAt(RequestTree(b, p, q), RequestTree(b, p, v), 2, v)
  {
  }

  lemma PartShows(t: Json, t': Json, rank: Rank, n: nat, v: Json)
    requires DiffersAt(t, t', n, v) && UniqueKeys(t.fields)
    requires Normalize(t.fields[n].value, rank) != Normalize(v, rank)
    ensures Normalize(t, rank) != Normalize(t', rank)
  {
    ReplacementShows(t.fields, rank, n, v);
  }

  lemma BodyShows(b: Json, p: Json, q: Json, v: Json, rank: Rank)
    requires Normalize(b, rank) != Normalize(v, rank)
    ensures Normalize(RequestTree(b, p, q), rank) != Normalize(RequestTree(v, p, q), rank)
  {
    NamesDiffer(b, p, q);
    PartsDiffer(b, p, q, v);
    PartShows(RequestTree(b, p, q), RequestTree(v, p, q), rank, 0, v);
  }

  lemma ParamsShow(b: Json, p: Json, q: Json, v: Json, rank: Rank)
    requires Normalize(p, rank) != Normalize(v, rank)
    ensures Normalize(RequestTree(b, p, q), rank) != Normalize(RequestTree(b, v, q), rank)
  {
    NamesDiffer(b, p, q);
    PartsDiffer(b, p, q, v);
    PartShows(RequestTree(b, p, q), RequestTree(b, v, q), rank, 1, v);
  }

  lemma QueryShows(b: Json, p: Json, q: Json, v: Json, rank: Rank)
    requires Normalize(q, rank) != Normalize(v, rank)
    ensures Normalize(RequestTree(b, p, q), rank) != Normalize(RequestTree(b, p, v), rank)
  {
    NamesDiffer(b, p, q);
    PartsDiffer(b, p, q, v);
    PartShows(RequestTree(b, p, q), RequestTree(b, p, v), rank, 2, v);
  }

  datatype Request = Request(body: Json, params: Json, query: Json) {
    function Tree(): Json {
      RequestTree(body, params, query)
    }

    function HashOf(rank: Rank, hash: Json -> Idempotency.Hash): Idempotency.Hash {
      RequestHash(body, params, query, rank, hash)
    }

    ghost predicate Parses() {
      WellFormed(body) && WellFormed(params) && WellFormed(query)
    }

    ghost predicate Unambiguous(rank: Rank) {
      NoTies(body, rank) && NoTies(params, rank) && NoTies(query, rank)
    }

    /** The same request up to the order of keys at every level. */
    ghost predicate Matches(other: Request) {
      Equivalent(body, other.body) && Equivalent(params, other.params) && Equivalent(query, other.query)
    }
  }

  function Stored(rows: Idempotency.Rows, key: Idempotency.Key): Idempotency.Begun
    requires key in rows && rows[key].response.Some?
  {
    Idempotency.Begun.Replay(rows[key].response.value.0, rows[key].response.value.1)
  }

  /** The two normal forms, if different, have different hashes. */
  predicate NoCollision(r: Request, other: Request, rank: Rank, hash: Json -> Idempotency.Hash) {
    r.HashOf(rank, hash) == other.HashOf(rank, hash) ==> Normalize(r.Tree(), rank) == Normalize(other.Tree(), rank)
  }

  /**
   Unless the two hashes collide, a request that meets the completed row of another replays it or is refused as
   a reuse of the key; it replays only if it is the stored one up to key order, and always then if the stored
   one has no ties.
   */
  lemma RetryReplaysIffEquivalent(r: Request, other: Request, rank: Rank, hash: Json -> Idempotency.Hash,
                                  rows: Idempotency.Rows, key: Idempotency.Key)
    requires r.Parses() && other.Parses() && NoCollision(r, other, rank, hash)
    requires key in rows && rows[key].hash == r.HashOf(rank, hash) && rows[key].response.Some?
    ensures var answer := Idempotency.LookUp(rows, key, other.HashOf(rank, hash));
      && (answer == Stored(rows, key) <==> answer != Idempotency.KeyReused)
      && (answer == Stored(rows, key) ==> r.Matches(other))
      && (r.Unambiguous(rank) ==> (answer == Stored(rows, key) <==> r.Matches(other)))
  {
    if Idempotency.LookUp(rows, key, other.HashOf(rank, hash)) == Stored(rows, key) {
      NormalImpliesEquivalent(r.Tree(), other.Tree(), rank);
      RequestTreeParts(r.body, r.params, r.query, other.body, other.params, other.query);
    } else if r.Unambiguous(rank) && r.Matches(other) {
      EquivalentImpliesNormal(r.body, other.body, rank);
      EquivalentImpliesNormal(r.params, other.params, rank);
      EquivalentImpliesNormal(r.query, other.query, rank);
      SamePartsSameForm(r.body, r.params, r.query, other.body, other.params, other.query, rank);
    }
  }

  /** A request with ties has a reordering that the same row refuses. */
  lemma TiedRetryIsRefused(r: Request, rank: Rank, hash: Json -> Idempotency.Hash,
                           rows: Idempotency.Rows, key: Idempotency.Key) returns (other: Request)
    requires r.Parses() && !r.Unambiguous(rank)
    requires key in rows && rows[key].hash == r.HashOf(rank, hash) && rows[key].response.Some?
    ensures other.Parses() && r.Matches(other)
    ensures NoCollision(r, other, rank, hash) ==>
      Idempotency.LookUp(rows, key, other.HashOf(rank, hash)) == Idempotency.KeyReused
  {
    EquivalentToItself(r.body);
    EquivalentToItself(r.params);
    EquivalentToItself(r.query);
    if !NoTies(r.body, rank) {
      var b := TieShows(r.body, rank);
      other := r.(body := b);
      BodyShows(r.body, r.params, r.query, b, rank);
    } else if !NoTies(r.params, rank) {
      var p := TieShows(r.params, rank);
      other := r.(params := p);
      ParamsShow(r.body, r.params, r.query, p, rank);
    } else {
      var q := TieShows(r.query, rank);
      other := r.(query := q);
      QueryShows(r.body, r.params, r.query, q, rank);
    }
  }

  /** Every reordered retry replays. */
  ghost predicate AllRetriesReplay(r: Request, rank: Rank, hash: Json -> Idempotency.Hash,
                                   rows: Idempotency.Rows, key: Idempotency.Key)
    requires key in rows && rows[key].response.Some?
  {
    forall other: Request | other.Parses() && r.Matches(other) ::
      Idempotency.LookUp(rows, key, other.HashOf(rank, hash)) == Stored(rows, key)
  }

  /** With a hash that nothing else shares, all reorderings of a request replay exactly when it has no ties. */
  lemma AllRetriesReplayIffNoTies(r: Request, rank: Rank, hash: Json -> Idempotency.Hash,
                                  rows: Idempotency.Rows, key: Idempotency.Key)
    requires r.Parses() && forall other: Request :: NoCollision(r, other, rank, hash)
    requires key in rows && rows[key].hash == r.HashOf(rank, hash) && rows[key].response.Some?
    ensures AllRetriesReplay(r, rank, hash, rows, key) <==> r.Unambiguous(rank)
  {
    if r.Unambiguous(rank) {
      forall other: Request | other.Parses() && r.Matches(other)
        ensures Idempotency.LookUp(rows, key, other.HashOf(rank, hash)) == Stored(rows, key)
      {
        assert NoCollision(r, other, rank, hash);
        RetryReplaysIffEquivalent(r, other, rank, hash, rows, key);
      }
    } else {
      var other := TiedRetryIsRefused(r, rank, hash, rows, key);
      assert NoCollision(r, other, rank, hash);
    }
  }

  function TwoKeys(x: Field, y: Field): Request {
    Request(Obj([x, y]), Null, Null)
  }

  lemma SwappedTie(x: Field, y: Field, rank: Rank)
    requires x.key != y.key && rank(x.key) == rank(y.key) && x.value.Num? && y.value.Num?
    ensures TwoKeys(x, y).Parses() && TwoKeys(y, x).Parses() && TwoKeys(x, y).Matches(TwoKeys(y, x))
    ensures Normalize(TwoKeys(x, y).Tree(), rank) != Normalize(TwoKeys(y, x).Tree(), rank)
  {
    var fields := [x, y];
    assert fields[0 := fields[1]][1 := fields[0]] == [y, x];
    SwapShows(fields, rank, 0, 1);
    SwapIsEquivalent(fields, 0, 1);
    BodyShows(Obj(fields), Null, Null, Obj([y, x]), rank);
  }

  /** The letter e with an acute accent, as one character and as the letter followed by a combining accent. */
  const COMPOSED := Field("\U{E9}", Num(1))
  const DECOMPOSED := Field("e\U{301}", Num(2))

  /**
   Locale comparison treats canonically equivalent strings as equal, so the two bodies, the same but for the
   order of their keys, hash differently and the second is refused as a reuse of the first one's key.
   */
  lemma ReorderedRetryIsRefused(rank: Rank, hash: Json -> Idempotency.Hash,
                                rows: Idempotency.Rows, key: Idempotency.Key)
    requires rank(COMPOSED.key) == rank(DECOMPOSED.key)
    requires NoCollision(TwoKeys(COMPOSED, DECOMPOSED), TwoKeys(DECOMPOSED, COMPOSED), rank, hash)
    requires key in rows && rows[key].response.Some?
    requires rows[key].hash == TwoKeys(COMPOSED, DECOMPOSED).HashOf(rank, hash)
    ensures TwoKeys(COMPOSED, DECOMPOSED).Matches(TwoKeys(DECOMPOSED, COMPOSED))
    ensures Idempotency.LookUp(rows, key, TwoKeys(DECOMPOSED, COMPOSED).HashOf(rank, hash)) == Idempotency.KeyReused
  {
    assert |COMPOSED.key| != |DECOMPOSED.key|;
    SwappedTie(COMPOSED, DECOMPOSED, rank);
  }
}
