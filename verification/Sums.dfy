/** The sum of a map of weights. */
module Sums {

  ghost function Total(w: map<nat, nat>): nat
    decreases w.Keys
  {
    if w.Keys == {} then 0
    else
      var k :| k in w.Keys;
      w[k] + Total(w - {k})
  }

  lemma {:induction false} TotalRemove(w: map<nat, nat>, k: nat)
    requires k in w
    ensures Total(w) == w[k] + Total(w - {k})
    decreases w.Keys
  {
    var j :| j in w.Keys && Total(w) == w[j] + Total(w - {j});
    if j == k {
    } else {
      TotalRemove(w - {j}, k);
      TotalRemove(w - {k}, j);
      assert w - {j} - {k} == w - {k} - {j};
    }
  }

  /** Weights that shrink pointwise, rows that vanish included, do not raise the sum. */
  lemma {:induction false} TotalShrinks(w: map<nat, nat>, w': map<nat, nat>)
    requires w'.Keys <= w.Keys && forall k :: k in w' ==> w'[k] <= w[k]
    ensures Total(w') <= Total(w)
    decreases w.Keys
  {
    if w.Keys == {} {
    } else {
      var k :| k in w.Keys;
      TotalRemove(w, k);
      if k in w' {
        TotalRemove(w', k);
        TotalShrinks(w - {k}, w' - {k});
      } else {
        TotalShrinks(w - {k}, w');
      }
    }
  }

  lemma TotalDrops(w: map<nat, nat>, w': map<nat, nat>, k: nat)
    requires w'.Keys <= w.Keys && forall i :: i in w' ==> w'[i] <= w[i]
    requires k in w' && w'[k] < w[k]
    ensures Total(w') < Total(w)
  {
    TotalRemove(w, k);
    TotalRemove(w', k);
    TotalShrinks(w - {k}, w' - {k});
  }
}
