/** Finitely many identifiers always leave another one free. */
module FreshIds {

  lemma {:induction false} Above(used: set<nat>) returns (id: nat)
    ensures forall k :: k in used ==> k < id
  {
    id := 0;
    if used == {} {
    } else {
      var k :| k in used;
      id := Above(used - {k});
      id := if id <= k then k + 1 else id;
      assert forall j :: j in used ==> j == k || j in used - {k};
    }
  }
}
