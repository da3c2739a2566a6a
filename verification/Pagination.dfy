/** Pages of a list, numbered from one, and the metadata a client follows from page to page. */
module Pagination {

  datatype Meta = Meta(
    totalItems: nat,
    itemCount: nat,
    itemsPerPage: nat,
    totalPages: nat,
    currentPage: int,
    hasNextPage: bool,
    hasPreviousPage: bool)

  datatype Page<T> = Page(items: seq<T>, meta: Meta) {
    static function Create(items: seq<T>, totalItems: nat, page: int, limit: nat): Page<T>
      requires limit > 0
    {
      var totalPages := TotalPages(totalItems, limit);
      Page(items, Meta(totalItems, |items|, limit, totalPages, page, page < totalPages, page > 1))
    }
  }

  function TotalPages(totalItems: nat, limit: nat): nat
    requires limit > 0
  {
    (totalItems + limit - 1) / limit
  }

  lemma {:induction false} Multiples(a: nat, b: nat, limit: nat)
    requires a < b
    ensures a * limit + limit <= b * limit
  {
    assert b * limit == (b - 1) * limit + limit;
    if a < b - 1 {
      Multiples(a, b - 1, limit);
    }
  }

  lemma PagesCover(page: nat, totalItems: nat, limit: nat)
    requires limit > 0
    ensures page < TotalPages(totalItems, limit) <==> page * limit < totalItems
  {
    var total := TotalPages(totalItems, limit);
    assert total * limit <= totalItems + limit - 1 < total * limit + limit;
    if page < total {
      Multiples(page, total, limit);
    } else if total < page {
      Multiples(total, page, limit);
    }
  }

  /** An offset into a list the way the host language reads it: negative ones count from the end. */
  function Offset(at: int, length: nat): nat {
    if at < 0 then (if at + length < 0 then 0 else at + length)
    else if at > length then length
    else at
  }

  function Slice<T>(items: seq<T>, start: int, end: int): seq<T> {
    var i, j := Offset(start, |items|), Offset(end, |items|);
    if i <= j then items[i..j] else []
  }

  function GetPage<T>(users: seq<T>, page: int, limit: nat): Page<T>
    requires limit > 0
  {
    var start := (page - 1) * limit;
    Page<T>.Create(Slice(users, start, start + limit), |users|, page, limit)
  }

  function Min(a: nat, b: nat): nat {
    if a <= b then a else b
  }

  /** What a client has seen after following `hasNextPage` from the given page to the end. */
  function Follow<T>(users: seq<T>, page: nat, limit: nat): seq<T>
    requires limit > 0
    decreases TotalPages(|users|, limit) - page
  {
    var p := GetPage(users, page, limit);
    if p.meta.hasNextPage then p.items + Follow(users, page + 1, limit) else p.items
  }

  lemma SliceFrom<T>(users: seq<T>, start: nat, limit: nat)
    ensures Slice(users, start, start + limit) == users[Min(start, |users|)..Min(start + limit, |users|)]
  {
  }

  lemma PageBounds<T>(users: seq<T>, page: nat, limit: nat)
    requires page > 0 && limit > 0
    ensures var p := GetPage(users, page, limit);
      && (page - 1) * limit >= 0
      && p.items == users[Min((page - 1) * limit, |users|)..Min(page * limit, |users|)]
      && (p.meta.hasNextPage <==> page * limit < |users|)
      && (p.meta.hasPreviousPage <==> (page - 1) * limit > 0)
      && p.meta.totalItems == |users| && p.meta.itemsPerPage == limit && p.meta.currentPage == page
  {
    if page > 1 {
      Multiples(0, page - 1, limit);
    }
    var start: nat := (page - 1) * limit;
    assert page * limit == start + limit;
    assert start > 0 <==> page > 1;
    SliceFrom(users, start, limit);
    PagesCover(page, |users|, limit);
  }

  lemma SlicesJoin<T>(users: seq<T>, start: nat, end: nat)
    requires start <= end <= |users|
    ensures users[start..end] + users[end..] == users[start..]
  {
  }

  lemma {:induction false} FollowIsTheRest<T>(users: seq<T>, page: nat, limit: nat)
    requires page > 0 && limit > 0
    ensures (page - 1) * limit >= 0
    ensures Follow(users, page, limit) == users[Min((page - 1) * limit, |users|)..]
    decreases TotalPages(|users|, limit) - page
  {
    PageBounds(users, page, limit);
    var start, end: nat := (page - 1) * limit, page * limit;
    assert end == start + limit;
    if GetPage(users, page, limit).meta.hasNextPage {
      FollowIsTheRest(users, page + 1, limit);
      SlicesJoin(users, start, end);
    }
  }

  /** Following `hasNextPage` from page one ends, having shown every item once and in order. */
  lemma FollowingShowsTheWholeList<T>(users: seq<T>, limit: nat)
    requires limit > 0
    ensures Follow(users, 1, limit) == users
  {
    FollowIsTheRest(users, 1, limit);
  }

  /** Every page up to the last is non-empty, every one before the last is full, and later ones are empty. */
  lemma PagesAreFull<T>(users: seq<T>, page: nat, limit: nat)
    requires page > 0 && limit > 0
    ensures var p := GetPage(users, page, limit);
      && (p.meta.hasNextPage ==> |p.items| == limit)
      && (p.items == [] <==> page > p.meta.totalPages)
      && p.meta.itemCount == |p.items| <= limit
  {
    PageBounds(users, page, limit);
    PagesCover(page - 1, |users|, limit);
    assert page * limit == (page - 1) * limit + limit;
  }
}
