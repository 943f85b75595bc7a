/**
  * The list updates the views perform on their React state arrays:
  * removing a position (`filter((_, i) => i !== index)`), merging a fetched
  * page into the loaded list with de-duplication by id, removing every item
  * with an id (`filter(x => x.id !== id)`) and updating every item with an id
  * (`map(x => x.id === id ? f(x) : x)`).
  */
module Lists {

  /** `xs.filter((_, j) => j !== i)` */
  function RemoveAt<T>(xs: seq<T>, i: int): (r: seq<T>)
    ensures 0 <= i < |xs| ==> r == xs[..i] + xs[i + 1..]
    ensures !(0 <= i < |xs|) ==> r == xs
  {
    if xs == [] then []
    else
      var rest := RemoveAt(xs[1..], i - 1);
      if i == 0 then rest else [xs[0]] + rest
  }

  /** The ids of a list of items, as a set (`new Set(xs.map(idOf))`). */
  function IdSet<T(==)>(xs: seq<T>, idOf: T -> string): (ids: set<string>)
    ensures forall j :: 0 <= j < |xs| ==> idOf(xs[j]) in ids
    ensures forall id :: id in ids ==> exists j :: 0 <= j < |xs| && idOf(xs[j]) == id
  {
    set x | x in xs :: idOf(x)
  }

  /** `page.filter(x => !ids.has(idOf(x)))` */
  function Fresh<T>(page: seq<T>, ids: set<string>, idOf: T -> string): (r: seq<T>)
    ensures |r| <= |page|
  {
    if page == [] then []
    else (if idOf(page[0]) in ids then [] else [page[0]]) + Fresh(page[1..], ids, idOf)
  }

  lemma {:induction false} FreshMembers<T>(page: seq<T>, ids: set<string>, idOf: T -> string)
    ensures forall x :: x in Fresh(page, ids, idOf) <==> x in page && idOf(x) !in ids
  {
    if page != [] {
      FreshMembers(page[1..], ids, idOf);
      assert page == [page[0]] + page[1..];
    }
  }

  /** A one-item page contributes that item exactly when its id is new. */
  lemma FreshSingle<T>(x: T, ids: set<string>, idOf: T -> string)
    ensures Fresh([x], ids, idOf) == if idOf(x) in ids then [] else [x]
  {
    assert [x][1..] == [];
  }

  /** Filtering a page piecewise: the kept items keep their relative order. */
  lemma {:induction false} FreshAppend<T>(a: seq<T>, b: seq<T>, ids: set<string>, idOf: T -> string)
    ensures Fresh(a + b, ids, idOf) == Fresh(a, ids, idOf) + Fresh(b, ids, idOf)
  {
    if a == [] {
      assert a + b == b;
    } else {
      assert (a + b)[1..] == a[1..] + b;
      FreshAppend(a[1..], b, ids, idOf);
    }
  }

  /**
    * The list after fetching page `pageNum`: page 1 replaces the list, a later
    * page appends those of its items whose id is not already loaded.
    */
  function MergePage<T(==)>(prev: seq<T>, page: seq<T>, pageNum: int, idOf: T -> string): (r: seq<T>)
  {
    if pageNum == 1 then page else prev + Fresh(page, IdSet(prev, idOf), idOf)
  }

  /** A later page keeps every loaded item in place and appends exactly the items with new ids. */
  lemma MergeLaterPage<T>(prev: seq<T>, page: seq<T>, pageNum: int, idOf: T -> string)
    requires pageNum != 1
    ensures var r := MergePage(prev, page, pageNum, idOf);
      && |prev| <= |r| <= |prev| + |page|
      && r[..|prev|] == prev
      && r[|prev|..] == Fresh(page, IdSet(prev, idOf), idOf)
      && (forall x :: x in r[|prev|..] <==> x in page && idOf(x) !in IdSet(prev, idOf))
      && IdSet(r, idOf) == IdSet(prev, idOf) + IdSet(page, idOf)
  {
    var r := MergePage(prev, page, pageNum, idOf);
    var tail := Fresh(page, IdSet(prev, idOf), idOf);
    assert r[|prev|..] == tail;
    FreshMembers(page, IdSet(prev, idOf), idOf);
    forall id | id in IdSet(page, idOf) ensures id in IdSet(r, idOf) {
      var j :| 0 <= j < |page| && idOf(page[j]) == id;
      if id !in IdSet(prev, idOf) {
        assert page[j] in tail;
        var k :| 0 <= k < |tail| && tail[k] == page[j];
        assert r[|prev| + k] == page[j];
      }
    }
    forall id | id in IdSet(r, idOf) ensures id in IdSet(prev, idOf) + IdSet(page, idOf) {
      var j :| 0 <= j < |r| && idOf(r[j]) == id;
      if j >= |prev| {
        assert r[j] in tail;
      } else {
        assert r[j] == prev[j];
      }
    }
  }

  /** Items repeated inside one fetched page are not de-duplicated against each other. */
  lemma DuplicatesWithinPageKept<T>(x: T, idOf: T -> string)
    ensures MergePage([], [x, x], 2, idOf) == [x, x]
    ensures MergePage([], [x, x], 1, idOf) == [x, x]
  {
    var none: seq<T> := [];
    assert IdSet(none, idOf) == {};
    assert Fresh([x, x], {}, idOf) == [x] + Fresh([x], {}, idOf);
    assert Fresh([x], {}, idOf) == [x] + Fresh([], {}, idOf);
  }

  /** A page whose ids are all loaded contributes nothing. */
  lemma {:induction false} FreshOfKnown<T>(page: seq<T>, ids: set<string>, idOf: T -> string)
    requires forall j :: 0 <= j < |page| ==> idOf(page[j]) in ids
    ensures Fresh(page, ids, idOf) == []
  {
    if page != [] {
      FreshOfKnown(page[1..], ids, idOf);
    }
  }

  /**
    * Fetching the same page again changes nothing: page 1 replaces the list
    * with the same items, and a later page finds all its ids loaded.
    */
  lemma MergeSamePageTwice<T>(prev: seq<T>, page: seq<T>, pageNum: int, idOf: T -> string)
    ensures var once := MergePage(prev, page, pageNum, idOf);
      MergePage(once, page, pageNum, idOf) == once
  {
    var once := MergePage(prev, page, pageNum, idOf);
    if pageNum != 1 {
      MergeLaterPage(prev, page, pageNum, idOf);
      FreshOfKnown(page, IdSet(once, idOf), idOf);
    }
  }

  /** `xs.filter(x => idOf(x) !== id)` */
  function RemoveId<T>(xs: seq<T>, id: string, idOf: T -> string): (r: seq<T>)
    ensures |r| <= |xs|
  {
    Fresh(xs, {id}, idOf)
  }

  /** Removing by id drops every item with that id, keeps every other one, and keeps their order. */
  lemma RemoveIdSpec<T>(xs: seq<T>, ys: seq<T>, id: string, idOf: T -> string)
    ensures forall x :: x in RemoveId(xs, id, idOf) <==> x in xs && idOf(x) != id
    ensures RemoveId(xs + ys, id, idOf) == RemoveId(xs, id, idOf) + RemoveId(ys, id, idOf)
    ensures (forall j :: 0 <= j < |xs| ==> idOf(xs[j]) != id) ==> RemoveId(xs, id, idOf) == xs
  {
    FreshMembers(xs, {id}, idOf);
    FreshAppend(xs, ys, {id}, idOf);
    if forall j :: 0 <= j < |xs| ==> idOf(xs[j]) != id {
      NoMatchKeepsAll(xs, id, idOf);
    }
  }

  lemma {:induction false} NoMatchKeepsAll<T>(xs: seq<T>, id: string, idOf: T -> string)
    requires forall j :: 0 <= j < |xs| ==> idOf(xs[j]) != id
    ensures Fresh(xs, {id}, idOf) == xs
  {
    if xs != [] {
      NoMatchKeepsAll(xs[1..], id, idOf);
    }
  }

  /** `xs.map(x => idOf(x) === id ? f(x) : x)` */
  function MapWhereId<T>(xs: seq<T>, id: string, idOf: T -> string, f: T -> T): (r: seq<T>)
    ensures |r| == |xs|
    ensures forall j :: 0 <= j < |xs| && idOf(xs[j]) == id ==> r[j] == f(xs[j])
    ensures forall j :: 0 <= j < |xs| && idOf(xs[j]) != id ==> r[j] == xs[j]
  {
    seq(|xs|, j requires 0 <= j < |xs| => if idOf(xs[j]) == id then f(xs[j]) else xs[j])
  }
}
