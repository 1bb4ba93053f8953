/**
 * Grouping rows by a string key the way the snapshot builders do it: a
 * dict filled with `groups.setdefault(key, header)["seats"].append(item)`
 * (insertion-ordered, as Python dicts are), then every group's items
 * sorted in place, and the groups sorted by a key of their header.
 *
 * Python compares `str` keys lexicographically by code point; `StrLe` is
 * that order, proved to be a total preorder so that `Sorting.SortBy`
 * applies to it.
 */
module Grouping {
  import opened Wrappers
  import opened Sorting

  /** One value of the dict: its key, the header stored by `setdefault`, and the list appended to. */
  datatype Group<H, E> = Group(key: string, header: H, items: seq<E>)

  /** Python's `a <= b` on strings: lexicographic by code point, a prefix first. */
  predicate StrLe(a: string, b: string)
    decreases |a|
  {
    if a == [] then true
    else if b == [] then false
    else if a[0] != b[0] then a[0] < b[0]
    else StrLe(a[1..], b[1..])
  }

  lemma {:induction false} StrLeTotal(a: string, b: string)
    ensures StrLe(a, b) || StrLe(b, a)
    decreases |a|
  {
    if a != [] && b != [] && a[0] == b[0] {
      StrLeTotal(a[1..], b[1..]);
    }
  }

  lemma {:induction false} StrLeTransitive(a: string, b: string, c: string)
    requires StrLe(a, b) && StrLe(b, c)
    ensures StrLe(a, c)
    decreases |a|
  {
    if a != [] && b != [] && c != [] && a[0] == b[0] && b[0] == c[0] {
      StrLeTransitive(a[1..], b[1..], c[1..]);
    }
  }

  /** The string order can drive the stable sort. */
  lemma StrLeTotalPreorder()
    ensures TotalPreorder(StrLe)
  {
    forall a, b ensures StrLe(a, b) || StrLe(b, a) {
      StrLeTotal(a, b);
    }
    forall a, b, c | StrLe(a, b) && StrLe(b, c) ensures StrLe(a, c) {
      StrLeTransitive(a, b, c);
    }
  }

  /** The dict lookup: where the group with this key sits, if there is one. */
  function KeyIndex<H, E>(groups: seq<Group<H, E>>, key: string): (r: Option<nat>)
    ensures r.Some? ==> r.value < |groups| && groups[r.value].key == key
    ensures r.None? <==> forall g :: 0 <= g < |groups| ==> groups[g].key != key
  {
    if groups == [] then None
    else if groups[|groups| - 1].key == key then Some(|groups| - 1)
    else KeyIndex(groups[..|groups| - 1], key)
  }

  /**
   * `groups.setdefault(key, Group(key, header, []))` followed by an append
   * of `item` to that group's list.
   */
  function AddItem<H, E>(groups: seq<Group<H, E>>, key: string, header: H, item: E): (r: seq<Group<H, E>>)
  {
    match KeyIndex(groups, key)
    case Some(k) => groups[k := groups[k].(items := groups[k].items + [item])]
    case None => groups + [Group(key, header, [item])]
  }

  /** The dict after the loop over `xs`, one `AddItem` per row, in row order. */
  function GroupBy<T, H, E>(xs: seq<T>, key: T -> string, header: T -> H, item: T -> E): (r: seq<Group<H, E>>)
    ensures |r| <= |xs|
  {
    if xs == [] then []
    else
      var last := xs[|xs| - 1];
      AddItem(GroupBy(xs[..|xs| - 1], key, header, item), key(last), header(last), item(last))
  }

  /** The reference list of a group: `[item(x) for x in xs if key(x) == k]`. */
  function ItemsWithKey<T, E>(xs: seq<T>, key: T -> string, k: string, item: T -> E): seq<E>
  {
    if xs == [] then []
    else
      var last := xs[|xs| - 1];
      ItemsWithKey(xs[..|xs| - 1], key, k, item) + (if key(last) == k then [item(last)] else [])
  }

  predicate DistinctKeys<H, E>(groups: seq<Group<H, E>>) {
    forall g, h :: 0 <= g < h < |groups| ==> groups[g].key != groups[h].key
  }

  lemma {:induction false} ItemsWithoutKey<T, E>(xs: seq<T>, key: T -> string, k: string, item: T -> E)
    requires forall i :: 0 <= i < |xs| ==> key(xs[i]) != k
    ensures ItemsWithKey(xs, key, k, item) == []
  {
    if xs != [] {
      ItemsWithoutKey(xs[..|xs| - 1], key, k, item);
    }
  }

  /** What one `AddItem` does to a dict whose keys are distinct. */
  lemma AddItemFacts<H, E>(groups: seq<Group<H, E>>, key: string, header: H, item: E)
    requires DistinctKeys(groups)
    ensures DistinctKeys(AddItem(groups, key, header, item))
    ensures KeyIndex(AddItem(groups, key, header, item), key).Some?
    ensures forall g :: 0 <= g < |groups| ==>
      AddItem(groups, key, header, item)[g].key == groups[g].key
      && AddItem(groups, key, header, item)[g].header == groups[g].header
      && AddItem(groups, key, header, item)[g].items
         == groups[g].items + (if groups[g].key == key then [item] else [])
    ensures KeyIndex(groups, key).Some? ==> |AddItem(groups, key, header, item)| == |groups|
    ensures KeyIndex(groups, key).None? ==>
      AddItem(groups, key, header, item) == groups + [Group(key, header, [item])]
  {
    var r := AddItem(groups, key, header, item);
    match KeyIndex(groups, key)
    case Some(k) =>
      assert r[k].key == key;
    case None =>
      assert r[|groups|].key == key;
  }

  /** The keys of the dict are distinct. */
  lemma {:induction false} GroupByDistinct<T, H, E>(xs: seq<T>, key: T -> string, header: T -> H, item: T -> E)
    ensures DistinctKeys(GroupBy(xs, key, header, item))
  {
    if xs != [] {
      var init, x := xs[..|xs| - 1], xs[|xs| - 1];
      GroupByDistinct(init, key, header, item);
      AddItemFacts(GroupBy(init, key, header, item), key(x), header(x), item(x));
    }
  }

  /** Every row's key has a group. */
  lemma {:induction false} GroupByCovers<T, H, E>(xs: seq<T>, key: T -> string, header: T -> H, item: T -> E)
    ensures forall i :: 0 <= i < |xs| ==> KeyIndex(GroupBy(xs, key, header, item), key(xs[i])).Some?
  {
    if xs != [] {
      var init, x := xs[..|xs| - 1], xs[|xs| - 1];
      var g0 := GroupBy(init, key, header, item);
      var r := GroupBy(xs, key, header, item);
      GroupByCovers(init, key, header, item);
      GroupByDistinct(init, key, header, item);
      AddItemFacts(g0, key(x), header(x), item(x));
      forall i | 0 <= i < |xs| ensures KeyIndex(r, key(xs[i])).Some? {
        if i < |init| {
          assert xs[i] == init[i];
          var j := KeyIndex(g0, key(init[i])).value;
          assert r[j].key == key(xs[i]);
        }
      }
    }
  }

  /** Each group holds exactly the items of the rows with its key, in row order. */
  lemma {:induction false} GroupByItems<T, H, E>(xs: seq<T>, key: T -> string, header: T -> H, item: T -> E)
    ensures forall g :: 0 <= g < |GroupBy(xs, key, header, item)| ==>
      GroupBy(xs, key, header, item)[g].items == ItemsWithKey(xs, key, GroupBy(xs, key, header, item)[g].key, item)
  {
    if xs != [] {
      var init, x := xs[..|xs| - 1], xs[|xs| - 1];
      var g0 := GroupBy(init, key, header, item);
      var r := GroupBy(xs, key, header, item);
      GroupByItems(init, key, header, item);
      GroupByDistinct(init, key, header, item);
      AddItemFacts(g0, key(x), header(x), item(x));
      if KeyIndex(g0, key(x)).None? {
        GroupByCovers(init, key, header, item);
        forall i | 0 <= i < |init| ensures key(init[i]) != key(x) {
          var j := KeyIndex(g0, key(init[i])).value;
          assert g0[j].key == key(init[i]);
        }
        ItemsWithoutKey(init, key, key(x), item);
      }
    }
  }

  /** Each group's header is the header of one of its rows. */
  lemma {:induction false} GroupByHeaders<T, H, E>(xs: seq<T>, key: T -> string, header: T -> H, item: T -> E)
    ensures forall g :: 0 <= g < |GroupBy(xs, key, header, item)| ==>
      exists i :: 0 <= i < |xs| && key(xs[i]) == GroupBy(xs, key, header, item)[g].key
        && header(xs[i]) == GroupBy(xs, key, header, item)[g].header
  {
    if xs != [] {
      var init, x := xs[..|xs| - 1], xs[|xs| - 1];
      var g0 := GroupBy(init, key, header, item);
      var r := GroupBy(xs, key, header, item);
      GroupByHeaders(init, key, header, item);
      GroupByDistinct(init, key, header, item);
      AddItemFacts(g0, key(x), header(x), item(x));
      forall g | 0 <= g < |r|
        ensures exists i :: 0 <= i < |xs| && key(xs[i]) == r[g].key && header(xs[i]) == r[g].header
      {
        if g < |g0| {
          var i :| 0 <= i < |init| && key(init[i]) == g0[g].key && header(init[i]) == g0[g].header;
          assert xs[i] == init[i];
        } else {
          assert KeyIndex(g0, key(x)).None?;
          assert r[g] == Group(key(x), header(x), [item(x)]);
          assert xs[|init|] == x;
        }
      }
      assert r == GroupBy(xs, key, header, item);
    } else {
      assert GroupBy(xs, key, header, item) == [];
    }
  }

  /** How many items the groups hold together. */
  function TotalItems<H, E>(groups: seq<Group<H, E>>): nat {
    if groups == [] then 0 else TotalItems(groups[..|groups| - 1]) + |groups[|groups| - 1].items|
  }

  lemma {:induction false} TotalItemsAppend<H, E>(groups: seq<Group<H, E>>, g: Group<H, E>)
    ensures TotalItems(groups + [g]) == TotalItems(groups) + |g.items|
  {
    assert (groups + [g])[..|groups|] == groups;
  }

  lemma {:induction false} TotalItemsUpdate<H, E>(groups: seq<Group<H, E>>, k: nat, g: Group<H, E>)
    requires k < |groups|
    ensures TotalItems(groups[k := g]) == TotalItems(groups) - |groups[k].items| + |g.items|
    decreases |groups|
  {
    var n := |groups| - 1;
    var u := groups[k := g];
    if k == n {
      assert u[..n] == groups[..n];
    } else {
      assert u[..n] == groups[..n][k := g];
      TotalItemsUpdate(groups[..n], k, g);
    }
  }

  /** Grouping files every row exactly once: the groups hold as many items as there are rows. */
  lemma {:induction false} GroupByTotal<T, H, E>(xs: seq<T>, key: T -> string, header: T -> H, item: T -> E)
    ensures TotalItems(GroupBy(xs, key, header, item)) == |xs|
  {
    if xs != [] {
      var init, x := xs[..|xs| - 1], xs[|xs| - 1];
      var g0 := GroupBy(init, key, header, item);
      GroupByTotal(init, key, header, item);
      match KeyIndex(g0, key(x))
      case Some(k) =>
        TotalItemsUpdate(g0, k, g0[k].(items := g0[k].items + [item(x)]));
      case None =>
        TotalItemsAppend(g0, Group(key(x), header(x), [item(x)]));
    } else {
      assert GroupBy(xs, key, header, item) == [];
    }
  }

  function KeyOf<H, E>(g: Group<H, E>): string {
    g.key
  }

  /** Sorting the groups keeps their keys distinct. */
  lemma SortByKeepsKeys<H, E>(groups: seq<Group<H, E>>, le: (Group<H, E>, Group<H, E>) -> bool)
    requires DistinctKeys(groups)
    ensures DistinctKeys(SortBy(groups, le))
  {
    assert DistinctBy(groups, KeyOf);
    SortByDistinct(groups, le, KeyOf);
    var r := SortBy(groups, le);
    assert forall g, h :: 0 <= g < h < |r| ==> KeyOf(r[g]) != KeyOf(r[h]);
  }

  /** `for entry in groups.values(): entry["seats"].sort(key=...)`, as a value. */
  function SortItems<H, E>(groups: seq<Group<H, E>>, le: (E, E) -> bool): (r: seq<Group<H, E>>)
    ensures |r| == |groups|
    ensures forall g :: 0 <= g < |r| ==>
      r[g].key == groups[g].key && r[g].header == groups[g].header
      && multiset(r[g].items) == multiset(groups[g].items)
  {
    seq(|groups|, g requires 0 <= g < |groups| => groups[g].(items := SortBy(groups[g].items, le)))
  }

  /** The loop that sorts each group's list in turn. */
  method SortEachGroup<H, E>(groups: seq<Group<H, E>>, le: (E, E) -> bool) returns (r: seq<Group<H, E>>)
    ensures r == SortItems(groups, le)
  {
    r := groups;
    var g := 0;
    while g < |r|
      invariant 0 <= g <= |r| == |groups|
      invariant r[..g] == SortItems(groups, le)[..g]
      invariant r[g..] == groups[g..]
    {
      assert r[g] == groups[g];
      r := r[g := r[g].(items := SortBy(r[g].items, le))];
      g := g + 1;
    }
  }

  /** After sorting, each group's items are ordered, and are still its items. */
  lemma SortItemsSorted<H, E(!new)>(groups: seq<Group<H, E>>, le: (E, E) -> bool)
    requires TotalPreorder(le)
    ensures forall g :: 0 <= g < |groups| ==> SortedBy(SortItems(groups, le)[g].items, le)
  {
    forall g | 0 <= g < |groups| ensures SortedBy(SortItems(groups, le)[g].items, le) {
      SortBySorted(groups[g].items, le);
    }
  }
}
