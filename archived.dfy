/**
 * The archive view's grouping of drafts by tag: every tag gets the drafts that
 * carry it (one per id), drafts without tags go to `untagged`, and the tags are
 * listed in sorted order.
 */
module Archived {
  import opened Model
  import Seqs

  // ---------------------------------------------------------------------
  // The order `sort()` puts the tags in
  // ---------------------------------------------------------------------

  /**
   * `a < b` in the order the default `sort()` uses: character by character, a
   * proper prefix first.
   */
  predicate Less(a: string, b: string)
    decreases |a|
  {
    if |b| == 0 then false
    else if |a| == 0 then true
    else if a[0] != b[0] then a[0] < b[0]
    else Less(a[1..], b[1..])
  }

  lemma {:induction false} LessIrreflexive(a: string)
    ensures !Less(a, a)
    decreases |a|
  {
    if |a| > 0 { LessIrreflexive(a[1..]); }
  }

  lemma {:induction false} LessTransitive(a: string, b: string, c: string)
    requires Less(a, b) && Less(b, c)
    ensures Less(a, c)
    decreases |a|
  {
    if |a| > 0 && a[0] == b[0] && b[0] == c[0] {
      LessTransitive(a[1..], b[1..], c[1..]);
    }
  }

  /** Two different strings are ordered one way or the other. */
  lemma {:induction false} LessTotal(a: string, b: string)
    requires a != b
    ensures Less(a, b) || Less(b, a)
    decreases |a|
  {
    if |a| > 0 && |b| > 0 && a[0] == b[0] {
      assert a == [a[0]] + a[1..] && b == [b[0]] + b[1..];
      LessTotal(a[1..], b[1..]);
    }
  }

  predicate Sorted(s: seq<string>)
  {
    forall i, j :: 0 <= i < j < |s| ==> Less(s[i], s[j])
  }

  /** `x` put into the sorted list `s` at the place the order gives it. */
  function Insert(x: string, s: seq<string>): (r: seq<string>)
    requires Sorted(s) && x !in s
    ensures Sorted(r) && |r| == |s| + 1
    ensures forall t :: t in r <==> t == x || t in s
  {
    if s == [] then [x]
    else if Less(x, s[0]) then
      assert forall j :: 0 <= j < |s| ==> Less(x, s[j]) by {
        forall j | 0 < j < |s| ensures Less(x, s[j]) { LessTransitive(x, s[0], s[j]); }
      }
      [x] + s
    else
      LessTotal(x, s[0]);
      var r := [s[0]] + Insert(x, s[1..]);
      assert forall j :: 0 < j < |r| ==> Less(s[0], r[j]) by {
        forall j | 0 < j < |r| ensures Less(s[0], r[j]) {
          assert r[j] == x || r[j] in s[1..];
        }
      }
      r
  }

  /** `Object.keys(groups).sort()` for keys without repeats. */
  function SortStrings(xs: seq<string>): (r: seq<string>)
    requires Seqs.NoDuplicates(xs)
    ensures Sorted(r) && |r| == |xs|
    ensures forall t :: t in r <==> t in xs
  {
    if xs == [] then []
    else
      assert Seqs.NoDuplicates(xs[..|xs| - 1]);
      Insert(xs[|xs| - 1], SortStrings(xs[..|xs| - 1]))
  }

  /** A sorted list repeats nothing. */
  lemma SortedUnique(s: seq<string>)
    requires Sorted(s)
    ensures Seqs.NoDuplicates(s)
  {
    forall i, j | 0 <= i < j < |s| ensures s[i] != s[j] {
      if s[i] == s[j] { LessIrreflexive(s[i]); }
    }
  }

  /** The head of a sorted list comes before every other element of it. */
  lemma SortedHead(s: seq<string>, t: string)
    requires Sorted(s) && t in s && t != s[0]
    ensures Less(s[0], t)
  {
  }

  lemma SameElementsEmpty(a: seq<string>, b: seq<string>)
    requires forall t :: t in a <==> t in b
    ensures a == [] <==> b == []
  {
    if a != [] { assert a[0] in a; }
    if b != [] { assert b[0] in b; }
  }

  /** Two sorted lists with the same elements are equal: the sorted key list depends only on the key set. */
  lemma {:induction false} SortedIsUnique(a: seq<string>, b: seq<string>)
    requires Sorted(a) && Sorted(b) && (forall t :: t in a <==> t in b)
    ensures a == b
    decreases |a|
  {
    SameElementsEmpty(a, b);
    if a != [] {
      assert a[0] in a && b[0] in b;
      if a[0] != b[0] {
        SortedHead(b, a[0]);
        SortedHead(a, b[0]);
        LessTransitive(a[0], b[0], a[0]);
        LessIrreflexive(a[0]);
      }
      SortedUnique(a);
      SortedUnique(b);
      forall t ensures t in a[1..] <==> t in b[1..] {
        if t in a[1..] {
          var k :| 1 <= k < |a| && a[k] == t;
          assert t in a;
          var m :| 0 <= m < |b| && b[m] == t;
          assert m != 0 && b[1..][m - 1] == t;
        }
        if t in b[1..] {
          var k :| 1 <= k < |b| && b[k] == t;
          assert t in b;
          var m :| 0 <= m < |a| && a[m] == t;
          assert m != 0 && a[1..][m - 1] == t;
        }
      }
      SortedIsUnique(a[1..], b[1..]);
    }
  }

  // ---------------------------------------------------------------------
  // What the grouping computes
  // ---------------------------------------------------------------------

  /** The drafts with no tags, in order. */
  function UntaggedItems(items: seq<Draft>): (r: seq<Draft>)
    ensures forall d :: d in r <==> d in items && d.tags == []
  {
    Seqs.Filter(items, (d: Draft) => d.tags == [])
  }

  predicate HasId(g: seq<Draft>, id: int)
  {
    exists i :: 0 <= i < |g| && g[i].id == id
  }

  /** A draft pushed onto a group keeps the ids already there and adds its own. */
  lemma HasIdSnoc(g: seq<Draft>, y: Draft, id: int)
    ensures HasId(g + [y], id) <==> HasId(g, id) || y.id == id
  {
    if HasId(g, id) {
      var i :| 0 <= i < |g| && g[i].id == id;
      assert (g + [y])[i] == g[i];
    }
    if y.id == id {
      assert (g + [y])[|g|] == y;
    }
    if HasId(g + [y], id) && y.id != id {
      var i :| 0 <= i < |g| + 1 && (g + [y])[i].id == id;
      assert g[i] == (g + [y])[i];
    }
  }

  /**
   * The group of tag `t`: the drafts carrying `t`, in order, a draft being left
   * out when an earlier one in the group has its id.
   */
  function Group(items: seq<Draft>, t: string): seq<Draft>
  {
    if items == [] then []
    else
      var g := Group(items[..|items| - 1], t);
      var x := items[|items| - 1];
      if t in x.tags && !HasId(g, x.id) then g + [x] else g
  }

  /** A group holds only drafts of the input that carry its tag. */
  lemma {:induction false} GroupMembers(items: seq<Draft>, t: string)
    ensures forall d :: d in Group(items, t) ==> d in items && t in d.tags
  {
    if items != [] {
      var front := items[..|items| - 1];
      GroupMembers(front, t);
      assert forall d :: d in front ==> d in items;
    }
  }

  predicate DistinctIds(g: seq<Draft>)
  {
    forall i, j :: 0 <= i < j < |g| ==> g[i].id != g[j].id
  }

  /** No two drafts of a group share an id. */
  lemma {:induction false} GroupDistinctIds(items: seq<Draft>, t: string)
    ensures DistinctIds(Group(items, t))
  {
    if items != [] {
      var front := items[..|items| - 1];
      var x := items[|items| - 1];
      GroupDistinctIds(front, t);
      var g := Group(front, t);
      if t in x.tags && !HasId(g, x.id) {
        var r := g + [x];
        forall i, j | 0 <= i < j < |r| ensures r[i].id != r[j].id {
          assert r[i] == g[i];
          if j == |g| {
            assert r[j] == x;
            assert !(0 <= i < |g| && g[i].id == x.id);
          } else {
            assert r[j] == g[j];
          }
        }
        assert DistinctIds(r);
      }
    }
  }

  /** Every draft carrying `t` has its id in the group of `t`. */
  lemma {:induction false} GroupCoversIds(items: seq<Draft>, t: string, k: nat)
    requires k < |items| && t in items[k].tags
    ensures HasId(Group(items, t), items[k].id)
  {
    var front := items[..|items| - 1];
    var x := items[|items| - 1];
    var g := Group(front, t);
    if k < |front| {
      GroupCoversIds(front, t, k);
      assert front[k] == items[k];
      HasIdSnoc(g, x, items[k].id);
    } else {
      HasIdSnoc(g, x, x.id);
    }
  }

  /** Some draft carries tag `t`: `t` is one of `Object.keys(groups)`. */
  ghost predicate Carries(items: seq<Draft>, t: string)
  {
    exists i :: 0 <= i < |items| && t in items[i].tags
  }

  /** Each group lists its drafts in the order of the input. */
  lemma {:induction false} GroupInOrder(items: seq<Draft>, t: string)
    ensures Seqs.IsSubsequence(Group(items, t), items)
  {
    if items != [] {
      var front := items[..|items| - 1];
      GroupInOrder(front, t);
      var g := Group(items, t);
      if g != Group(front, t) {
        assert g[..|g| - 1] == Group(front, t);
      }
    }
  }

  /** `untagged` lists its drafts in the order of the input. */
  lemma UntaggedInOrder(items: seq<Draft>)
    ensures Seqs.IsSubsequence(UntaggedItems(items), items)
  {
    Seqs.FilterIsSubsequence(items, (d: Draft) => d.tags == []);
  }

  /** A draft without tags is in `untagged` and in no group. */
  lemma UntaggedOnly(items: seq<Draft>, k: nat, t: string)
    requires k < |items| && items[k].tags == []
    ensures items[k] in UntaggedItems(items) && items[k] !in Group(items, t)
  {
    GroupMembers(items, t);
  }

  /**
   * A draft with tags is not `untagged`, and it is in the group of each of its
   * tags when no other draft shares its id.
   */
  lemma TaggedGrouped(items: seq<Draft>, k: nat, t: string)
    requires k < |items| && t in items[k].tags
    requires forall i :: 0 <= i < |items| && i != k ==> items[i].id != items[k].id
    ensures items[k] !in UntaggedItems(items)
    ensures items[k] in Group(items, t)
  {
    var g := Group(items, t);
    GroupCoversIds(items, t, k);
    GroupMembers(items, t);
    var j :| 0 <= j < |g| && g[j].id == items[k].id;
    assert g[j] in items;
  }

  /** A tag no draft carries has an empty group. */
  lemma UnusedTagEmpty(items: seq<Draft>, t: string)
    requires !Carries(items, t)
    ensures Group(items, t) == []
  {
    GroupMembers(items, t);
  }

  lemma CarriesSnoc(items: seq<Draft>, x: Draft, t: string)
    ensures Carries(items + [x], t) <==> Carries(items, t) || t in x.tags
  {
    var s := items + [x];
    if Carries(s, t) && !(t in x.tags) {
      var i :| 0 <= i < |s| && t in s[i].tags;
      assert s[i] == items[i];
    }
    if Carries(items, t) {
      var i :| 0 <= i < |items| && t in items[i].tags;
      assert s[i] == items[i];
    }
    if t in x.tags {
      assert s[|items|] == x;
    }
  }

  /** The group of `t` after one more draft, as the inner loop builds it. */
  lemma GroupSnoc(items: seq<Draft>, x: Draft, t: string)
    ensures Group(items + [x], t) ==
      if t in x.tags && !HasId(Group(items, t), x.id) then Group(items, t) + [x] else Group(items, t)
  {
    assert (items + [x])[..|items|] == items;
  }

  // ---------------------------------------------------------------------
  // The grouping loop
  // ---------------------------------------------------------------------

  /** `groups` holds exactly the tags the drafts carry, each with its group. */
  ghost predicate Grouped(groups: map<string, seq<Draft>>, items: seq<Draft>)
  {
    forall t :: (t in groups <==> Carries(items, t)) && (t in groups ==> groups[t] == Group(items, t))
  }

  datatype Grouping = Grouping(groups: map<string, seq<Draft>>, sortedKeys: seq<string>, untagged: seq<Draft>)

  /**
   * `groupedItems`: one pass over the drafts, pushing each into `untagged` or
   * into the group of each of its tags, then the keys sorted.
   */
  method GroupItems(items: seq<Draft>) returns (r: Grouping)
    ensures r.untagged == UntaggedItems(items)
    ensures Grouped(r.groups, items)
    ensures Sorted(r.sortedKeys) && Seqs.NoDuplicates(r.sortedKeys)
    ensures forall t :: t in r.sortedKeys <==> Carries(items, t)
  {
    var groups: map<string, seq<Draft>> := map[];
    var keys: seq<string> := [];
    var untagged: seq<Draft> := [];
    var i := 0;
    GroupedStart(items);
    while i < |items|
      invariant 0 <= i <= |items|
      invariant untagged == UntaggedItems(items[..i])
      invariant Grouped(groups, items[..i])
      invariant Seqs.NoDuplicates(keys) && forall t :: t in keys <==> t in groups
    {
      assert items[..i + 1] == items[..i] + [items[i]];
      groups, keys, untagged := PlaceItem(items[..i], items[i], groups, keys, untagged);
      i := i + 1;
    }
    assert items[..i] == items;
    r := Grouping(groups, SortStrings(keys), untagged);
    SortedUnique(r.sortedKeys);
    KeysCarried(groups, r.sortedKeys, items);
  }

  /** Before the first draft: no groups, and `untagged` is empty. */
  lemma GroupedStart(items: seq<Draft>)
    ensures UntaggedItems(items[..0]) == [] && Grouped(map[], items[..0])
  {
    assert items[..0] == [];
  }

  /** Keys that follow the groups' domain are exactly the carried tags. */
  lemma KeysCarried(groups: map<string, seq<Draft>>, keys: seq<string>, items: seq<Draft>)
    requires Grouped(groups, items) && forall t :: t in keys <==> t in groups
    ensures forall t :: t in keys <==> Carries(items, t)
  {
    forall t ensures t in keys <==> Carries(items, t) {
      assert t in groups <==> Carries(items, t);
    }
  }

  /**
   * The `forEach` callback: a draft without tags is pushed to `untagged`, any
   * other draft into the groups of its tags.
   */
  method PlaceItem(prefix: seq<Draft>, x: Draft, groups0: map<string, seq<Draft>>, keys0: seq<string>, untagged0: seq<Draft>)
    returns (groups: map<string, seq<Draft>>, keys: seq<string>, untagged: seq<Draft>)
    requires untagged0 == UntaggedItems(prefix)
    requires Grouped(groups0, prefix)
    requires Seqs.NoDuplicates(keys0) && forall t :: t in keys0 <==> t in groups0
    ensures untagged == UntaggedItems(prefix + [x])
    ensures Grouped(groups, prefix + [x])
    ensures Seqs.NoDuplicates(keys) && forall t :: t in keys <==> t in groups
  {
    Seqs.FilterConcat(prefix, [x], (d: Draft) => d.tags == []);
    assert [x][..0] == [];
    if x.tags == [] {
      groups, keys, untagged := groups0, keys0, untagged0 + [x];
      UntaggedStep(groups, prefix, x);
    } else {
      untagged := untagged0;
      groups, keys := AddToGroups(prefix, x, groups0, keys0);
    }
  }

  /** A draft without tags leaves every group as it was. */
  lemma UntaggedStep(groups: map<string, seq<Draft>>, items: seq<Draft>, x: Draft)
    requires x.tags == [] && Grouped(groups, items)
    ensures Grouped(groups, items + [x])
  {
    forall t ensures (t in groups <==> Carries(items + [x], t)) && (t in groups ==> groups[t] == Group(items + [x], t)) {
      CarriesSnoc(items, x, t);
      GroupSnoc(items, x, t);
    }
  }

  /**
   * Where the inner loop stands after the first `j` tags of `x`: those tags'
   * groups already count `x`, every other group is still the one of `prefix`.
   */
  ghost predicate PartlyAdded(groups: map<string, seq<Draft>>, prefix: seq<Draft>, x: Draft, j: nat)
    requires j <= |x.tags|
  {
    forall t :: TagAdded(groups, prefix, x, x.tags[..j], t)
  }

  /** The state of the group of `t` once the tags in `done` have been handled. */
  ghost predicate TagAdded(groups: map<string, seq<Draft>>, prefix: seq<Draft>, x: Draft, done: seq<string>, t: string)
  {
    (t in groups <==> Carries(prefix, t) || t in done) &&
    (t in groups ==> groups[t] == if t in done then Group(prefix + [x], t) else Group(prefix, t))
  }

  /** One turn of the inner loop: the group of tag `t` is created when missing, and `x` pushed unless its id is there. */
  function AddTo(groups: map<string, seq<Draft>>, x: Draft, t: string): (r: map<string, seq<Draft>>)
    ensures r.Keys == groups.Keys + {t}
  {
    var g := if t in groups then groups[t] else [];
    if HasId(g, x.id) then groups[t := g] else groups[t := g + [x]]
  }

  lemma AddToStep(groups: map<string, seq<Draft>>, prefix: seq<Draft>, x: Draft, j: nat)
    requires j < |x.tags| && PartlyAdded(groups, prefix, x, j)
    ensures PartlyAdded(AddTo(groups, x, x.tags[j]), prefix, x, j + 1)
  {
    var r, now := AddTo(groups, x, x.tags[j]), x.tags[..j + 1];
    forall u ensures TagAdded(r, prefix, x, now, u) {
      AddToAt(groups, prefix, x, j, u);
    }
  }

  /** The turn for tag `x.tags[j]` as seen by one tag `u`. */
  lemma AddToAt(groups: map<string, seq<Draft>>, prefix: seq<Draft>, x: Draft, j: nat, u: string)
    requires j < |x.tags| && PartlyAdded(groups, prefix, x, j)
    ensures TagAdded(AddTo(groups, x, x.tags[j]), prefix, x, x.tags[..j + 1], u)
  {
    var t, done, now := x.tags[j], x.tags[..j], x.tags[..j + 1];
    assert now == done + [t];
    assert TagAdded(groups, prefix, x, done, u);
    if u == t {
      AddToTag(groups, prefix, x, j);
    } else {
      assert u in now <==> u in done;
    }
  }

  /** The turn for tag `t` leaves its group equal to the group of `t` once `x` is counted. */
  lemma AddToTag(groups: map<string, seq<Draft>>, prefix: seq<Draft>, x: Draft, j: nat)
    requires j < |x.tags| && PartlyAdded(groups, prefix, x, j)
    ensures AddTo(groups, x, x.tags[j])[x.tags[j]] == Group(prefix + [x], x.tags[j])
  {
    var t := x.tags[j];
    assert TagAdded(groups, prefix, x, x.tags[..j], t);
    GroupSnoc(prefix, x, t);
    if t in x.tags[..j] {
      var k :| 0 <= k < j && x.tags[k] == t;
      GroupCoversIds(prefix + [x], t, |prefix|);
    } else if t !in groups {
      UnusedTagEmpty(prefix, t);
    }
  }

  lemma AddToDone(groups: map<string, seq<Draft>>, prefix: seq<Draft>, x: Draft)
    requires PartlyAdded(groups, prefix, x, |x.tags|)
    ensures Grouped(groups, prefix + [x])
  {
    assert x.tags[..|x.tags|] == x.tags;
    forall t ensures (t in groups <==> Carries(prefix + [x], t)) && (t in groups ==> groups[t] == Group(prefix + [x], t)) {
      assert TagAdded(groups, prefix, x, x.tags[..|x.tags|], t);
      CarriesSnoc(prefix, x, t);
      GroupSnoc(prefix, x, t);
    }
  }

  /** `item.tags.forEach(...)`: the draft `x` joins the group of each of its tags unless its id is already there. */
  method AddToGroups(prefix: seq<Draft>, x: Draft, groups0: map<string, seq<Draft>>, keys0: seq<string>)
    returns (groups: map<string, seq<Draft>>, keys: seq<string>)
    requires Grouped(groups0, prefix)
    requires Seqs.NoDuplicates(keys0) && forall t :: t in keys0 <==> t in groups0
    ensures Grouped(groups, prefix + [x])
    ensures Seqs.NoDuplicates(keys) && forall t :: t in keys <==> t in groups
  {
    groups, keys := groups0, keys0;
    assert x.tags[..0] == [];
    var j := 0;
    while j < |x.tags|
      invariant 0 <= j <= |x.tags|
      invariant PartlyAdded(groups, prefix, x, j)
      invariant Seqs.NoDuplicates(keys) && forall t :: t in keys <==> t in groups
    {
      var t := x.tags[j];
      AddToStep(groups, prefix, x, j);
      if t !in groups {
        keys := keys + [t];
      }
      groups := AddTo(groups, x, t);
      j := j + 1;
    }
    AddToDone(groups, prefix, x);
  }
}
