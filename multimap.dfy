/** The ordered multimap `std::multimap<int, Customer>` that the graph queries
    return, as the sequence of its entries in iteration order. Iteration is by
    non-decreasing key; `emplace` puts a new entry after every entry whose key
    is equal to its own, so entries with equal keys keep their insertion order. */
module Multimap {
  import opened Customers

  /** One multimap entry: the key is an edge weight, the value a customer. */
  datatype Entry = Entry(weight: int, customer: CustomerId)

  /** Iteration order of a multimap: keys never decrease. */
  ghost predicate Sorted(s: seq<Entry>) {
    forall i, j :: 0 <= i < j < |s| ==> s[i].weight <= s[j].weight
  }

  /** Every key of `s` is at least `lo`. */
  ghost predicate Above(s: seq<Entry>, lo: int) {
    forall i :: 0 <= i < |s| ==> lo <= s[i].weight
  }

  /** The entries of `s` whose key is `w`, in the order `s` lists them. */
  function WithWeight(s: seq<Entry>, w: int): (r: seq<Entry>)
    ensures |r| <= |s|
  {
    if s == [] then []
    else (if s[0].weight == w then [s[0]] else []) + WithWeight(s[1..], w)
  }

  /** `emplace`: the new entry goes in front of the first entry with a larger
      key, which in a sorted sequence is the upper bound of its equal range. */
  function Emplace(s: seq<Entry>, e: Entry): (r: seq<Entry>)
    ensures |r| == |s| + 1
  {
    if s == [] || e.weight < s[0].weight then [e] + s
    else [s[0]] + Emplace(s[1..], e)
  }

  /** The multimap obtained from `init` by emplacing the entries of `es` one
      after the other, first to last. */
  function EmplaceAll(init: seq<Entry>, es: seq<Entry>): (r: seq<Entry>)
    ensures |r| == |init| + |es|
    decreases |es|
  {
    if es == [] then init
    else Emplace(EmplaceAll(init, es[..|es| - 1]), es[|es| - 1])
  }

  /** Emplacing one more entry at the end of the input. */
  lemma EmplaceAllSnoc(init: seq<Entry>, es: seq<Entry>, e: Entry)
    ensures EmplaceAll(init, es + [e]) == Emplace(EmplaceAll(init, es), e)
  {
    assert (es + [e])[..|es|] == es;
  }

  /** Emplacing adds the entry and loses none. */
  lemma {:induction false} EmplaceMembers(s: seq<Entry>, e: Entry, x: Entry)
    ensures x in Emplace(s, e) <==> x in s || x == e
    decreases |s|
  {
    if s != [] && e.weight >= s[0].weight {
      assert Emplace(s, e) == [s[0]] + Emplace(s[1..], e);
      assert s == [s[0]] + s[1..];
      EmplaceMembers(s[1..], e, x);
    }
  }

  /** The multimap holds the start and every emplaced entry, and nothing else. */
  lemma {:induction false} EmplaceAllMembers(init: seq<Entry>, es: seq<Entry>, x: Entry)
    ensures x in EmplaceAll(init, es) <==> x in init || x in es
    decreases |es|
  {
    if es != [] {
      var front, last := es[..|es| - 1], es[|es| - 1];
      var before := EmplaceAll(init, front);
      assert EmplaceAll(init, es) == Emplace(before, last);
      EmplaceAllMembers(init, front, x);
      EmplaceMembers(before, last, x);
      assert es == front + [last];
    }
  }

  lemma AppendAssoc(a: seq<Entry>, b: seq<Entry>, c: seq<Entry>)
    ensures a + (b + c) == (a + b) + c
  {
  }

  lemma WithWeightCons(x: Entry, s: seq<Entry>, w: int)
    ensures WithWeight([x] + s, w) == (if x.weight == w then [x] else []) + WithWeight(s, w)
  {
    assert ([x] + s)[1..] == s;
  }

  lemma {:induction false} WithWeightAppend(a: seq<Entry>, b: seq<Entry>, w: int)
    ensures WithWeight(a + b, w) == WithWeight(a, w) + WithWeight(b, w)
    decreases |a|
  {
    if a == [] {
      assert a + b == b;
    } else {
      var head, tail := a[0], a[1..];
      var h := if head.weight == w then [head] else [];
      assert a == [head] + tail;
      assert a + b == [head] + (tail + b);
      WithWeightCons(head, tail + b, w);
      WithWeightCons(head, tail, w);
      WithWeightAppend(tail, b, w);
      AppendAssoc(h, WithWeight(tail, w), WithWeight(b, w));
    }
  }

  lemma {:induction false} WithWeightAbove(s: seq<Entry>, w: int)
    requires Above(s, w + 1)
    ensures WithWeight(s, w) == []
    decreases |s|
  {
    if s != [] {
      assert Above(s[1..], w + 1);
      WithWeightAbove(s[1..], w);
    }
  }

  /** Emplacing an entry whose key is at least `lo` into a sequence whose keys
      are at least `lo` keeps every key at least `lo`. */
  lemma {:induction false} EmplaceAbove(s: seq<Entry>, e: Entry, lo: int)
    requires Above(s, lo) && lo <= e.weight
    ensures Above(Emplace(s, e), lo)
    decreases |s|
  {
    if s != [] && e.weight >= s[0].weight {
      assert Above(s[1..], lo);
      EmplaceAbove(s[1..], e, lo);
    }
  }

  /** Emplacing into a sorted multimap keeps it sorted. */
  lemma {:induction false} EmplaceSorted(s: seq<Entry>, e: Entry)
    requires Sorted(s)
    ensures Sorted(Emplace(s, e))
    decreases |s|
  {
    if s == [] || e.weight < s[0].weight {
      var r := [e] + s;
      forall i, j | 0 <= i < j < |r| ensures r[i].weight <= r[j].weight {
        if i == 0 {
          assert s[0].weight <= s[j - 1].weight;
        } else {
          assert r[i] == s[i - 1] && r[j] == s[j - 1];
        }
      }
    } else {
      var t := Emplace(s[1..], e);
      assert Sorted(s[1..]);
      assert Above(s[1..], s[0].weight);
      EmplaceSorted(s[1..], e);
      EmplaceAbove(s[1..], e, s[0].weight);
      var r := [s[0]] + t;
      forall i, j | 0 <= i < j < |r| ensures r[i].weight <= r[j].weight {
        if i == 0 {
          assert r[j] == t[j - 1];
        } else {
          assert r[i] == t[i - 1] && r[j] == t[j - 1];
        }
      }
    }
  }

  /** Emplacing is stable: among the entries with any one key, the new entry
      comes after all the old ones. */
  lemma {:induction false} EmplaceStable(s: seq<Entry>, e: Entry, w: int)
    requires Sorted(s)
    ensures WithWeight(Emplace(s, e), w) == WithWeight(s, w) + WithWeight([e], w)
    decreases |s|
  {
    var single := if e.weight == w then [e] else [];
    assert WithWeight([e], w) == single by {
      WithWeightCons(e, [], w);
      assert [e] + [] == [e];
    }
    if s == [] || e.weight < s[0].weight {
      assert Emplace(s, e) == [e] + s;
      WithWeightCons(e, s, w);
      if e.weight == w {
        assert Above(s, w + 1);
        WithWeightAbove(s, w);
        assert WithWeight(s, w) + single == single;
      } else {
        assert WithWeight(s, w) + single == WithWeight(s, w);
      }
    } else {
      var t := Emplace(s[1..], e);
      var h := if s[0].weight == w then [s[0]] else [];
      assert Emplace(s, e) == [s[0]] + t;
      assert Sorted(s[1..]);
      EmplaceStable(s[1..], e, w);
      WithWeightCons(s[0], t, w);
      assert WithWeight(s, w) == h + WithWeight(s[1..], w);
      AppendAssoc(h, WithWeight(s[1..], w), single);
    }
  }

  /** A multimap built by emplacing into a sorted start is sorted. */
  lemma {:induction false} EmplaceAllSorted(init: seq<Entry>, es: seq<Entry>)
    requires Sorted(init)
    ensures Sorted(EmplaceAll(init, es))
    decreases |es|
  {
    if es != [] {
      EmplaceAllSorted(init, es[..|es| - 1]);
      EmplaceSorted(EmplaceAll(init, es[..|es| - 1]), es[|es| - 1]);
    }
  }

  /** Equal keys keep insertion order: the entries with key `w` are those of
      the start followed by those of `es`, each in its own order. */
  lemma {:induction false} EmplaceAllStable(init: seq<Entry>, es: seq<Entry>, w: int)
    requires Sorted(init)
    ensures WithWeight(EmplaceAll(init, es), w) == WithWeight(init + es, w)
    decreases |es|
  {
    if es == [] {
      assert init + es == init;
    } else {
      var front, last := es[..|es| - 1], es[|es| - 1];
      var before := EmplaceAll(init, front);
      EmplaceAllSorted(init, front);
      calc {
        WithWeight(EmplaceAll(init, es), w);
        WithWeight(Emplace(before, last), w);
        { EmplaceStable(before, last, w); }
        WithWeight(before, w) + WithWeight([last], w);
        { EmplaceAllStable(init, front, w); }
        WithWeight(init + front, w) + WithWeight([last], w);
        { WithWeightAppend(init + front, [last], w); }
        WithWeight((init + front) + [last], w);
        { assert (init + front) + [last] == init + es; }
        WithWeight(init + es, w);
      }
    }
  }
}
