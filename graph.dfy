/** The weighted customer graph (lib/Graph.cpp): a map from each customer to
    its vertex, where a vertex is the map of its outgoing edges, keyed by the
    destination customer and holding the edge weight. */
module Graphs {
  import opened Customers
  import opened Multimap

  /** A vertex: destination customer -> weight of the edge to it. */
  type Vertex = map<CustomerId, int>

  ghost predicate Distinct(s: seq<CustomerId>) {
    forall i, j :: 0 <= i < j < |s| ==> s[i] != s[j]
  }

  ghost function Elements(s: seq<CustomerId>): (elements: set<CustomerId>) {
    set k | k in s
  }

  /** What `Vertex::InsertEdge` may do to the edge map (its body is not part
      of this model): add the edge, overwrite an existing one with the new
      weight, or keep an existing one as it was. */
  ghost predicate EdgeStored(before: Vertex, dest: CustomerId, weight: int, after: Vertex) {
    after == before[dest := weight] || (dest in before && after == before)
  }

  /** The entries an emplace loop over `edges` adds when it visits the
      destinations in `order` and leaves out those in `skip`. */
  function EdgeEntries(edges: Vertex, order: seq<CustomerId>, skip: set<CustomerId>): (entries: seq<Entry>)
    requires forall k :: k in order ==> k in edges
    decreases |order|
  {
    if order == [] then []
    else
      var k := order[|order| - 1];
      EdgeEntries(edges, order[..|order| - 1], skip) + (if k in skip then [] else [Entry(edges[k], k)])
  }

  /** The loop adds exactly one entry per visited destination that is not
      skipped, keyed by the weight of the edge to it. */
  lemma {:induction false} EdgeEntriesMembers(edges: Vertex, order: seq<CustomerId>, skip: set<CustomerId>, e: Entry)
    requires forall k :: k in order ==> k in edges
    ensures e in EdgeEntries(edges, order, skip) <==>
              e.customer in order && e.customer !in skip && e.weight == edges[e.customer]
    decreases |order|
  {
    if order != [] {
      var front := order[..|order| - 1];
      assert order == front + [order[|order| - 1]];
      EdgeEntriesMembers(edges, front, skip, e);
    }
  }

  /** Visiting every destination once yields one entry per destination that
      is not skipped. */
  lemma {:induction false} EdgeEntriesLength(edges: Vertex, order: seq<CustomerId>, skip: set<CustomerId>)
    requires forall k :: k in order ==> k in edges
    requires Distinct(order)
    ensures |EdgeEntries(edges, order, skip)| == |Elements(order) - skip|
    decreases |order|
  {
    if order == [] {
      assert Elements(order) == {};
    } else {
      var front, k := order[..|order| - 1], order[|order| - 1];
      DistinctSnoc(order);
      EdgeEntriesLength(edges, front, skip);
      CardinalityStep(Elements(front), k, skip);
    }
  }

  /** Dropping the last customer of a list without repetitions leaves a list
      without repetitions that does not contain it. */
  lemma DistinctSnoc(order: seq<CustomerId>)
    requires Distinct(order) && order != []
    ensures Distinct(order[..|order| - 1])
    ensures order[|order| - 1] !in Elements(order[..|order| - 1])
    ensures Elements(order) == Elements(order[..|order| - 1]) + {order[|order| - 1]}
  {
    var front, k := order[..|order| - 1], order[|order| - 1];
    assert order == front + [k];
  }

  /** Appending a customer not yet in the list keeps it without repetitions. */
  lemma DistinctAppend(order: seq<CustomerId>, k: CustomerId)
    requires Distinct(order) && k !in order
    ensures Distinct(order + [k])
    ensures Elements(order + [k]) == Elements(order) + {k}
  {
  }

  /** Moving `k` from the customers still to visit to the visited ones keeps
      their union. */
  lemma MoveVisited(visited: set<CustomerId>, remaining: set<CustomerId>, k: CustomerId)
    requires k in remaining
    ensures (visited + {k}) + (remaining - {k}) == visited + remaining
  {
  }

  lemma CardinalityStep(a: set<CustomerId>, k: CustomerId, skip: set<CustomerId>)
    requires k !in a
    ensures |(a + {k}) - skip| == |a - skip| + (if k in skip then 0 else 1)
  {
    if k in skip {
      assert (a + {k}) - skip == a - skip;
    } else {
      assert (a + {k}) - skip == (a - skip) + {k};
    }
  }

  /** The loop `for (edge : vertex.GetEdges()) if (edge.first not in skip)
      mm.emplace(weight, edge.first)` shared by `sortV0` and `GetNeighborhood`.
      The order in which `std::map` yields the edges depends on the ordering
      of customers, which is not part of this model: the loop visits the
      destinations in some order, returned as `order`. */
  method EmplaceEdges(init: seq<Entry>, edges: Vertex, skip: set<CustomerId>)
    returns (mm: seq<Entry>, ghost order: seq<CustomerId>)
    requires Sorted(init)
    ensures Distinct(order) && Elements(order) == edges.Keys
    ensures forall k :: k in order ==> k in edges
    ensures Sorted(mm)
    ensures |mm| == |init| + |edges.Keys - skip|
    ensures forall k :: k in edges && k !in skip ==> Entry(edges[k], k) in mm
    ensures forall e :: e in init ==> e in mm
    ensures forall e :: e in mm ==> e in init || (e.customer in edges && e.customer !in skip && e.weight == edges[e.customer])
    ensures forall w :: WithWeight(mm, w) == WithWeight(init + EdgeEntries(edges, order, skip), w)
  {
    mm, order := init, [];
    var remaining := edges.Keys;
    while remaining != {}
      invariant Distinct(order)
      invariant forall k :: k in order ==> k in edges && k !in remaining
      invariant Elements(order) + remaining == edges.Keys
      invariant mm == EmplaceAll(init, EdgeEntries(edges, order, skip))
      decreases remaining
    {
      var k :| k in remaining;
      DistinctAppend(order, k);
      ghost var before := order;
      ghost var done := EdgeEntries(edges, before, skip);
      order := order + [k];
      assert order[..|order| - 1] == before;
      assert EdgeEntries(edges, order, skip) == done + (if k in skip then [] else [Entry(edges[k], k)]);
      if k !in skip {
        EmplaceAllSnoc(init, done, Entry(edges[k], k));
        mm := Emplace(mm, Entry(edges[k], k));
      } else {
        assert done + [] == done;
      }
      MoveVisited(Elements(before), remaining, k);
      remaining := remaining - {k};
    }
    EmplacedEdges(init, edges, order, skip, mm);
  }

  /** What the emplace loop yields from a sorted start `init`: a sorted
      multimap holding the entries of `init` and one entry per visited
      destination that is not skipped, with equal keys in visiting order. */
  lemma EmplacedEdges(init: seq<Entry>, edges: Vertex, order: seq<CustomerId>, skip: set<CustomerId>, mm: seq<Entry>)
    requires Sorted(init) && Distinct(order) && Elements(order) == edges.Keys
    requires forall k :: k in order ==> k in edges
    requires mm == EmplaceAll(init, EdgeEntries(edges, order, skip))
    ensures Sorted(mm)
    ensures |mm| == |init| + |edges.Keys - skip|
    ensures forall k :: k in edges && k !in skip ==> Entry(edges[k], k) in mm
    ensures forall e :: e in init ==> e in mm
    ensures forall e :: e in mm ==> e in init || (e.customer in edges && e.customer !in skip && e.weight == edges[e.customer])
    ensures forall w :: WithWeight(mm, w) == WithWeight(init + EdgeEntries(edges, order, skip), w)
  {
    var es := EdgeEntries(edges, order, skip);
    EmplaceAllSorted(init, es);
    EdgeEntriesLength(edges, order, skip);
    forall k | k in edges && k !in skip ensures Entry(edges[k], k) in mm {
      EdgeEntriesMembers(edges, order, skip, Entry(edges[k], k));
      assert k in Elements(order);
      EmplaceAllMembers(init, es, Entry(edges[k], k));
    }
    forall e | e in init ensures e in mm {
      EmplaceAllMembers(init, es, e);
    }
    forall e | e in mm
      ensures e in init || (e.customer in edges && e.customer !in skip && e.weight == edges[e.customer])
    {
      EmplaceAllMembers(init, es, e);
      EdgeEntriesMembers(edges, order, skip, e);
    }
    forall w ensures WithWeight(mm, w) == WithWeight(init + es, w) {
      EmplaceAllStable(init, es, w);
    }
  }

  class Graph {
    /** The depot. The source takes it to be `vertexes.begin()`, the least
        customer in the map's ordering; here it is an explicit key. */
    const depot: CustomerId
    var vertexes: map<CustomerId, Vertex>

    constructor (depot: CustomerId)
      ensures this.depot == depot && vertexes == map[]
    {
      this.depot := depot;
      vertexes := map[];
    }

    /** No vertex has an edge to itself. */
    ghost predicate NoSelfEdges()
      reads this
    {
      forall c :: c in vertexes ==> c !in vertexes[c]
    }

    /** Insert a customer with a freshly constructed vertex, which has no edges. */
    method InsertVertex(c: CustomerId)
      modifies this
      ensures c in old(vertexes) ==> vertexes == old(vertexes)
      ensures c !in old(vertexes) ==> vertexes == old(vertexes)[c := map[]]
      ensures vertexes.Keys == old(vertexes).Keys + {c}
      ensures old(NoSelfEdges()) ==> NoSelfEdges()
    {
      InsertVertexWith(c, map[]);
    }

    /** Insert a customer with a given vertex; like `std::map::insert`, an
        existing entry is never overwritten. */
    method InsertVertexWith(c: CustomerId, v: Vertex)
      modifies this
      ensures c in old(vertexes) ==> vertexes == old(vertexes)
      ensures c !in old(vertexes) ==> vertexes == old(vertexes)[c := v]
      ensures vertexes.Keys == old(vertexes).Keys + {c}
      ensures |vertexes| == if c in old(vertexes) then |old(vertexes)| else |old(vertexes)| + 1
    {
      if c !in vertexes {
        vertexes := vertexes[c := v];
      }
    }

    /** Insert the edge `node -> dest`. Nothing happens for a self-edge or
        when `node` is not a vertex; `dest` need not be a vertex. */
    method InsertEdge(node: CustomerId, dest: CustomerId, weight: int)
      modifies this
      ensures node == dest || node !in old(vertexes) ==> vertexes == old(vertexes)
      ensures node != dest && node in old(vertexes) ==>
                && vertexes.Keys == old(vertexes).Keys
                && (forall c :: c in vertexes && c != node ==> vertexes[c] == old(vertexes)[c])
                && EdgeStored(old(vertexes)[node], dest, weight, vertexes[node])
                && dest in vertexes[node]
                && (GetCosts(node, dest).1 == weight || GetCosts(node, dest) == old(GetCosts(node, dest)))
      ensures old(NoSelfEdges()) ==> NoSelfEdges()
    {
      if node != dest && node in vertexes {
        var v := vertexes[node];
        // Whether Vertex::InsertEdge replaces an existing edge is not part of this model.
        var overwrite: bool :| true;
        if dest !in v || overwrite {
          v := v[dest := weight];
        }
        vertexes := vertexes[node := v];
      }
    }

    /** Remove the edge `node -> dest`; nothing happens when `node` is not a
        vertex. */
    method RemoveEdge(node: CustomerId, dest: CustomerId)
      modifies this
      ensures node !in old(vertexes) ==> vertexes == old(vertexes)
      ensures node in old(vertexes) ==> vertexes == old(vertexes)[node := old(vertexes)[node] - {dest}]
      ensures node in old(vertexes) && dest !in old(vertexes)[node] ==> vertexes == old(vertexes)
      ensures old(NoSelfEdges()) ==> NoSelfEdges()
    {
      if node in vertexes {
        assert dest !in vertexes[node] ==> vertexes[node] - {dest} == vertexes[node];
        vertexes := vertexes[node := vertexes[node] - {dest}];
      }
    }

    /** The customers reachable from the depot, by non-decreasing weight,
        with the depot itself first among the entries of weight 0. */
    method SortV0() returns (mm: seq<Entry>, ghost order: seq<CustomerId>)
      requires depot in vertexes
      ensures Sorted(mm)
      ensures |mm| == 1 + |vertexes[depot]|
      ensures Entry(0, depot) in mm
      ensures forall k :: k in vertexes[depot] ==> Entry(GetCosts(depot, k).1, k) in mm
      ensures forall e :: e in mm ==>
                e == Entry(0, depot) || (e.customer in vertexes[depot] && e.weight == vertexes[depot][e.customer])
      ensures Distinct(order) && Elements(order) == vertexes[depot].Keys
      ensures forall k :: k in order ==> k in vertexes[depot]
      ensures forall w :: WithWeight(mm, w) == WithWeight([Entry(0, depot)] + EdgeEntries(vertexes[depot], order, {}), w)
      ensures |WithWeight(mm, 0)| > 0 && WithWeight(mm, 0)[0] == Entry(0, depot)
    {
      var edges := vertexes[depot];
      var first := [Entry(0, depot)];
      mm, order := EmplaceEdges(first, edges, {});
      assert edges.Keys - {} == edges.Keys;
      WithWeightAppend(first, EdgeEntries(edges, order, {}), 0);
    }

    /** The customers reachable from `c` other than the depot, by
        non-decreasing weight. The graph is only read. */
    method GetNeighborhood(c: CustomerId) returns (mm: seq<Entry>, ghost order: seq<CustomerId>)
      requires c in vertexes
      ensures Sorted(mm)
      ensures |mm| == |vertexes[c].Keys - {depot}|
      ensures forall k :: k in vertexes[c] && k != depot ==> Entry(GetCosts(c, k).1, k) in mm
      ensures forall e :: e in mm ==>
                e.customer != depot && e.customer in vertexes[c] && e.weight == vertexes[c][e.customer]
      ensures Distinct(order) && Elements(order) == vertexes[c].Keys
      ensures forall k :: k in order ==> k in vertexes[c]
      ensures forall w :: WithWeight(mm, w) == WithWeight(EdgeEntries(vertexes[c], order, {depot}), w)
    {
      var edges := vertexes[c];
      mm, order := EmplaceEdges([], edges, {depot});
      assert [] + EdgeEntries(edges, order, {depot}) == EdgeEntries(edges, order, {depot});
    }

    /** The weight of the edge `from -> to`, paired with `from`. */
    function GetCosts(from: CustomerId, to: CustomerId): (r: (CustomerId, int))
      reads this
      requires from in vertexes && to in vertexes[from]
      ensures r.0 == from && r.1 == vertexes[from][to]
    {
      (from, vertexes[from][to])
    }
  }
}
