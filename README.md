# VRP-tabu: customer graph and optimisation driver

This project models two parts of a Capacitated Vehicle Routing Problem
solver that improves an initial set of routes by Tabu Search and
neighbourhood operators.

**The customer graph** (`lib/Graph.cpp`, modules `Multimap` and `Graphs`).
A map from each customer to its vertex. A vertex is a map from destination
customers to edge weights. The graph offers:

- inserting vertices;
- inserting and removing edges;
- `sortV0`: the depot and every customer it reaches, ordered by edge weight;
- `GetNeighborhood`: the customers a vertex reaches, without the depot,
  ordered by edge weight;
- `GetCosts`: the weight of one edge.

The two ordered queries return a `std::multimap<int, Customer>`. It is
modelled as the sequence of its entries in iteration order. `emplace`
puts a new entry after all entries with an equal key. The proofs show
that each query's result is sorted by weight. It holds exactly the
expected entries, one per reached customer. Entries with equal weight
keep the order in which the loop visited them.

**The driver** (`actor/Controller.cpp`, module `Driver`).
`Init` builds the initial solution and reacts to its result code. Then
`RunVRP` runs one outer round per customer. Each outer round is
`RunTabuSearch(customers)` followed by `RunOpts(customers)`. `RunOpts`
balances the routes, runs rounds of operators and balances them again.
A round tries the six relocation/exchange operators in a fixed order
until one improves the solution, then always runs 2-opt and 3-opt. The
loop stops early after a round in which nothing improved.

The operators themselves are abstract. The VRP instance records every
call in a history. An operator answers whether it improved the solution
according to a fixed set of (history, operator) pairs. Every call extends
the history, so no history occurs twice in a run, and such a set can
encode any sequence of answers the operators may give.
Each driver method is proved to extend the history exactly as a
specification function says. Lemmas then state what those functions mean:
- the order in which operators run;
- that 2-opt and 3-opt run in every round;
- that route balancing happens exactly twice per `RunOpts`;
- that a `RunOpts` call runs at most `times` rounds;
- that Tabu Search runs `times` times per `RunTabuSearch`, and customers²
  times in a whole run;
- when the loop stops.

The `RunOpts` loop keeps `optxx` true at the top of every iteration. The
flag is cleared only when no relocation improved. It is then set again by
a successful 2-opt or 3-opt, and otherwise the loop breaks. So
`if (optxx)` always runs the relocation chain, and `result` is assigned
before it is read. The comment "if no more improvements run only 2-opt
and 3-opt" never takes effect. The model keeps the guard and proves the
invariant.

## Model

| member | source | states |
|---|---|---|
| Multimap.EmplaceMembers | lib/Graph.cpp:80 | after `emplace`, the multimap holds exactly the old entries and the new one |
| Multimap.EmplaceSorted | lib/Graph.cpp:80 | `emplace` keeps a multimap ordered by non-decreasing key |
| Multimap.EmplaceStable | lib/Graph.cpp:97 | among the entries with any one key, the emplaced entry comes after all the old ones |
| Multimap.EmplaceAllMembers | lib/Graph.cpp:79-81 | emplacing a list of entries into a multimap yields exactly the start's entries and the list's entries |
| Multimap.EmplaceAllSorted | lib/Graph.cpp:79-81 | emplacing any list into a sorted multimap leaves it sorted |
| Multimap.EmplaceAllStable | lib/Graph.cpp:95-98 | for every key, the entries with that key are the start's, then the list's, each in its own order |
| Graphs.EdgeEntriesMembers | lib/Graph.cpp:95-97 | the loop adds an entry exactly for each visited destination that is not skipped, keyed by that edge's weight |
| Graphs.EdgeEntriesLength | lib/Graph.cpp:95-97 | visiting each destination once adds one entry per destination outside the skipped set |
| Graphs.EmplaceEdges | lib/Graph.cpp:95-98 | the edge loop visits every destination exactly once; its multimap is sorted, holds the start's entries plus one entry per non-skipped edge (weight, destination) and nothing else; equal weights keep visiting order |
| Graphs.EmplacedEdges | lib/Graph.cpp:79-81 | emplacing the edge entries into a sorted start gives a sorted multimap of the right size and contents, stable for equal weights |
| Graphs.Graph.InsertVertex | lib/Graph.cpp:25-29 | inserts the customer with an empty vertex when absent, leaves the graph unchanged when present, and keeps the graph free of self-edges |
| Graphs.Graph.InsertVertexWith | lib/Graph.cpp:37-40 | `std::map::insert` never overwrites: adds the pair only when the customer is absent; the key set grows by the customer and the size by one exactly when it was absent |
| Graphs.Graph.InsertEdge | lib/Graph.cpp:49-53 | no change for a self-edge or an unknown start vertex; otherwise only the start vertex changes, the edge is present afterwards with the new weight or its earlier one, and no self-edge appears |
| Graphs.Graph.RemoveEdge | lib/Graph.cpp:60-64 | no change for an unknown start vertex; otherwise removes just that destination from the start vertex (no change if it was absent), and no self-edge appears |
| Graphs.Graph.SortV0 | lib/Graph.cpp:72-83 | sorted by weight; one entry per depot edge plus the depot at weight 0; every entry is the depot or (weight of the edge to it, destination); the depot comes first among the weight-0 entries |
| Graphs.Graph.GetNeighborhood | lib/Graph.cpp:91-100 | sorted by weight; exactly one entry per edge of `c` whose destination is not the depot, each keyed by that edge's weight; equal weights keep visiting order |
| Graphs.Graph.GetCosts | lib/Graph.cpp:109-113 | defined only when the start vertex and the edge exist; returns the start customer and the stored weight |
| Driver.Vrp.InitSolutions | actor/Controller.cpp:24 | a recording stub: construction is recorded once in the history and returns the instance's fixed result code |
| Driver.Vrp.Perform | actor/Controller.cpp:59 | a recording stub for `TabuSearch` and `RouteBalancer`: the call is appended to the history and nothing else changes |
| Driver.Vrp.Apply | actor/Controller.cpp:71-89 | an operator call appends exactly one attempt to the history, with the answer fixed by the history before it |
| Driver.ConstructionReport | actor/Controller.cpp:24-35 | aborts with "You need more vehicles" exactly when the code is 1; logs a note exactly for -1 and 0: the warning "You need less vehicles." exactly for -1, the success note "Done!" exactly for 0; any other code goes on silently |
| Driver.Controller.Init | actor/Controller.cpp:20-44 | reports per the construction code; stops right after construction on abort, otherwise runs the whole optimisation |
| Driver.Controller.RunVRP | actor/Controller.cpp:46-53 | the history grows as `customers` outer rounds of Tabu Search then operators (see VrpMade) |
| Driver.Controller.RunTabuSearch | actor/Controller.cpp:55-62 | the history grows by exactly `times` Tabu Search runs (see TabuSearchMade) |
| Driver.Controller.RunOpts | actor/Controller.cpp:64-95 | balance, then rounds until one improves nothing or `times` rounds have run, then balance; the loop keeps `optxx` true at its top, so `result` is always assigned before being read |
| Driver.Controller.RunRelocations | actor/Controller.cpp:70-82 | the six `if (!result) result = OptXY()` stages make the calls of one relocation chain and return its verdict |
| Driver.ChainIsChain | actor/Controller.cpp:71-81 | a chain tries Opt10, Opt01, Opt11, Opt12, Opt21, Opt22 in this order, each answering for the history before it, up to the first that improves or all six; its verdict is true iff one of them improved |
| Driver.ChainUnique | actor/Controller.cpp:71-81 | the calls of a chain are determined by the history it starts from |
| Driver.ChainCalls | actor/Controller.cpp:71-81 | a chain makes at least one call, only relocation/exchange attempts, no 2-opt or 3-opt, and its verdict is whether one of its calls improved |
| Driver.RoundMade | actor/Controller.cpp:84-91 | after the chain a round calls 2-opt and then 3-opt whatever the chain did; the loop goes on exactly when some call of the round improved |
| Driver.RoundTries | actor/Controller.cpp:86-89 | a round makes only operator attempts, exactly one of them 2-opt and exactly one 3-opt |
| Driver.RoundsMade | actor/Controller.cpp:66-93 | the loop makes only operator attempts, with as many 2-opt as 3-opt calls, at most `times` of each and at least one when `times` is positive |
| Driver.RoundsStop | actor/Controller.cpp:90-91 | if the loop ran fewer than `times` rounds, it ended with one of its own rounds (starting from a history that extends the loop's start) in which nothing improved |
| Driver.OptsMade | actor/Controller.cpp:64-95 | `RunOpts` balances the routes as its first and last call and exactly twice in all, runs no Tabu Search, and runs at most `times` rounds of 2-opt and 3-opt |
| Driver.TabuSearchMade | actor/Controller.cpp:58-60 | `RunTabuSearch(times)` runs Tabu Search exactly `times` times (none for `times <= 0`) and nothing else |
| Driver.VrpMade | actor/Controller.cpp:47-52 | `k` outer rounds run Tabu Search k·customers times and balance the routes 2k times, with at most k·customers operator rounds; a whole run has k = customers, so Tabu Search runs customers² times |

## Left out

- Logging (`Utils::logger`), `PrintRoutes` and `SaveResult` are output only. `Init` returns a `Report` value in place of the log line or the thrown string.
- `GetTotalCost` and the improvement percentage in `Init` are left out. The percentage is floating point, and it divides by the initial cost, which may be zero. The model records no costs.
- `InitParameters` and the input reader in `lib/Utils.cpp` are not part of this model. The instance's customer count, construction code and operator answers are constructor arguments.
- The VRP operations are not part of this model: `InitSolutions`, `TabuSearch`, `RouteBalancer` and the eight operators. Each is a recorded call, and an operator's answer comes from a fixed set of (history, operator) pairs.
- Driver.Controller.RunRelocations: the source writes the six-stage chain inline in `RunOpts`. The model moves it into its own method with the same statements.
- Graphs.Graph.SortV0: the depot is an explicit key. The source takes `vertexes.begin()`, the first customer in the map's ordering, and the ordering of customers is not part of this model. For the same reason, the order in which the edge loops visit destinations is a ghost result, and stability is stated relative to it.
- Graphs.Graph.InsertVertex: the `Vertex` constructor taking a `ConstructionToken` is not part of this model. The model assumes it builds a vertex with no edges.
- Graphs.Graph.RemoveEdge: `Vertex::RemoveEdge` is not part of this model. The model assumes it erases exactly the edge to `dest` and nothing else, leaving the vertex unchanged when there is no such edge.
- Graphs.Graph.InsertEdge: `Vertex::InsertEdge` is not part of this model. The model assumes it adds the edge when it is absent and changes no other edge of the vertex; whether it overwrites an existing edge's weight is left open.
- Graphs.Graph.GetNeighborhood, Graphs.Graph.SortV0 and Graphs.Graph.GetCosts require the looked-up customer (and, for `GetCosts`, the edge) to exist. The source dereferences the result of `find()` without checking it, which is undefined for a missing key. No NotFound failure is modelled; the model follows the code.
- Customer identities are strings compared by equality. The model assumes `Customer`'s ordering and comparison operators identify a customer by its name, as the check at lib/Graph.cpp:51 does; the header that defines them is not part of this model.
- Integer widths: weights, codes and counts are unbounded. No overflow is modelled.
