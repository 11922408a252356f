/** The optimisation driver (actor/Controller.cpp): it builds the initial
    solution, then alternates Tabu Search rounds with rounds of neighbourhood
    operators. The VRP operations themselves are not part of this model. The
    instance records every call in its history, and an operator that reports
    whether it improved the solution answers what `outcome` gives for the
    history before the call and the operator. Every call extends the
    history, so no history occurs twice in a run, and a set of (history,
    operator) pairs can encode any sequence of answers the operators give.

    Each driver step is specified by a function from the history before it
    to the history after it; the methods are proved to extend the history
    exactly as those functions say, and the lemmas state what the functions
    mean: which operators run, in which order, and when the driver stops. */
module Driver {

  datatype Option<T> = None | Some(value: T)

  /** The neighbourhood operators that report whether they improved the solution. */
  datatype Move = Opt10 | Opt01 | Opt11 | Opt12 | Opt21 | Opt22 | Opt2 | Opt3

  /** The operations whose result the driver does not look at. */
  datatype Action = TabuSearch | RouteBalancer

  /** One call from the driver into the VRP instance. */
  datatype Call =
    | Construct(code: int)
    | Run(action: Action)
    | Attempt(move: Move, improved: bool)

  /** The calls made into the instance so far, oldest first. */
  type History = seq<Call>

  /** The pairs of a history and an operator such that the operator, called
      after that history, improves the solution. A run makes finitely many
      calls, so finitely many pairs decide it. */
  type Oracle = set<(History, Move)>

  /** The relocation/exchange operators, in the order the driver tries them. */
  const Relocations: seq<Move> := [Opt10, Opt01, Opt11, Opt12, Opt21, Opt22]

  /** The logger's severity levels. */
  datatype Level = Info | Success | Warning | Error | Verbose

  datatype Note = Note(level: Level, text: string)

  /** What `Init` does with the construction result: stop the run, or go on,
      after logging a note or silently. */
  datatype Report = Abort(reason: string) | Proceed(note: Option<Note>)

  /** The VRP instance as the driver sees it. */
  class Vrp {
    /** What `GetNumberOfCustomers` returns. */
    const customers: int
    /** The result code `InitSolutions` returns. */
    const construction: int
    /** The operators' answers. */
    const outcome: Oracle
    /** Every call made into the instance, oldest first. */
    var trace: History

    constructor (customers: int, construction: int, outcome: Oracle)
      ensures this.customers == customers && this.construction == construction
      ensures this.outcome == outcome && trace == []
    {
      this.customers := customers;
      this.construction := construction;
      this.outcome := outcome;
      trace := [];
    }

    method InitSolutions() returns (code: int)
      modifies this
      ensures code == construction
      ensures trace == old(trace) + [Construct(code)]
    {
      code := construction;
      trace := trace + [Construct(code)];
    }

    method Perform(action: Action)
      modifies this
      ensures trace == old(trace) + [Run(action)]
    {
      trace := trace + [Run(action)];
    }

    method Apply(move: Move) returns (improved: bool)
      modifies this
      ensures improved == Improves(outcome, old(trace), move)
      ensures trace == old(trace) + [Attempt(move, improved)]
    {
      improved := Improves(outcome, trace, move);
      trace := trace + [Attempt(move, improved)];
    }
  }

  predicate Improves(outcome: Oracle, h: History, move: Move)
  {
    (h, move) in outcome
  }

  /** The history after calling `move`. */
  function Try(outcome: Oracle, h: History, move: Move): (after: History)
  {
    h + [Attempt(move, Improves(outcome, h, move))]
  }

  /** The history after a stage of `RunOpts`, and the stage's verdict. */
  datatype Step = Step(trace: History, result: bool)

  /** One `if (!result) result = move();` of the chain: once an operator
      has improved the solution, the operators after it are skipped. */
  function Stage(outcome: Oracle, s: Step, move: Move): (next: Step)
  {
    if s.result then s else Step(Try(outcome, s.trace, move), Improves(outcome, s.trace, move))
  }

  /** The chain from its `k`-th operator on. */
  function ChainFrom(outcome: Oracle, s: Step, k: nat): (c: Step)
    requires k <= |Relocations|
    decreases |Relocations| - k
  {
    if k == |Relocations| then s else ChainFrom(outcome, Stage(outcome, s, Relocations[k]), k + 1)
  }

  /** The relocation/exchange chain of a round: the operators in turn until
      one improves; the verdict is the answer of the last one called. */
  function Chain(outcome: Oracle, h: History): (c: Step)
  {
    ChainFrom(outcome, Step(h, false), 0)
  }

  /** One round of `RunOpts`: the chain, then 2-opt, then 3-opt; the verdict
      says whether the loop goes on. */
  function Round(outcome: Oracle, h: History): (r: Step)
  {
    var chain := Chain(outcome, h);
    var two := Try(outcome, chain.trace, Opt2);
    Step(Try(outcome, two, Opt3), chain.result || Improves(outcome, chain.trace, Opt2) || Improves(outcome, two, Opt3))
  }

  /** At most `n` rounds, stopping after the first round that does not improve. */
  function Rounds(outcome: Oracle, h: History, n: int): (after: History)
    decreases n
  {
    if n <= 0 then h
    else
      var round := Round(outcome, h);
      if round.result then Rounds(outcome, round.trace, n - 1) else round.trace
  }

  function Balance(h: History): (after: History)
  {
    h + [Run(RouteBalancer)]
  }

  /** The history after `RunOpts(times)`. */
  function AfterOpts(outcome: Oracle, h: History, times: int): (after: History)
  {
    Balance(Rounds(outcome, Balance(h), times))
  }

  /** The history after `RunTabuSearch(times)`. */
  function AfterTabuSearch(h: History, times: int): (after: History)
    decreases times
  {
    if times <= 0 then h else AfterTabuSearch(h + [Run(TabuSearch)], times - 1)
  }

  /** The history after `k` outer rounds of `RunVRP` for `customers` customers. */
  function AfterVrp(outcome: Oracle, h: History, k: int, customers: int): (after: History)
    decreases k
  {
    if k <= 0 then h
    else AfterVrp(outcome, AfterOpts(outcome, AfterTabuSearch(h, customers), customers), k - 1, customers)
  }

  /** How many of `calls` are operator attempts. */
  function Attempts(calls: seq<Call>): (n: nat)
    ensures n <= |calls|
  {
    if calls == [] then 0
    else Attempts(calls[..|calls| - 1]) + if calls[|calls| - 1].Attempt? then 1 else 0
  }

  /** How many times `calls` tries `move`. */
  function Tries(calls: seq<Call>, move: Move): (n: nat)
  {
    if calls == [] then 0
    else
      var last := calls[|calls| - 1];
      Tries(calls[..|calls| - 1], move) + if last.Attempt? && last.move == move then 1 else 0
  }

  /** How many times `calls` runs `action`. */
  function Runs(calls: seq<Call>, action: Action): (n: nat)
  {
    if calls == [] then 0
    else Runs(calls[..|calls| - 1], action) + if calls[|calls| - 1] == Run(action) then 1 else 0
  }

  /** Some operator called in `calls` improved the solution. */
  ghost predicate Improved(calls: seq<Call>)
  {
    exists i :: 0 <= i < |calls| && calls[i].Attempt? && calls[i].improved
  }

  /** `calls` are the first relocation/exchange operators in their order,
      each answering for the history before it. */
  ghost predicate InOrder(outcome: Oracle, h: History, calls: seq<Call>)
  {
    && |calls| <= |Relocations|
    && forall j :: 0 <= j < |calls| ==>
         calls[j] == Attempt(Relocations[j], Improves(outcome, h + calls[..j], Relocations[j]))
  }

  /** The calls a relocation/exchange chain makes after `h`: the operators
      in their order, up to and including the first that improves, or all
      of them. */
  ghost predicate IsChain(outcome: Oracle, h: History, calls: seq<Call>)
  {
    && 1 <= |calls|
    && InOrder(outcome, h, calls)
    && (forall j :: 0 <= j < |calls| - 1 ==> !calls[j].improved)
    && (|calls| < |Relocations| ==> calls[|calls| - 1].improved)
  }

  /** Trying the next operator of the chain extends the calls in order. */
  lemma Extend(outcome: Oracle, h: History, calls: seq<Call>, t: History, move: Move)
    requires InOrder(outcome, h, calls) && t == h + calls
    requires |calls| < |Relocations| && move == Relocations[|calls|]
    ensures var more := calls + [Attempt(move, Improves(outcome, t, move))];
            Try(outcome, t, move) == h + more && InOrder(outcome, h, more)
  {
    var more := calls + [Attempt(move, Improves(outcome, t, move))];
    forall j | 0 <= j < |more|
      ensures more[j] == Attempt(Relocations[j], Improves(outcome, h + more[..j], Relocations[j]))
    {
      if j < |calls| {
        assert more[..j] == calls[..j];
      } else {
        assert more[..j] == calls;
      }
    }
  }

  /** What the chain of a round does after `h`: `c` extends `h` by the
      calls of a chain, and its verdict is whether one of them improved the
      solution, which is the answer of the last one. */
  ghost predicate ChainMade(outcome: Oracle, h: History, c: Step)
  {
    && |h| < |c.trace| && c.trace[..|h|] == h
    && IsChain(outcome, h, c.trace[|h|..])
    && (c.result <==> c.trace[|c.trace| - 1].improved)
    && (c.result <==> Improved(c.trace[|h|..]))
  }

  /** What the chain has done after its first `k` stages: `s` extends `h`
      by `calls`, made in order; all but the last failed; if the verdict is
      a success the last one improved, and otherwise all `k` operators were
      tried. */
  ghost predicate Partial(outcome: Oracle, h: History, calls: seq<Call>, s: Step, k: nat)
  {
    && k <= |Relocations| && s.trace == h + calls && InOrder(outcome, h, calls)
    && (forall j :: 0 <= j < |calls| - 1 ==> !calls[j].improved)
    && (if s.result then 1 <= |calls| <= k && calls[|calls| - 1].improved
        else |calls| == k && (k > 0 ==> !calls[k - 1].improved))
  }

  lemma {:induction false} ChainFromMade(outcome: Oracle, h: History, calls: seq<Call>, s: Step, k: nat)
    requires Partial(outcome, h, calls, s, k)
    ensures ChainMade(outcome, h, ChainFrom(outcome, s, k))
    decreases |Relocations| - k
  {
    if k == |Relocations| {
      ChainEnds(outcome, h, calls, s);
    } else if s.result {
      ChainFromMade(outcome, h, calls, s, k + 1);
    } else {
      var move := Relocations[k];
      Extend(outcome, h, calls, s.trace, move);
      ChainFromMade(outcome, h, calls + [Attempt(move, Improves(outcome, s.trace, move))], Stage(outcome, s, move), k + 1);
    }
  }

  /** `Chain` makes the calls of a chain. */
  lemma ChainIsChain(outcome: Oracle, h: History)
    ensures ChainMade(outcome, h, Chain(outcome, h))
  {
    assert h + [] == h;
    ChainFromMade(outcome, h, [], Step(h, false), 0);
  }

  /** A chain's verdict is the answer of its last call. */
  lemma ChainEnds(outcome: Oracle, h: History, calls: seq<Call>, c: Step)
    requires InOrder(outcome, h, calls) && 1 <= |calls|
    requires forall j :: 0 <= j < |calls| - 1 ==> !calls[j].improved
    requires |calls| < |Relocations| ==> calls[|calls| - 1].improved
    requires c == Step(h + calls, calls[|calls| - 1].improved)
    ensures ChainMade(outcome, h, c)
  {
    assert c.trace[..|h|] == h && c.trace[|h|..] == calls;
    if Improved(calls) {
      var i :| 0 <= i < |calls| && calls[i].Attempt? && calls[i].improved;
      assert i == |calls| - 1;
    }
  }

  /** A chain is determined by the history it starts from. */
  lemma {:induction false} ChainUnique(outcome: Oracle, h: History, a: seq<Call>, b: seq<Call>)
    requires IsChain(outcome, h, a) && IsChain(outcome, h, b)
    ensures a == b
  {
    if |a| < |b| {
      SamePrefix(outcome, h, a, b, |a|);
      assert false;
    } else if |b| < |a| {
      SamePrefix(outcome, h, a, b, |b|);
      assert false;
    } else {
      SamePrefix(outcome, h, a, b, |a|);
      assert a == a[..|a|] && b == b[..|b|];
    }
  }

  /** Calls made in order agree as far as both go. */
  lemma {:induction false} SamePrefix(outcome: Oracle, h: History, a: seq<Call>, b: seq<Call>, n: nat)
    requires InOrder(outcome, h, a) && InOrder(outcome, h, b)
    requires n <= |a| && n <= |b|
    ensures a[..n] == b[..n]
  {
    if n > 0 {
      SamePrefix(outcome, h, a, b, n - 1);
      assert a[..n] == a[..n - 1] + [a[n - 1]];
      assert b[..n] == b[..n - 1] + [b[n - 1]];
    }
  }

  /** The number of iterations of a loop `for (i = 0; i < n; i++)`. */
  function Iterations(n: int): (count: nat)
  {
    if n < 0 then 0 else n
  }

  lemma {:induction false} ImprovedAppend(a: seq<Call>, b: seq<Call>)
    ensures Improved(a + b) <==> Improved(a) || Improved(b)
  {
    if Improved(a + b) {
      var i :| 0 <= i < |a + b| && (a + b)[i].Attempt? && (a + b)[i].improved;
      if i >= |a| {
        assert b[i - |a|] == (a + b)[i];
      }
    }
    if Improved(a) {
      var i :| 0 <= i < |a| && a[i].Attempt? && a[i].improved;
      assert (a + b)[i] == a[i];
    }
    if Improved(b) {
      var i :| 0 <= i < |b| && b[i].Attempt? && b[i].improved;
      assert (a + b)[|a| + i] == b[i];
    }
  }

  /** A history that extends one extending `h` extends `h`, by the calls
      of both extensions. */
  lemma Split(h: History, mid: History, r: History)
    requires |h| <= |mid| <= |r| && mid[..|h|] == h && r[..|mid|] == mid
    ensures r[..|h|] == h && r[|h|..] == mid[|h|..] + r[|mid|..]
  {
    assert r[..|h|] == r[..|mid|][..|h|];
  }

  /** Counting calls adds up over consecutive stretches of calls. */
  lemma {:induction false} CountsAppend(a: seq<Call>, b: seq<Call>)
    ensures Attempts(a + b) == Attempts(a) + Attempts(b)
    ensures forall move :: Tries(a + b, move) == Tries(a, move) + Tries(b, move)
    ensures forall action :: Runs(a + b, action) == Runs(a, action) + Runs(b, action)
    decreases |b|
  {
    if b == [] {
      assert a + b == a;
    } else {
      CountsAppend(a, b[..|b| - 1]);
      assert (a + b)[..|a + b| - 1] == a + b[..|b| - 1];
    }
  }

  /** Calls that are all operator attempts run no action. */
  lemma {:induction false} NoRuns(calls: seq<Call>)
    requires Attempts(calls) == |calls|
    ensures forall action :: Runs(calls, action) == 0
    decreases |calls|
  {
    if calls != [] {
      NoRuns(calls[..|calls| - 1]);
    }
  }

  /** Calls of relocation/exchange operators only: no 2-opt, no 3-opt. */
  lemma {:induction false} RelocationsOnly(calls: seq<Call>)
    requires forall i :: 0 <= i < |calls| ==> calls[i].Attempt? && calls[i].move in Relocations
    ensures Attempts(calls) == |calls| && Tries(calls, Opt2) == 0 && Tries(calls, Opt3) == 0
    decreases |calls|
  {
    if calls != [] {
      RelocationsOnly(calls[..|calls| - 1]);
    }
  }

  /** A chain calls at least one operator, only relocation/exchange ones,
      and its verdict is whether one of them improved the solution. */
  lemma ChainCalls(outcome: Oracle, h: History)
    ensures |h| < |Chain(outcome, h).trace| && Chain(outcome, h).trace[..|h|] == h
    ensures var calls := Chain(outcome, h).trace[|h|..];
            && Attempts(calls) == |calls| && Tries(calls, Opt2) == 0 && Tries(calls, Opt3) == 0
            && (Chain(outcome, h).result <==> Improved(calls))
  {
    ChainIsChain(outcome, h);
    var calls := Chain(outcome, h).trace[|h|..];
    assert forall i :: 0 <= i < |calls| ==> calls[i].Attempt? && calls[i].move in Relocations;
    RelocationsOnly(calls);
  }

  /** A round is its chain followed by 2-opt and 3-opt, which both run
      whatever the chain did; the loop goes on exactly when some operator
      of the round improved the solution. */
  lemma RoundMade(outcome: Oracle, h: History)
    ensures var r := Round(outcome, h); var c := Chain(outcome, h);
            && |h| < |c.trace| && c.trace[..|h|] == h
            && |c.trace| + 2 == |r.trace| && r.trace[..|c.trace|] == c.trace
            && r.trace[|c.trace|] == Attempt(Opt2, Improves(outcome, c.trace, Opt2))
            && r.trace[|c.trace| + 1] == Attempt(Opt3, Improves(outcome, r.trace[..|c.trace| + 1], Opt3))
            && (r.result <==> Improved(r.trace[|h|..]))
  {
    var r := Round(outcome, h);
    var c := Chain(outcome, h);
    ChainCalls(outcome, h);
    var chain := c.trace[|h|..];
    var two := Attempt(Opt2, Improves(outcome, c.trace, Opt2));
    var three := r.trace[|r.trace| - 1];
    assert r.trace == c.trace + [two, three];
    assert r.trace[..|c.trace| + 1] == c.trace + [two];
    assert r.trace[|h|..] == chain + [two, three];
    ImprovedAppend(chain, [two, three]);
    if two.improved {
      assert [two, three][0] == two;
    }
    if three.improved {
      assert [two, three][1] == three;
    }
  }

  /** A single run of `action`. */
  lemma RunOnce(action: Action)
    ensures var one := [Run(action)];
            && Attempts(one) == 0 && Tries(one, Opt2) == 0 && Tries(one, Opt3) == 0
            && Runs(one, action) == 1 && forall other :: other != action ==> Runs(one, other) == 0
  {
    assert [Run(action)][..0] == [];
  }

  /** The last two calls of a round. */
  lemma TwoThenThree(a: bool, b: bool)
    ensures var pair := [Attempt(Opt2, a), Attempt(Opt3, b)];
            Attempts(pair) == 2 && Tries(pair, Opt2) == 1 && Tries(pair, Opt3) == 1
  {
    var pair := [Attempt(Opt2, a), Attempt(Opt3, b)];
    var first := [Attempt(Opt2, a)];
    assert pair[..1] == first && first[..0] == [];
    assert Tries(first, Opt2) == 1 && Tries(first, Opt3) == 0;
  }

  /** A round calls only operators, among them one 2-opt and one 3-opt. */
  lemma RoundTries(outcome: Oracle, h: History)
    ensures |h| <= |Round(outcome, h).trace| && Round(outcome, h).trace[..|h|] == h
    ensures var calls := Round(outcome, h).trace[|h|..];
            Attempts(calls) == |calls| && Tries(calls, Opt2) == 1 && Tries(calls, Opt3) == 1
  {
    var r := Round(outcome, h);
    var c := Chain(outcome, h);
    ChainCalls(outcome, h);
    var chain := c.trace[|h|..];
    var a := Improves(outcome, c.trace, Opt2);
    var b := Improves(outcome, c.trace + [Attempt(Opt2, a)], Opt3);
    var pair := [Attempt(Opt2, a), Attempt(Opt3, b)];
    assert r.trace == c.trace + pair;
    assert r.trace[..|c.trace|] == c.trace && r.trace[|c.trace|..] == pair;
    Split(h, c.trace, r.trace);
    TwoThenThree(a, b);
    CountsAppend(chain, pair);
  }

  /** The rounds of `RunOpts` call only operators: at most `n` rounds, each
      with one 2-opt and one 3-opt, and at least one when `n` is positive. */
  lemma {:induction false} RoundsMade(outcome: Oracle, h: History, n: int)
    ensures |h| <= |Rounds(outcome, h, n)| && Rounds(outcome, h, n)[..|h|] == h
    ensures var calls := Rounds(outcome, h, n)[|h|..];
            && Attempts(calls) == |calls|
            && Tries(calls, Opt2) == Tries(calls, Opt3) <= Iterations(n)
            && (n > 0 ==> 1 <= Tries(calls, Opt3))
    decreases n
  {
    if n > 0 {
      var round := Round(outcome, h);
      RoundTries(outcome, h);
      if round.result {
        RoundsMade(outcome, round.trace, n - 1);
        var r := Rounds(outcome, round.trace, n - 1);
        Split(h, round.trace, r);
        CountsAppend(round.trace[|h|..], r[|round.trace|..]);
      }
    }
  }

  /** `RunOpts` leaves its loop before `n` rounds only after a round that
      improved nothing. */
  lemma {:induction false} RoundsStop(outcome: Oracle, h: History, n: int)
    requires |h| <= |Rounds(outcome, h, n)| && Tries(Rounds(outcome, h, n)[|h|..], Opt3) < n
    ensures exists g :: && |h| <= |g| && g[..|h|] == h
                        && Rounds(outcome, h, n) == Round(outcome, g).trace && !Round(outcome, g).result
    decreases n
  {
    var round := Round(outcome, h);
    RoundTries(outcome, h);
    if round.result {
      RoundsMade(outcome, round.trace, n - 1);
      var r := Rounds(outcome, round.trace, n - 1);
      Split(h, round.trace, r);
      CountsAppend(round.trace[|h|..], r[|round.trace|..]);
      RoundsStop(outcome, round.trace, n - 1);
      var g :| && |round.trace| <= |g| && g[..|round.trace|] == round.trace
               && r == Round(outcome, g).trace && !Round(outcome, g).result;
      Split(h, round.trace, g);
    } else {
      assert Rounds(outcome, h, n) == round.trace;
    }
  }

  /** `RunOpts` balances the routes first and last and calls only operators
      in between, at most `times` rounds of them. */
  lemma OptsMade(outcome: Oracle, h: History, times: int)
    ensures |h| + 2 <= |AfterOpts(outcome, h, times)| && AfterOpts(outcome, h, times)[..|h|] == h
    ensures var r := AfterOpts(outcome, h, times); var calls := r[|h|..];
            && r[|h|] == Run(RouteBalancer) && r[|r| - 1] == Run(RouteBalancer)
            && Runs(calls, RouteBalancer) == 2 && Runs(calls, TabuSearch) == 0
            && Attempts(calls) == |calls| - 2
            && Tries(calls, Opt2) == Tries(calls, Opt3) <= Iterations(times)
  {
    var b := Balance(h);
    RoundsMade(outcome, b, times);
    Bracketed(h, b, Rounds(outcome, b, times), AfterOpts(outcome, h, times));
  }

  /** Operator calls between two route balancings. */
  lemma Bracketed(h: History, b: History, rounds: History, r: History)
    requires b == h + [Run(RouteBalancer)] && |b| <= |rounds| && rounds[..|b|] == b
    requires r == rounds + [Run(RouteBalancer)]
    requires Attempts(rounds[|b|..]) == |rounds[|b|..]|
    ensures |h| + 2 <= |r| && r[..|h|] == h
    ensures var calls, middle := r[|h|..], rounds[|b|..];
            && r[|h|] == Run(RouteBalancer) && r[|r| - 1] == Run(RouteBalancer)
            && Runs(calls, RouteBalancer) == 2 && Runs(calls, TabuSearch) == 0
            && Attempts(calls) == |calls| - 2
            && Tries(calls, Opt2) == Tries(middle, Opt2) && Tries(calls, Opt3) == Tries(middle, Opt3)
  {
    var one := [Run(RouteBalancer)];
    var middle := rounds[|b|..];
    assert b[..|h|] == h && b[|h|..] == one;
    Split(h, b, rounds);
    assert r[..|rounds|] == rounds && r[|rounds|..] == one;
    Split(h, rounds, r);
    assert r[|h|..] == (one + middle) + one;
    NoRuns(middle);
    RunOnce(RouteBalancer);
    CountsAppend(one, middle);
    CountsAppend(one + middle, one);
  }

  /** `RunTabuSearch(times)` runs Tabu Search `times` times and nothing else. */
  lemma {:induction false} TabuSearchMade(h: History, times: int)
    ensures |AfterTabuSearch(h, times)| == |h| + Iterations(times) && AfterTabuSearch(h, times)[..|h|] == h
    ensures var calls := AfterTabuSearch(h, times)[|h|..];
            && Runs(calls, TabuSearch) == Iterations(times)
            && Runs(calls, RouteBalancer) == 0 && Tries(calls, Opt3) == 0
    decreases times
  {
    if times > 0 {
      var one := [Run(TabuSearch)];
      var next := h + one;
      TabuSearchMade(next, times - 1);
      var r := AfterTabuSearch(next, times - 1);
      assert AfterTabuSearch(h, times) == r;
      assert next[..|h|] == h && next[|h|..] == one;
      Split(h, next, r);
      RunOnce(TabuSearch);
      CountsAppend(one, r[|next|..]);
    }
  }

  /** `k` outer rounds of `RunVRP` run Tabu Search `customers` times per
      round, balance the routes twice per round and run at most `customers`
      rounds of operators per round; so a whole run, with one outer round
      per customer, runs Tabu Search customers squared times. */
  lemma {:induction false} VrpMade(outcome: Oracle, h: History, k: int, customers: int)
    ensures |h| <= |AfterVrp(outcome, h, k, customers)| && AfterVrp(outcome, h, k, customers)[..|h|] == h
    ensures var calls := AfterVrp(outcome, h, k, customers)[|h|..];
            && Runs(calls, TabuSearch) == Iterations(k) * Iterations(customers)
            && Runs(calls, RouteBalancer) == 2 * Iterations(k)
            && Tries(calls, Opt3) <= Iterations(k) * Iterations(customers)
    decreases k
  {
    if k > 0 {
      var tabu := AfterTabuSearch(h, customers);
      var opts := AfterOpts(outcome, tabu, customers);
      TabuSearchMade(h, customers);
      OptsMade(outcome, tabu, customers);
      VrpMade(outcome, opts, k - 1, customers);
      OuterRound(h, tabu, opts, AfterVrp(outcome, opts, k - 1, customers), k, Iterations(customers));
    }
  }

  /** The counts of one outer round of `RunVRP` followed by `k - 1` more. */
  lemma OuterRound(h: History, tabu: History, opts: History, r: History, k: int, c: nat)
    requires k > 0
    requires |h| <= |tabu| <= |opts| <= |r|
    requires tabu[..|h|] == h && opts[..|tabu|] == tabu && r[..|opts|] == opts
    requires Runs(tabu[|h|..], TabuSearch) == c && Runs(tabu[|h|..], RouteBalancer) == 0
    requires Tries(tabu[|h|..], Opt3) == 0
    requires Runs(opts[|tabu|..], TabuSearch) == 0 && Runs(opts[|tabu|..], RouteBalancer) == 2
    requires Tries(opts[|tabu|..], Opt3) <= c
    requires Runs(r[|opts|..], TabuSearch) == (k - 1) * c && Runs(r[|opts|..], RouteBalancer) == 2 * (k - 1)
    requires Tries(r[|opts|..], Opt3) <= (k - 1) * c
    ensures r[..|h|] == h
    ensures Runs(r[|h|..], TabuSearch) == k * c && Runs(r[|h|..], RouteBalancer) == 2 * k
    ensures Tries(r[|h|..], Opt3) <= k * c
  {
    var first, second, rest := tabu[|h|..], opts[|tabu|..], r[|opts|..];
    Split(h, tabu, opts);
    Split(h, opts, r);
    assert r[|h|..] == first + second + rest;
    CountsAppend(first, second);
    CountsAppend(first + second, rest);
    assert (k - 1) * c + c == k * c;
  }

  /** What `Init` does with the code `InitSolutions` returns. */
  function ConstructionReport(code: int): (r: Report)
    ensures r.Abort? <==> code == 1
    ensures r.Abort? ==> r.reason == "You need more vehicles"
    ensures r.Proceed? && r.note.Some? <==> code == -1 || code == 0
    ensures r.Proceed? && r.note.Some? ==> (r.note.value.level == Warning <==> code == -1)
    ensures r.Proceed? && r.note.Some? ==> (r.note.value.level == Success <==> code == 0)
    ensures code == -1 ==> r.note.value.text == "You need less vehicles."
    ensures code == 0 ==> r.note.value.text == "Done!"
  {
    match code
    case -1 => Proceed(Some(Note(Warning, "You need less vehicles.")))
    case 0 => Proceed(Some(Note(Success, "Done!")))
    case 1 => Abort("You need more vehicles")
    case _ => Proceed(None)
  }

  class Controller {
    /** The instance `InitParameters` read from the input file. */
    const vrp: Vrp

    constructor (vrp: Vrp)
      ensures this.vrp == vrp
    {
      this.vrp := vrp;
    }

    /** Build the initial solution and, unless that fails, optimise it. */
    method Init() returns (report: Report)
      modifies vrp
      ensures report == ConstructionReport(vrp.construction)
      ensures var built := old(vrp.trace) + [Construct(vrp.construction)];
              vrp.trace == if report.Abort? then built
                           else AfterVrp(vrp.outcome, built, vrp.customers, vrp.customers)
    {
      var code := vrp.InitSolutions();
      report := ConstructionReport(code);
      if report.Abort? {
        return;
      }
      RunVRP();
    }

    /** One outer round per customer: Tabu Search, then the operators. */
    method RunVRP()
      modifies vrp
      ensures vrp.trace == AfterVrp(vrp.outcome, old(vrp.trace), vrp.customers, vrp.customers)
    {
      var customers := vrp.customers;
      ghost var goal := AfterVrp(vrp.outcome, vrp.trace, customers, customers);
      var i := 0;
      while i < customers
        invariant 0 <= i && (i <= customers || i == 0)
        invariant AfterVrp(vrp.outcome, vrp.trace, customers - i, customers) == goal
      {
        RunTabuSearch(customers);
        RunOpts(customers);
        i := i + 1;
      }
    }

    method RunTabuSearch(times: int)
      modifies vrp
      ensures vrp.trace == AfterTabuSearch(old(vrp.trace), times)
    {
      ghost var goal := AfterTabuSearch(vrp.trace, times);
      var k := 0;
      while k < times
        invariant 0 <= k && (k <= times || k == 0)
        invariant AfterTabuSearch(vrp.trace, times - k) == goal
      {
        vrp.Perform(TabuSearch);
        k := k + 1;
      }
    }

    /** Balance the routes, run rounds of operators until a round improves
        nothing or `times` rounds have run, and balance again. */
    method RunOpts(times: int)
      modifies vrp
      ensures vrp.trace == AfterOpts(vrp.outcome, old(vrp.trace), times)
    {
      vrp.Perform(RouteBalancer);
      var i := 0;
      var result: bool;
      var optxx := true;
      ghost var goal := Rounds(vrp.outcome, vrp.trace, times);
      while i < times
        invariant 0 <= i && (i <= times || i == 0)
        invariant optxx
        invariant Rounds(vrp.outcome, vrp.trace, times - i) == goal
      {
        ghost var top := vrp.trace;
        if optxx {
          result := RunRelocations();
        }
        assert vrp.trace == Chain(vrp.outcome, top).trace && result == Chain(vrp.outcome, top).result;
        if !result {
          optxx := false;
        }
        var two := vrp.Apply(Opt2);
        if two {
          optxx := true;
        }
        var three := vrp.Apply(Opt3);
        if three {
          optxx := true;
        }
        assert vrp.trace == Round(vrp.outcome, top).trace;
        assert (!result && !optxx) <==> !Round(vrp.outcome, top).result;
        if !result && !optxx {
          break;
        }
        i := i + 1;
      }
      vrp.Perform(RouteBalancer);
    }

    /** The relocation/exchange chain of a round: each operator in turn until
        one improves the solution. */
    method RunRelocations() returns (result: bool)
      modifies vrp
      ensures Step(vrp.trace, result) == Chain(vrp.outcome, old(vrp.trace))
    {
      ghost var chain := Chain(vrp.outcome, vrp.trace);
      result := vrp.Apply(Opt10);
      assert ChainFrom(vrp.outcome, Step(vrp.trace, result), 1) == chain;
      if !result {
        result := vrp.Apply(Opt01);
      }
      assert ChainFrom(vrp.outcome, Step(vrp.trace, result), 2) == chain;
      if !result {
        result := vrp.Apply(Opt11);
      }
      assert ChainFrom(vrp.outcome, Step(vrp.trace, result), 3) == chain;
      if !result {
        result := vrp.Apply(Opt12);
      }
      assert ChainFrom(vrp.outcome, Step(vrp.trace, result), 4) == chain;
      if !result {
        result := vrp.Apply(Opt21);
      }
      assert ChainFrom(vrp.outcome, Step(vrp.trace, result), 5) == chain;
      if !result {
        result := vrp.Apply(Opt22);
      }
    }
  }
}
