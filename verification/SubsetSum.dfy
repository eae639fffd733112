/**
 The bounded, pruned, node-budgeted depth-first subset-sum search of the many-to-one tier.

 `Visit`/`Scan` mirror the search with its budget; the reference is declarative: the
 lexicographically least ascending index sequence of allowed size that reaches the target.
 */
module SubsetSum {
  import opened Sequences
  import opened Ordering
  import opened Domain

  /** Hard cap on explored nodes. */
  const NODE_BUDGET: nat := 200_000

  /** A search problem over positive amounts. */
  datatype Problem = Problem(amounts: seq<int>, tol: int, minSize: int, maxSize: int)

  /** What a sub-search found (indices into `amounts`) and the budget it left. */
  datatype Probe = Probe(hit: Option<seq<nat>>, left: nat)

  function Visit(pb: Problem, start: nat, remaining: int, depth: nat, budget: nat): Probe
    requires start <= |pb.amounts|
    decreases |pb.amounts| - start, 1
  {
    if budget == 0 then Probe(None, 0)
    else if depth >= pb.minSize && Abs(remaining) <= pb.tol then Probe(Some([]), budget - 1)
    else if depth == pb.maxSize then Probe(None, budget - 1)
    else Scan(pb, start, remaining, depth, budget - 1)
  }

  function Scan(pb: Problem, i: nat, remaining: int, depth: nat, budget: nat): Probe
    requires i <= |pb.amounts|
    decreases |pb.amounts| - i, 0
  {
    if i == |pb.amounts| then Probe(None, budget)
    else if pb.amounts[i] > remaining + pb.tol then Scan(pb, i + 1, remaining, depth, budget)
    else
      var r := Visit(pb, i + 1, remaining - pb.amounts[i], depth + 1, budget);
      if r.hit.Some? then Probe(Some([i] + r.hit.value), r.left)
      else Scan(pb, i + 1, remaining, depth, r.left)
  }

  // ---------------------------------------------------------------- reference

  predicate Ascending(q: seq<nat>, start: nat, end: nat) {
    q != [] ==> start <= q[0] < end && Ascending(q[1..], q[0] + 1, end)
  }

  function Total(amounts: seq<int>, q: seq<nat>): int
    requires forall k :: 0 <= k < |q| ==> q[k] < |amounts|
  {
    if q == [] then 0 else amounts[q[0]] + Total(amounts, q[1..])
  }

  lemma {:induction false} AscendingBounds(q: seq<nat>, start: nat, end: nat)
    requires Ascending(q, start, end)
    ensures forall k :: 0 <= k < |q| ==> start <= q[k] < end
    ensures NoDup(q)
  {
    if q != [] {
      AscendingBounds(q[1..], q[0] + 1, end);
      forall k | 0 < k < |q| ensures q[0] < q[k] < end {
        assert q[k] == q[1..][k - 1];
      }
      assert forall i, j :: 0 < i < j < |q| ==> q[i] == q[1..][i - 1] && q[j] == q[1..][j - 1];
    }
  }

  /** `q` extends a path of length `depth` to an allowed one that spends `remaining` within tolerance. */
  ghost predicate Completes(pb: Problem, start: nat, remaining: int, depth: nat, q: seq<nat>) {
    && Ascending(q, start, |pb.amounts|)
    && (forall k :: 0 <= k < |q| ==> q[k] < |pb.amounts|)
    && pb.minSize <= depth + |q| <= pb.maxSize
    && Abs(remaining - Total(pb.amounts, q)) <= pb.tol
  }

  /** `q` selects an allowed subset for `target`. */
  ghost predicate Solves(pb: Problem, target: int, q: seq<nat>) {
    Completes(pb, 0, target, 0, q)
  }

  /** Preorder of the search tree: a path comes before its extensions and before later branches. */
  predicate LexBefore(p: seq<nat>, q: seq<nat>) {
    if q == [] then false
    else if p == [] then true
    else if p[0] == q[0] then LexBefore(p[1..], q[1..])
    else p[0] < q[0]
  }

  ghost predicate Positive(amounts: seq<int>) {
    forall k :: 0 <= k < |amounts| ==> amounts[k] > 0
  }

  lemma {:induction false} TotalNonNegative(amounts: seq<int>, q: seq<nat>)
    requires Positive(amounts)
    requires forall k :: 0 <= k < |q| ==> q[k] < |amounts|
    ensures Total(amounts, q) >= 0
  {
    if q != [] {
      assert forall k :: 0 <= k < |q[1..]| ==> q[1..][k] == q[k + 1];
      TotalNonNegative(amounts, q[1..]);
    }
  }

  // ---------------------------------------------------------------- soundness

  lemma {:induction false} VisitSound(pb: Problem, start: nat, remaining: int, depth: nat, budget: nat)
    requires start <= |pb.amounts| && depth <= pb.maxSize
    ensures var r := Visit(pb, start, remaining, depth, budget);
            && r.left <= budget
            && (r.hit.Some? ==> budget > 0 && Completes(pb, start, remaining, depth, r.hit.value))
    decreases |pb.amounts| - start, 1
  {
    if budget > 0 && !(depth >= pb.minSize && Abs(remaining) <= pb.tol) && depth != pb.maxSize {
      ScanSound(pb, start, remaining, depth, budget - 1);
    }
  }

  lemma {:induction false} ScanSound(pb: Problem, i: nat, remaining: int, depth: nat, budget: nat)
    requires i <= |pb.amounts| && depth < pb.maxSize
    ensures var r := Scan(pb, i, remaining, depth, budget);
            && r.left <= budget
            && (r.hit.Some? ==> budget > 0 && r.hit.value != [] && Completes(pb, i, remaining, depth, r.hit.value))
    decreases |pb.amounts| - i, 0
  {
    if i < |pb.amounts| {
      if pb.amounts[i] > remaining + pb.tol {
        ScanSound(pb, i + 1, remaining, depth, budget);
      } else {
        var r := Visit(pb, i + 1, remaining - pb.amounts[i], depth + 1, budget);
        VisitSound(pb, i + 1, remaining - pb.amounts[i], depth + 1, budget);
        if r.hit.Some? {
          var q := [i] + r.hit.value;
          assert q[1..] == r.hit.value;
        } else {
          ScanSound(pb, i + 1, remaining, depth, r.left);
        }
      }
    }
  }

  // ------------------------------------------------- completeness and canonicity

  /** Against any competitor `q`: the search ran dry, or its answer is `q` or comes before `q`. */
  lemma {:induction false} VisitBeats(pb: Problem, start: nat, remaining: int, depth: nat, budget: nat, q: seq<nat>)
    requires start <= |pb.amounts| && depth <= pb.maxSize && Positive(pb.amounts)
    requires Completes(pb, start, remaining, depth, q)
    ensures var r := Visit(pb, start, remaining, depth, budget);
            if r.hit.None? then r.left == 0 else r.hit.value == q || LexBefore(r.hit.value, q)
    decreases |pb.amounts| - start, 1
  {
    if budget > 0 && !(depth >= pb.minSize && Abs(remaining) <= pb.tol) && depth != pb.maxSize {
      ScanBeats(pb, start, remaining, depth, budget - 1, q);
    }
  }

  lemma {:induction false} ScanBeats(pb: Problem, i: nat, remaining: int, depth: nat, budget: nat, q: seq<nat>)
    requires i <= |pb.amounts| && depth < pb.maxSize && Positive(pb.amounts)
    requires q != [] && Completes(pb, i, remaining, depth, q)
    ensures var r := Scan(pb, i, remaining, depth, budget);
            if r.hit.None? then r.left == 0 else r.hit.value == q || LexBefore(r.hit.value, q)
    decreases |pb.amounts| - i, 0
  {
    var tail := q[1..];
    assert forall k :: 0 <= k < |tail| ==> tail[k] == q[k + 1];
    TotalNonNegative(pb.amounts, tail);
    if pb.amounts[i] > remaining + pb.tol {
      // Positive amounts: nothing that starts with i can come back within tolerance.
      ScanBeats(pb, i + 1, remaining, depth, budget, q);
    } else {
      var r := Visit(pb, i + 1, remaining - pb.amounts[i], depth + 1, budget);
      VisitSound(pb, i + 1, remaining - pb.amounts[i], depth + 1, budget);
      if q[0] == i {
        VisitBeats(pb, i + 1, remaining - pb.amounts[i], depth + 1, budget, tail);
        assert q == [i] + tail;
        if r.hit.Some? {
          assert ([i] + r.hit.value)[1..] == r.hit.value;
        } else {
          ScanSound(pb, i + 1, remaining, depth, r.left);
        }
      } else if r.hit.None? {
        ScanBeats(pb, i + 1, remaining, depth, r.left, q);
      }
    }
  }

  // ---------------------------------------------------------------- node bound

  /** Nodes of the unpruned search tree with `n` candidates left and `k` picks left. */
  function Nodes(n: nat, k: nat): nat {
    if n == 0 || k == 0 then 1 else Nodes(n - 1, k) + Nodes(n - 1, k - 1)
  }

  function Choose(n: nat, k: nat): nat {
    if k == 0 then 1 else if n == 0 then 0 else Choose(n - 1, k - 1) + Choose(n - 1, k)
  }

  function ChooseUpTo(n: nat, k: nat): nat {
    if k == 0 then 1 else ChooseUpTo(n, k - 1) + Choose(n, k)
  }

  lemma {:induction false} NodesIsBinomialSum(n: nat, k: nat)
    ensures Nodes(n, k) == ChooseUpTo(n, k)
  {
    if k > 0 {
      if n == 0 {
        NodesIsBinomialSum(0, k - 1);
      } else {
        NodesIsBinomialSum(n - 1, k);
        NodesIsBinomialSum(n - 1, k - 1);
        PascalSum(n, k);
      }
    }
  }

  lemma {:induction false} PascalSum(n: nat, k: nat)
    requires n > 0 && k > 0
    ensures ChooseUpTo(n, k) == ChooseUpTo(n - 1, k) + ChooseUpTo(n - 1, k - 1)
  {
    assert Choose(n, k) == Choose(n - 1, k - 1) + Choose(n - 1, k);
    if k > 1 {
      PascalSum(n, k - 1);
    } else {
      assert Choose(n - 1, 0) == 1;
    }
  }

  lemma {:induction false} NodesMonotone(n: nat, n': nat, k: nat, k': nat)
    requires n <= n' && k <= k'
    ensures Nodes(n, k) <= Nodes(n', k')
    ensures 1 <= Nodes(n, k)
    decreases n' + k'
  {
    if n' > 0 && k' > 0 {
      if n == 0 || k == 0 {
        NodesMonotone(0, n' - 1, 0, k');
      } else {
        NodesMonotone(n - 1, n' - 1, k, k');
        NodesMonotone(n - 1, n' - 1, k - 1, k' - 1);
      }
    }
  }

  lemma {:induction false} VisitCost(pb: Problem, start: nat, remaining: int, depth: nat, budget: nat)
    requires start <= |pb.amounts| && depth <= pb.maxSize
    ensures budget <= Visit(pb, start, remaining, depth, budget).left + Nodes(|pb.amounts| - start, pb.maxSize - depth)
    decreases |pb.amounts| - start, 1
  {
    NodesMonotone(0, |pb.amounts| - start, 0, pb.maxSize - depth);
    if budget > 0 && !(depth >= pb.minSize && Abs(remaining) <= pb.tol) && depth != pb.maxSize {
      ScanCost(pb, start, remaining, depth, budget - 1);
    }
  }

  lemma {:induction false} ScanCost(pb: Problem, i: nat, remaining: int, depth: nat, budget: nat)
    requires i <= |pb.amounts| && depth < pb.maxSize
    ensures budget + 1 <= Scan(pb, i, remaining, depth, budget).left + Nodes(|pb.amounts| - i, pb.maxSize - depth)
    decreases |pb.amounts| - i, 0
  {
    if i < |pb.amounts| {
      NodesMonotone(0, |pb.amounts| - i - 1, 0, pb.maxSize - depth - 1);
      if pb.amounts[i] > remaining + pb.tol {
        ScanCost(pb, i + 1, remaining, depth, budget);
      } else {
        var r := Visit(pb, i + 1, remaining - pb.amounts[i], depth + 1, budget);
        VisitCost(pb, i + 1, remaining - pb.amounts[i], depth + 1, budget);
        NodesMonotone(0, |pb.amounts| - i - 1, 0, pb.maxSize - depth);
        if r.hit.None? { ScanCost(pb, i + 1, remaining, depth, r.left); }
      }
    }
  }

  lemma {:induction false} ChooseRatio(n: nat, k: nat)
    requires k > 0
    ensures k * Choose(n, k) == (n - k + 1) * Choose(n, k - 1)
  {
    if n == 0 {
      assert k == 1 || Choose(0, k - 1) == 0;
    } else if k == 1 {
      ChooseRatio(n - 1, 1);
      assert Choose(n - 1, 0) == Choose(n, 0) == 1;
    } else {
      ChooseRatio(n - 1, k);
      ChooseRatio(n - 1, k - 1);
      RatioStep(n, k, Choose(n - 1, k), Choose(n - 1, k - 1), Choose(n - 1, k - 2));
    }
  }

  lemma RatioStep(n: int, k: int, a: int, c: int, d: int)
    requires k * a == (n - k) * c && (k - 1) * c == (n - k + 1) * d
    ensures k * (c + a) == (n - k + 1) * (d + c)
  {
    assert k * (c + a) == k * c + (n - k) * c == n * c;
    assert (n - k + 1) * (d + c) == (k - 1) * c + (n - k + 1) * c == n * c;
  }

  /** n (n-1) ... (n-k+1) */
  function Falling(n: nat, k: nat): int {
    if k == 0 then 1 else Falling(n, k - 1) * (n - k + 1)
  }

  function Factorial(k: nat): nat {
    if k == 0 then 1 else k * Factorial(k - 1)
  }

  lemma {:induction false} ChooseClosedForm(n: nat, k: nat)
    ensures Factorial(k) * Choose(n, k) == Falling(n, k)
  {
    if k > 0 {
      ChooseClosedForm(n, k - 1);
      ChooseRatio(n, k);
      var f, c, d := Factorial(k - 1), Choose(n, k), Choose(n, k - 1);
      Rescale(k, f, c, d, n - k + 1);
    }
  }

  lemma Rescale(k: int, f: int, c: int, d: int, m: int)
    requires k * c == m * d
    ensures (k * f) * c == (f * d) * m
  {
    assert (k * f) * c == f * (k * c);
    assert f * (m * d) == (f * d) * m;
  }

  /** A closed form of the node count for subsets of up to six legs. */
  lemma SixNodes(n: nat)
    ensures 720 * Nodes(n, 6) ==
            720 + 720 * Falling(n, 1) + 360 * Falling(n, 2) + 120 * Falling(n, 3) +
            30 * Falling(n, 4) + 6 * Falling(n, 5) + Falling(n, 6)
  {
    NodesIsBinomialSum(n, 6);
    assert ChooseUpTo(n, 0) == 1;
    assert ChooseUpTo(n, 2) == 1 + Choose(n, 1) + Choose(n, 2);
    assert ChooseUpTo(n, 4) == ChooseUpTo(n, 2) + Choose(n, 3) + Choose(n, 4);
    assert Factorial(2) == 2 && Factorial(4) == 24 && Factorial(6) == 720;
    ChooseClosedForm(n, 1);
    ChooseClosedForm(n, 2);
    ChooseClosedForm(n, 3);
    ChooseClosedForm(n, 4);
    ChooseClosedForm(n, 5);
    ChooseClosedForm(n, 6);
  }

  lemma SixNodesOf24(n: nat, nodes: nat)
    requires n == 24
    requires 720 * nodes ==
             720 + 720 * Falling(n, 1) + 360 * Falling(n, 2) + 120 * Falling(n, 3) +
             30 * Falling(n, 4) + 6 * Falling(n, 5) + Falling(n, 6)
    ensures nodes == 190_051
  {
    assert Falling(n, 1) == 24;
    assert Falling(n, 2) == 552;
    assert Falling(n, 3) == 12_144;
    assert Falling(n, 4) == 255_024;
    assert Falling(n, 5) == 5_100_480;
    assert Falling(n, 6) == 96_909_120;
  }

  /** 24 candidates and subsets of up to 6 give 190,051 nodes, below the budget. */
  lemma DefaultNodeCount(n: nat, k: nat)
    requires n == 24 && k == 6
    ensures Nodes(n, k) == 190_051 < NODE_BUDGET == 200_000
  {
    SixNodes(n);
    SixNodesOf24(n, Nodes(n, k));
  }

  lemma SearchFitsAt24And6(rules: Rules)
    requires rules.Valid() && rules.t3MaxCandidates == 24 && rules.t3MaxSubset == 6
    ensures SearchFits(rules)
  {
    DefaultNodeCount(rules.t3MaxCandidates, rules.t3MaxSubset);
  }

  lemma DefaultSearchFits()
    ensures SearchFits(DEFAULT_RULES) && DEFAULT_RULES == Rules(10, 2, 2, 24, 6, true)
  {
    SearchFitsAt24And6(DEFAULT_RULES);
  }

  /** The search fits the budget for every pool these rules can produce. */
  ghost predicate SearchFits(rules: Rules) {
    rules.Valid() && Nodes(rules.t3MaxCandidates, rules.t3MaxSubset) < NODE_BUDGET
  }

  /** The search as a whole: a hit is the least solution; a miss with budget left proves there is none. */
  lemma SearchCorrect(pb: Problem, target: int, budget: nat)
    requires pb.maxSize >= 0 && Positive(pb.amounts)
    ensures var r := Visit(pb, 0, target, 0, budget);
            && (r.hit.Some? ==>
                  && Solves(pb, target, r.hit.value)
                  && forall q :: Solves(pb, target, q) ==> q == r.hit.value || LexBefore(r.hit.value, q))
            && (r.hit.None? && r.left > 0 ==> forall q :: !Solves(pb, target, q))
            && (Nodes(|pb.amounts|, pb.maxSize) < budget ==> r.left > 0)
  {
    VisitSound(pb, 0, target, 0, budget);
    VisitCost(pb, 0, target, 0, budget);
    forall q | Solves(pb, target, q)
      ensures var r := Visit(pb, 0, target, 0, budget);
              if r.hit.None? then r.left == 0 else r.hit.value == q || LexBefore(r.hit.value, q)
    {
      VisitBeats(pb, 0, target, 0, budget, q);
    }
  }

  // ---------------------------------------------------------------- on legs

  predicate Larger(a: Leg, b: Leg) { a.amount > b.amount }

  function Amounts(s: seq<Leg>): seq<int> {
    seq(|s|, i requires 0 <= i < |s| => s[i].amount)
  }

  function SumAmounts(s: seq<Leg>): int {
    if s == [] then 0 else s[0].amount + SumAmounts(s[1..])
  }

  function Picked(s: seq<Leg>, q: seq<nat>): seq<Leg>
    requires forall k :: 0 <= k < |q| ==> q[k] < |s|
  {
    if q == [] then [] else [s[q[0]]] + Picked(s, q[1..])
  }

  /** The pool in search order: amount descending, ties in pool order. */
  function SearchOrder(pool: seq<Leg>): seq<Leg> {
    Sort(pool, Larger)
  }

  function ProblemOf(pool: seq<Leg>, tol: int, minSize: int, maxSize: int): Problem {
    Problem(Amounts(SearchOrder(pool)), tol, minSize, maxSize)
  }

  /** The subset the search picks from `pool`, if any. */
  function FindSubset(pool: seq<Leg>, target: int, tol: int, minSize: int, maxSize: int): Option<seq<Leg>> {
    if maxSize <= 0 || pool == [] then None
    else
      var pb := ProblemOf(pool, tol, minSize, maxSize);
      var r := Visit(pb, 0, target, 0, NODE_BUDGET);
      VisitSound(pb, 0, target, 0, NODE_BUDGET);
      if r.hit.Some? then Some(Picked(SearchOrder(pool), r.hit.value)) else None
  }

  lemma {:induction false} PickedFacts(s: seq<Leg>, q: seq<nat>, start: nat)
    requires Ascending(q, start, |s|)
    requires forall k :: 0 <= k < |q| ==> q[k] < |s|
    ensures |Picked(s, q)| == |q|
    ensures forall k :: 0 <= k < |q| ==> Picked(s, q)[k] == s[q[k]]
    ensures SumAmounts(Picked(s, q)) == Total(Amounts(s), q)
  {
    if q != [] {
      PickedFacts(s, q[1..], q[0] + 1);
      assert Picked(s, q)[1..] == Picked(s, q[1..]);
    }
  }

  ghost predicate AllPositive(pool: seq<Leg>) {
    forall x :: x in pool ==> x.amount > 0
  }

  /** A found subset is made of distinct pool members, of allowed size, on target within tolerance. */
  lemma FindSubsetSound(pool: seq<Leg>, target: int, tol: int, minSize: int, maxSize: int)
    requires NoDup(pool)
    requires FindSubset(pool, target, tol, minSize, maxSize).Some?
    ensures var sub := FindSubset(pool, target, tol, minSize, maxSize).value;
            && NoDup(sub)
            && (forall x :: x in sub ==> x in pool)
            && minSize <= |sub| <= maxSize
            && Abs(SumAmounts(sub) - target) <= tol
  {
    hide Visit, Sort, Picked;
    var pb := ProblemOf(pool, tol, minSize, maxSize);
    var sorted := SearchOrder(pool);
    var q := Visit(pb, 0, target, 0, NODE_BUDGET).hit.value;
    VisitSound(pb, 0, target, 0, NODE_BUDGET);
    AscendingBounds(q, 0, |sorted|);
    PickedFacts(sorted, q, 0);
    SortPermutes(pool, Larger);
    NoDupMultiset(pool);
    MultisetNoDup(sorted, SetOf(pool));
  }

  /** The found subset is the first solution of the search preorder, whatever the budget did. */
  lemma FindSubsetFirst(pool: seq<Leg>, target: int, tol: int, minSize: int, maxSize: int) returns (q: seq<nat>)
    requires AllPositive(pool)
    requires FindSubset(pool, target, tol, minSize, maxSize).Some?
    ensures var pb := ProblemOf(pool, tol, minSize, maxSize);
            && Solves(pb, target, q)
            && FindSubset(pool, target, tol, minSize, maxSize).value == Picked(SearchOrder(pool), q)
            && forall q' :: Solves(pb, target, q') ==> q' == q || LexBefore(q, q')
  {
    var pb := ProblemOf(pool, tol, minSize, maxSize);
    SortPermutes(pool, Larger);
    assert forall k :: 0 <= k < |pb.amounts| ==> pb.amounts[k] == SearchOrder(pool)[k].amount;
    SearchCorrect(pb, target, NODE_BUDGET);
    q := Visit(pb, 0, target, 0, NODE_BUDGET).hit.value;
  }

  // ---------------------------------------------------------------- which subset, in terms of the pool alone

  /** `x` is tried before `y`: it is larger, or as large and earlier in the pool. */
  ghost predicate TriedBefore(pool: seq<Leg>, x: Leg, y: Leg) {
    || x.amount > y.amount
    || (x.amount == y.amount && exists i, j :: 0 <= i < j < |pool| && pool[i] == x && pool[j] == y)
  }

  /** Legs listed as they are tried. */
  ghost predicate Ranked(pool: seq<Leg>, s: seq<Leg>) {
    forall i, j :: 0 <= i < j < |s| ==> TriedBefore(pool, s[i], s[j])
  }

  lemma TriedOnce(pool: seq<Leg>, x: Leg, y: Leg)
    requires NoDup(pool) && TriedBefore(pool, x, y)
    ensures !TriedBefore(pool, y, x) && x != y
  {
  }

  lemma {:induction false} InsertRanked(pool: seq<Leg>, x: Leg, s: seq<Leg>)
    requires pool != [] && pool[0] == x && Ranked(pool, s) && forall y :: y in s ==> y in pool[1..]
    ensures Ranked(pool, Insert(x, s, Larger))
  {
    InsertPermutes(x, s, Larger);
    if s != [] && Larger(s[0], x) {
      var r := Insert(x, s[1..], Larger);
      InsertRanked(pool, x, s[1..]);
      InsertPermutes(x, s[1..], Larger);
      forall j | 0 <= j < |r| ensures TriedBefore(pool, s[0], r[j]) {
        assert r[j] in multiset(r);
        if r[j] != x {
          var k :| 0 <= k < |s[1..]| && s[1..][k] == r[j];
          assert s[k + 1] == r[j];
        }
      }
    } else {
      forall j | 0 <= j < |s| ensures TriedBefore(pool, x, s[j]) {
        assert s[j] in s;
        var k :| 0 <= k < |pool[1..]| && pool[1..][k] == s[j];
        assert pool[k + 1] == s[j];
        assert j == 0 || TriedBefore(pool, s[0], s[j]);
      }
    }
  }

  lemma RankedInLonger(x: Leg, pool: seq<Leg>, s: seq<Leg>)
    requires Ranked(pool, s)
    ensures Ranked([x] + pool, s)
  {
    var longer := [x] + pool;
    forall i, j | 0 <= i < j < |s| ensures TriedBefore(longer, s[i], s[j]) {
      assert TriedBefore(pool, s[i], s[j]);
      if s[i].amount == s[j].amount {
        var a, b :| 0 <= a < b < |pool| && pool[a] == s[i] && pool[b] == s[j];
        assert longer[a + 1] == s[i] && longer[b + 1] == s[j];
      }
    }
  }

  /** The search order lists the pool by descending amount, ties in pool order. */
  lemma {:induction false} SearchOrderRanked(pool: seq<Leg>)
    ensures Ranked(pool, SearchOrder(pool))
  {
    hide Insert;
    if pool != [] {
      var rest := pool[1..];
      SearchOrderRanked(rest);
      RankedInLonger(pool[0], rest, SearchOrder(rest));
      assert [pool[0]] + rest == pool;
      SortPermutes(rest, Larger);
      InsertRanked(pool, pool[0], SearchOrder(rest));
    }
  }

  lemma {:induction false} RankedPositions(pool: seq<Leg>, sorted: seq<Leg>, alt: seq<Leg>, start: nat)
      returns (q: seq<nat>)
    requires NoDup(pool) && Ranked(pool, sorted) && Ranked(pool, alt) && start <= |sorted|
    requires forall x :: x in alt ==> x in sorted[start..]
    ensures Ascending(q, start, |sorted|) && forall k :: 0 <= k < |q| ==> q[k] < |sorted|
    ensures Picked(sorted, q) == alt
  {
    hide TriedBefore;
    q := [];
    if alt != [] {
      assert alt[0] in alt;
      var d :| 0 <= d < |sorted[start..]| && sorted[start..][d] == alt[0];
      var i := start + d;
      forall x | x in alt[1..] ensures x in sorted[i + 1..] {
        var k :| 0 <= k < |alt[1..]| && alt[1..][k] == x;
        assert alt[k + 1] == x && x in alt;
        TriedOnce(pool, alt[0], x);
        var m :| 0 <= m < |sorted| && sorted[m] == x;
        assert i < m;
        assert sorted[i + 1..][m - i - 1] == x;
      }
      assert forall a, b :: 0 <= a < b < |alt[1..]| ==> alt[1..][a] == alt[a + 1] && alt[1..][b] == alt[b + 1];
      var rest := RankedPositions(pool, sorted, alt[1..], i + 1);
      q := [i] + rest;
      assert q[1..] == rest;
    }
  }

  /** The first place where two answers part: one ends there, or one has the leg that is tried earlier. */
  ghost predicate Earlier(pool: seq<Leg>, a: seq<Leg>, b: seq<Leg>) {
    || a <= b
    || exists k :: 0 <= k < |a| && k < |b| && a[..k] == b[..k] && TriedBefore(pool, a[k], b[k])
  }

  lemma {:induction false} LexTells(pool: seq<Leg>, sorted: seq<Leg>, p: seq<nat>, q: seq<nat>)
    requires Ranked(pool, sorted) && LexBefore(p, q)
    requires (forall k :: 0 <= k < |p| ==> p[k] < |sorted|) && forall k :: 0 <= k < |q| ==> q[k] < |sorted|
    ensures Earlier(pool, Picked(sorted, p), Picked(sorted, q))
  {
    hide TriedBefore;
    var a, b := Picked(sorted, p), Picked(sorted, q);
    if p != [] && p[0] == q[0] {
      LexTells(pool, sorted, p[1..], q[1..]);
      var a', b' := Picked(sorted, p[1..]), Picked(sorted, q[1..]);
      assert a == [sorted[p[0]]] + a' && b == [sorted[p[0]]] + b';
      if !(a' <= b') {
        var k :| 0 <= k < |a'| && k < |b'| && a'[..k] == b'[..k] && TriedBefore(pool, a'[k], b'[k]);
        assert a[..k + 1] == [sorted[p[0]]] + a'[..k] && b[..k + 1] == [sorted[p[0]]] + b'[..k];
        assert TriedBefore(pool, a[k + 1], b[k + 1]);
      }
    } else if p != [] {
      assert a[..0] == b[..0] && TriedBefore(pool, a[0], b[0]);
    }
  }

  /** The found legs come by descending amount, ties in pool order. */
  lemma FindSubsetDescends(pool: seq<Leg>, target: int, tol: int, minSize: int, maxSize: int)
    requires NoDup(pool) && FindSubset(pool, target, tol, minSize, maxSize).Some?
    ensures var sub := FindSubset(pool, target, tol, minSize, maxSize).value;
            && Ranked(pool, sub)
            && forall i, j :: 0 <= i < j < |sub| ==> sub[i].amount >= sub[j].amount
  {
    hide Visit, TriedBefore, Picked, SearchOrder, NODE_BUDGET;
    var pb := ProblemOf(pool, tol, minSize, maxSize);
    var sorted := SearchOrder(pool);
    var q := Visit(pb, 0, target, 0, NODE_BUDGET).hit.value;
    VisitSound(pb, 0, target, 0, NODE_BUDGET);
    SearchOrderRanked(pool);
    AscendingBounds(q, 0, |sorted|);
    PickedFacts(sorted, q, 0);
    AscendingSteps(q, 0, |sorted|);
    var sub := Picked(sorted, q);
    forall i, j | 0 <= i < j < |sub| ensures TriedBefore(pool, sub[i], sub[j]) && sub[i].amount >= sub[j].amount {
      TriedLarger(pool, sub[i], sub[j]);
    }
  }

  lemma TriedLarger(pool: seq<Leg>, x: Leg, y: Leg)
    ensures TriedBefore(pool, x, y) ==> x.amount >= y.amount
  {
  }

  lemma {:induction false} AscendingSteps(q: seq<nat>, start: nat, end: nat)
    requires Ascending(q, start, end)
    ensures forall i, j :: 0 <= i < j < |q| ==> q[i] < q[j]
  {
    if q != [] {
      AscendingSteps(q[1..], q[0] + 1, end);
      AscendingBounds(q[1..], q[0] + 1, end);
      forall i, j | 0 <= i < j < |q| ensures q[i] < q[j] {
        assert q[j] == q[1..][j - 1];
        if i > 0 { assert q[i] == q[1..][i - 1]; }
      }
    }
  }

  /** Any qualifying legs of the pool are a solution of the search problem. */
  lemma RankedSolves(pool: seq<Leg>, target: int, tol: int, minSize: int, maxSize: int, alt: seq<Leg>)
      returns (q: seq<nat>)
    requires NoDup(pool) && Ranked(pool, alt) && forall x :: x in alt ==> x in pool
    requires minSize <= |alt| <= maxSize && Abs(SumAmounts(alt) - target) <= tol
    ensures Solves(ProblemOf(pool, tol, minSize, maxSize), target, q)
    ensures (forall k :: 0 <= k < |q| ==> q[k] < |SearchOrder(pool)|) && Picked(SearchOrder(pool), q) == alt
  {
    hide Ranked, Picked, SearchOrder, Total, NoDup;
    var sorted := SearchOrder(pool);
    SearchOrderRanked(pool);
    OrderMembers(pool);
    assert sorted[0..] == sorted;
    q := RankedPositions(pool, sorted, alt, 0);
    PickedFacts(sorted, q, 0);
    assert |Amounts(sorted)| == |sorted|;
  }

  lemma SolvesWithin(pool: seq<Leg>, target: int, tol: int, minSize: int, maxSize: int, q: seq<nat>)
    requires Solves(ProblemOf(pool, tol, minSize, maxSize), target, q)
    ensures forall k :: 0 <= k < |q| ==> q[k] < |SearchOrder(pool)|
  {
    hide SearchOrder, Ascending, Total;
    assert |Amounts(SearchOrder(pool))| == |SearchOrder(pool)|;
  }

  /** Against any other qualifying legs of the pool the found ones come first in the order of trying. */
  lemma FindSubsetGreedy(pool: seq<Leg>, target: int, tol: int, minSize: int, maxSize: int, alt: seq<Leg>)
    requires NoDup(pool) && AllPositive(pool) && FindSubset(pool, target, tol, minSize, maxSize).Some?
    requires Ranked(pool, alt) && forall x :: x in alt ==> x in pool
    requires minSize <= |alt| <= maxSize && Abs(SumAmounts(alt) - target) <= tol
    ensures Earlier(pool, FindSubset(pool, target, tol, minSize, maxSize).value, alt)
  {
    hide Ranked, Picked, SearchOrder, FindSubset, LexBefore, Earlier, Solves, ProblemOf, NoDup, AllPositive;
    var q := FindSubsetFirst(pool, target, tol, minSize, maxSize);
    var q' := RankedSolves(pool, target, tol, minSize, maxSize, alt);
    SolvesWithin(pool, target, tol, minSize, maxSize, q);
    SearchOrderRanked(pool);
    if q' == q { EarlierSelf(pool, alt); } else { LexTells(pool, SearchOrder(pool), q, q'); }
  }

  lemma OrderMembers(pool: seq<Leg>)
    ensures forall x :: x in SearchOrder(pool) <==> x in pool
  {
    SortPermutes(pool, Larger);
  }

  lemma EarlierSelf(pool: seq<Leg>, a: seq<Leg>)
    ensures Earlier(pool, a, a)
  {
  }

  ghost function SetSum(t: set<Leg>): int {
    if t == {} then 0 else
      var x :| x in t;
      x.amount + SetSum(t - {x})
  }

  lemma {:induction false} SetSumRemove(t: set<Leg>, x: Leg)
    requires x in t
    ensures SetSum(t) == x.amount + SetSum(t - {x})
  {
    var y :| y in t && SetSum(t) == y.amount + SetSum(t - {y});
    if y != x {
      SetSumRemove(t - {y}, x);
      SetSumRemove(t - {x}, y);
      assert t - {y} - {x} == t - {x} - {y};
    }
  }

  /** The ascending positions of the members of `t` in `s`, from `start` on. */
  ghost function Positions(s: seq<Leg>, t: set<Leg>, start: nat): seq<nat>
    requires start <= |s|
    decreases |s| - start
  {
    if start == |s| then []
    else if s[start] in t then [start] + Positions(s, t, start + 1)
    else Positions(s, t, start + 1)
  }

  lemma {:induction false} PositionsAscend(s: seq<Leg>, t: set<Leg>, start: nat)
    requires start <= |s|
    ensures var q := Positions(s, t, start);
            Ascending(q, start, |s|) && forall k :: 0 <= k < |q| ==> q[k] < |s|
    decreases |s| - start
  {
    if start < |s| {
      PositionsAscend(s, t, start + 1);
      var q := Positions(s, t, start + 1);
      AscendingWeaken(q, start + 1, start, |s|);
      assert ([start] + q)[1..] == q;
    }
  }

  lemma PositionsOfRest(s: seq<Leg>, t: set<Leg>, start: nat)
    requires start < |s| && NoDup(s)
    ensures Positions(s, t, start + 1) == Positions(s, t - {s[start]}, start + 1)
  {
    SamePositions(s, t, t - {s[start]}, start + 1);
  }

  lemma TailHolds(s: seq<Leg>, t: set<Leg>, start: nat)
    requires start < |s| && t <= SetOf(s[start..])
    ensures t - {s[start]} <= SetOf(s[start + 1..])
  {
    forall x | x in t - {s[start]} ensures x in SetOf(s[start + 1..]) {
      assert x in s[start..];
    }
  }

  lemma {:induction false} PositionsTotal(s: seq<Leg>, t: set<Leg>, start: nat)
    requires start <= |s| && NoDup(s) && t <= SetOf(s[start..])
    requires forall k :: 0 <= k < |Positions(s, t, start)| ==> Positions(s, t, start)[k] < |s|
    ensures |Positions(s, t, start)| == |t|
    ensures Total(Amounts(s), Positions(s, t, start)) == SetSum(t)
    decreases |s| - start
  {
    hide NoDup;
    if start == |s| {
      assert t == {};
    } else {
      var rest := t - {s[start]};
      TailHolds(s, t, start);
      PositionsAscend(s, rest, start + 1);
      PositionsTotal(s, rest, start + 1);
      PositionsOfRest(s, t, start);
      var q := Positions(s, rest, start + 1);
      if s[start] in t {
        SetSumRemove(t, s[start]);
        assert ([start] + q)[1..] == q;
      } else {
        assert rest == t;
      }
    }
  }

  lemma {:induction false} SamePositions(s: seq<Leg>, t: set<Leg>, u: set<Leg>, start: nat)
    requires start <= |s|
    requires forall i :: start <= i < |s| ==> (s[i] in t <==> s[i] in u)
    ensures Positions(s, t, start) == Positions(s, u, start)
    decreases |s| - start
  {
    if start < |s| { SamePositions(s, t, u, start + 1); }
  }

  lemma AscendingWeaken(q: seq<nat>, start: nat, lower: nat, end: nat)
    requires Ascending(q, start, end) && lower <= start
    ensures Ascending(q, lower, end)
  {
  }

  /** When the budget covers the tree, every qualifying subset of the pool forces a find. */
  lemma FindSubsetComplete(pool: seq<Leg>, target: int, tol: int, minSize: int, maxSize: int, t: set<Leg>)
    requires NoDup(pool) && AllPositive(pool) && maxSize > 0 && pool != []
    requires Nodes(|pool|, maxSize) < NODE_BUDGET
    requires t <= SetOf(pool) && minSize <= |t| <= maxSize && Abs(SetSum(t) - target) <= tol
    ensures FindSubset(pool, target, tol, minSize, maxSize).Some?
  {
    var pb := ProblemOf(pool, tol, minSize, maxSize);
    var sorted := SearchOrder(pool);
    SortPermutes(pool, Larger);
    NoDupMultiset(pool);
    MultisetNoDup(sorted, SetOf(pool));
    assert sorted[0..] == sorted;
    forall x | x in t ensures x in sorted { assert x in pool; }
    PositionsAscend(sorted, t, 0);
    PositionsTotal(sorted, t, 0);
    var q := Positions(sorted, t, 0);
    assert Solves(pb, target, q);
    assert forall k :: 0 <= k < |pb.amounts| ==> pb.amounts[k] == sorted[k].amount;
    SearchCorrect(pb, target, NODE_BUDGET);
  }

  // ------------------------------------------------------- the imperative search

  /** The recursive search with its mutable path and budget. */
  class Search {
    const sorted: seq<Leg>
    const pb: Problem
    var out: seq<Leg>
    var budget: nat

    constructor (pool: seq<Leg>, tol: int, minSize: int, maxSize: int)
      ensures sorted == SearchOrder(pool) && pb == ProblemOf(pool, tol, minSize, maxSize)
      ensures out == [] && budget == NODE_BUDGET
    {
      sorted := SearchOrder(pool);
      pb := ProblemOf(pool, tol, minSize, maxSize);
      out := [];
      budget := NODE_BUDGET;
    }

    /** One node: `out` grows by exactly the path `Visit` reports, and is restored on failure. */
    method Dfs(start: nat, remaining: int, depth: nat) returns (ok: bool)
      requires pb.amounts == Amounts(sorted) && start <= |sorted| && depth <= pb.maxSize
      modifies this
      ensures var r := old(Visit(pb, start, remaining, depth, budget));
              && ok == r.hit.Some?
              && budget == r.left
              && (r.hit.None? ==> out == old(out))
              && (r.hit.Some? ==>
                    && (forall k :: 0 <= k < |r.hit.value| ==> r.hit.value[k] < |sorted|)
                    && out == old(out) + Picked(sorted, r.hit.value))
      decreases |sorted| - start
    {
      if budget == 0 { return false; }
      budget := budget - 1;
      if depth >= pb.minSize && Abs(remaining) <= pb.tol { return true; }
      if depth == pb.maxSize { return false; }
      ghost var goal := Scan(pb, start, remaining, depth, budget);
      ghost var path := out;
      var i := start;
      while i < |sorted|
        invariant start <= i <= |sorted|
        invariant out == path
        invariant Scan(pb, i, remaining, depth, budget) == goal
      {
        var a := sorted[i].amount;
        if a <= remaining + pb.tol {
          out := out + [sorted[i]];
          ghost var r := Visit(pb, i + 1, remaining - a, depth + 1, budget);
          var hit := Dfs(i + 1, remaining - a, depth + 1);
          if hit {
            assert goal.hit == Some([i] + r.hit.value);
            assert ([i] + r.hit.value)[1..] == r.hit.value;
            return true;
          }
          out := out[..|out| - 1];
        }
        i := i + 1;
      }
      return false;
    }
  }

  method RunSubsetSum(pool: seq<Leg>, target: int, tol: int, minSize: int, maxSize: int) returns (r: Option<seq<Leg>>)
    ensures r == FindSubset(pool, target, tol, minSize, maxSize)
  {
    if maxSize <= 0 || |pool| == 0 { return None; }
    var search := new Search(pool, tol, minSize, maxSize);
    var ok := search.Dfs(0, target, 0);
    if ok {
      ghost var q := Visit(search.pb, 0, target, 0, NODE_BUDGET).hit.value;
      assert search.out == [] + Picked(search.sorted, q) == Picked(search.sorted, q);
      return Some(search.out);
    }
    return None;
  }
}
