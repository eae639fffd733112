/**
 When the many-to-one tier fires and which match it then finds, stated on sets of open legs: an
 exact condition with no reference to the search or its pools, caps included.
 */
module SubsetTier {
  import opened Sequences
  import opened Ordering
  import opened Domain
  import opened SubsetSum
  import M = Matching
  import F = MatchingFacts
  import N = NoMissedSettlement
  import Q = OpenLegs

  /** The open legs of source `src` that settlement leg `l` may be the sum of. */
  ghost function Parts(rules: Rules, l: Leg, open: set<Leg>, src: string): set<Leg> {
    set c | c in open && c.source == src && src != l.source && F.SameWindow(rules, c, l) && F.Hinted(rules, l, c)
  }

  /** `s` is an open settlement leg that `l` could be a strict part of. */
  ghost predicate Larger(rules: Rules, l: Leg, open: set<Leg>, s: Leg) {
    F.Settlement(rules, l, s, open) && s.amount > l.amount && F.Near(rules, s, l)
  }

  /** The open siblings of `l` that are smaller than settlement leg `s` and near it. */
  ghost function Siblings(rules: Rules, l: Leg, open: set<Leg>, s: Leg): set<Leg> {
    set c | c in open && F.SiblingNear(rules, l, s, c, open) && c.amount < s.amount
  }

  /** The legs of the pool that fewer than `n` others come before in canonical order. */
  ghost function Reached(pool: set<Leg>, n: int): set<Leg> {
    set c | c in pool && |Ahead(pool, c)| < n
  }

  ghost function Ahead(pool: set<Leg>, c: Leg): set<Leg> { set d | d in pool && Q.Before(d, c) }

  /** Legs of one other source, linked to `l`, near it and within the candidate cap, sum to `l`. */
  ghost predicate SumsTo(rules: Rules, l: Leg, open: set<Leg>, src: string, many: set<Leg>) {
    && many <= Reached(Parts(rules, l, open, src), rules.t3MaxCandidates)
    && 2 <= |many| <= rules.t3MaxSubset
    && Abs(SetSum(many) - l.amount) <= rules.Tolerance(l.amount)
  }

  /** Siblings of `l` within the candidate cap make up what `l` leaves of `s`. */
  ghost predicate Completes(rules: Rules, l: Leg, open: set<Leg>, s: Leg, rest: set<Leg>) {
    && Larger(rules, l, open, s)
    && rest <= Reached(Siblings(rules, l, open, s), rules.t3MaxCandidates)
    && 1 <= |rest| <= rules.t3MaxSubset - 1
    && Abs(SetSum(rest) - (s.amount - l.amount)) <= rules.Tolerance(s.amount)
  }

  ghost predicate AnySum(rules: Rules, l: Leg, open: set<Leg>) {
    exists src, many :: SumsTo(rules, l, open, src, many)
  }

  ghost predicate AnyCompletion(rules: Rules, l: Leg, open: set<Leg>) {
    exists s, rest :: Completes(rules, l, open, s, rest)
  }

  // ---------------------------------------------------------------- preference among subsets

  /** Larger legs are preferred, among equal amounts those that come first in canonical order. */
  predicate Prefer(x: Leg, y: Leg) { x.amount > y.amount || (x.amount == y.amount && Q.Before(x, y)) }

  ghost predicate InOrder(q: seq<Leg>) { forall i, j :: 0 <= i < j < |q| ==> Prefer(q[i], q[j]) }

  /** Legs of the pool, listed by preference, of allowed number and sum. */
  ghost predicate Qualifies(pool: set<Leg>, target: int, tol: int, minSize: int, maxSize: int, q: seq<Leg>) {
    && InOrder(q) && SetOf(q) <= pool && minSize <= |q| <= maxSize && Abs(SumAmounts(q) - target) <= tol
  }

  /** Where the listings part, the first one ends or has the preferred leg. */
  ghost predicate Wins(a: seq<Leg>, b: seq<Leg>) {
    || a <= b
    || exists k :: 0 <= k < |a| && k < |b| && a[..k] == b[..k] && Prefer(a[k], b[k])
  }

  /** The qualifying listing that wins against every other one. */
  ghost predicate Chosen(pool: set<Leg>, target: int, tol: int, minSize: int, maxSize: int, q: seq<Leg>) {
    && Qualifies(pool, target, tol, minSize, maxSize, q)
    && forall alt :: Qualifies(pool, target, tol, minSize, maxSize, alt) ==> Wins(q, alt)
  }

  // ---------------------------------------------------------------- canonical listings and the cap

  /** A listing in canonical order, each leg once, ids distinct. */
  ghost predicate Listed(q: seq<Leg>) {
    NoDup(q) && Sorted(q, Q.Before) && Q.DistinctIds(SetOf(q))
  }

  lemma ListedSteps(q: seq<Leg>, i: nat, j: nat)
    requires Listed(q) && i < |q| && j < |q|
    ensures Q.Before(q[i], q[j]) <==> i < j
  {
    hide Q.Before;
    Q.BeforeTotal(q);
    Q.BeforeWeakOrder();
    assert q[i] in q && q[j] in q;
    if i < j {
      assert q[i] != q[j] && !Q.Before(q[j], q[i]);
    } else if j < i {
      assert !Q.Before(q[i], q[j]);
    }
  }

  lemma AheadIsPrefix(q: seq<Leg>, i: nat)
    requires Listed(q) && i < |q|
    ensures Ahead(SetOf(q), q[i]) == SetOf(q[..i]) && |SetOf(q[..i])| == i
  {
    hide Q.Before;
    forall d | d in Ahead(SetOf(q), q[i]) ensures d in SetOf(q[..i]) {
      var j :| 0 <= j < |q| && q[j] == d;
      ListedSteps(q, j, i);
      assert q[..i][j] == d;
    }
    forall d | d in SetOf(q[..i]) ensures d in Ahead(SetOf(q), q[i]) {
      var j :| 0 <= j < i && q[..i][j] == d;
      ListedSteps(q, j, i);
      assert q[j] in q;
    }
    NoDupMultiset(q[..i]);
  }

  /** Capping a canonical listing keeps the legs that are reached. */
  lemma CapReaches(q: seq<Leg>, n: nat)
    requires Listed(q)
    ensures Listed(M.Cap(q, n)) && SetOf(M.Cap(q, n)) == Reached(SetOf(q), n) && |M.Cap(q, n)| <= n
  {
    hide Q.Before, Ahead;
    var r := M.Cap(q, n);
    forall i | 0 <= i < |q| ensures q[i] in Reached(SetOf(q), n) <==> i < n {
      AheadIsPrefix(q, i);
      assert q[i] in q;
    }
    forall c | c in Reached(SetOf(q), n) ensures c in SetOf(r) {
      var i :| 0 <= i < |q| && q[i] == c;
      assert r[i] == c;
    }
    forall c | c in SetOf(r) ensures c in Reached(SetOf(q), n) {
      var i :| 0 <= i < |r| && r[i] == c;
      assert q[i] == c;
    }
  }

  lemma FilterListed(q: seq<Leg>, p: Leg -> bool)
    requires Listed(q)
    ensures Listed(Filter(q, p)) && forall c :: c in Filter(q, p) <==> c in q && p(c)
  {
    hide Q.Before, Filter;
    F.FilterSorted(q, p);
    FilterNoDup(q, p);
    FilterMembers(q, p);
  }

  lemma ListingListed(legs: set<Leg>, open: set<Leg>)
    requires legs <= open && Q.DistinctIds(open)
    ensures Listed(Q.Listing(legs)) && SetOf(Q.Listing(legs)) == legs
  {
    hide Q.Before, Q.Listing;
    Q.ListingFacts(legs);
    assert SetOf(Q.Listing(legs)) == legs;
  }

  lemma ScanListed(rules: Rules, l: Leg, open: set<Leg>)
    requires F.Arrives(l, open)
    ensures Listed(M.Scan(rules, l, open))
  {
    ListingListed((set c | c in open && c.Key() == l.Key() && c.source != l.source), open);
    FilterListed(Q.Candidates(open, l), M.Near(rules, l));
  }

  lemma BatchListed(l: Leg, open: set<Leg>, batch: string)
    requires F.Arrives(l, open)
    ensures Listed(Q.ByBatch(open, l, batch))
  {
    ListingListed((set c | c in open && batch != "" && c.Batch() == batch && c.id != l.id && c.Key() == l.Key()), open);
  }

  /** What orientation (a) searches for one source: the reached parts. */
  lemma PartsSearched(rules: Rules, l: Leg, open: set<Leg>, src: string)
    requires F.Arrives(l, open) && rules.Valid()
    ensures var q := M.SourcePool(rules, M.OnePool(rules, l, open), src);
            && Listed(q) && |q| <= rules.t3MaxCandidates
            && SetOf(q) == Reached(Parts(rules, l, open, src), rules.t3MaxCandidates)
  {
    hide Filter, Q.Listing, M.Cap, Reached;
    var pool := M.OnePool(rules, l, open);
    F.OnePoolMembers(rules, l, open);
    if rules.t3RequireBatchHint {
      var q := Q.ByBatch(open, l, l.SettlementKey());
      BatchListed(l, open, l.SettlementKey());
      FilterListed(q, M.NotOfSource(l.source));
      FilterListed(Filter(q, M.NotOfSource(l.source)), M.Near(rules, l));
    } else {
      ScanListed(rules, l, open);
    }
    var q := Filter(pool, M.OfSource(src));
    FilterListed(pool, M.OfSource(src));
    assert SetOf(q) == Parts(rules, l, open, src);
    CapReaches(q, rules.t3MaxCandidates);
  }

  /** What orientation (b) searches for one settlement leg: the reached siblings. */
  lemma SiblingsSearched(rules: Rules, l: Leg, open: set<Leg>, s: Leg)
    requires F.Arrives(l, open) && rules.Valid() && (rules.t3RequireBatchHint ==> l.Batch() != "")
    ensures var q := M.PartPool(rules, M.Siblings(rules, l, open), s);
            && Listed(q) && |q| <= rules.t3MaxCandidates
            && SetOf(q) == Reached(Siblings(rules, l, open, s), rules.t3MaxCandidates)
  {
    hide Filter, Q.Listing, M.Cap, Reached;
    var same := M.Siblings(rules, l, open);
    F.SiblingsMembers(rules, l, open);
    if rules.t3RequireBatchHint {
      BatchListed(l, open, l.Batch());
      FilterListed(Q.ByBatch(open, l, l.Batch()), M.OfSource(l.source));
    } else {
      ListingListed((set c | c in open && c.Key() == l.Key() && c.source == l.source && c.id != l.id), open);
    }
    var q := Filter(same, M.PartOf(rules, s));
    FilterListed(same, M.PartOf(rules, s));
    assert SetOf(q) == Siblings(rules, l, open, s);
    CapReaches(q, rules.t3MaxCandidates);
  }

  // ---------------------------------------------------------------- one search

  lemma TriedIsPreferred(q: seq<Leg>, x: Leg, y: Leg)
    requires Listed(q) && x in q && y in q
    ensures TriedBefore(q, x, y) <==> Prefer(x, y)
  {
    hide Q.Before;
    var i :| 0 <= i < |q| && q[i] == x;
    var j :| 0 <= j < |q| && q[j] == y;
    ListedSteps(q, i, j);
    if TriedBefore(q, x, y) && x.amount == y.amount {
      var a, b :| 0 <= a < b < |q| && q[a] == x && q[b] == y;
      ListedSteps(q, a, b);
    }
  }

  lemma RankedIsInOrder(q: seq<Leg>, s: seq<Leg>)
    requires Listed(q) && SetOf(s) <= SetOf(q)
    ensures Ranked(q, s) <==> InOrder(s)
  {
    hide Prefer, TriedBefore, Listed;
    forall i, j | 0 <= i < j < |s| ensures TriedBefore(q, s[i], s[j]) <==> Prefer(s[i], s[j]) {
      assert s[i] in SetOf(s) && s[j] in SetOf(s);
      TriedIsPreferred(q, s[i], s[j]);
    }
  }

  lemma EarlierIsWinning(q: seq<Leg>, a: seq<Leg>, b: seq<Leg>)
    requires Listed(q) && SetOf(a) <= SetOf(q) && SetOf(b) <= SetOf(q) && Earlier(q, a, b)
    ensures Wins(a, b)
  {
    hide Prefer, TriedBefore, Listed;
    if !(a <= b) {
      var k :| 0 <= k < |a| && k < |b| && a[..k] == b[..k] && TriedBefore(q, a[k], b[k]);
      assert a[k] in SetOf(a) && b[k] in SetOf(b);
      TriedIsPreferred(q, a[k], b[k]);
    }
  }

  lemma {:induction false} SetOfSum(q: seq<Leg>)
    requires NoDup(q)
    ensures |SetOf(q)| == |q| && SetSum(SetOf(q)) == SumAmounts(q)
  {
    if q == [] {
      assert SetOf(q) == {};
    } else {
      var rest := q[1..];
      assert q == [q[0]] + rest;
      SetOfSum(rest);
      assert SetOf(q) == {q[0]} + SetOf(rest);
      assert q[0] !in SetOf(rest);
      assert SetOf(q) - {q[0]} == SetOf(rest);
      SetSumRemove(SetOf(q), q[0]);
    }
  }

  /** A set of legs in the search pool of the wanted number and sum. */
  ghost predicate Wanted(pool: set<Leg>, target: int, tol: int, minSize: int, maxSize: int, t: set<Leg>) {
    t <= pool && minSize <= |t| <= maxSize && Abs(SetSum(t) - target) <= tol
  }

  lemma HitIsWanted(q: seq<Leg>, target: int, tol: int, minSize: int, maxSize: int) returns (t: set<Leg>)
    requires NoDup(q) && FindSubset(q, target, tol, minSize, maxSize).Some?
    ensures Wanted(SetOf(q), target, tol, minSize, maxSize, t)
  {
    hide FindSubset, SetSum;
    var sub := FindSubset(q, target, tol, minSize, maxSize).value;
    FindSubsetSound(q, target, tol, minSize, maxSize);
    SetOfSum(sub);
    t := SetOf(sub);
  }

  /** A hit is the chosen listing. */
  lemma HitIsChosen(q: seq<Leg>, target: int, tol: int, minSize: int, maxSize: int) returns (sub: seq<Leg>)
    requires Listed(q) && AllPositive(q) && FindSubset(q, target, tol, minSize, maxSize).Some?
    ensures FindSubset(q, target, tol, minSize, maxSize) == Some(sub)
    ensures Chosen(SetOf(q), target, tol, minSize, maxSize, sub)
  {
    hide FindSubset, Ranked, InOrder, Earlier, Wins, Q.DistinctIds;
    sub := FindSubset(q, target, tol, minSize, maxSize).value;
    FindSubsetSound(q, target, tol, minSize, maxSize);
    FindSubsetDescends(q, target, tol, minSize, maxSize);
    RankedIsInOrder(q, sub);
    forall alt | Qualifies(SetOf(q), target, tol, minSize, maxSize, alt) ensures Wins(sub, alt) {
      RankedIsInOrder(q, alt);
      forall x | x in alt ensures x in q { assert x in SetOf(alt); }
      FindSubsetGreedy(q, target, tol, minSize, maxSize, alt);
      EarlierIsWinning(q, sub, alt);
    }
  }

  /** A miss means that no wanted set exists, since the search of a capped pool stays within its budget. */
  lemma MissIsNone(rules: Rules, q: seq<Leg>, target: int, tol: int, minSize: nat, maxSize: int, t: set<Leg>)
    requires SearchFits(rules) && Listed(q) && AllPositive(q) && |q| <= rules.t3MaxCandidates
    requires 1 <= minSize <= maxSize <= rules.t3MaxSubset
    requires Wanted(SetOf(q), target, tol, minSize, maxSize, t)
    ensures FindSubset(q, target, tol, minSize, maxSize).Some?
  {
    hide FindSubset, Q.DistinctIds, Nodes, SetSum;
    var x :| x in t;
    assert x in q;
    N.PoolSearchFits(rules, |q|, maxSize);
    FindSubsetComplete(q, target, tol, minSize, maxSize, t);
  }

  // ---------------------------------------------------------------- orientation (a)

  /** The source at which the search hits; those before it miss. */
  lemma {:induction false} FirstSource(rules: Rules, l: Leg, pool: seq<Leg>, sources: seq<string>) returns (i: nat)
    ensures i <= |sources|
    ensures forall j :: 0 <= j < i ==> SourceHit(rules, l, pool, sources[j]).None?
    ensures i < |sources| ==> SourceHit(rules, l, pool, sources[i]).Some?
    ensures M.SumToOne(rules, l, pool, sources) ==
            if i < |sources| then Some(M.Many(l, SourceHit(rules, l, pool, sources[i]).value,
                rules.Tolerance(l.amount)))
            else None
  {
    hide FindSubset, M.Many, M.SourcePool;
    i := 0;
    if sources != [] && SourceHit(rules, l, pool, sources[0]).None? {
      var k := FirstSource(rules, l, pool, sources[1..]);
      i := k + 1;
      forall j | 0 <= j < i ensures SourceHit(rules, l, pool, sources[j]).None? {
        if j > 0 { assert sources[j] == sources[1..][j - 1]; }
      }
      if i < |sources| { assert sources[i] == sources[1..][k]; }
    }
  }

  ghost function SourceHit(rules: Rules, l: Leg, pool: seq<Leg>, src: string): Option<seq<Leg>> {
    FindSubset(M.SourcePool(rules, pool, src), l.amount, rules.Tolerance(l.amount), 2, rules.t3MaxSubset)
  }

  lemma PaidPool(q: seq<Leg>, pool: set<Leg>, n: int, open: set<Leg>)
    requires SetOf(q) == Reached(pool, n) && pool <= open && N.AllPaid(open)
    ensures AllPositive(q)
  {
    forall x | x in q ensures x.amount > 0 { assert x in SetOf(q); }
  }

  lemma SourceSound(rules: Rules, l: Leg, open: set<Leg>, src: string)
    requires rules.Valid() && F.Arrives(l, open) && SourceHit(rules, l, M.OnePool(rules, l, open), src).Some?
    ensures exists many :: SumsTo(rules, l, open, src, many)
  {
    hide FindSubset, M.SourcePool, M.OnePool, Reached, SetSum, F.Arrives;
    PartsSearched(rules, l, open, src);
    var q := M.SourcePool(rules, M.OnePool(rules, l, open), src);
    var many := HitIsWanted(q, l.amount, rules.Tolerance(l.amount), 2, rules.t3MaxSubset);
    assert SumsTo(rules, l, open, src, many);
  }

  /** A source misses exactly when no reached parts of it sum to the leg; a hit is the chosen one. */
  lemma SourceHitIff(rules: Rules, l: Leg, open: set<Leg>, src: string)
    requires SearchFits(rules) && F.Arrives(l, open) && N.AllPaid(open)
    ensures var hit := SourceHit(rules, l, M.OnePool(rules, l, open), src);
            && (hit.Some? <==> exists many :: SumsTo(rules, l, open, src, many))
            && (hit.Some? ==> Chosen(Reached(Parts(rules, l, open, src), rules.t3MaxCandidates), l.amount,
                                     rules.Tolerance(l.amount), 2, rules.t3MaxSubset, hit.value))
  {
    hide FindSubset, M.SourcePool, M.OnePool, Reached, SetSum, Listed, Chosen, AllPositive, Nodes, F.Arrives, N.AllPaid,
         F.Hinted, F.SameWindow;
    var q := M.SourcePool(rules, M.OnePool(rules, l, open), src);
    var tol := rules.Tolerance(l.amount);
    PartsSearched(rules, l, open, src);
    PaidPool(q, Parts(rules, l, open, src), rules.t3MaxCandidates, open);
    if SourceHit(rules, l, M.OnePool(rules, l, open), src).Some? {
      SourceSound(rules, l, open, src);
      var sub := HitIsChosen(q, l.amount, tol, 2, rules.t3MaxSubset);
    }
    if exists many :: SumsTo(rules, l, open, src, many) {
      var many :| SumsTo(rules, l, open, src, many);
      MissIsNone(rules, q, l.amount, tol, 2, rules.t3MaxSubset, many);
    }
  }

  /** A source with reached parts is among those tried. */
  lemma SourceTried(rules: Rules, l: Leg, open: set<Leg>, src: string, many: set<Leg>)
    requires F.Arrives(l, open) && SumsTo(rules, l, open, src, many)
    ensures src in M.SourcesOf(M.OnePool(rules, l, open))
  {
    hide M.OnePool, SetSum, M.SourcesOf, F.Hinted, F.SameWindow, Ahead;
    var c :| c in many;
    F.OnePoolMembers(rules, l, open);
    N.SourceListed(M.OnePool(rules, l, open), c);
  }

  lemma SourcesSorted(pool: seq<Leg>)
    ensures Sorted(M.SourcesOf(pool), StrLess)
  {
    StrWeakOrder();
    SortSorted(Enumerate(set c | c in pool :: c.source), StrLess);
  }

  /** Reached parts of the first source that has any which sum to `l`, the chosen ones of it. */
  ghost predicate FirstSum(rules: Rules, l: Leg, open: set<Leg>, src: string, many: seq<Leg>) {
    && (forall other, t :: SumsTo(rules, l, open, other, t) ==> !StrLess(other, src))
    && Chosen(Reached(Parts(rules, l, open, src), rules.t3MaxCandidates), l.amount, rules.Tolerance(l.amount), 2,
              rules.t3MaxSubset, many)
  }

  lemma SumIff(rules: Rules, l: Leg, open: set<Leg>) returns (src: string, many: seq<Leg>)
    requires SearchFits(rules) && F.Arrives(l, open) && N.AllPaid(open)
    ensures var pool := M.OnePool(rules, l, open);
            var r := M.SumToOne(rules, l, pool, M.SourcesOf(pool));
            && (r.Some? <==> AnySum(rules, l, open))
            && (r.Some? ==> FirstSum(rules, l, open, src, many))
            && (r.Some? ==> r.value == M.Many(l, many, rules.Tolerance(l.amount)))
  {
    hide FindSubset, M.OnePool, SetSum, Chosen, Nodes, F.Arrives, N.AllPaid, M.Many, M.SourcesOf, SourceHit,
         M.SumToOne, SumsTo, StrLess;
    var pool := M.OnePool(rules, l, open);
    var sources := M.SourcesOf(pool);
    var i := FirstSource(rules, l, pool, sources);
    SourcesSorted(pool);
    src, many := "", [];
    forall other, t | SumsTo(rules, l, open, other, t)
      ensures exists j :: i <= j < |sources| && sources[j] == other
    {
      SourceTried(rules, l, open, other, t);
      SourceHitIff(rules, l, open, other);
    }
    if i < |sources| {
      src := sources[i];
      SourceHitIff(rules, l, open, src);
      many := SourceHit(rules, l, pool, src).value;
      forall other, t | SumsTo(rules, l, open, other, t) ensures !StrLess(other, src) {
        StrTrichotomy(other, src);
      }
    }
  }

  // ---------------------------------------------------------------- orientation (b)

  ghost function RestHit(rules: Rules, l: Leg, same: seq<Leg>, s: Leg): Option<seq<Leg>> {
    if M.Settles(rules, l, s)
    then FindSubset(M.PartPool(rules, same, s), s.amount - l.amount, rules.Tolerance(s.amount), 1,
        rules.t3MaxSubset - 1)
    else None
  }

  /** The settlement leg at which the search hits; those before it miss. */
  lemma {:induction false} FirstSettlement(rules: Rules, l: Leg, settlements: seq<Leg>, same: seq<Leg>)
      returns (i: nat)
    ensures i <= |settlements|
    ensures forall j :: 0 <= j < i ==> RestHit(rules, l, same, settlements[j]).None?
    ensures i < |settlements| ==> RestHit(rules, l, same, settlements[i]).Some?
    ensures M.CompleteMany(rules, l, settlements, same) ==
            if i < |settlements|
            then Some(M.Many(settlements[i], [l] + RestHit(rules, l, same, settlements[i]).value,
                             rules.Tolerance(settlements[i].amount)))
            else None
  {
    hide FindSubset, M.Many, M.PartPool, M.Settles;
    i := 0;
    if settlements != [] && RestHit(rules, l, same, settlements[0]).None? {
      var k := FirstSettlement(rules, l, settlements[1..], same);
      i := k + 1;
      forall j | 0 <= j < i ensures RestHit(rules, l, same, settlements[j]).None? {
        if j > 0 { assert settlements[j] == settlements[1..][j - 1]; }
      }
      if i < |settlements| { assert settlements[i] == settlements[1..][k]; }
    }
  }

  lemma SettlementIff(rules: Rules, l: Leg, open: set<Leg>)
    requires F.Arrives(l, open) && (rules.t3RequireBatchHint ==> l.Batch() != "")
    ensures forall s :: s in M.Settlements(rules, l, open) && M.Settles(rules, l, s) <==> Larger(rules, l, open, s)
  {
    if rules.t3RequireBatchHint { F.HintedSettlements(rules, l, open); } else { F.ScanMembers(rules, l, open); }
  }

  lemma SettlementsSorted(rules: Rules, l: Leg, open: set<Leg>)
    requires F.Arrives(l, open)
    ensures Sorted(M.Settlements(rules, l, open), Q.Before)
  {
    hide Q.Before, M.Scan, Filter;
    if rules.t3RequireBatchHint {
      Q.BeforeWeakOrder();
      SortSorted(Filter(Q.RefLegs(open, l.Batch()), M.Opposite(l)) +
                 Filter(Q.ByBatch(open, l, l.Batch()), M.NotOfSource(l.source)), Q.Before);
    } else {
      ScanListed(rules, l, open);
    }
  }

  lemma RestSound(rules: Rules, l: Leg, open: set<Leg>, s: Leg)
    requires rules.Valid() && F.Arrives(l, open) && (rules.t3RequireBatchHint ==> l.Batch() != "")
    requires s in M.Settlements(rules, l, open) && RestHit(rules, l, M.Siblings(rules, l, open), s).Some?
    ensures exists rest :: Completes(rules, l, open, s, rest)
  {
    hide FindSubset, M.PartPool, M.Siblings, M.Settlements, Reached, SetSum, F.Arrives, F.SiblingNear, Larger,
         M.Settles;
    SettlementIff(rules, l, open);
    SiblingsSearched(rules, l, open, s);
    var q := M.PartPool(rules, M.Siblings(rules, l, open), s);
    var rest := HitIsWanted(q, s.amount - l.amount, rules.Tolerance(s.amount), 1, rules.t3MaxSubset - 1);
    assert Completes(rules, l, open, s, rest);
  }

  /** A larger settlement leg misses exactly when no reached siblings make up the rest of it. */
  lemma RestHitIff(rules: Rules, l: Leg, open: set<Leg>, s: Leg)
    requires SearchFits(rules) && F.Arrives(l, open) && N.AllPaid(open)
    requires (rules.t3RequireBatchHint ==> l.Batch() != "") && s in M.Settlements(rules, l, open)
    ensures var hit := RestHit(rules, l, M.Siblings(rules, l, open), s);
            && (hit.Some? <==> exists rest :: Completes(rules, l, open, s, rest))
            && (hit.Some? ==> Chosen(Reached(Siblings(rules, l, open, s), rules.t3MaxCandidates), s.amount - l.amount,
                                     rules.Tolerance(s.amount), 1, rules.t3MaxSubset - 1, hit.value))
  {
    hide FindSubset, M.PartPool, M.Siblings, M.Settlements, Reached, SetSum, Listed, Chosen, AllPositive, Nodes,
         F.Arrives, N.AllPaid, F.SiblingNear, Larger, M.Settles;
    SettlementIff(rules, l, open);
    var q := M.PartPool(rules, M.Siblings(rules, l, open), s);
    var target, tol, max := s.amount - l.amount, rules.Tolerance(s.amount), rules.t3MaxSubset - 1;
    SiblingsSearched(rules, l, open, s);
    PaidPool(q, Siblings(rules, l, open, s), rules.t3MaxCandidates, open);
    if RestHit(rules, l, M.Siblings(rules, l, open), s).Some? {
      RestSound(rules, l, open, s);
      var sub := HitIsChosen(q, target, tol, 1, max);
    }
    if exists rest :: Completes(rules, l, open, s, rest) {
      var rest :| Completes(rules, l, open, s, rest);
      MissIsNone(rules, q, target, tol, 1, max, rest);
    }
  }

  /** The first settlement leg that reached siblings complete with `l`, by the chosen ones. */
  ghost predicate FirstCompletion(rules: Rules, l: Leg, open: set<Leg>, s: Leg, rest: seq<Leg>) {
    && Larger(rules, l, open, s)
    && (forall other, t :: Completes(rules, l, open, other, t) ==> !Q.Before(other, s))
    && Chosen(Reached(Siblings(rules, l, open, s), rules.t3MaxCandidates), s.amount - l.amount,
              rules.Tolerance(s.amount), 1, rules.t3MaxSubset - 1, rest)
  }

  lemma CompletionIff(rules: Rules, l: Leg, open: set<Leg>) returns (s: Leg, rest: seq<Leg>)
    requires SearchFits(rules) && F.Arrives(l, open) && N.AllPaid(open)
             && (rules.t3RequireBatchHint ==> l.Batch() != "")
    ensures var r := M.CompleteMany(rules, l, M.Settlements(rules, l, open), M.Siblings(rules, l, open));
            && (r.Some? <==> AnyCompletion(rules, l, open))
            && (r.Some? ==> FirstCompletion(rules, l, open, s, rest))
            && (r.Some? ==> r.value == M.Many(s, [l] + rest, rules.Tolerance(s.amount)))
  {
    hide FindSubset, M.Siblings, M.Settlements, SetSum, Chosen, Nodes, F.Arrives, N.AllPaid, M.Many, RestHit,
         M.CompleteMany, Q.Before, Larger;
    var settlements, same := M.Settlements(rules, l, open), M.Siblings(rules, l, open);
    var i := FirstSettlement(rules, l, settlements, same);
    SettlementIff(rules, l, open);
    SettlementsSorted(rules, l, open);
    s, rest := l, [];
    forall other, t | Completes(rules, l, open, other, t)
      ensures exists j :: i <= j < |settlements| && settlements[j] == other
    {
      assert other in settlements;
      RestHitIff(rules, l, open, other);
    }
    if i < |settlements| {
      s := settlements[i];
      assert s in settlements;
      RestHitIff(rules, l, open, s);
      rest := RestHit(rules, l, same, s).value;
      Q.BeforeWeakOrder();
    }
  }

  // ---------------------------------------------------------------- the tier

  /** Whatever the rules, the tier fires only on a qualifying set. */
  lemma OnlyQualified(rules: Rules, l: Leg, open: set<Leg>)
    requires rules.Valid() && F.Arrives(l, open) && M.Tier3(rules, l, open).Some?
    ensures AnySum(rules, l, open) || AnyCompletion(rules, l, open)
  {
    hide M.OnePool, M.SumToOne, M.CompleteMany, M.Siblings, M.Settlements, M.SourcesOf, SumsTo, Completes, SourceHit,
         RestHit, F.Arrives, M.Many;
    var pool := M.OnePool(rules, l, open);
    var i := FirstSource(rules, l, pool, M.SourcesOf(pool));
    if i < |M.SourcesOf(pool)| {
      SourceSound(rules, l, open, M.SourcesOf(pool)[i]);
    } else {
      var settlements := M.Settlements(rules, l, open);
      var j := FirstSettlement(rules, l, settlements, M.Siblings(rules, l, open));
      assert settlements[j] in settlements;
      RestSound(rules, l, open, settlements[j]);
    }
  }

  lemma NoHintNoCompletion(rules: Rules, l: Leg, open: set<Leg>)
    requires rules.t3RequireBatchHint && l.Batch() == ""
    ensures !AnyCompletion(rules, l, open)
  {
  }

  /** The tier fires exactly when a qualifying set of open legs exists, for rules whose search fits the budget. */
  lemma SubsetTierIff(rules: Rules, l: Leg, open: set<Leg>)
    requires SearchFits(rules) && F.Arrives(l, open) && N.AllPaid(open)
    ensures M.Tier3(rules, l, open).Some? <==> AnySum(rules, l, open) || AnyCompletion(rules, l, open)
  {
    hide M.OnePool, M.SumToOne, M.CompleteMany, M.Siblings, M.Settlements, M.SourcesOf, AnySum, AnyCompletion,
         SearchFits, FirstSum, FirstCompletion;
    var src, many := SumIff(rules, l, open);
    if rules.t3RequireBatchHint && l.Batch() == "" {
      NoHintNoCompletion(rules, l, open);
    } else {
      var s, rest := CompletionIff(rules, l, open);
    }
  }

  /**
   Which match the tier finds: parts that sum to the leg before a settlement that it completes; the
   first source, the first settlement leg; and among the qualifying subsets the one of larger amounts.
   */
  lemma SubsetTierChoice(rules: Rules, l: Leg, open: set<Leg>) returns (s: Leg, many: seq<Leg>)
    requires SearchFits(rules) && F.Arrives(l, open) && N.AllPaid(open) && M.Tier3(rules, l, open).Some?
    ensures M.Tier3(rules, l, open).value == M.Many(s, many, rules.Tolerance(s.amount))
    ensures AnySum(rules, l, open) ==> s == l && many != [] && FirstSum(rules, l, open, many[0].source, many)
    ensures !AnySum(rules, l, open) ==>
              many != [] && many[0] == l && FirstCompletion(rules, l, open, s, many[1..])
  {
    hide M.OnePool, M.SumToOne, M.CompleteMany, M.Siblings, M.Settlements, M.SourcesOf, AnySum, AnyCompletion,
         SearchFits, FirstSum, FirstCompletion, M.Many;
    var src, sum := SumIff(rules, l, open);
    if AnySum(rules, l, open) {
      s, many := l, sum;
      SumSource(rules, l, open, src, many);
    } else {
      var whole, rest := CompletionIff(rules, l, open);
      s, many := whole, [l] + rest;
      assert many[1..] == rest;
    }
  }

  lemma SumSource(rules: Rules, l: Leg, open: set<Leg>, src: string, many: seq<Leg>)
    requires FirstSum(rules, l, open, src, many)
    ensures many != [] && many[0].source == src
  {
    hide SumsTo, Wins, InOrder, SumAmounts, F.Hinted, F.SameWindow, Ahead;
    assert many[0] in SetOf(many);
  }

  /** The fourth rule of the table, with no reference to the search: it fires iff no other does and a set qualifies. */
  lemma SubsetRuleFiresIff(rules: Rules, l: Leg, open: set<Leg>, known: M.Known)
    requires SearchFits(rules) && F.Arrives(l, open) && N.AllPaid(open)
    ensures F.Fires(rules, l, open, known, T3Subset) <==>
            && !F.AnyExact(rules, l, open) && !F.AnyTolerant(rules, l, open) && !F.AnySole(rules, l, open, known)
            && (AnySum(rules, l, open) || AnyCompletion(rules, l, open))
  {
    hide M.Tier3, F.Fires, F.AnyExact, F.AnyTolerant, F.AnySole, AnySum, AnyCompletion, N.AllPaid, F.Arrives, Nodes;
    SubsetTierIff(rules, l, open);
    F.FindRefinesTiers(rules, l, open, known);
  }
}
