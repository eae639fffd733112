/**
 Matching does not depend on when legs came in: forgetting ingestion times commutes with every
 query, every tier and every decision. Hence deliveries under different clocks agree for all legs.
 */
module ArrivalTimes {
  import opened Sequences
  import opened Ordering
  import opened Domain
  import opened Identity
  import opened SubsetSum
  import opened Persistence
  import opened Reconciliation
  import opened EventSourcing
  import opened Lifecycle
  import opened Transitions
  import opened Runs
  import opened NonInterference
  import opened ReplayTheorems
  import opened ExactlyOnce
  import M = Matching
  import Q = OpenLegs

  function Blur(l: Leg): Leg { l.(ingestedAt := ZERO_TIME) }

  function Blurs(legs: seq<Leg>): (r: seq<Leg>)
    ensures |r| == |legs| && forall i :: 0 <= i < |r| ==> r[i] == Blur(legs[i])
  {
    seq(|legs|, i requires 0 <= i < |legs| => Blur(legs[i]))
  }

  ghost function BlurSet(legs: set<Leg>): set<Leg> { set x | x in legs :: Blur(x) }

  function BlurSome(x: Option<Leg>): Option<Leg> { if x.Some? then Some(Blur(x.value)) else None }

  // ---------------------------------------------------------------- sequences

  lemma BlursAppend(a: seq<Leg>, b: seq<Leg>)
    ensures Blurs(a + b) == Blurs(a) + Blurs(b)
  {
  }

  lemma BlursSplit(a: seq<Leg>)
    requires a != []
    ensures Blurs(a)[..|a| - 1] == Blurs(a[..|a| - 1]) && Blurs(a)[1..] == Blurs(a[1..])
  {
  }

  lemma BlurMembers(legs: seq<Leg>)
    ensures SetOf(Blurs(legs)) == BlurSet(SetOf(legs))
  {
    forall x | x in SetOf(Blurs(legs)) ensures x in BlurSet(SetOf(legs)) {
      var i :| 0 <= i < |legs| && Blurs(legs)[i] == x;
      assert legs[i] in SetOf(legs);
    }
    forall x | x in BlurSet(SetOf(legs)) ensures x in SetOf(Blurs(legs)) {
      var y :| y in SetOf(legs) && Blur(y) == x;
      var i :| 0 <= i < |legs| && legs[i] == y;
      assert Blurs(legs)[i] == x;
    }
  }

  lemma {:induction false} BlurFilter(s: seq<Leg>, f: Leg -> bool, g: Leg -> bool)
    requires forall x :: x in s ==> f(x) == g(Blur(x))
    ensures Filter(Blurs(s), g) == Blurs(Filter(s, f))
  {
    if s != [] {
      BlursSplit(s);
      var init := s[..|s| - 1];
      BlurFilter(init, f, g);
      assert s[|s| - 1] in s;
      BlursAppend(Filter(init, f), [s[|s| - 1]]);
      assert Blurs([s[|s| - 1]]) == [Blur(s[|s| - 1])];
    }
  }

  lemma {:induction false} BlurFirst(s: seq<Leg>, f: Leg -> bool, g: Leg -> bool)
    requires forall x :: x in s ==> f(x) == g(Blur(x))
    ensures First(Blurs(s), g) == BlurSome(First(s, f))
  {
    if s != [] {
      BlursSplit(s);
      assert s[0] in s;
      BlurFirst(s[1..], f, g);
    }
  }

  lemma {:induction false} BlurInsert(x: Leg, s: seq<Leg>, less: (Leg, Leg) -> bool)
    requires forall a, b :: less(Blur(a), Blur(b)) == less(a, b)
    ensures Insert(Blur(x), Blurs(s), less) == Blurs(Insert(x, s, less))
  {
    if s != [] && less(s[0], x) {
      BlursSplit(s);
      BlurInsert(x, s[1..], less);
      BlursAppend([s[0]], Insert(x, s[1..], less));
      assert Blurs([s[0]]) == [Blur(s[0])];
    } else {
      BlursAppend([x], s);
      assert Blurs([x]) == [Blur(x)];
    }
  }

  lemma {:induction false} BlurSort(s: seq<Leg>, less: (Leg, Leg) -> bool)
    requires forall a, b :: less(Blur(a), Blur(b)) == less(a, b)
    ensures Sort(Blurs(s), less) == Blurs(Sort(s, less))
  {
    if s != [] {
      BlursSplit(s);
      BlurSort(s[1..], less);
      BlurInsert(s[0], Sort(s[1..], less), less);
    }
  }

  // ---------------------------------------------------------------- queries

  lemma BlurDistinct(legs: set<Leg>)
    requires Q.DistinctIds(legs)
    ensures Q.DistinctIds(BlurSet(legs))
  {
  }

  lemma BlurNoDup(q: seq<Leg>)
    requires NoDup(q) && Q.DistinctIds(SetOf(q))
    ensures NoDup(Blurs(q))
  {
    forall i, j | 0 <= i < j < |q| ensures Blurs(q)[i] != Blurs(q)[j] {
      assert q[i] in SetOf(q) && q[j] in SetOf(q);
    }
  }

  /** The canonical listing of blurred legs is the blurred listing. */
  lemma BlurListing(legs: set<Leg>)
    requires Q.DistinctIds(legs)
    ensures Q.Listing(BlurSet(legs)) == Blurs(Q.Listing(legs))
  {
    var q := Q.Listing(legs);
    Q.ListingFacts(legs);
    assert SetOf(q) == legs;
    BlurNoDup(q);
    BlurMembers(q);
    BlurDistinct(legs);
    Q.BeforeTotal(q);
    Q.BeforeTotal(Blurs(q));
    Q.BeforeWeakOrder();
    CanonUnique(q, legs, Q.Before);
    CanonUnique(Blurs(q), BlurSet(legs), Q.Before);
    BlurSort(q, Q.Before);
  }

  /** A subset picked by business fields and ids is blurred leg by leg. */
  lemma BlurSubset(open: set<Leg>, f: Leg -> bool)
    requires Q.DistinctIds(open) && forall x :: f(Blur(x)) == f(x)
    ensures Q.Listing(set c | c in BlurSet(open) && f(c)) == Blurs(Q.Listing(set c | c in open && f(c)))
  {
    var some := set c | c in open && f(c);
    assert (set c | c in BlurSet(open) && f(c)) == BlurSet(some) by {
      forall x | x in BlurSet(open) && f(x) ensures x in BlurSet(some) {
        var y :| y in open && Blur(y) == x;
        assert y in some;
      }
    }
    BlurListing(some);
  }

  lemma BlurCandidates(open: set<Leg>, l: Leg)
    requires Q.DistinctIds(open)
    ensures Q.Candidates(BlurSet(open), Blur(l)) == Blurs(Q.Candidates(open, l))
  {
    hide Q.Listing, BlurSet, Q.DistinctIds;
    var f := (c: Leg) => c.Key() == l.Key() && c.source != l.source;
    BlurSubset(open, f);
    assert (set c | c in open && f(c)) == set c | c in open && c.Key() == l.Key() && c.source != l.source;
    assert (set c | c in BlurSet(open) && f(c)) ==
           set c | c in BlurSet(open) && c.Key() == Blur(l).Key() && c.source != Blur(l).source;
  }

  lemma BlurByRefCandidates(open: set<Leg>, l: Leg)
    requires Q.DistinctIds(open)
    ensures Q.CandidatesByRef(BlurSet(open), Blur(l)) == Blurs(Q.CandidatesByRef(open, l))
  {
    hide Q.Listing, BlurSet, Q.DistinctIds;
    var f := (c: Leg) => c.txnRef == l.txnRef && c.source != l.source && c.Key() == l.Key();
    BlurSubset(open, f);
    assert (set c | c in open && f(c)) == set c | c in open && c.txnRef == l.txnRef && c.source != l.source
           && c.Key() == l.Key();
    assert (set c | c in BlurSet(open) && f(c)) ==
           set c | c in BlurSet(open) && c.txnRef == Blur(l).txnRef && c.source != Blur(l).source
               && c.Key() == Blur(l).Key();
  }

  lemma BlurSameSource(open: set<Leg>, l: Leg)
    requires Q.DistinctIds(open)
    ensures Q.SameSourceInWindow(BlurSet(open), Blur(l)) == Blurs(Q.SameSourceInWindow(open, l))
  {
    hide Q.Listing, BlurSet, Q.DistinctIds;
    var f := (c: Leg) => c.Key() == l.Key() && c.source == l.source && c.id != l.id;
    BlurSubset(open, f);
    assert (set c | c in open && f(c)) == set c | c in open && c.Key() == l.Key() && c.source == l.source
           && c.id != l.id;
    assert (set c | c in BlurSet(open) && f(c)) ==
           set c | c in BlurSet(open) && c.Key() == Blur(l).Key() && c.source == Blur(l).source && c.id != Blur(l).id;
  }

  lemma BlurSameRef(open: set<Leg>, l: Leg)
    requires Q.DistinctIds(open)
    ensures Q.ByRef(BlurSet(open), Blur(l)) == Blurs(Q.ByRef(open, l))
  {
    hide Q.Listing, BlurSet, Q.DistinctIds;
    var f := (c: Leg) => c.txnRef == l.txnRef && c.id != l.id;
    BlurSubset(open, f);
    assert (set c | c in open && f(c)) == set c | c in open && c.txnRef == l.txnRef && c.id != l.id;
    assert (set c | c in BlurSet(open) && f(c)) ==
           set c | c in BlurSet(open) && c.txnRef == Blur(l).txnRef && c.id != Blur(l).id;
  }

  lemma BlurRefLegs(open: set<Leg>, ref: string)
    requires Q.DistinctIds(open)
    ensures Q.RefLegs(BlurSet(open), ref) == Blurs(Q.RefLegs(open, ref))
  {
    hide Q.Listing, BlurSet, Q.DistinctIds;
    var f := (c: Leg) => c.txnRef == ref;
    BlurSubset(open, f);
    assert (set c | c in open && f(c)) == set c | c in open && c.txnRef == ref;
    assert (set c | c in BlurSet(open) && f(c)) == set c | c in BlurSet(open) && c.txnRef == ref;
  }

  lemma BlurByBatch(open: set<Leg>, l: Leg, batch: string)
    requires Q.DistinctIds(open)
    ensures Q.ByBatch(BlurSet(open), Blur(l), batch) == Blurs(Q.ByBatch(open, l, batch))
  {
    hide Q.Listing, BlurSet, Q.DistinctIds;
    var f := (c: Leg) => batch != "" && c.Batch() == batch && c.id != l.id && c.Key() == l.Key();
    BlurSubset(open, f);
    assert (set c | c in open && f(c)) ==
           set c | c in open && batch != "" && c.Batch() == batch && c.id != l.id && c.Key() == l.Key();
    assert (set c | c in BlurSet(open) && f(c)) ==
           set c | c in BlurSet(open) && batch != "" && c.Batch() == batch && c.id != Blur(l).id
               && c.Key() == Blur(l).Key();
  }

  lemma BlurPools(rules: Rules, l: Leg, open: set<Leg>)
    requires Q.DistinctIds(open)
    ensures M.ByRefInWindow(rules, Blur(l), BlurSet(open)) == Blurs(M.ByRefInWindow(rules, l, open))
    ensures M.Scan(rules, Blur(l), BlurSet(open)) == Blurs(M.Scan(rules, l, open))
    ensures M.OnePool(rules, Blur(l), BlurSet(open)) == Blurs(M.OnePool(rules, l, open))
    ensures M.Siblings(rules, Blur(l), BlurSet(open)) == Blurs(M.Siblings(rules, l, open))
  {
    hide Filter, Q.Candidates, Q.CandidatesByRef, Q.SameSourceInWindow, Q.ByBatch, Q.RefLegs;
    BlurCandidates(open, l);
    BlurByRefCandidates(open, l);
    BlurSameSource(open, l);
    BlurByBatch(open, l, l.SettlementKey());
    BlurByBatch(open, l, l.Batch());
    BlurFilter(Q.CandidatesByRef(open, l), M.Near(rules, l), M.Near(rules, Blur(l)));
    BlurFilter(Q.Candidates(open, l), M.Near(rules, l), M.Near(rules, Blur(l)));
    var batch := Q.ByBatch(open, l, l.SettlementKey());
    BlurFilter(batch, M.NotOfSource(l.source), M.NotOfSource(l.source));
    BlurFilter(Filter(batch, M.NotOfSource(l.source)), M.Near(rules, l), M.Near(rules, Blur(l)));
    BlurFilter(Q.ByBatch(open, l, l.Batch()), M.OfSource(l.source), M.OfSource(l.source));
  }

  lemma BlurSettlements(rules: Rules, l: Leg, open: set<Leg>)
    requires Q.DistinctIds(open)
    ensures M.Settlements(rules, Blur(l), BlurSet(open)) == Blurs(M.Settlements(rules, l, open))
  {
    hide Filter, Sort, Q.Candidates, Q.CandidatesByRef, Q.SameSourceInWindow, Q.ByBatch, Q.RefLegs;
    BlurRefLegs(open, l.Batch());
    BlurByBatch(open, l, l.Batch());
    BlurPools(rules, l, open);
    var a := Q.RefLegs(open, l.Batch());
    var b := Q.ByBatch(open, l, l.Batch());
    BlurFilter(a, M.Opposite(l), M.Opposite(Blur(l)));
    BlurFilter(b, M.NotOfSource(l.source), M.NotOfSource(l.source));
    BlursAppend(Filter(a, M.Opposite(l)), Filter(b, M.NotOfSource(l.source)));
    BlurSort(Filter(a, M.Opposite(l)) + Filter(b, M.NotOfSource(l.source)), Q.Before);
  }

  // ---------------------------------------------------------------- tiers 1 and 2

  lemma BlurPair(l: Leg, c: Leg, tier: Tier, rule: RuleId, confidence: int)
    ensures M.Pair(Blur(l), Blur(c), tier, rule, confidence) == M.Pair(l, c, tier, rule, confidence)
  {
  }

  lemma BlurTier1(l: Leg, cands: seq<Leg>)
    ensures M.Tier1(Blur(l), Blurs(cands)) == M.Tier1(l, cands)
  {
    hide First;
    BlurFirst(cands, M.ExactRef(l), M.ExactRef(Blur(l)));
    var hit := First(cands, M.ExactRef(l));
    if hit.Some? { BlurPair(l, hit.value, TierExact, T1Exact, 1000); }
  }

  lemma {:induction false} BlurBest(rules: Rules, l: Leg, cands: seq<Leg>)
    ensures M.Best(rules, Blur(l), Blurs(cands)) == BlurSome(M.Best(rules, l, cands))
  {
    if cands != [] {
      BlursSplit(cands);
      BlurBest(rules, l, cands[..|cands| - 1]);
    }
  }

  lemma BlurTier2Ref(rules: Rules, l: Leg, cands: seq<Leg>)
    ensures M.Tier2Ref(rules, Blur(l), Blurs(cands)) == M.Tier2Ref(rules, l, cands)
  {
    hide M.Best, M.Pair;
    BlurBest(rules, l, cands);
    var b := M.Best(rules, l, cands);
    if b.Some? {
      BlurPair(l, b.value, TierTolerant, T2Tolerant,
               TolerantConfidence(Abs(b.value.amount - l.amount), rules.Tolerance(l.amount)));
    }
  }

  lemma BlurRival(rules: Rules, l: Leg, hit: Leg, same: seq<Leg>)
    ensures M.AnyRival(rules, Blur(l), Blur(hit), Blurs(same)) == M.AnyRival(rules, l, hit, same)
  {
    if M.AnyRival(rules, l, hit, same) {
      var s :| s in same && M.Rival(rules, l, hit, s);
      var i :| 0 <= i < |same| && same[i] == s;
      assert Blurs(same)[i] == Blur(s) && M.Rival(rules, Blur(l), Blur(hit), Blur(s));
    }
    if M.AnyRival(rules, Blur(l), Blur(hit), Blurs(same)) {
      var s :| s in Blurs(same) && M.Rival(rules, Blur(l), Blur(hit), s);
      var i :| 0 <= i < |same| && Blurs(same)[i] == s;
      assert same[i] in same && M.Rival(rules, l, hit, same[i]);
    }
  }

  lemma BlurAmountDate(rules: Rules, l: Leg, scan: seq<Leg>, same: seq<Leg>, known: M.Known, known': M.Known)
    requires forall ref, source :: known(ref, source) == known'(ref, source)
    ensures M.Tier2AmountDate(rules, Blur(l), Blurs(scan), Blurs(same), known') ==
            M.Tier2AmountDate(rules, l, scan, same, known)
  {
    hide Filter, M.AnyRival, M.Pair;
    BlurFilter(scan, M.SameAmount(l), M.SameAmount(Blur(l)));
    var hits := Filter(scan, M.SameAmount(l));
    if |hits| == 1 {
      BlurRival(rules, l, hits[0], same);
      BlurPair(l, hits[0], TierTolerant, T2AmountDate, 750);
    }
  }

  // ---------------------------------------------------------------- tier 3

  lemma {:induction false} BlurAmounts(s: seq<Leg>)
    ensures Amounts(Blurs(s)) == Amounts(s) && SumAmounts(Blurs(s)) == SumAmounts(s)
            && M.LegIds(Blurs(s)) == M.LegIds(s)
  {
    if s != [] {
      BlursSplit(s);
      BlurAmounts(s[1..]);
    }
  }

  lemma {:induction false} BlurPicked(s: seq<Leg>, q: seq<nat>)
    requires forall k :: 0 <= k < |q| ==> q[k] < |s|
    ensures Picked(Blurs(s), q) == Blurs(Picked(s, q))
  {
    if q != [] {
      BlurPicked(s, q[1..]);
      BlursAppend([s[q[0]]], Picked(s, q[1..]));
      assert Blurs([s[q[0]]]) == [Blur(s[q[0]])];
    }
  }

  lemma BlurFindSubset(pool: seq<Leg>, target: int, tol: int, minSize: int, maxSize: int)
    ensures var a := FindSubset(Blurs(pool), target, tol, minSize, maxSize);
            var b := FindSubset(pool, target, tol, minSize, maxSize);
            a.Some? == b.Some? && (b.Some? ==> a.value == Blurs(b.value))
  {
    hide Visit, Sort;
    BlurSort(pool, Larger);
    BlurAmounts(SearchOrder(pool));
    if maxSize > 0 && pool != [] {
      var pb := ProblemOf(pool, tol, minSize, maxSize);
      assert ProblemOf(Blurs(pool), tol, minSize, maxSize) == pb;
      VisitSound(pb, 0, target, 0, NODE_BUDGET);
      var r := Visit(pb, 0, target, 0, NODE_BUDGET);
      if r.hit.Some? { BlurPicked(SearchOrder(pool), r.hit.value); }
    }
  }

  lemma BlurMany(anchor: Leg, many: seq<Leg>, tol: int)
    ensures M.Many(Blur(anchor), Blurs(many), tol) == M.Many(anchor, many, tol)
  {
    hide Sort;
    BlurAmounts(many);
  }

  lemma BlurCap(legs: seq<Leg>, n: int)
    ensures M.Cap(Blurs(legs), n) == Blurs(M.Cap(legs, n))
  {
  }

  lemma {:induction false} BlurSumToOne(rules: Rules, l: Leg, pool: seq<Leg>, sources: seq<string>)
    ensures M.SumToOne(rules, Blur(l), Blurs(pool), sources) == M.SumToOne(rules, l, pool, sources)
  {
    hide FindSubset, M.Many, Filter;
    if sources != [] {
      var f := M.OfSource(sources[0]);
      BlurFilter(pool, f, f);
      BlurCap(Filter(pool, f), rules.t3MaxCandidates);
      var p := M.SourcePool(rules, pool, sources[0]);
      BlurFindSubset(p, l.amount, rules.Tolerance(l.amount), 2, rules.t3MaxSubset);
      var sub := FindSubset(p, l.amount, rules.Tolerance(l.amount), 2, rules.t3MaxSubset);
      if sub.Some? { BlurMany(l, sub.value, rules.Tolerance(l.amount)); }
      BlurSumToOne(rules, l, pool, sources[1..]);
    }
  }

  lemma BlurSources(pool: seq<Leg>)
    ensures M.SourcesOf(Blurs(pool)) == M.SourcesOf(pool)
  {
    var a, b := set c | c in Blurs(pool) :: c.source, set c | c in pool :: c.source;
    forall x | x in a ensures x in b {
      var c :| c in Blurs(pool) && c.source == x;
      var i :| 0 <= i < |pool| && Blurs(pool)[i] == c;
      assert pool[i] in pool;
    }
    forall x | x in b ensures x in a {
      var c :| c in pool && c.source == x;
      var i :| 0 <= i < |pool| && pool[i] == c;
      assert Blurs(pool)[i] in Blurs(pool);
    }
    assert a == b;
  }

  lemma {:induction false} BlurCompleteMany(rules: Rules, l: Leg, settlements: seq<Leg>, same: seq<Leg>)
    ensures M.CompleteMany(rules, Blur(l), Blurs(settlements), Blurs(same)) ==
            M.CompleteMany(rules, l, settlements, same)
  {
    hide FindSubset, M.Many, Filter;
    if settlements != [] {
      BlursSplit(settlements);
      var s := settlements[0];
      BlurFilter(same, M.PartOf(rules, s), M.PartOf(rules, Blur(s)));
      BlurCap(Filter(same, M.PartOf(rules, s)), rules.t3MaxCandidates);
      var p := M.PartPool(rules, same, s);
      BlurFindSubset(p, s.amount - l.amount, rules.Tolerance(s.amount), 1, rules.t3MaxSubset - 1);
      var rest := FindSubset(p, s.amount - l.amount, rules.Tolerance(s.amount), 1, rules.t3MaxSubset - 1);
      if rest.Some? {
        BlursAppend([l], rest.value);
        assert Blurs([l]) == [Blur(l)];
        BlurMany(s, [l] + rest.value, rules.Tolerance(s.amount));
      }
      BlurCompleteMany(rules, l, settlements[1..], same);
    }
  }

  lemma BlurTier3(rules: Rules, l: Leg, open: set<Leg>)
    requires Q.DistinctIds(open)
    ensures M.Tier3(rules, Blur(l), BlurSet(open)) == M.Tier3(rules, l, open)
  {
    hide M.OnePool, M.SumToOne, M.CompleteMany, M.Siblings, M.Settlements, M.SourcesOf;
    BlurPools(rules, l, open);
    BlurSettlements(rules, l, open);
    var pool := M.OnePool(rules, l, open);
    BlurSources(pool);
    BlurSumToOne(rules, l, pool, M.SourcesOf(pool));
    BlurCompleteMany(rules, l, M.Settlements(rules, l, open), M.Siblings(rules, l, open));
  }

  /** The same match is found whatever the ingestion times. */
  lemma FindIgnoresArrivalTimes(rules: Rules, l: Leg, open: set<Leg>, known: M.Known, known': M.Known)
    requires Q.DistinctIds(open) && forall ref, source :: known(ref, source) == known'(ref, source)
    ensures M.Find(rules, Blur(l), BlurSet(open), known') == M.Find(rules, l, open, known)
  {
    hide M.ByRefInWindow, M.Scan, M.Tier1, M.Tier2Ref, M.Tier2AmountDate, M.Tier3, Q.SameSourceInWindow;
    BlurPools(rules, l, open);
    BlurSameSource(open, l);
    BlurTier1(l, M.ByRefInWindow(rules, l, open));
    BlurTier2Ref(rules, l, M.ByRefInWindow(rules, l, open));
    BlurAmountDate(rules, l, M.Scan(rules, l, open), Q.SameSourceInWindow(open, l), known, known');
    BlurTier3(rules, l, open);
  }

  // ---------------------------------------------------------------- decisions

  function BlurProj(p: Proj): Proj { p.(legs := map id | id in p.legs :: Blur(p.legs[id])) }

  lemma BlurOpen(p: Proj)
    ensures OpenSet(BlurProj(p)) == BlurSet(OpenSet(p))
  {
    forall x | x in OpenSet(BlurProj(p)) ensures x in BlurSet(OpenSet(p)) {
      var id :| id in p.legs && p.legs[id].status == Open && Blur(p.legs[id]) == x;
      assert p.legs[id] in OpenSet(p);
    }
    forall x | x in BlurSet(OpenSet(p)) ensures x in OpenSet(BlurProj(p)) {
      var y :| y in OpenSet(p) && Blur(y) == x;
      var id :| id in p.legs && p.legs[id].status == Open && p.legs[id] == y;
      assert BlurProj(p).legs[id] == x;
    }
  }

  lemma {:induction false} BlurLookup(legs: map<Id, Leg>, ids: seq<Id>)
    ensures Lookup(map id | id in legs :: Blur(legs[id]), ids) == Blurs(Lookup(legs, ids))
  {
    if ids != [] {
      var init, last := ids[..|ids| - 1], ids[|ids| - 1];
      BlurLookup(legs, init);
      if last in legs {
        BlursAppend(Lookup(legs, init), [legs[last]]);
        assert Blurs([legs[last]]) == [Blur(legs[last])];
      }
    }
  }

  lemma BlurRelated(p: Proj, ref: string)
    ensures Related(BlurProj(p), ref) == Blurs(Related(p, ref))
  {
    BlurLookup(p.legs, RefIds(p, ref));
  }

  lemma BlurSourceIn(legs: seq<Leg>, source: string)
    ensures (exists r :: r in Blurs(legs) && r.source == source) <==> exists r :: r in legs && r.source == source
  {
    if r :| r in legs && r.source == source {
      var i :| 0 <= i < |legs| && legs[i] == r;
      assert Blurs(legs)[i] in Blurs(legs) && Blurs(legs)[i].source == source;
    }
    if r :| r in Blurs(legs) && r.source == source {
      var i :| 0 <= i < |legs| && Blurs(legs)[i] == r;
      assert legs[i] in legs && legs[i].source == source;
    }
  }

  lemma BlurKnown(p: Proj, ref: string, source: string)
    ensures KnownIn(BlurProj(p))(ref, source) == KnownIn(p)(ref, source)
  {
    hide Lookup, BlurProj;
    BlurRelated(p, ref);
    BlurSourceIn(Related(p, ref), source);
    KnownSources(p, ref, source);
    KnownSources(BlurProj(p), ref, source);
  }

  lemma KnownSources(p: Proj, ref: string, source: string)
    ensures KnownIn(p)(ref, source) <==> exists r :: r in Related(p, ref) && r.source == source
  {
    hide Lookup;
  }

  function BlurDecision(d: Decision): Decision {
    match d
    case Conflict(partners) => Conflict(Blurs(partners))
    case Heal(r) => Heal(Blur(r))
    case _ => d
  }

  /** The same outcome is decided whatever the ingestion times. */
  lemma DecideIgnoresArrivalTimes(rules: Rules, p: Proj, l: Leg)
    requires Q.DistinctIds(OpenSet(p))
    ensures Decide(rules, BlurProj(p), Blur(l)) == BlurDecision(Decide(rules, p, l))
  {
    hide M.Find, Related, Q.ByRef, OpenSet, KnownIn, First, BlurSet;
    var related := Related(p, l.txnRef);
    BlurRelated(p, l.txnRef);
    BlurFirst(related, Reuses(l), Reuses(Blur(l)));
    BlurOpen(p);
    forall ref, source ensures KnownIn(p)(ref, source) ==
        KnownIn(BlurProj(p))(ref, source) { BlurKnown(p, ref, source); }
    FindIgnoresArrivalTimes(rules, l, OpenSet(p), KnownIn(p), KnownIn(BlurProj(p)));
    BlurSameRef(OpenSet(p), l);
    BlurFirst(related, HealedBy(rules, p.breaks, l), HealedBy(rules, p.breaks, Blur(l)));
    BlurFirst(related, M.NotOfSource(l.source), M.NotOfSource(l.source));
  }

  // ---------------------------------------------------------------- reactions

  lemma BlurAdmit(p: Proj, l: Leg)
    ensures BlurProj(Admit(p, l)) == Admit(BlurProj(p), Blur(l))
  {
    var x, y := BlurProj(Admit(p, l)), Admit(BlurProj(p), Blur(l));
    assert x.legs.Keys == y.legs.Keys;
    assert forall id :: id in x.legs ==> x.legs[id] == y.legs[id];
    assert x.legs == y.legs;
  }

  lemma BlurMarkMatched(p: Proj, m: Match)
    ensures BlurProj(MarkMatched(p, m)) == MarkMatched(BlurProj(p), m)
  {
    var x, y := BlurProj(MarkMatched(p, m)), MarkMatched(BlurProj(p), m);
    assert x.legs.Keys == y.legs.Keys;
    assert forall id :: id in x.legs ==> x.legs[id] == y.legs[id];
    assert x.legs == y.legs;
  }

  lemma BlurMarkBroken(p: Proj, b: Break)
    ensures BlurProj(MarkBroken(p, b)) == MarkBroken(BlurProj(p), b)
  {
    var x, y := BlurProj(MarkBroken(p, b)), MarkBroken(BlurProj(p), b);
    assert x.legs.Keys == y.legs.Keys;
    assert forall id :: id in x.legs ==> x.legs[id] == y.legs[id];
    assert x.legs == y.legs;
  }

  lemma BlurClose(p: Proj, id: Id, reason: string, actor: string, at: Time)
    ensures BlurProj(Close(p, id, reason, actor, at)) == Close(BlurProj(p), id, reason, actor, at)
  {
  }

  /** The classifier does not read ingestion times. */
  ghost predicate Timeless(classify: Classifier) {
    forall legs, related, trigger, rules ::
      classify(ClassifyInput(Blurs(legs), Blurs(related), trigger, rules)) ==
      classify(ClassifyInput(legs, related, trigger, rules))
  }

  /** Forgets clock readings, and break labels only if the classifier may have read ingestion times. */
  ghost function Blind(cfg: Config): View { View(true, !Timeless(cfg.classify)) }

  lemma BlurNewBreak(cfg: Config, trigger: Trigger, related: seq<Leg>, legs: seq<Leg>, now: Time)
    requires legs != []
    ensures SeenBreak(Blind(cfg), NewBreak(cfg, trigger, Blurs(related), Blurs(legs), now)) ==
            SeenBreak(Blind(cfg), NewBreak(cfg, trigger, related, legs, now))
  {
    hide DeriveId;
    BlurAmounts(legs);
  }

  /** Opening a break commutes with forgetting ingestion times, except for what the classifier made of them. */
  lemma BlurBreak(cfg: Config, p: Proj, l: Leg, partners: seq<Leg>, trigger: Trigger, now: Time)
    ensures Seen(Blind(cfg), BlurProj(MarkBroken(Admit(p, l),
            NewBreak(cfg, trigger, Related(p, l.txnRef), [l] + partners, now)))) ==
            Seen(Blind(cfg), MarkBroken(Admit(BlurProj(p), Blur(l)),
            NewBreak(cfg, trigger, Related(BlurProj(p), l.txnRef), [Blur(l)] + Blurs(partners), now)))
  {
    hide Seen, SeenBreak, NewBreak, MarkBroken, Admit, Related, BlurProj;
    var related := Related(p, l.txnRef);
    BlurRelated(p, l.txnRef);
    BlursAppend([l], partners);
    assert Blurs([l]) == [Blur(l)];
    var b := NewBreak(cfg, trigger, related, [l] + partners, now);
    BlurMarkBroken(Admit(p, l), b);
    BlurAdmit(p, l);
    BlurNewBreak(cfg, trigger, related, [l] + partners, now);
    var q := Admit(BlurProj(p), Blur(l));
    BreakAgrees(Blind(cfg), q, q, b, NewBreak(cfg, trigger, Blurs(related), Blurs([l] + partners), now));
  }

  lemma BlurLateMatch(rules: Rules, l: Leg, r: Leg, now: Time)
    ensures LateMatch(rules, Blur(l), Blur(r), now) == LateMatch(rules, l, r, now)
  {
    BlurPair(l, r, TierTolerant, T2Late, TolerantConfidence(r.amount - l.amount, rules.Tolerance(l.amount)) - 50);
  }

  lemma SettleIgnoresArrivalTimes(cfg: Config, p: Proj, l: Leg, now: Time)
    requires Q.DistinctIds(OpenSet(p))
    ensures Seen(Blind(cfg), BlurProj(Settle(cfg, p, l, now, Decide(cfg.rules, p, l)))) ==
            Seen(Blind(cfg), Settle(cfg, BlurProj(p), Blur(l), now, Decide(cfg.rules, BlurProj(p), Blur(l))))
  {
    hide Seen, Decide, Related, NewBreak, MarkBroken, MarkMatched, Admit, Close, LateMatch, BlurProj, OpenSet,
         Q.DistinctIds;
    DecideIgnoresArrivalTimes(cfg.rules, p, l);
    assert Blurs([]) == [] && [l] + [] == [l] && [Blur(l)] + [] == [Blur(l)];
    BlurAdmit(p, l);
    match Decide(cfg.rules, p, l)
    case Reused => BlurBreak(cfg, p, l, [], DuplicateRef, now);
    case Join(m) => BlurMarkMatched(Admit(p, l), m.(matchedAt := now));
    case Conflict(partners) => BlurBreak(cfg, p, l, partners, RefConflict, now);
    case Heal(r) =>
      var m := LateMatch(cfg.rules, l, r, now);
      BlurLateMatch(cfg.rules, l, r, now);
      BlurMarkMatched(Admit(p, l), m);
      BlurClose(MarkMatched(Admit(p, l), m), r.breakId, LATE_REASON, SYSTEM_ACTOR, now);
    case Orphan => BlurBreak(cfg, p, l, [], RefConflict, now);
    case Wait =>
  }

  // ---------------------------------------------------------------- deliveries under any two clocks

  /** Equal but for ingestion times, match and break times, and what the classifier made of ingestion times. */
  ghost predicate Alike(cfg: Config, p: Proj, q: Proj) {
    Seen(Blind(cfg), BlurProj(p)) == Seen(Blind(cfg), BlurProj(q))
  }

  lemma AlikeKeys(cfg: Config, p: Proj, q: Proj)
    requires Alike(cfg, p, q)
    ensures p.legs.Keys == q.legs.Keys
  {
    hide Seen;
    SeenParts(Blind(cfg), BlurProj(p), BlurProj(q));
    assert BlurProj(p).legs.Keys == p.legs.Keys && BlurProj(q).legs.Keys == q.legs.Keys;
  }

  lemma SettleAlike(cfg: Config, p: Proj, q: Proj, l: Leg, l': Leg, now: Time, now': Time)
    requires Inv(p) && Inv(q) && Alike(cfg, p, q) && Blur(l) == Blur(l')
    ensures Alike(cfg, Settle(cfg, p, l, now, Decide(cfg.rules, p, l)),
                  Settle(cfg, q, l', now', Decide(cfg.rules, q, l')))
  {
    hide Seen, Settle, Decide, BlurProj, LegsPlaced, MatchesLinked, BreaksLinked, OneOpenPerRef, RefsListed, OpenSet,
         Q.DistinctIds;
    OpenMembers(p);
    OpenMembers(q);
    SettleIgnoresArrivalTimes(cfg, p, l, now);
    SettleIgnoresArrivalTimes(cfg, q, l', now');
    SettleAgrees(Blind(cfg), cfg, cfg, BlurProj(p), BlurProj(q), Blur(l), now, now');
  }

  lemma IngestAlike(cfg: Config, s: State, t: State, l: Leg, now: Time, now': Time)
    requires cfg.rules.Valid() && Inv(s.p) && Inv(t.p) && Arriving(l) && Alike(cfg, s.p, t.p)
    ensures Alike(cfg, Ingest(cfg, s, l, now, false).p, Ingest(cfg, t, l, now', false).p)
  {
    hide Ingest, Inv, Arriving, Decide, Settle, Alike, AppendEvents;
    AlikeKeys(cfg, s.p, t.p);
    IngestEffect(cfg, s, l, now, false);
    IngestEffect(cfg, t, l, now', false);
    assert l.id in s.p.legs <==> l.id in t.p.legs by { assert l.id in s.p.legs.Keys <==> l.id in t.p.legs.Keys; }
    if l.id !in s.p.legs { SettleAlike(cfg, s.p, t.p, Stamp(l, now), Stamp(l, now'), now, now'); }
  }

  lemma {:induction false} DeliverAlike(cfg: Config, s: State, legs: seq<Leg>, a: nat -> Time, b: nat -> Time)
    requires cfg.rules.Valid() && Inv(s.p) && AllArriving(legs)
    ensures Alike(cfg, Deliver(cfg, s, legs, a).p, Deliver(cfg, s, legs, b).p)
  {
    hide Ingest, Inv, Arriving, Alike;
    if legs == [] {
      AlikeSelf(cfg, s.p);
    } else {
      var init, l := legs[..|legs| - 1], legs[|legs| - 1];
      assert l in legs && legs == init + [l];
      DeliverAlike(cfg, s, init, a, b);
      DeliverStores(cfg, s, init, a);
      DeliverStores(cfg, s, init, b);
      IngestAlike(cfg, Deliver(cfg, s, init, a), Deliver(cfg, s, init, b), l, a(|legs| - 1), b(|legs| - 1));
    }
  }

  lemma AlikeSelf(cfg: Config, p: Proj)
    ensures Alike(cfg, p, p)
  {
  }

  /**
   Exactly once for every batch, with or without ingestion times on the legs: crashed and repeated
   deliveries end like any one uninterrupted delivery, except for clock readings and, when the
   classifier reads ingestion times, break labels. With ingestion times on all legs labels agree anyway.
   */
  lemma RedeliveryIsAlike(cfg: Config, s: State, batch: seq<Leg>, tries: seq<Attempt>, reference: nat -> Time)
    requires cfg.rules.Valid() && Inv(s.p) && AllArriving(batch)
    requires forall a :: a in tries ==> a.upTo <= |batch|
    requires Reach(tries) == |batch|
    ensures Alike(cfg, Attempts(cfg, s, batch, tries).p, Deliver(cfg, s, batch, reference).p)
    ensures AllStamped(batch) ==>
              Seen(TIME_BLIND, Attempts(cfg, s, batch, tries).p) ==
              Seen(TIME_BLIND, Deliver(cfg, s, batch, reference).p)
  {
    hide Seen, AllStamped, Deliver, Inv, Arriving, Alike, Business, Attempts, Reach;
    var clock := RedeliveryHasOneEffect(cfg, s, batch, tries);
    assert batch[..|batch|] == batch;
    DeliverAlike(cfg, s, batch, clock, reference);
    if AllStamped(batch) { RedeliveryMatchesAnyDelivery(cfg, s, batch, tries, reference); }
  }
}
