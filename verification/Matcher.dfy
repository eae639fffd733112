/** The matcher as it runs: loops over index queries, proved to compute the decision of `Matching`. */
module Matcher {
  import opened Sequences
  import opened Ordering
  import opened Domain
  import opened Identity
  import opened SubsetSum
  import opened OpenIndex
  import Q = OpenLegs
  import M = Matching

  method FilterLegs(legs: seq<Leg>, keep: Leg -> bool) returns (out: seq<Leg>)
    ensures out == Filter(legs, keep)
  {
    out := [];
    for i := 0 to |legs|
      invariant out == Filter(legs[..i], keep)
    {
      FilterStep(legs, keep, i);
      if keep(legs[i]) { out := out + [legs[i]]; }
    }
    assert legs[..|legs|] == legs;
  }

  method InWindow(rules: Rules, l: Leg, cands: seq<Leg>) returns (out: seq<Leg>)
    ensures out == Filter(cands, M.Near(rules, l))
  {
    out := [];
    for i := 0 to |cands|
      invariant out == Filter(cands[..i], M.Near(rules, l))
    {
      FilterStep(cands, M.Near(rules, l), i);
      if rules.WithinDateWindow(cands[i].valueDate, l.valueDate) { out := out + [cands[i]]; }
    }
    assert cands[..|cands|] == cands;
  }

  method Tier1(l: Leg, cands: seq<Leg>) returns (r: Option<Match>)
    ensures r == M.Tier1(l, cands)
  {
    for i := 0 to |cands|
      invariant forall j :: 0 <= j < i ==> !M.ExactRef(l)(cands[j])
    {
      var c := cands[i];
      if c.txnRef == l.txnRef && c.amount == l.amount {
        FirstAt(cands, M.ExactRef(l), i);
        return Some(M.Pair(l, c, TierExact, T1Exact, 1000));
      }
    }
    FirstNone(cands, M.ExactRef(l));
    return None;
  }

  method Tier2Ref(rules: Rules, l: Leg, cands: seq<Leg>) returns (r: Option<Match>)
    ensures r == M.Tier2Ref(rules, l, cands)
  {
    var best: Option<Leg> := None;
    var bestDiff := 0;
    for i := 0 to |cands|
      invariant best == M.Best(rules, l, cands[..i])
      invariant best.Some? ==> bestDiff == Abs(best.value.amount - l.amount)
    {
      assert cands[..i + 1][..i] == cands[..i];
      var c := cands[i];
      if c.txnRef == l.txnRef && rules.WithinTolerance(l.amount, c.amount) {
        var d := Abs(c.amount - l.amount);
        if best.None? || d < bestDiff {
          best, bestDiff := Some(c), d;
        }
      }
    }
    assert cands[..|cands|] == cands;
    if best.None? { return None; }
    return Some(M.Pair(l, best.value, TierTolerant, T2Tolerant,
        TolerantConfidence(bestDiff, rules.Tolerance(l.amount))));
  }

  method Tier2AmountDate(rules: Rules, l: Leg, scan: seq<Leg>, ix: Index, known: M.Known) returns (r: Option<Match>)
    requires ix.Valid()
    ensures r == M.Tier2AmountDate(rules, l, scan, Q.SameSourceInWindow(ix.Contents(), l), known)
  {
    var hit := l;
    var n := 0;
    ghost var p := M.SameAmount(l);
    for i := 0 to |scan|
      invariant n == |Filter(scan[..i], p)|
      invariant n > 0 ==> hit == Filter(scan[..i], p)[n - 1]
    {
      FilterStep(scan, p, i);
      if scan[i].amount == l.amount {
        hit := scan[i];
        n := n + 1;
      }
    }
    assert scan[..|scan|] == scan;
    if n != 1 { return None; }
    var same := ix.SameSourceInWindow(l);
    for i := 0 to |same|
      invariant forall j :: 0 <= j < i ==> !M.Rival(rules, l, hit, same[j])
    {
      if same[i].amount == l.amount && rules.WithinDateWindow(same[i].valueDate, hit.valueDate) {
        assert M.Rival(rules, l, hit, same[i]);
        return None;
      }
    }
    if known(hit.txnRef, l.source) || known(l.txnRef, hit.source) { return None; }
    return Some(M.Pair(l, hit, TierTolerant, T2AmountDate, 750));
  }

  /** Every group holds the legs of its source, in order, and none is empty. */
  ghost predicate Grouped(legs: seq<Leg>, g: map<string, seq<Leg>>) {
    && (forall src :: src in g ==> g[src] != [])
    && (forall src :: Filter(legs, M.OfSource(src)) == if src in g then g[src] else [])
  }

  lemma GroupedStep(pool: seq<Leg>, i: nat, g: map<string, seq<Leg>>, g': map<string, seq<Leg>>)
    requires i < |pool| && Grouped(pool[..i], g)
    requires var src := pool[i].source; g' == g[src := (if src in g then g[src] else []) + [pool[i]]]
    ensures Grouped(pool[..i + 1], g')
  {
    hide Filter;
    forall src ensures Filter(pool[..i + 1], M.OfSource(src)) == if src in g' then g'[src] else [] {
      FilterStep(pool, M.OfSource(src), i);
    }
  }

  lemma GroupedSources(pool: seq<Leg>, g: map<string, seq<Leg>>)
    requires Grouped(pool, g)
    ensures forall src :: src in g <==> exists c :: c in pool && c.source == src
    ensures forall src :: src in g ==> g[src] == Filter(pool, M.OfSource(src))
  {
    hide Filter;
    forall src ensures src in g <==> exists c :: c in pool && c.source == src {
      FilterMembers(pool, M.OfSource(src));
      if src in g { assert g[src][0] in Filter(pool, M.OfSource(src)); }
    }
  }

  method GroupBySource(pool: seq<Leg>) returns (g: map<string, seq<Leg>>)
    ensures forall src :: src in g <==> exists c :: c in pool && c.source == src
    ensures forall src :: src in g ==> g[src] == Filter(pool, M.OfSource(src))
  {
    hide Filter;
    FilterNothing<Leg>();
    g := map[];
    assert Grouped(pool[..0], g);
    hide Grouped;
    for i := 0 to |pool|
      invariant Grouped(pool[..i], g)
    {
      var c := pool[i];
      var group := if c.source in g then g[c.source] else [];
      ghost var before := g;
      g := g[c.source := group + [c]];
      GroupedStep(pool, i, before, g);
    }
    assert pool[..|pool|] == pool;
    GroupedSources(pool, g);
  }

  method SortedSources(g: map<string, seq<Leg>>) returns (keys: seq<string>)
    ensures keys == Canon(g.Keys, StrLess)
  {
    keys := [];
    var todo := g.Keys;
    while todo != {}
      invariant todo <= g.Keys
      invariant NoDup(keys)
      invariant forall k :: k in keys <==> k in g.Keys && k !in todo
      decreases |todo|
    {
      var k :| k in todo;
      keys := keys + [k];
      todo := todo - {k};
    }
    StrWeakOrder();
    StringsTotal(keys);
    assert SetOf(keys) == g.Keys;
    CanonUnique(keys, g.Keys, StrLess);
    keys := Sort(keys, StrLess);
  }

  /** Gathers ids and the sum of the many side in one pass. */
  method BuildMany(anchor: Leg, many: seq<Leg>, tol: int) returns (m: Match)
    ensures m == M.Many(anchor, many, tol)
  {
    var ids := [anchor.id];
    var sum := 0;
    for i := 0 to |many|
      invariant ids == [anchor.id] + M.LegIds(many[..i])
      invariant sum == SumAmounts(many[..i])
    {
      ids := ids + [many[i].id];
      sum := sum + many[i].amount;
      SumAppend(many[..i], many[i]);
      assert many[..i + 1] == many[..i] + [many[i]];
    }
    assert many[..|many|] == many;
    ids := Sort(ids, StrLess);
    var residual := sum - anchor.amount;
    m := Match(DeriveId(M.MATCH_PREFIX, ids), ids, TierManyToOne, T3Subset,
               TolerantConfidence(residual, tol) - 100, residual, anchor.currency, ZERO_TIME);
  }

  lemma {:induction false} SumAppend(s: seq<Leg>, x: Leg)
    ensures SumAmounts(s + [x]) == SumAmounts(s) + x.amount
  {
    if s == [] {
      assert s + [x] == [x];
      assert [x][1..] == [];
    } else {
      SumAppend(s[1..], x);
      assert (s + [x])[1..] == s[1..] + [x];
    }
  }

  method SumToOne(rules: Rules, l: Leg, pool: seq<Leg>) returns (r: Option<Match>)
    ensures r == M.SumToOne(rules, l, pool, M.SourcesOf(pool))
  {
    var g := GroupBySource(pool);
    var sources := SortedSources(g);
    assert g.Keys == set c | c in pool :: c.source;
    CanonMembers(g.Keys, StrLess);
    var tol := rules.Tolerance(l.amount);
    for i := 0 to |sources|
      invariant M.SumToOne(rules, l, pool, sources[i..]) == M.SumToOne(rules, l, pool, sources)
    {
      var p := M.Cap(g[sources[i]], rules.t3MaxCandidates);
      var sub := RunSubsetSum(p, l.amount, tol, 2, rules.t3MaxSubset);
      assert sources[i..][0] == sources[i] && sources[i..][1..] == sources[i + 1..];
      if sub.Some? {
        var m := BuildMany(l, sub.value, tol);
        return Some(m);
      }
    }
    return None;
  }

  lemma CompleteManyStep(rules: Rules, l: Leg, settlements: seq<Leg>, i: nat, same: seq<Leg>)
    requires i <= |settlements|
    ensures M.CompleteMany(rules, l, settlements[i..], same) ==
            if i == |settlements| then None
            else
              var s := settlements[i];
              var tol := rules.Tolerance(s.amount);
              var rest := FindSubset(M.PartPool(rules, same, s), s.amount - l.amount, tol, 1, rules.t3MaxSubset - 1);
              if M.Settles(rules, l, s) && rest.Some? then Some(M.Many(s, [l] + rest.value, tol))
              else M.CompleteMany(rules, l, settlements[i + 1..], same)
  {
    hide FindSubset, Filter, M.Many;
    if i < |settlements| { assert settlements[i..][1..] == settlements[i + 1..]; }
  }

  method CompleteMany(rules: Rules, l: Leg, settlements: seq<Leg>, same: seq<Leg>) returns (r: Option<Match>)
    ensures r == M.CompleteMany(rules, l, settlements, same)
  {
    hide M.CompleteMany, FindSubset, Filter, M.Many;
    assert settlements[0..] == settlements;
    for i := 0 to |settlements|
      invariant M.CompleteMany(rules, l, settlements[i..], same) == M.CompleteMany(rules, l, settlements, same)
    {
      var s := settlements[i];
      CompleteManyStep(rules, l, settlements, i, same);
      if s.amount <= l.amount || !rules.WithinDateWindow(s.valueDate, l.valueDate) { continue; }
      var p := FilterLegs(same, M.PartOf(rules, s));
      p := M.Cap(p, rules.t3MaxCandidates);
      var tol := rules.Tolerance(s.amount);
      var rest := RunSubsetSum(p, s.amount - l.amount, tol, 1, rules.t3MaxSubset - 1);
      if rest.Some? {
        var m := BuildMany(s, [l] + rest.value, tol);
        return Some(m);
      }
    }
    CompleteManyStep(rules, l, settlements, |settlements|, same);
    return None;
  }

  method Tier3(rules: Rules, l: Leg, scan: seq<Leg>, ix: Index) returns (r: Option<Match>)
    requires ix.Valid() && scan == M.Scan(rules, l, ix.Contents())
    ensures r == M.Tier3(rules, l, ix.Contents())
  {
    var pool := scan;
    if rules.t3RequireBatchHint {
      var batch := ix.ByBatch(l, l.SettlementKey());
      var opposite := FilterLegs(batch, M.NotOfSource(l.source));
      pool := InWindow(rules, l, opposite);
    }
    r := SumToOne(rules, l, pool);
    if r.Some? { return; }
    if rules.t3RequireBatchHint && l.Batch() == "" { return None; }
    var settlements, same := scan, [];
    if rules.t3RequireBatchHint {
      var refs := ix.RefLegs(l.Batch());
      var batch := ix.ByBatch(l, l.Batch());
      var byRef := FilterLegs(refs, M.Opposite(l));
      var byBatch := FilterLegs(batch, M.NotOfSource(l.source));
      settlements := Sort(byRef + byBatch, Q.Before);
      same := FilterLegs(batch, M.OfSource(l.source));
    } else {
      same := ix.SameSourceInWindow(l);
    }
    r := CompleteMany(rules, l, settlements, same);
  }

  /** Tiers in order; the first that yields a candidate wins. */
  method Find(rules: Rules, l: Leg, ix: Index, known: M.Known) returns (r: Option<Match>)
    requires ix.Valid()
    ensures r == M.Find(rules, l, ix.Contents(), known)
  {
    var cands := ix.CandidatesByRef(l);
    var byRef := InWindow(rules, l, cands);
    r := Tier1(l, byRef);
    if r.Some? { return; }
    r := Tier2Ref(rules, l, byRef);
    if r.Some? { return; }
    var window := ix.Candidates(l);
    var scan := InWindow(rules, l, window);
    r := Tier2AmountDate(rules, l, scan, ix, known);
    if r.Some? { return; }
    r := Tier3(rules, l, scan, ix);
  }
}
