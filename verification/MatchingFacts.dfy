/** Declarative reading of the matcher: when each tier fires, and why every match balances. */
module MatchingFacts {
  import opened Sequences
  import opened Ordering
  import opened Domain
  import opened Identity
  import opened SubsetSum
  import Q = OpenLegs
  import M = Matching

  /** The legs behind a match: a pair (arriving leg first) or an anchor with its many side. */
  datatype Grounds = PairOf(l: Leg, c: Leg) | ManyOf(anchor: Leg, many: seq<Leg>)

  /** The legs of the grounds, as a set. */
  ghost function LegsOf(g: Grounds): set<Leg> {
    match g
    case PairOf(l, c) => {l, c}
    case ManyOf(a, many) => {a} + SetOf(many)
  }

  // The words of the rule table, in the fields of legs; the matcher has its own helpers for them.

  /** Same currency and counterparty, the partition that matching never leaves. */
  ghost predicate SameBook(a: Leg, b: Leg) { a.currency == b.currency && a.counterparty == b.counterparty }

  /** At most `windowDays` days apart, both edges included. */
  ghost predicate Near(rules: Rules, a: Leg, b: Leg) {
    b.valueDate - rules.windowDays <= a.valueDate <= b.valueDate + rules.windowDays
  }

  ghost predicate SameWindow(rules: Rules, a: Leg, b: Leg) { SameBook(a, b) && Near(rules, a, b) }

  /** The batch_ref attribute, or the empty string. */
  ghost function BatchRef(l: Leg): string { if "batch_ref" in l.attrs then l.attrs["batch_ref"] else "" }

  /** The batch a settlement leg stands for: its batch_ref, else its txn_ref. */
  ghost function BatchOf(s: Leg): string { if BatchRef(s) != "" then BatchRef(s) else s.txnRef }

  /** The confidence, in thousandths, that the rule table gives to each rule. */
  ghost predicate Confident(rule: RuleId, confidence: int, residual: int, tolerance: int) {
    match rule
    case T1Exact => confidence == 1000
    case T2Tolerant => confidence == TolerantConfidence(residual, tolerance)
    case T2AmountDate => confidence == 750
    case T2Late => confidence == TolerantConfidence(residual, tolerance) - 50
    case T3Subset => confidence == TolerantConfidence(residual, tolerance) - 100
  }

  ghost predicate PairBalances(rules: Rules, m: Match, l: Leg, c: Leg) {
    && m == M.Pair(l, c, m.tier, m.rule, m.confidence).(matchedAt := m.matchedAt)
    && l.source != c.source
    && l.id != c.id
    && m.residual == c.amount - l.amount && m.currency == l.currency == c.currency
    && Confident(m.rule, m.confidence, m.residual, rules.Tolerance(l.amount))
    && match m.rule
       case T1Exact => m.tier == TierExact && l.txnRef == c.txnRef && m.residual == 0 && SameWindow(rules, l, c)
       case T2Tolerant => m.tier == TierTolerant && l.txnRef == c.txnRef
           && Abs(m.residual) <= rules.Tolerance(l.amount) && SameWindow(rules, l, c)
       case T2AmountDate => m.tier == TierTolerant && m.residual == 0 && SameWindow(rules, l, c)
       case T2Late => m.tier == TierTolerant && l.txnRef == c.txnRef && Abs(m.residual) <= rules.Tolerance(l.amount)
           && l.currency == c.currency
       case T3Subset => false
  }

  /** `c` may stand on the many side of anchor `a`. */
  ghost predicate Part(rules: Rules, a: Leg, c: Leg) {
    && SameWindow(rules, a, c) && c.source != a.source && c.id != a.id
    && (rules.t3RequireBatchHint ==> BatchRef(c) != "" && (BatchRef(c) == BatchRef(a) || BatchRef(c) == a.txnRef))
  }

  ghost predicate ManyBalances(rules: Rules, m: Match, a: Leg, many: seq<Leg>) {
    && m == M.Many(a, many, rules.Tolerance(a.amount)).(matchedAt := m.matchedAt)
    && 2 <= |many| <= rules.t3MaxSubset
    && NoDup(M.LegIds(many))
    && m.rule == T3Subset && m.residual == SumAmounts(many) - a.amount && m.currency == a.currency
    && Confident(T3Subset, m.confidence, m.residual, rules.Tolerance(a.amount))
    && (forall i :: 0 <= i < |many| ==> Part(rules, a, many[i]) && many[i].source == many[0].source)
    && Abs(m.residual) <= rules.Tolerance(a.amount)
  }

  /** The match is justified by these legs under its own rule. */
  ghost predicate Balances(rules: Rules, m: Match, g: Grounds) {
    match g
    case PairOf(l, c) => PairBalances(rules, m, l, c)
    case ManyOf(a, many) => ManyBalances(rules, m, a, many)
  }

  // ---------------------------------------------------------------- membership of the pools

  lemma ByRefMembers(rules: Rules, l: Leg, open: set<Leg>)
    ensures forall c :: c in M.ByRefInWindow(rules, l, open) <==>
                        c in open && c.txnRef == l.txnRef && c.source != l.source && SameWindow(rules, c, l)
  {
    Q.ListingFacts(set c | c in open && c.txnRef == l.txnRef && c.source != l.source && c.Key() == l.Key());
    FilterMembers(Q.CandidatesByRef(open, l), M.Near(rules, l));
  }

  lemma ScanMembers(rules: Rules, l: Leg, open: set<Leg>)
    ensures forall c :: c in M.Scan(rules, l, open) <==> c in open && c.source != l.source && SameWindow(rules, c, l)
    ensures NoDup(M.Scan(rules, l, open))
  {
    Q.ListingFacts(set c | c in open && c.Key() == l.Key() && c.source != l.source);
    FilterMembers(Q.Candidates(open, l), M.Near(rules, l));
    FilterNoDup(Q.Candidates(open, l), M.Near(rules, l));
  }

  lemma SameSourceMembers(l: Leg, open: set<Leg>)
    ensures forall c :: c in Q.SameSourceInWindow(open, l) <==>
            c in open && c.Key() == l.Key() && c.source == l.source && c.id != l.id
    ensures NoDup(Q.SameSourceInWindow(open, l))
  {
    Q.ListingFacts(set c | c in open && c.Key() == l.Key() && c.source == l.source && c.id != l.id);
  }

  lemma ByBatchMembers(l: Leg, open: set<Leg>, batch: string)
    ensures forall c :: c in Q.ByBatch(open, l, batch) <==>
                        c in open && batch != "" && c.Batch() == batch && c.id != l.id && c.Key() == l.Key()
    ensures NoDup(Q.ByBatch(open, l, batch))
  {
    Q.ListingFacts(set c | c in open && batch != "" && c.Batch() == batch && c.id != l.id && c.Key() == l.Key());
  }

  /** Two sides of the batch link: the settlement key of the anchor is the batch of the part. */
  ghost predicate Hinted(rules: Rules, anchor: Leg, part: Leg) {
    rules.t3RequireBatchHint ==> BatchRef(part) != "" && BatchRef(part) == BatchOf(anchor)
  }

  lemma OnePoolMembers(rules: Rules, l: Leg, open: set<Leg>)
    requires forall c :: c in open ==> c.id != l.id
    ensures forall c :: c in M.OnePool(rules, l, open) <==>
                        c in open && c.source != l.source && SameWindow(rules, c, l) && Hinted(rules, l, c)
    ensures NoDup(M.OnePool(rules, l, open))
  {
    if rules.t3RequireBatchHint {
      var q := Q.ByBatch(open, l, l.SettlementKey());
      ByBatchMembers(l, open, l.SettlementKey());
      FilterMembers(q, M.NotOfSource(l.source));
      FilterNoDup(q, M.NotOfSource(l.source));
      FilterMembers(Filter(q, M.NotOfSource(l.source)), M.Near(rules, l));
      FilterNoDup(Filter(q, M.NotOfSource(l.source)), M.Near(rules, l));
    } else {
      ScanMembers(rules, l, open);
    }
  }

  ghost predicate BatchSettlement(l: Leg, s: Leg) {
    s.source != l.source && SameBook(s, l) && (s.txnRef == BatchRef(l) || BatchRef(s) == BatchRef(l))
  }

  lemma HintedSettlements(rules: Rules, l: Leg, open: set<Leg>)
    requires forall c :: c in open ==> c.id != l.id
    requires rules.t3RequireBatchHint && l.Batch() != ""
    ensures forall s :: s in M.Settlements(rules, l, open) <==> s in open && BatchSettlement(l, s)
  {
    var refs, batch := Q.RefLegs(open, l.Batch()), Q.ByBatch(open, l, l.Batch());
    Q.ListingFacts(set c | c in open && c.txnRef == l.Batch());
    ByBatchMembers(l, open, l.Batch());
    var a, b := Filter(refs, M.Opposite(l)), Filter(batch, M.NotOfSource(l.source));
    FilterMembers(refs, M.Opposite(l));
    FilterMembers(batch, M.NotOfSource(l.source));
    assert forall s :: s in a <==> s in open && s.txnRef == l.Batch() && s.source != l.source && s.Key() == l.Key();
    assert forall s :: s in b <==> s in open && s.Batch() == l.Batch() && s.source != l.source && s.Key() == l.Key();
    SortPermutes(a + b, Q.Before);
    forall s ensures s in M.Settlements(rules, l, open) <==> s in open && BatchSettlement(l, s) {
      assert s in M.Settlements(rules, l, open) <==> s in a + b;
    }
  }

  lemma SiblingsMembers(rules: Rules, l: Leg, open: set<Leg>)
    requires forall c :: c in open ==> c.id != l.id
    requires rules.t3RequireBatchHint ==> l.Batch() != ""
    ensures forall c :: c in M.Siblings(rules, l, open) <==>
                        c in open && c.source == l.source && c.Key() == l.Key()
                            && (rules.t3RequireBatchHint ==> c.Batch() == l.Batch())
    ensures NoDup(M.Siblings(rules, l, open))
  {
    if rules.t3RequireBatchHint {
      var batch := Q.ByBatch(open, l, l.Batch());
      ByBatchMembers(l, open, l.Batch());
      FilterMembers(batch, M.OfSource(l.source));
      FilterNoDup(batch, M.OfSource(l.source));
    } else {
      SameSourceMembers(l, open);
    }
  }

  // ---------------------------------------------------------------- every match balances

  /** The arriving leg is new and open legs have distinct ids. */
  ghost predicate Arrives(l: Leg, open: set<Leg>) {
    Q.DistinctIds(open) && forall c :: c in open ==> c.id != l.id
  }

  lemma CapFacts(legs: seq<Leg>, n: int)
    requires NoDup(legs)
    ensures NoDup(M.Cap(legs, n)) && forall x :: x in M.Cap(legs, n) ==> x in legs
    ensures n >= 0 ==> |M.Cap(legs, n)| <= n
    ensures |legs| <= n ==> M.Cap(legs, n) == legs
  {
  }

  lemma IdsNoDup(legs: seq<Leg>, open: set<Leg>)
    requires NoDup(legs) && Q.DistinctIds(open) && forall x :: x in legs ==> x in open
    ensures NoDup(M.LegIds(legs))
  {
    forall i, j | 0 <= i < j < |legs| ensures legs[i].id != legs[j].id {
      assert legs[i] in open && legs[j] in open;
    }
  }

  lemma Tier1Balances(rules: Rules, l: Leg, open: set<Leg>) returns (c: Leg)
    requires Arrives(l, open)
    requires M.Tier1(l, M.ByRefInWindow(rules, l, open)).Some?
    ensures c in open && PairBalances(rules, M.Tier1(l, M.ByRefInWindow(rules, l, open)).value, l, c)
  {
    var cands := M.ByRefInWindow(rules, l, open);
    var i := FirstPosition(cands, M.ExactRef(l));
    c := cands[i];
    ByRefMembers(rules, l, open);
    assert c in cands;
  }

  /** The best candidate has the smallest residual, and comes first among equals. */
  lemma {:induction false} BestIsMinimal(rules: Rules, l: Leg, cands: seq<Leg>) returns (k: nat)
    ensures M.Best(rules, l, cands).None? ==> forall c :: c in cands ==> !M.RefWithinTolerance(rules, l, c)
    ensures M.Best(rules, l, cands).Some? ==>
              && k < |cands| && M.Best(rules, l, cands).value == cands[k] && M.RefWithinTolerance(rules, l, cands[k])
              && (forall j :: 0 <= j < k && M.RefWithinTolerance(rules, l, cands[j]) ==>
                    Abs(cands[k].amount - l.amount) < Abs(cands[j].amount - l.amount))
              && (forall j :: k <= j < |cands| && M.RefWithinTolerance(rules, l, cands[j]) ==>
                    Abs(cands[k].amount - l.amount) <= Abs(cands[j].amount - l.amount))
  {
    k := 0;
    if cands != [] {
      var n := |cands| - 1;
      var init := cands[..n];
      var b := M.Best(rules, l, init);
      k := BestIsMinimal(rules, l, init);
      assert cands == init + [cands[n]];
      if M.RefWithinTolerance(rules, l, cands[n])
          && (b.None? || Abs(cands[n].amount - l.amount) < Abs(b.value.amount - l.amount)) {
        forall j | 0 <= j < n && M.RefWithinTolerance(rules, l, cands[j])
          ensures Abs(cands[n].amount - l.amount) < Abs(cands[j].amount - l.amount)
        {
          assert init[j] == cands[j] && init[j] in init;
          if b.Some? { assert Abs(init[k].amount - l.amount) <= Abs(init[j].amount - l.amount); }
        }
        k := n;
      }
    }
  }

  lemma Tier2RefBalances(rules: Rules, l: Leg, open: set<Leg>) returns (c: Leg)
    requires Arrives(l, open)
    requires M.Tier2Ref(rules, l, M.ByRefInWindow(rules, l, open)).Some?
    ensures c in open && PairBalances(rules, M.Tier2Ref(rules, l, M.ByRefInWindow(rules, l, open)).value, l, c)
  {
    var cands := M.ByRefInWindow(rules, l, open);
    var k := BestIsMinimal(rules, l, cands);
    c := cands[k];
    ByRefMembers(rules, l, open);
    assert c in cands;
  }

  lemma AmountDateBalances(rules: Rules, l: Leg, open: set<Leg>, known: M.Known) returns (c: Leg)
    requires Arrives(l, open)
    requires M.Tier2AmountDate(rules, l, M.Scan(rules, l, open), Q.SameSourceInWindow(open, l), known).Some?
    ensures c in open && PairBalances(rules, M.Tier2AmountDate(rules, l, M.Scan(rules, l, open),
            Q.SameSourceInWindow(open, l), known).value, l, c)
  {
    var scan := M.Scan(rules, l, open);
    ScanMembers(rules, l, open);
    FilterMembers(scan, M.SameAmount(l));
    c := Filter(scan, M.SameAmount(l))[0];
    assert c in Filter(scan, M.SameAmount(l));
  }

  lemma {:induction false} SumToOneBalances(rules: Rules, l: Leg, open: set<Leg>, pool: seq<Leg>,
      sources: seq<string>) returns (many: seq<Leg>)
    requires rules.Valid() && Arrives(l, open) && NoDup(pool)
    requires forall c :: c in pool ==> c in open && Part(rules, l, c)
    requires M.SumToOne(rules, l, pool, sources).Some?
    ensures forall x :: x in many ==> x in open
    ensures ManyBalances(rules, M.SumToOne(rules, l, pool, sources).value, l, many)
  {
    var tol := rules.Tolerance(l.amount);
    var p := M.SourcePool(rules, pool, sources[0]);
    var sub := FindSubset(p, l.amount, tol, 2, rules.t3MaxSubset);
    if sub.Some? {
      many := sub.value;
      var group := Filter(pool, M.OfSource(sources[0]));
      FilterNoDup(pool, M.OfSource(sources[0]));
      FilterMembers(pool, M.OfSource(sources[0]));
      CapFacts(group, rules.t3MaxCandidates);
      FindSubsetSound(p, l.amount, tol, 2, rules.t3MaxSubset);
      forall i | 0 <= i < |many| ensures many[i] in open && Part(rules, l, many[i]) && many[i].source == sources[0] {
        assert many[i] in many;
      }
      IdsNoDup(many, open);
    } else {
      many := SumToOneBalances(rules, l, open, pool, sources[1..]);
    }
  }

  /** `c` is open and could stand beside `l` on the many side. */
  ghost predicate Sibling(rules: Rules, l: Leg, c: Leg, open: set<Leg>) {
    && c in open && c.source == l.source && SameBook(c, l)
    && (rules.t3RequireBatchHint ==> BatchRef(c) == BatchRef(l))
  }

  /** `s` is open and could be the settlement leg that `l` completes. */
  ghost predicate Settlement(rules: Rules, l: Leg, s: Leg, open: set<Leg>) {
    && s in open && s.source != l.source && SameBook(s, l)
    && (rules.t3RequireBatchHint ==> BatchRef(l) != "" && BatchSettlement(l, s))
  }

  ghost predicate SiblingNear(rules: Rules, l: Leg, s: Leg, c: Leg, open: set<Leg>) {
    Sibling(rules, l, c, open) && Near(rules, c, s)
  }

  /** What the search contributes beside `l` towards settlement `s`. */
  ghost predicate Completes(rules: Rules, l: Leg, s: Leg, rest: seq<Leg>, open: set<Leg>) {
    && NoDup(rest) && 1 <= |rest| <= rules.t3MaxSubset - 1
    && (forall c :: c in rest ==> SiblingNear(rules, l, s, c, open))
    && Abs(SumAmounts(rest) - (s.amount - l.amount)) <= rules.Tolerance(s.amount)
  }

  lemma FoundCompletes(rules: Rules, l: Leg, open: set<Leg>, same: seq<Leg>, s: Leg)
    requires NoDup(same) && forall c :: c in same ==> Sibling(rules, l, c, open)
    requires FindSubset(M.PartPool(rules, same, s), s.amount - l.amount, rules.Tolerance(s.amount), 1,
             rules.t3MaxSubset - 1).Some?
    ensures Completes(rules, l, s, FindSubset(M.PartPool(rules, same, s), s.amount - l.amount,
            rules.Tolerance(s.amount), 1, rules.t3MaxSubset - 1).value, open)
  {
    PartPoolFacts(rules, l, open, same, s);
    FindSubsetSound(M.PartPool(rules, same, s), s.amount - l.amount, rules.Tolerance(s.amount), 1,
        rules.t3MaxSubset - 1);
  }

  lemma PartPoolFacts(rules: Rules, l: Leg, open: set<Leg>, same: seq<Leg>, s: Leg)
    requires NoDup(same) && forall c :: c in same ==> Sibling(rules, l, c, open)
    ensures NoDup(M.PartPool(rules, same, s))
    ensures forall c :: c in M.PartPool(rules, same, s) ==> SiblingNear(rules, l, s, c, open)
  {
    FilterNoDup(same, M.PartOf(rules, s));
    FilterMembers(same, M.PartOf(rules, s));
    CapFacts(Filter(same, M.PartOf(rules, s)), rules.t3MaxCandidates);
  }

  lemma {:induction false} CompleteManyBalances(rules: Rules, l: Leg, open: set<Leg>, settlements: seq<Leg>,
      same: seq<Leg>)
    returns (s: Leg, rest: seq<Leg>)
    requires rules.Valid() && Arrives(l, open)
    requires NoDup(same) && forall c :: c in same ==> Sibling(rules, l, c, open)
    requires forall c :: c in settlements ==> Settlement(rules, l, c, open)
    requires M.CompleteMany(rules, l, settlements, same).Some?
    ensures s in open && forall x :: x in rest ==> x in open
    ensures ManyBalances(rules, M.CompleteMany(rules, l, settlements, same).value, s, [l] + rest)
  {
    hide ManyBalances, M.Many, FindSubset, SumAmounts;
    s := settlements[0];
    var found := FindSubset(M.PartPool(rules, same, s), s.amount - l.amount, rules.Tolerance(s.amount), 1,
        rules.t3MaxSubset - 1);
    if M.Settles(rules, l, s) && found.Some? {
      rest := found.value;
      FoundCompletes(rules, l, open, same, s);
      CompletedBalances(rules, l, open, s, rest);
    } else {
      s, rest := CompleteManyBalances(rules, l, open, settlements[1..], same);
    }
  }

  lemma CompletedParts(rules: Rules, l: Leg, open: set<Leg>, s: Leg, rest: seq<Leg>)
    requires Arrives(l, open) && Completes(rules, l, s, rest, open)
    requires Settlement(rules, l, s, open) && M.Settles(rules, l, s)
    ensures NoDup(M.LegIds([l] + rest))
    ensures forall i :: 0 <= i < |[l] + rest| ==> Part(rules, s, ([l] + rest)[i]) && ([l] + rest)[i].source == l.source
  {
    var many := [l] + rest;
    forall c | c in rest ensures c in open { assert SiblingNear(rules, l, s, c, open); }
    IdsNoDup(rest, open);
    var ids := M.LegIds(rest);
    forall i | 0 < i < |many| ensures many[i] == rest[i - 1] && many[i].id == ids[i - 1]
        && SiblingNear(rules, l, s, many[i], open) {
      assert rest[i - 1] in rest;
    }
    forall i | 0 <= i < |many| ensures Part(rules, s, many[i]) && many[i].source == l.source {
    }
    forall i, j | 0 <= i < j < |many| ensures many[i].id != many[j].id {
      if i > 0 { assert ids[i - 1] != ids[j - 1]; }
    }
  }

  lemma CompletedBalances(rules: Rules, l: Leg, open: set<Leg>, s: Leg, rest: seq<Leg>)
    requires Arrives(l, open) && Completes(rules, l, s, rest, open)
    requires Settlement(rules, l, s, open) && M.Settles(rules, l, s)
    ensures ManyBalances(rules, M.Many(s, [l] + rest, rules.Tolerance(s.amount)), s, [l] + rest)
  {
    CompletedParts(rules, l, open, s, rest);
    CompletedSum(rules, l, s, rest);
  }

  lemma CompletedSum(rules: Rules, l: Leg, s: Leg, rest: seq<Leg>)
    requires Abs(SumAmounts(rest) - (s.amount - l.amount)) <= rules.Tolerance(s.amount)
    ensures Abs(SumAmounts([l] + rest) - s.amount) <= rules.Tolerance(s.amount)
  {
    assert ([l] + rest)[1..] == rest;
  }

  lemma SettlementsFacts(rules: Rules, l: Leg, open: set<Leg>)
    requires Arrives(l, open) && (rules.t3RequireBatchHint ==> l.Batch() != "")
    ensures forall s :: s in M.Settlements(rules, l, open) ==> Settlement(rules, l, s, open)
  {
    if rules.t3RequireBatchHint { HintedSettlements(rules, l, open); } else { ScanMembers(rules, l, open); }
  }

  lemma OnePoolParts(rules: Rules, l: Leg, open: set<Leg>)
    requires Arrives(l, open)
    ensures NoDup(M.OnePool(rules, l, open))
    ensures forall c :: c in M.OnePool(rules, l, open) ==> c in open && Part(rules, l, c)
  {
    OnePoolMembers(rules, l, open);
  }

  lemma Tier3Balances(rules: Rules, l: Leg, open: set<Leg>) returns (g: Grounds)
    requires rules.Valid() && Arrives(l, open)
    requires M.Tier3(rules, l, open).Some?
    ensures Balances(rules, M.Tier3(rules, l, open).value, g)
    ensures LegsOf(g) <= open + {l} && l in LegsOf(g) && g.ManyOf?
  {
    var pool := M.OnePool(rules, l, open);
    if M.SumToOne(rules, l, pool, M.SourcesOf(pool)).Some? {
      OnePoolParts(rules, l, open);
      var many := SumToOneBalances(rules, l, open, pool, M.SourcesOf(pool));
      g := ManyOf(l, many);
    } else {
      SiblingsMembers(rules, l, open);
      SettlementsFacts(rules, l, open);
      var s, rest := CompleteManyBalances(rules, l, open, M.Settlements(rules, l, open), M.Siblings(rules, l, open));
      g := ManyOf(s, [l] + rest);
      assert l in [l] + rest;
    }
  }

  /** Whatever tier hits, the match balances under its own rule, from the arriving leg and open legs. */
  lemma FindBalances(rules: Rules, l: Leg, open: set<Leg>, known: M.Known) returns (g: Grounds)
    requires rules.Valid() && Arrives(l, open)
    requires M.Find(rules, l, open, known).Some?
    ensures Balances(rules, M.Find(rules, l, open, known).value, g)
    ensures LegsOf(g) <= open + {l} && l in LegsOf(g)
    ensures g.PairOf? ==> g.l == l && M.Find(rules, l, open, known).value.rule in {T1Exact, T2Tolerant, T2AmountDate}
  {
    var byRef := M.ByRefInWindow(rules, l, open);
    if M.Tier1(l, byRef).Some? {
      var c := Tier1Balances(rules, l, open);
      g := PairOf(l, c);
    } else if M.Tier2Ref(rules, l, byRef).Some? {
      var c := Tier2RefBalances(rules, l, open);
      g := PairOf(l, c);
    } else if M.Tier2AmountDate(rules, l, M.Scan(rules, l, open), Q.SameSourceInWindow(open, l), known).Some? {
      var c := AmountDateBalances(rules, l, open, known);
      g := PairOf(l, c);
    } else {
      g := Tier3Balances(rules, l, open);
    }
  }

  function RawIds(g: Grounds): seq<Id> {
    match g case PairOf(l, c) => [l.id, c.id] case ManyOf(a, many) => [a.id] + M.LegIds(many)
  }

  lemma IdMembers(legs: seq<Leg>)
    ensures forall x :: x in legs ==> x.id in M.LegIds(legs)
    ensures forall id :: id in M.LegIds(legs) ==> exists x :: x in legs && x.id == id
  {
    var ids := M.LegIds(legs);
    forall x | x in legs ensures x.id in ids {
      var i :| 0 <= i < |legs| && legs[i] == x;
      assert ids[i] == x.id;
    }
    forall id | id in ids ensures exists x :: x in legs && x.id == id {
      var i :| 0 <= i < |ids| && ids[i] == id;
      assert legs[i] in legs;
    }
  }

  lemma RawIdMembers(g: Grounds)
    ensures forall x :: x in LegsOf(g) ==> x.id in RawIds(g)
    ensures forall id :: id in RawIds(g) ==> exists x :: x in LegsOf(g) && x.id == id
  {
    match g
    case PairOf(l, c) =>
      assert l in LegsOf(g) && c in LegsOf(g);
    case ManyOf(a, many) =>
      IdMembers(many);
      assert a in LegsOf(g);
      forall id | id in RawIds(g) ensures exists x :: x in LegsOf(g) && x.id == id {
        if id in M.LegIds(many) {
          var x :| x in many && x.id == id;
          assert x in LegsOf(g);
        }
      }
  }

  lemma RawIdsNoDup(rules: Rules, m: Match, g: Grounds)
    requires Balances(rules, m, g)
    ensures NoDup(RawIds(g)) && |RawIds(g)| >= 2
    ensures m.legIds == Sort(RawIds(g), StrLess)
  {
    if g.ManyOf? {
      var ids := M.LegIds(g.many);
      forall i | 0 <= i < |ids| ensures ids[i] != g.anchor.id { assert Part(rules, g.anchor, g.many[i]); }
    }
  }

  /** The ids of a balanced match are exactly the ids of its grounds, each once. */
  lemma GroundsIds(rules: Rules, m: Match, g: Grounds)
    requires Balances(rules, m, g)
    ensures NoDup(m.legIds) && |m.legIds| >= 2
    ensures forall x :: x in LegsOf(g) ==> x.id in m.legIds
    ensures forall id :: id in m.legIds ==> exists x :: x in LegsOf(g) && x.id == id
    ensures m.id == DeriveId("m", m.legIds) && Sorted(m.legIds, StrLess)
  {
    var raw := RawIds(g);
    RawIdsNoDup(rules, m, g);
    StrWeakOrder();
    SortSorted(raw, StrLess);
    SortPermutes(raw, StrLess);
    NoDupMultiset(raw);
    MultisetNoDup(m.legIds, SetOf(raw));
    RawIdMembers(g);
  }

  // ---------------------------------------------------------------- when each tier fires

  ghost predicate RefPartner(rules: Rules, l: Leg, c: Leg, open: set<Leg>) {
    c in open && c.txnRef == l.txnRef && c.source != l.source && SameWindow(rules, c, l)
  }

  ghost predicate ExactPartner(rules: Rules, l: Leg, c: Leg, open: set<Leg>) {
    RefPartner(rules, l, c, open) && c.amount == l.amount
  }

  ghost predicate TolerantPartner(rules: Rules, l: Leg, c: Leg, open: set<Leg>) {
    RefPartner(rules, l, c, open) && Abs(c.amount - l.amount) <= rules.Tolerance(l.amount)
  }

  ghost predicate AmountPartner(rules: Rules, l: Leg, c: Leg, open: set<Leg>) {
    c in open && c.amount == l.amount && c.source != l.source && SameWindow(rules, c, l)
  }

  /**
   `c` is the only open opposite leg of this amount, no own-source leg could claim it, and neither ref
   is known across.
   */
  ghost predicate SolePartner(rules: Rules, l: Leg, c: Leg, open: set<Leg>, known: M.Known) {
    && AmountPartner(rules, l, c, open)
    && (forall d :: AmountPartner(rules, l, d, open) ==> d == c)
    && (forall s :: s in open && s.source == l.source && SameBook(s, l) && s.id != l.id ==>
        !(s.amount == l.amount && Near(rules, s, c)))
    && !known(c.txnRef, l.source) && !known(l.txnRef, c.source)
  }

  ghost predicate Fires(rules: Rules, l: Leg, open: set<Leg>, known: M.Known, rule: RuleId) {
    M.Find(rules, l, open, known).Some? && M.Find(rules, l, open, known).value.rule == rule
  }

  ghost predicate AnyExact(rules: Rules, l: Leg, open: set<Leg>) {
    exists c :: ExactPartner(rules, l, c, open)
  }

  ghost predicate AnyTolerant(rules: Rules, l: Leg, open: set<Leg>) {
    exists c :: TolerantPartner(rules, l, c, open)
  }

  lemma Tier1Iff(rules: Rules, l: Leg, open: set<Leg>)
    ensures M.Tier1(l, M.ByRefInWindow(rules, l, open)).Some? <==> AnyExact(rules, l, open)
  {
    var cands := M.ByRefInWindow(rules, l, open);
    ByRefMembers(rules, l, open);
    if M.Tier1(l, cands).Some? {
      var i := FirstPosition(cands, M.ExactRef(l));
      assert cands[i] in cands;
      assert ExactPartner(rules, l, cands[i], open);
    } else {
      FirstMisses(cands, M.ExactRef(l));
      forall c | c in cands ensures !ExactPartner(rules, l, c, open) { assert !M.ExactRef(l)(c); }
    }
  }

  /** The tolerant tier picks the smallest residual and breaks ties by canonical order. */
  lemma Tier2RefIff(rules: Rules, l: Leg, open: set<Leg>) returns (best: Leg)
    requires Arrives(l, open)
    ensures M.Tier2Ref(rules, l, M.ByRefInWindow(rules, l, open)).Some? <==> AnyTolerant(rules, l, open)
    ensures AnyTolerant(rules, l, open) ==>
              && TolerantPartner(rules, l, best, open)
              && M.Best(rules, l, M.ByRefInWindow(rules, l, open)) == Some(best)
              && (forall c :: TolerantPartner(rules, l, c, open) ==>
                    && Abs(best.amount - l.amount) <= Abs(c.amount - l.amount)
                    && (c != best && Abs(best.amount - l.amount) == Abs(c.amount - l.amount) ==> !Q.Before(c, best)))
  {
    hide M.ByRefInWindow, M.Best, M.Pair;
    var cands := M.ByRefInWindow(rules, l, open);
    ByRefMembers(rules, l, open);
    var k := BestIsMinimal(rules, l, cands);
    forall c | TolerantPartner(rules, l, c, open) ensures c in cands && M.RefWithinTolerance(rules, l, c) {}
    best := l;
    if M.Best(rules, l, cands).Some? {
      best := cands[k];
      assert best in cands;
      assert TolerantPartner(rules, l, best, open);
      CanonicalCandidates(rules, l, open);
      forall c | TolerantPartner(rules, l, c, open)
        ensures Abs(best.amount - l.amount) <= Abs(c.amount - l.amount)
        ensures c != best && Abs(best.amount - l.amount) == Abs(c.amount - l.amount) ==> !Q.Before(c, best)
      {
        var j :| 0 <= j < |cands| && cands[j] == c;
      }
    }
  }

  lemma CanonicalCandidates(rules: Rules, l: Leg, open: set<Leg>)
    ensures Sorted(M.ByRefInWindow(rules, l, open), Q.Before)
  {
    Q.ListingFacts(set c | c in open && c.txnRef == l.txnRef && c.source != l.source && c.Key() == l.Key());
    FilterSorted(Q.CandidatesByRef(open, l), M.Near(rules, l));
  }

  lemma {:induction false} FilterSorted(s: seq<Leg>, p: Leg -> bool)
    requires Sorted(s, Q.Before)
    ensures Sorted(Filter(s, p), Q.Before)
  {
    if s != [] {
      var init := s[..|s| - 1];
      FilterSorted(init, p);
      FilterMembers(init, p);
      var f := Filter(init, p);
      forall j | 0 <= j < |f| ensures !Q.Before(s[|s| - 1], f[j]) {
        assert f[j] in f;
        var i :| 0 <= i < |init| && init[i] == f[j];
        assert s[i] == f[j];
      }
    }
  }

  lemma AmountDateIff(rules: Rules, l: Leg, open: set<Leg>, known: M.Known)
    ensures M.Tier2AmountDate(rules, l, M.Scan(rules, l, open), Q.SameSourceInWindow(open, l), known).Some? <==>
            exists c :: SolePartner(rules, l, c, open, known)
  {
    var scan, same := M.Scan(rules, l, open), Q.SameSourceInWindow(open, l);
    var hits := Filter(scan, M.SameAmount(l));
    ScanMembers(rules, l, open);
    SameSourceMembers(l, open);
    FilterMembers(scan, M.SameAmount(l));
    FilterNoDup(scan, M.SameAmount(l));
    assert forall c :: c in hits <==> AmountPartner(rules, l, c, open);
    if |hits| == 1 {
      assert hits[0] in hits;
      assert forall c :: c in hits ==> c == hits[0];
      assert M.AnyRival(rules, l, hits[0], same) <==>
             exists s :: s in open && s.source == l.source && s.Key() == l.Key() && s.id != l.id
                 && M.Rival(rules, l, hits[0], s);
      assert M.Tier2AmountDate(rules, l, scan, same, known).Some? <==> SolePartner(rules, l, hits[0], open, known);
    } else {
      forall c | c in hits ensures !SolePartner(rules, l, c, open, known) {
        assert hits[0] in hits && hits[1] in hits && hits[0] != hits[1];
      }
    }
  }

  lemma Tier3Rule(rules: Rules, l: Leg, open: set<Leg>)
    requires rules.Valid() && Arrives(l, open)
    ensures M.Tier3(rules, l, open).Some? ==> M.Tier3(rules, l, open).value.rule == T3Subset
  {
    if M.Tier3(rules, l, open).Some? {
      var g := Tier3Balances(rules, l, open);
    }
  }

  ghost predicate AnySole(rules: Rules, l: Leg, open: set<Leg>, known: M.Known) {
    exists c :: SolePartner(rules, l, c, open, known)
  }

  lemma FirstTierWins(a: Option<Match>, b: Option<Match>, c: Option<Match>, d: Option<Match>)
    requires a.Some? ==> a.value.rule == T1Exact
    requires b.Some? ==> b.value.rule == T2Tolerant
    requires c.Some? ==> c.value.rule == T2AmountDate
    requires d.Some? ==> d.value.rule == T3Subset
    ensures var r := M.OrElse(a, M.OrElse(b, M.OrElse(c, d)));
            && (r.Some? && r.value.rule == T1Exact <==> a.Some?)
            && (r.Some? && r.value.rule == T2Tolerant <==> a.None? && b.Some?)
            && (r.Some? && r.value.rule == T2AmountDate <==> a.None? && b.None? && c.Some?)
            && (r.Some? && r.value.rule == T3Subset <==> a.None? && b.None? && c.None? && d.Some?)
            && !(r.Some? && r.value.rule == T2Late)
  {
  }

  /**
   First tier wins: which rule fires is decided by the open legs alone. When the subset tier hits is
   said by SubsetTier.SubsetTierIff, and by SubsetRuleFiresIff without reference to the tier.
   */
  lemma FindRefinesTiers(rules: Rules, l: Leg, open: set<Leg>, known: M.Known)
    requires rules.Valid() && Arrives(l, open)
    ensures Fires(rules, l, open, known, T1Exact) <==> AnyExact(rules, l, open)
    ensures Fires(rules, l, open, known, T2Tolerant) <==> !AnyExact(rules, l, open) && AnyTolerant(rules, l, open)
    ensures Fires(rules, l, open, known, T2AmountDate) <==>
            !AnyExact(rules, l, open) && !AnyTolerant(rules, l, open) && AnySole(rules, l, open, known)
    ensures Fires(rules, l, open, known, T3Subset) <==>
            && !AnyExact(rules, l, open) && !AnyTolerant(rules, l, open) && !AnySole(rules, l, open, known)
            && M.Tier3(rules, l, open).Some?
    ensures !Fires(rules, l, open, known, T2Late)
  {
    var byRef := M.ByRefInWindow(rules, l, open);
    var c := M.Tier2AmountDate(rules, l, M.Scan(rules, l, open), Q.SameSourceInWindow(open, l), known);
    Tier1Iff(rules, l, open);
    var best := Tier2RefIff(rules, l, open);
    assert c.Some? <==> AnySole(rules, l, open, known) by { AmountDateIff(rules, l, open, known); }
    Tier3Rule(rules, l, open);
    FirstTierWins(M.Tier1(l, byRef), M.Tier2Ref(rules, l, byRef), c, M.Tier3(rules, l, open));
  }

  // ---------------------------------------------------------------- which partner a pair rule takes

  /** The exact tier takes the first exact partner in canonical order. */
  lemma Tier1Choice(rules: Rules, l: Leg, open: set<Leg>) returns (c: Leg)
    requires M.Tier1(l, M.ByRefInWindow(rules, l, open)).Some?
    ensures M.Tier1(l, M.ByRefInWindow(rules, l, open)) == Some(M.Pair(l, c, TierExact, T1Exact, 1000))
    ensures ExactPartner(rules, l, c, open) && forall d :: ExactPartner(rules, l, d, open) ==> !Q.Before(d, c)
  {
    hide M.ByRefInWindow, M.Pair, Q.Before;
    var cands := M.ByRefInWindow(rules, l, open);
    ByRefMembers(rules, l, open);
    CanonicalCandidates(rules, l, open);
    Q.BeforeWeakOrder();
    var i := FirstPosition(cands, M.ExactRef(l));
    c := cands[i];
    assert c in cands;
    forall d | ExactPartner(rules, l, d, open) ensures !Q.Before(d, c) {
      var j :| 0 <= j < |cands| && cands[j] == d;
      assert M.ExactRef(l)(cands[j]);
    }
  }

  lemma AmountDateChoice(rules: Rules, l: Leg, open: set<Leg>, known: M.Known) returns (c: Leg)
    requires M.Tier2AmountDate(rules, l, M.Scan(rules, l, open), Q.SameSourceInWindow(open, l), known).Some?
    ensures M.Tier2AmountDate(rules, l, M.Scan(rules, l, open), Q.SameSourceInWindow(open, l), known) ==
            Some(M.Pair(l, c, TierTolerant, T2AmountDate, 750))
    ensures SolePartner(rules, l, c, open, known)
  {
    hide M.Scan, Q.SameSourceInWindow, M.Pair;
    var hits := Filter(M.Scan(rules, l, open), M.SameAmount(l));
    ScanMembers(rules, l, open);
    SameSourceMembers(l, open);
    FilterMembers(M.Scan(rules, l, open), M.SameAmount(l));
    c := hits[0];
    assert c in hits;
    forall d | AmountPartner(rules, l, d, open) ensures d == c { assert d in hits; }
    forall s | s in open && s.source == l.source && SameBook(s, l) && s.id != l.id
      ensures !(s.amount == l.amount && Near(rules, s, c))
    {
      assert !M.Rival(rules, l, c, s);
    }
  }

  /** The partner a pair match is made of, and why it is that one. */
  ghost predicate PairChosen(rules: Rules, l: Leg, open: set<Leg>, known: M.Known, m: Match, c: Leg) {
    match m.rule
    case T1Exact => ExactPartner(rules, l, c, open) && forall d :: ExactPartner(rules, l, d, open) ==> !Q.Before(d, c)
    case T2Tolerant =>
      && TolerantPartner(rules, l, c, open)
      && forall d :: TolerantPartner(rules, l, d, open) && d != c ==>
           || Abs(c.amount - l.amount) < Abs(d.amount - l.amount)
           || (Abs(c.amount - l.amount) == Abs(d.amount - l.amount) && !Q.Before(d, c))
    case T2AmountDate => SolePartner(rules, l, c, open, known)
    case _ => true
  }

  /** The match of a pair rule is made of the arriving leg and the partner that the rule table prefers. */
  lemma PairRuleChoice(rules: Rules, l: Leg, open: set<Leg>, known: M.Known) returns (c: Leg)
    requires rules.Valid() && Arrives(l, open) && M.Find(rules, l, open, known).Some?
    ensures var m := M.Find(rules, l, open, known).value;
            && (m.rule != T3Subset ==> c in open && PairBalances(rules, m, l, c))
            && PairChosen(rules, l, open, known, m, c)
            && (m.rule == T3Subset ==> M.Tier3(rules, l, open) == Some(m))
  {
    hide M.ByRefInWindow, M.Pair, M.Tier1, M.Tier2Ref, M.Tier2AmountDate, M.Tier3, M.Scan, Q.SameSourceInWindow,
         Q.Before, SameWindow;
    var byRef := M.ByRefInWindow(rules, l, open);
    c := l;
    if M.Tier1(l, byRef).Some? {
      c := Tier1Choice(rules, l, open);
      PairMade(rules, l, c, TierExact, T1Exact, 1000);
    } else if M.Tier2Ref(rules, l, byRef).Some? {
      c := Tier2RefIff(rules, l, open);
      TolerantMade(rules, l, byRef, c);
    } else if M.Tier2AmountDate(rules, l, M.Scan(rules, l, open), Q.SameSourceInWindow(open, l), known).Some? {
      c := AmountDateChoice(rules, l, open, known);
      PairMade(rules, l, c, TierTolerant, T2AmountDate, 750);
    } else {
      Tier3Rule(rules, l, open);
    }
  }

  lemma PairMade(rules: Rules, l: Leg, c: Leg, tier: Tier, rule: RuleId, confidence: int)
    requires l.source != c.source && l.id != c.id && SameWindow(rules, c, l)
    requires Confident(rule, confidence, c.amount - l.amount, rules.Tolerance(l.amount))
    requires || (rule == T1Exact && tier == TierExact && l.txnRef == c.txnRef && l.amount == c.amount)
             || (rule == T2Tolerant && tier == TierTolerant && l.txnRef == c.txnRef
                 && Abs(c.amount - l.amount) <= rules.Tolerance(l.amount))
             || (rule == T2AmountDate && tier == TierTolerant && l.amount == c.amount)
    ensures PairBalances(rules, M.Pair(l, c, tier, rule, confidence), l, c)
    ensures M.Pair(l, c, tier, rule, confidence).rule == rule
  {
    hide DeriveId, Sort;
  }

  lemma TolerantMade(rules: Rules, l: Leg, cands: seq<Leg>, c: Leg)
    requires M.Best(rules, l, cands) == Some(c)
    requires l.source != c.source && l.id != c.id && SameWindow(rules, c, l)
    requires l.txnRef == c.txnRef && Abs(c.amount - l.amount) <= rules.Tolerance(l.amount)
    ensures M.Tier2Ref(rules, l, cands).Some?
    ensures PairBalances(rules, M.Tier2Ref(rules, l, cands).value, l, c)
    ensures M.Tier2Ref(rules, l, cands).value.rule == T2Tolerant
  {
    hide M.Best, M.Pair, SameWindow;
    var conf := TolerantConfidence(Abs(c.amount - l.amount), rules.Tolerance(l.amount));
    PairMade(rules, l, c, TierTolerant, T2Tolerant, conf);
  }
}
