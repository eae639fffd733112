/** What the tiered matcher decides, as a function of the arriving leg and the set of open legs. */
module Matching {
  import opened Sequences
  import opened Ordering
  import opened Domain
  import opened Identity
  import opened SubsetSum
  import Q = OpenLegs

  const MATCH_PREFIX := "m"

  /** Whether a stored leg of some source carries some txn_ref. */
  type Known = (string, string) -> bool

  function OrElse<T>(a: Option<T>, b: Option<T>): Option<T> {
    if a.Some? then a else b
  }

  // ---------------------------------------------------------------- building matches

  function LegIds(legs: seq<Leg>): (ids: seq<Id>)
    ensures |ids| == |legs| && forall i :: 0 <= i < |ids| ==> ids[i] == legs[i].id
  {
    seq(|legs|, i requires 0 <= i < |legs| => legs[i].id)
  }

  function Pair(l: Leg, c: Leg, tier: Tier, rule: RuleId, confidence: int): Match {
    var ids := Sort([l.id, c.id], StrLess);
    Match(DeriveId(MATCH_PREFIX, ids), ids, tier, rule, confidence, c.amount - l.amount, l.currency, ZERO_TIME)
  }

  /** Residual is the sum of the many side minus the anchor. */
  function Many(anchor: Leg, many: seq<Leg>, tol: int): Match {
    var ids := Sort([anchor.id] + LegIds(many), StrLess);
    var residual := SumAmounts(many) - anchor.amount;
    Match(DeriveId(MATCH_PREFIX, ids), ids, TierManyToOne, T3Subset,
          TolerantConfidence(residual, tol) - 100, residual, anchor.currency, ZERO_TIME)
  }

  // ---------------------------------------------------------------- filters

  function Near(rules: Rules, l: Leg): Leg -> bool {
    (c: Leg) => rules.WithinDateWindow(c.valueDate, l.valueDate)
  }

  function ExactRef(l: Leg): Leg -> bool {
    (c: Leg) => c.txnRef == l.txnRef && c.amount == l.amount
  }

  function SameAmount(l: Leg): Leg -> bool {
    (c: Leg) => c.amount == l.amount
  }

  function OfSource(source: string): Leg -> bool {
    (c: Leg) => c.source == source
  }

  function NotOfSource(source: string): Leg -> bool {
    (c: Leg) => c.source != source
  }

  /** From another source and in the window of `l`. */
  function Opposite(l: Leg): Leg -> bool {
    (c: Leg) => c.source != l.source && c.Key() == l.Key()
  }

  /** A strict part of settlement leg `s`, near it in date. */
  function PartOf(rules: Rules, s: Leg): Leg -> bool {
    (c: Leg) => rules.WithinDateWindow(c.valueDate, s.valueDate) && c.amount < s.amount
  }

  predicate RefWithinTolerance(rules: Rules, l: Leg, c: Leg) {
    c.txnRef == l.txnRef && rules.WithinTolerance(l.amount, c.amount)
  }

  function Cap(legs: seq<Leg>, n: int): seq<Leg> {
    if |legs| <= n || n < 0 then legs else legs[..n]
  }

  // ---------------------------------------------------------------- tiers 1 and 2

  function Tier1(l: Leg, cands: seq<Leg>): Option<Match> {
    var hit := First(cands, ExactRef(l));
    if hit.Some? then Some(Pair(l, hit.value, TierExact, T1Exact, 1000)) else None
  }

  /** The first candidate of smallest residual, scanning forward. */
  function Best(rules: Rules, l: Leg, cands: seq<Leg>): Option<Leg> {
    if cands == [] then None
    else
      var b := Best(rules, l, cands[..|cands| - 1]);
      var c := cands[|cands| - 1];
      if RefWithinTolerance(rules, l, c) && (b.None? || Abs(c.amount - l.amount) < Abs(b.value.amount - l.amount))
      then Some(c) else b
  }

  function Tier2Ref(rules: Rules, l: Leg, cands: seq<Leg>): Option<Match> {
    var b := Best(rules, l, cands);
    if b.None? then None
    else Some(Pair(l, b.value, TierTolerant, T2Tolerant,
                   TolerantConfidence(Abs(b.value.amount - l.amount), rules.Tolerance(l.amount))))
  }

  /** A rival of `l` for `hit`: an open leg of our own source that could claim it too. */
  predicate Rival(rules: Rules, l: Leg, hit: Leg, s: Leg) {
    s.amount == l.amount && rules.WithinDateWindow(s.valueDate, hit.valueDate)
  }

  predicate AnyRival(rules: Rules, l: Leg, hit: Leg, same: seq<Leg>) {
    exists s :: s in same && Rival(rules, l, hit, s)
  }

  function Tier2AmountDate(rules: Rules, l: Leg, scan: seq<Leg>, same: seq<Leg>, known: Known): Option<Match> {
    var hits := Filter(scan, SameAmount(l));
    if |hits| != 1 then None
    else if AnyRival(rules, l, hits[0], same) then None
    else if known(hits[0].txnRef, l.source) || known(l.txnRef, hits[0].source) then None
    else Some(Pair(l, hits[0], TierTolerant, T2AmountDate, 750))
  }

  // ---------------------------------------------------------------- tier 3

  function SourcePool(rules: Rules, pool: seq<Leg>, source: string): seq<Leg> {
    Cap(Filter(pool, OfSource(source)), rules.t3MaxCandidates)
  }

  /** Orientation (a): `l` is the settlement leg; sources are tried in the given order. */
  function SumToOne(rules: Rules, l: Leg, pool: seq<Leg>, sources: seq<string>): Option<Match> {
    if sources == [] then None
    else
      var tol := rules.Tolerance(l.amount);
      var sub := FindSubset(SourcePool(rules, pool, sources[0]), l.amount, tol, 2, rules.t3MaxSubset);
      if sub.Some? then Some(Many(l, sub.value, tol))
      else SumToOne(rules, l, pool, sources[1..])
  }

  ghost function SourcesOf(pool: seq<Leg>): seq<string> {
    Canon(set c | c in pool :: c.source, StrLess)
  }

  predicate Settles(rules: Rules, l: Leg, s: Leg) {
    s.amount > l.amount && rules.WithinDateWindow(s.valueDate, l.valueDate)
  }

  function PartPool(rules: Rules, same: seq<Leg>, s: Leg): seq<Leg> {
    Cap(Filter(same, PartOf(rules, s)), rules.t3MaxCandidates)
  }

  /** Orientation (b): `l` completes an opposite settlement leg; settlements in the given order. */
  function CompleteMany(rules: Rules, l: Leg, settlements: seq<Leg>, same: seq<Leg>): Option<Match> {
    if settlements == [] then None
    else
      var s := settlements[0];
      if !Settles(rules, l, s) then CompleteMany(rules, l, settlements[1..], same)
      else
        var tol := rules.Tolerance(s.amount);
        var rest := FindSubset(PartPool(rules, same, s), s.amount - l.amount, tol, 1, rules.t3MaxSubset - 1);
        if rest.Some? then Some(Many(s, [l] + rest.value, tol))
        else CompleteMany(rules, l, settlements[1..], same)
  }

  ghost function Scan(rules: Rules, l: Leg, open: set<Leg>): seq<Leg> {
    Filter(Q.Candidates(open, l), Near(rules, l))
  }

  /** The legs that may sum to `l`: its batch with the hint, else everything opposite in window. */
  ghost function OnePool(rules: Rules, l: Leg, open: set<Leg>): seq<Leg> {
    if rules.t3RequireBatchHint
    then Filter(Filter(Q.ByBatch(open, l, l.SettlementKey()), NotOfSource(l.source)), Near(rules, l))
    else Scan(rules, l, open)
  }

  /** Settlement legs carry the batch as their txn_ref or as batch_ref. */
  ghost function Settlements(rules: Rules, l: Leg, open: set<Leg>): seq<Leg> {
    if rules.t3RequireBatchHint
    then Sort(Filter(Q.RefLegs(open, l.Batch()), Opposite(l)) +
              Filter(Q.ByBatch(open, l, l.Batch()), NotOfSource(l.source)), Q.Before)
    else Scan(rules, l, open)
  }

  ghost function Siblings(rules: Rules, l: Leg, open: set<Leg>): seq<Leg> {
    if rules.t3RequireBatchHint
    then Filter(Q.ByBatch(open, l, l.Batch()), OfSource(l.source))
    else Q.SameSourceInWindow(open, l)
  }

  ghost function Tier3(rules: Rules, l: Leg, open: set<Leg>): Option<Match> {
    var pool := OnePool(rules, l, open);
    var one := SumToOne(rules, l, pool, SourcesOf(pool));
    if one.Some? then one
    else if rules.t3RequireBatchHint && l.Batch() == "" then None
    else CompleteMany(rules, l, Settlements(rules, l, open), Siblings(rules, l, open))
  }

  // ---------------------------------------------------------------- first tier that hits

  ghost function ByRefInWindow(rules: Rules, l: Leg, open: set<Leg>): seq<Leg> {
    Filter(Q.CandidatesByRef(open, l), Near(rules, l))
  }

  ghost function Find(rules: Rules, l: Leg, open: set<Leg>, known: Known): Option<Match> {
    var byRef := ByRefInWindow(rules, l, open);
    OrElse(Tier1(l, byRef),
    OrElse(Tier2Ref(rules, l, byRef),
    OrElse(Tier2AmountDate(rules, l, Scan(rules, l, open), Q.SameSourceInWindow(open, l), known),
           Tier3(rules, l, open))))
  }
}
