/**
 Where the code departs from the documented rule table: the inputs on which it does, and the exact
 condition under which it does not.
 */
module RuleTable {
  import opened Sequences
  import opened Domain
  import opened Identity
  import opened SubsetSum
  import opened Persistence
  import opened Reconciliation
  import opened EventSourcing
  import opened Lifecycle
  import opened Transitions
  import opened Runs
  import opened Reports
  import opened NoMissedSettlement
  import B = Balance
  import F = MatchingFacts
  import M = Matching
  import R = ReplayTheorems
  import S = SubsetTier

  // ---------------------------------------------------------------- when a leg waits

  lemma SumHasPart(rules: Rules, l: Leg, open: set<Leg>) returns (c: Leg)
    requires S.AnySum(rules, l, open)
    ensures c in open && c.source != l.source && F.SameWindow(rules, c, l) && F.Hinted(rules, l, c)
  {
    hide F.Hinted, F.SameWindow, SetSum;
    var src, many :| S.SumsTo(rules, l, open, src, many);
    assert many != {};
    c :| c in many;
  }

  lemma CompletionHasWhole(rules: Rules, l: Leg, open: set<Leg>) returns (s: Leg)
    requires S.AnyCompletion(rules, l, open)
    ensures S.Larger(rules, l, open, s)
  {
    hide S.Larger, SetSum;
    var t, rest :| S.Completes(rules, l, open, t, rest);
    s := t;
  }

  lemma NoSubset(rules: Rules, l: Leg, open: set<Leg>)
    requires rules.Valid() && F.Arrives(l, open)
    requires forall c :: c in open && c.source != l.source && F.SameWindow(rules, c, l) ==> !F.Hinted(rules, l, c)
    requires forall s :: !S.Larger(rules, l, open, s)
    ensures M.Tier3(rules, l, open).None?
  {
    hide M.Tier3, F.Hinted, F.SameWindow, S.Larger, F.Arrives, S.AnySum, S.AnyCompletion;
    if M.Tier3(rules, l, open).Some? { S.OnlyQualified(rules, l, open); }
    if S.AnySum(rules, l, open) {
      var c := SumHasPart(rules, l, open);
    } else if S.AnyCompletion(rules, l, open) {
      var s := CompletionHasWhole(rules, l, open);
    }
  }

  lemma NoFire(rules: Rules, l: Leg, open: set<Leg>, known: M.Known)
    requires rules.Valid() && F.Arrives(l, open)
    requires forall c :: c in open ==> c.txnRef != l.txnRef
    requires forall c :: c in open && c.source != l.source && F.SameWindow(rules, c, l) ==>
               c.amount != l.amount && !F.Hinted(rules, l, c)
    requires forall s :: !S.Larger(rules, l, open, s)
    ensures M.Find(rules, l, open, known).None?
  {
    hide M.Tier3, M.Find, F.Hinted, F.SameWindow, S.Larger, F.Arrives;
    NoSubset(rules, l, open);
    F.FindRefinesTiers(rules, l, open, known);
    if M.Find(rules, l, open, known).Some? {
      var rule := M.Find(rules, l, open, known).value.rule;
      assert F.Fires(rules, l, open, known, rule);
    }
  }

  /** A leg waits when no stored leg shares its ref and nothing open could match it. */
  lemma WaitsWhen(rules: Rules, p: Proj, l: Leg)
    requires rules.Valid() && RefsListed(p) && l.id !in p.legs
    requires forall id :: id in p.legs ==> p.legs[id].txnRef != l.txnRef
    requires forall c :: c in OpenSet(p) && c.source != l.source && F.SameWindow(rules, c, l) ==>
               c.amount != l.amount && !F.Hinted(rules, l, c)
    requires forall s :: !S.Larger(rules, l, OpenSet(p), s)
    ensures Decide(rules, p, l).Wait?
  {
    hide Decide, M.Find, F.Hinted, F.SameWindow, S.Larger, F.Arrives, KnownIn;
    ArrivesOpen(p, l);
    NoFire(rules, l, OpenSet(p), KnownIn(p));
    OutcomeIff(rules, p, l);
  }

  lemma WaitingAdmits(cfg: Config, s: State, l: Leg, now: Time)
    requires cfg.rules.Valid() && Inv(s.p) && Arriving(l) && l.id !in s.p.legs
    requires Decide(cfg.rules, s.p, Stamp(l, now)).Wait?
    ensures Ingest(cfg, s, l, now, false).p == Admit(s.p, Stamp(l, now))
    ensures Inv(Ingest(cfg, s, l, now, false).p)
  {
    hide Ingest, Decide, Inv, Arriving, AppendEvents;
    IngestEffect(cfg, s, l, now, false);
  }

  lemma OpenAdmit(p: Proj, l: Leg)
    requires l.id !in p.legs
    ensures OpenSet(Admit(p, l)) == OpenSet(p) + {l.(status := Open)}
  {
    var q := Admit(p, l);
    forall x | x in OpenSet(p) + {l.(status := Open)} ensures x in OpenSet(q) {
      if x in OpenSet(p) {
        var id :| id in p.legs && p.legs[id].status == Open && p.legs[id] == x;
        assert q.legs[id] == x;
      } else {
        assert q.legs[l.id] == x;
      }
    }
  }

  lemma Snoc(cfg: Config, ops: seq<Op>, op: Op)
    ensures Run(cfg, INIT, ops + [op]) == Step(cfg, Run(cfg, INIT, ops), op)
  {
    hide Step;
    assert (ops + [op])[..|ops|] == ops;
  }

  // ---------------------------------------------------------------- the batch link of a settlement leg

  /** The documented link: the parts carry the batch_ref or the txn_ref of the settlement leg. */
  predicate TableLink(s: Leg, c: Leg) {
    c.Batch() != "" && (c.Batch() == s.Batch() || c.Batch() == s.txnRef)
  }

  ghost predicate TableSettles(rules: Rules, s: Leg, c: Leg) {
    && c.source != s.source && F.SameWindow(rules, c, s) && c.amount < s.amount
    && (rules.t3RequireBatchHint ==> TableLink(s, c))
  }

  /** A settlement that is complete by the rule table and yet all open. */
  ghost predicate TableMissed(rules: Rules, open: set<Leg>, s: Leg, src: string, many: set<Leg>) {
    && s in open && many <= open
    && 2 <= |many| <= rules.t3MaxSubset
    && (forall c :: c in many ==> TableSettles(rules, s, c) && c.source == src)
    && Abs(SetSum(many) - s.amount) <= rules.Tolerance(s.amount)
  }

  /** The leg names no batch, or its own txn_ref as its batch. */
  predicate OwnBatch(s: Leg) { s.Batch() == "" || s.Batch() == s.txnRef }

  lemma LinksCoincide(rules: Rules, open: set<Leg>, s: Leg, src: string, many: set<Leg>)
    requires rules.t3RequireBatchHint ==> OwnBatch(s)
    ensures TableMissed(rules, open, s, src, many) <==> Missed(rules, open, s, src, many)
  {
    hide F.SameWindow, SetSum;
    assert forall c :: TableSettles(rules, s, c) <==> CouldSettle(rules, s, c);
  }

  /** Under the documented link no settlement is missed for a leg that names no other batch than its own txn_ref. */
  lemma NoneMissedByTheTable(cfg: Config, ops: seq<Op>, s: Leg, src: string, many: set<Leg>)
    requires SearchFits(cfg.rules) && GoodOps(ops) && GoodClocks(ops) && RoomyRun(cfg, ops, PlaceOf(s, src))
    requires cfg.rules.t3RequireBatchHint ==> OwnBatch(s)
    ensures !TableMissed(cfg.rules, OpenSet(Run(cfg, INIT, ops).p), s, src, many)
  {
    hide Run, OpenSet, RoomyRun, Missed, TableMissed, Nodes;
    NoSettlementMissed(cfg, ops, s, src, many);
    LinksCoincide(cfg.rules, OpenSet(Run(cfg, INIT, ops).p), s, src, many);
  }

  function PartSource(s: Leg): string { s.source + "'" }

  /** A leg of another source in the batch named by the txn_ref of `s`. */
  ghost function PartOf(s: Leg, suffix: string, amount: int): Leg {
    var l := Leg("", PartSource(s), s.txnRef + s.Batch() + suffix, amount, s.currency, s.valueDate, s.direction,
                 s.counterparty, map[BATCH_REF := s.txnRef], s.ingestedAt, Fresh, "", "");
    l.(id := IdOf(l))
  }

  lemma PartDelivered(s: Leg, suffix: string, amount: int)
    requires Delivered(s) && amount > 0 && NulFree(suffix)
    ensures var c := PartOf(s, suffix, amount);
            Delivered(c) && c.Batch() == s.txnRef && c.SettlementKey() == s.txnRef && c.source != s.source
  {
    hide IdOf;
    var c := PartOf(s, suffix, amount);
    assert c.source == s.source + "'" && |c.source| == |s.source| + 1;
    assert NulFree(BATCH_REF);
    assert forall k :: k in c.attrs ==> k == BATCH_REF;
    NulFreeAttr(s);
    IdOfContent(c.(id := ""), c);
    IdNulFree(c);
  }

  lemma NulFreeAttr(s: Leg)
    requires CleanText(s)
    ensures NulFree(s.Batch())
  {
  }

  lemma IdsDiffer(a: Leg, b: Leg)
    requires Delivered(a) && Delivered(b) && (a.txnRef != b.txnRef || a.source != b.source)
    ensures a.id != b.id
  {
    hide IdOf, CleanText;
    if a.id == b.id { IdInjective(a, b); }
  }

  /** The refs of the two parts differ from each other, from the txn_ref and from the batch of `s`. */
  lemma RefsDiffer(s: Leg)
    ensures var a, b := s.txnRef + s.Batch() + "a", s.txnRef + s.Batch() + "b";
            a != b && a != s.txnRef && b != s.txnRef && a != s.Batch() && b != s.Batch()
  {
    var a, b := s.txnRef + s.Batch() + "a", s.txnRef + s.Batch() + "b";
    assert a[|a| - 1] == 'a' && b[|b| - 1] == 'b';
    assert |a| > |s.txnRef| && |a| > |s.Batch()| && |b| > |s.txnRef| && |b| > |s.Batch()|;
  }

  lemma PairSum(a: Leg, b: Leg)
    requires a != b
    ensures |{a, b}| == 2 && SetSum({a, b}) == a.amount + b.amount
  {
    SetSumRemove({a, b}, a);
    assert {a, b} - {a} == {b};
    SetSumRemove({b}, b);
    assert {b} - {b} == {};
  }

  /** First leg: nothing is open. */
  lemma FirstWaitsHere(cfg: Config, a: Leg, now: Time)
    requires cfg.rules.Valid() && Delivered(a)
    ensures Decide(cfg.rules, EMPTY, Stamp(a, now)).Wait?
    ensures Run(cfg, INIT, [Arrive(a, now)]).p == Admit(EMPTY, Stamp(a, now))
    ensures Inv(Run(cfg, INIT, [Arrive(a, now)]).p)
  {
    hide Ingest, Decide, Inv, Delivered;
    DeliveredArrives(a);
    EmptyInv();
    assert OpenSet(EMPTY) == {};
    WaitsWhen(cfg.rules, EMPTY, Stamp(a, now));
    WaitingAdmits(cfg, INIT, a, now);
    assert [Arrive(a, now)] == [] + [Arrive(a, now)];
    Snoc(cfg, [], Arrive(a, now));
  }

  /** Second leg: the only open leg is of its own source or far in date. */
  lemma SecondWaits(cfg: Config, a: Leg, b: Leg, now: Time)
    requires cfg.rules.Valid() && Delivered(a) && Delivered(b) && a.txnRef != b.txnRef
    requires a.source == b.source || !cfg.rules.WithinDateWindow(a.valueDate, b.valueDate)
    ensures var p := Run(cfg, INIT, [Arrive(a, now)]).p;
            var q := Run(cfg, INIT, [Arrive(a, now), Arrive(b, now)]).p;
            && Decide(cfg.rules, p, Stamp(b, now)).Wait? && q == Admit(p, Stamp(b, now)) && Inv(q)
            && OpenSet(q) == {Stamp(a, now).(status := Open), Stamp(b, now).(status := Open)}
            && q.legs == map[a.id := Stamp(a, now).(status := Open), b.id := Stamp(b, now).(status := Open)]
  {
    hide Ingest, Decide, Inv, Delivered, OpenSet, Admit, Run;
    FirstWaitsHere(cfg, a, now);
    DeliveredArrives(b);
    IdsDiffer(a, b);
    var s := Run(cfg, INIT, [Arrive(a, now)]);
    RefsOfInv(s.p);
    OneAdmitted(Stamp(a, now));
    BesideOne(cfg.rules, s.p, Stamp(a, now).(status := Open), Stamp(b, now));
    WaitingAdmits(cfg, s, b, now);
    OpenAdmit(s.p, Stamp(b, now));
    TwoAdmitted(s.p, Stamp(a, now).(status := Open), Stamp(b, now));
    assert [Arrive(a, now), Arrive(b, now)] == [Arrive(a, now)] + [Arrive(b, now)];
    Snoc(cfg, [Arrive(a, now)], Arrive(b, now));
  }

  lemma OneAdmitted(a: Leg)
    ensures OpenSet(Admit(EMPTY, a)) == {a.(status := Open)}
    ensures Admit(EMPTY, a).legs == map[a.id := a.(status := Open)]
  {
    assert OpenSet(EMPTY) == {};
    OpenAdmit(EMPTY, a);
  }

  lemma TwoAdmitted(p: Proj, a: Leg, b: Leg)
    requires p.legs == map[a.id := a] && a.id != b.id
    ensures Admit(p, b).legs == map[a.id := a, b.id := b.(status := Open)]
  {
  }

  lemma BesideOne(rules: Rules, p: Proj, a: Leg, b: Leg)
    requires rules.Valid() && RefsListed(p) && b.id !in p.legs && OpenSet(p) == {a} && p.legs == map[a.id := a]
    requires a.txnRef != b.txnRef && (a.source == b.source || !rules.WithinDateWindow(a.valueDate, b.valueDate))
    ensures Decide(rules, p, b).Wait?
  {
    hide Decide, OpenSet, RefsListed, F.Hinted, F.BatchSettlement;
    WaitsWhen(rules, p, b);
  }

  lemma RefsOfInv(p: Proj)
    requires Inv(p)
    ensures RefsListed(p)
  {
  }

  ghost function PartsThenWhole(s: Leg, now: Time): seq<Op> {
    [Arrive(PartOf(s, "a", 1), now), Arrive(PartOf(s, "b", s.amount - 1), now), Arrive(s, now)]
  }

  ghost function Parts(s: Leg, now: Time): set<Leg> {
    {Stamp(PartOf(s, "a", 1), now).(status := Open), Stamp(PartOf(s, "b", s.amount - 1), now).(status := Open)}
  }

  /** `c` is linked to `s` by its txn_ref only. */
  ghost predicate LinkedByRef(s: Leg, c: Leg) {
    && c.Batch() == s.txnRef && c.txnRef != s.txnRef && c.txnRef != s.Batch() && c.source != s.source
    && c.Key() == s.Key() && c.valueDate == s.valueDate && 0 < c.amount < s.amount
  }

  lemma PartsLinked(s: Leg, now: Time)
    requires s.amount >= 2
    ensures var a, b := Stamp(PartOf(s, "a", 1), now).(status := Open),
                        Stamp(PartOf(s, "b", s.amount - 1), now).(status := Open);
            && LinkedByRef(Stamp(s, now), a) && LinkedByRef(Stamp(s, now), b)
            && a != b && a.txnRef != b.txnRef && a.source == b.source && a.amount + b.amount == s.amount
  {
    hide IdOf;
    RefsDiffer(s);
    var a := PartOf(s, "a", 1);
    assert a.source == s.source + "'" && |a.source| == |s.source| + 1;
  }

  lemma FirstMember(q: seq<Leg>)
    ensures q == [] || q[0] in q
  {
  }

  /** Nothing open links to the settlement key of `s`, so it waits beside its parts. */
  lemma WholeWaits(rules: Rules, p: Proj, s: Leg)
    requires rules.Valid() && rules.t3RequireBatchHint && RefsListed(p) && !OwnBatch(s) && s.id !in p.legs
    requires forall id :: id in p.legs ==> LinkedByRef(s, p.legs[id])
    requires forall c :: c in OpenSet(p) ==> LinkedByRef(s, c)
    ensures Decide(rules, p, s).Wait?
    ensures PoolsFit(rules, s, OpenSet(p), PlaceOf(s, PartSource(s)))
  {
    hide Decide, F.SameWindow, M.OnePool, M.Siblings, M.Settlements, RefsListed, OpenSet, F.Arrives;
    forall t ensures !S.Larger(rules, s, OpenSet(p), t) { NoWhole(rules, s, OpenSet(p), t); }
    WaitsWhen(rules, p, s);
    ArrivesOpen(p, s);
    ArrivesIds(s, OpenSet(p));
    F.OnePoolMembers(rules, s, OpenSet(p));
    FirstMember(M.OnePool(rules, s, OpenSet(p)));
    S.SettlementIff(rules, s, OpenSet(p));
  }

  lemma ArrivesIds(l: Leg, open: set<Leg>)
    requires F.Arrives(l, open)
    ensures forall c :: c in open ==> c.id != l.id
  {
  }

  lemma NoWhole(rules: Rules, s: Leg, open: set<Leg>, t: Leg)
    requires rules.t3RequireBatchHint && !OwnBatch(s) && forall c :: c in open ==> LinkedByRef(s, c)
    ensures !S.Larger(rules, s, open, t)
  {
  }

  /** The documented link fails when the settlement leg names another batch and arrives last. */
  lemma WholeArrivesLast(cfg: Config, s: Leg, now: Time)
    requires cfg.rules.Valid() && cfg.rules.t3RequireBatchHint && Delivered(s) && !OwnBatch(s) && s.amount >= 2
             && now > 0
    ensures var ops := PartsThenWhole(s, now);
            && GoodOps(ops) && GoodClocks(ops) && RoomyRun(cfg, ops, PlaceOf(s, PartSource(s)))
            && TableMissed(cfg.rules, OpenSet(Run(cfg, INIT, ops).p), Stamp(s, now).(status := Open),
                           PartSource(s), Parts(s, now))
  {
    hide Ingest, Decide, Inv, Delivered, Run, RoomyRun, TableMissed, OpenSet, Admit, PartOf, PoolsFit, LinkedByRef;
    var a, b := PartOf(s, "a", 1), PartOf(s, "b", s.amount - 1);
    PartDelivered(s, "a", 1);
    PartDelivered(s, "b", s.amount - 1);
    PartsLinked(s, now);
    PartRefs(s);
    SecondWaits(cfg, a, b, now);
    var before := [Arrive(a, now), Arrive(b, now)];
    var st := Run(cfg, INIT, before);
    IdsDiffer(a, s);
    IdsDiffer(b, s);
    RefsOfInv(st.p);
    WholeWaits(cfg.rules, st.p, Stamp(s, now));
    DeliveredArrives(s);
    WaitingAdmits(cfg, st, s, now);
    OpenAdmit(st.p, Stamp(s, now));
    assert PartsThenWhole(s, now) == before + [Arrive(s, now)];
    Snoc(cfg, before, Arrive(s, now));
    StampedPlace(s, now);
    RoomForParts(cfg, s, now);
    WholeIsMissed(cfg.rules, Stamp(s, now), Stamp(a, now).(status := Open), Stamp(b, now).(status := Open));
  }

  lemma PartRefs(s: Leg)
    ensures var a, b := PartOf(s, "a", 1), PartOf(s, "b", s.amount - 1);
            a.txnRef != b.txnRef && a.source == b.source == PartSource(s) && a.source != s.source
  {
    hide IdOf;
    RefsDiffer(s);
    var a := PartOf(s, "a", 1);
    assert a.source == s.source + "'" && |a.source| == |s.source| + 1;
  }

  lemma StampedPlace(s: Leg, now: Time)
    ensures PlaceOf(Stamp(s, now), PartSource(s)) == PlaceOf(s, PartSource(s))
    ensures Stamp(s, now).Batch() == s.Batch() && Stamp(s, now).txnRef == s.txnRef
  {
  }

  lemma WholeIsMissed(rules: Rules, s: Leg, a: Leg, b: Leg)
    requires rules.Valid() && s.txnRef != "" && LinkedByRef(s, a) && LinkedByRef(s, b)
    requires a != b && a.source == b.source && a.amount + b.amount == s.amount
    ensures TableMissed(rules, {a, b} + {s.(status := Open)}, s.(status := Open), a.source, {a, b})
  {
    hide SetSum;
    PairSum(a, b);
    assert TableSettles(rules, s.(status := Open), a) && TableSettles(rules, s.(status := Open), b);
    ToleranceNonNegative(rules, s.amount);
  }

  lemma ToleranceNonNegative(rules: Rules, amount: int)
    requires rules.Valid()
    ensures rules.Tolerance(amount) >= 0
  {
  }

  /** The parts stand elsewhere, so no pool searched for the place of `s` holds more than the parts. */
  lemma RoomForParts(cfg: Config, s: Leg, now: Time)
    requires cfg.rules.Valid() && cfg.rules.t3RequireBatchHint && Delivered(s) && !OwnBatch(s) && s.amount >= 2
    requires var st := Run(cfg, INIT, [Arrive(PartOf(s, "a", 1), now), Arrive(PartOf(s, "b", s.amount - 1), now)]);
             PoolsFit(cfg.rules, Stamp(s, now), OpenSet(st.p), PlaceOf(s, PartSource(s)))
    ensures RoomyRun(cfg, PartsThenWhole(s, now), PlaceOf(s, PartSource(s)))
  {
    hide Decide, Run, PartsFit, SiblingsFit, IdOf;
    var a, b := PartOf(s, "a", 1), PartOf(s, "b", s.amount - 1);
    var ops := PartsThenWhole(s, now);
    assert ops[..2] == [Arrive(a, now), Arrive(b, now)];
    assert ops[..2][..1] == [Arrive(a, now)];
    assert ops[..2][..1][..0] == [];
    PartDelivered(s, "a", 1);
    PartDelivered(s, "b", s.amount - 1);
    assert RoomyRun(cfg, [], PlaceOf(s, PartSource(s)));
    assert RoomyRun(cfg, ops[..2][..1], PlaceOf(s, PartSource(s)));
    assert RoomyRun(cfg, ops[..2], PlaceOf(s, PartSource(s)));
  }

  /** Whatever run and whatever parts, the settlement leg is not missed under the documented link. */
  ghost predicate NeverTableMissed(cfg: Config, s: Leg) {
    forall ops, x, src, many ::
      GoodOps(ops) && GoodClocks(ops) && RoomyRun(cfg, ops, PlaceOf(x, src)) && SameContent(x, s) ==>
        !TableMissed(cfg.rules, OpenSet(Run(cfg, INIT, ops).p), x, src, many)
  }

  /** The documented link is honoured exactly for legs that name no other batch than their own txn_ref. */
  lemma TableLinkIff(cfg: Config, s: Leg, now: Time)
    requires SearchFits(cfg.rules) && Delivered(s) && now > 0
    ensures NeverTableMissed(cfg, s) <==> !cfg.rules.t3RequireBatchHint || OwnBatch(s) || s.amount < 2
  {
    hide Run, OpenSet, RoomyRun, TableMissed, Delivered, SearchFits, GoodOps;
    if !cfg.rules.t3RequireBatchHint || OwnBatch(s) || s.amount < 2 {
      forall ops, x, src, many | GoodOps(ops) && GoodClocks(ops) && RoomyRun(cfg, ops, PlaceOf(x, src))
                                 && SameContent(x, s)
        ensures !TableMissed(cfg.rules, OpenSet(Run(cfg, INIT, ops).p), x, src, many)
      {
        if !cfg.rules.t3RequireBatchHint || OwnBatch(s) {
          NoneMissedByTheTable(cfg, ops, x, src, many);
        } else {
          SearchRulesValid(cfg.rules);
          RunGood(cfg, ops);
          NoPartsOfOne(cfg.rules, Run(cfg, INIT, ops).p, x, src, many);
        }
      }
    } else {
      SearchRulesValid(cfg.rules);
      WholeArrivesLast(cfg, s, now);
      var x := Stamp(s, now).(status := Open);
      assert SameContent(x, s) && PlaceOf(x, PartSource(s)) == PlaceOf(s, PartSource(s));
      assert TableMissed(cfg.rules, OpenSet(Run(cfg, INIT, PartsThenWhole(s, now)).p), x, PartSource(s),
                         Parts(s, now));
    }
  }

  lemma SearchRulesValid(rules: Rules)
    requires SearchFits(rules)
    ensures rules.Valid()
  {
    hide Nodes;
  }

  lemma MissedHasPart(rules: Rules, open: set<Leg>, s: Leg, src: string, many: set<Leg>) returns (c: Leg)
    requires TableMissed(rules, open, s, src, many)
    ensures c in open && c.amount < s.amount
  {
    hide F.SameWindow, SetSum;
    assert many != {};
    c :| c in many;
    assert TableSettles(rules, s, c);
  }

  /** An amount of one minor unit has no smaller parts. */
  lemma NoPartsOfOne(rules: Rules, p: Proj, s: Leg, src: string, many: set<Leg>)
    requires Inv(p) && s.amount < 2
    ensures !TableMissed(rules, OpenSet(p), s, src, many)
  {
    hide Inv, OpenSet, TableMissed;
    StoredPaid(p);
    if TableMissed(rules, OpenSet(p), s, src, many) {
      var c := MissedHasPart(rules, OpenSet(p), s, src, many);
    }
  }

  // ---------------------------------------------------------------- same-amount legs on our side

  /** The documented rule: `c` is the only open opposite leg of this amount, and no leg of ours has it. */
  ghost predicate TableSole(rules: Rules, l: Leg, c: Leg, open: set<Leg>, known: M.Known) {
    && F.AmountPartner(rules, l, c, open)
    && (forall d :: F.AmountPartner(rules, l, d, open) ==> d == c)
    && (forall s :: !OwnSameAmount(l, s, open))
    && !known(c.txnRef, l.source) && !known(l.txnRef, c.source)
  }

  /** `s` is another open leg of our side with the same amount, in the same window. */
  ghost predicate OwnSameAmount(l: Leg, s: Leg, open: set<Leg>) {
    s in open && s.source == l.source && F.SameBook(s, l) && s.id != l.id && s.amount == l.amount
  }

  ghost predicate AnyTableSole(rules: Rules, l: Leg, open: set<Leg>, known: M.Known) {
    exists c :: TableSole(rules, l, c, open, known)
  }

  /** The sole opposite candidate for amount-date, before any leg of our side is looked at. */
  ghost predicate Lone(rules: Rules, l: Leg, c: Leg, open: set<Leg>, known: M.Known) {
    && F.AmountPartner(rules, l, c, open)
    && (forall d :: F.AmountPartner(rules, l, d, open) ==> d == c)
    && !known(c.txnRef, l.source) && !known(l.txnRef, c.source)
  }

  /** Our side has a same-amount leg that lies near `c`. */
  ghost predicate NearOwn(rules: Rules, l: Leg, c: Leg, open: set<Leg>) {
    exists s :: OwnSameAmount(l, s, open) && F.Near(rules, s, c)
  }

  ghost predicate AnyOwn(l: Leg, open: set<Leg>) { exists s :: OwnSameAmount(l, s, open) }

  /** The code asks of the sole candidate that no own leg is near it, the table that there is no own leg. */
  lemma SoleAndTable(rules: Rules, l: Leg, c: Leg, open: set<Leg>, known: M.Known)
    ensures F.SolePartner(rules, l, c, open, known) <==> Lone(rules, l, c, open, known) && !NearOwn(rules, l, c, open)
    ensures TableSole(rules, l, c, open, known) <==> Lone(rules, l, c, open, known) && !AnyOwn(l, open)
  {
    hide F.SameWindow;
    if Lone(rules, l, c, open, known) && !NearOwn(rules, l, c, open) {
      forall s | s in open && s.source == l.source && s.Key() == l.Key()
          && s.id != l.id ensures !M.Rival(rules, l, c, s) {
        assert M.Rival(rules, l, c, s) ==> OwnSameAmount(l, s, open);
      }
    }
  }

  /**
   Code and table agree on amount-date exactly when our side has no other leg of the same amount, or
   one near the sole candidate: they differ when our side has such legs and all of them lie far from it.
   */
  lemma AmountDateTableIff(rules: Rules, l: Leg, open: set<Leg>, known: M.Known)
    ensures (F.AnySole(rules, l, open, known) <==> AnyTableSole(rules, l, open, known)) <==>
            forall c :: Lone(rules, l, c, open, known) && AnyOwn(l, open) ==> NearOwn(rules, l, c, open)
  {
    hide F.SolePartner, TableSole, Lone, OwnSameAmount, NearOwn, AnyOwn;
    forall c { SoleAndTable(rules, l, c, open, known); }
    forall c, d | Lone(rules, l, c, open, known) && Lone(rules, l, d, open, known) ensures c == d {
      OneLone(rules, l, c, d, open, known);
    }
    NearIsOwn(rules, l, open);
  }

  lemma OneLone(rules: Rules, l: Leg, c: Leg, d: Leg, open: set<Leg>, known: M.Known)
    requires Lone(rules, l, c, open, known) && Lone(rules, l, d, open, known)
    ensures c == d
  {
    hide F.SameWindow;
  }

  lemma NearIsOwn(rules: Rules, l: Leg, open: set<Leg>)
    ensures forall c :: NearOwn(rules, l, c, open) ==> AnyOwn(l, open)
  {
  }

  /** A leg like `l` under another ref, source and date. */
  ghost function Like(l: Leg, source: string, suffix: string, valueDate: int): Leg {
    var x := Leg("", l.source + source, l.txnRef + suffix, l.amount, l.currency, valueDate, l.direction, l.counterparty,
                 map[], l.ingestedAt, Fresh, "", "");
    x.(id := IdOf(x))
  }

  lemma LikeDelivered(l: Leg, source: string, suffix: string, valueDate: int)
    requires Delivered(l) && NulFree(source) && NulFree(suffix) && suffix != ""
    ensures var x := Like(l, source, suffix, valueDate);
            Delivered(x) && x.txnRef != l.txnRef && (source != "" ==> x.source != l.source)
                && (source == "" ==> x.source == l.source)
  {
    hide IdOf;
    var x := Like(l, source, suffix, valueDate);
    assert |x.txnRef| == |l.txnRef| + |suffix| && |x.source| == |l.source| + |source|;
    if source == "" { assert l.source + source == l.source; }
    IdOfContent(x.(id := ""), x);
    IdNulFree(x);
  }

  /**
   On a run: an open leg of our side with the same amount, far in date, does not stop the code from
   matching by amount and date, although the table says it should.
   */
  lemma FarOwnLegIsOverlooked(cfg: Config, l: Leg, now: Time)
    requires cfg.rules.Valid() && Delivered(l) && now > 0
    ensures var far := Like(l, "", "a", l.valueDate + cfg.rules.windowDays + 1);
            var other := Like(l, "'", "bb", l.valueDate);
            var p := Run(cfg, INIT, [Arrive(far, now), Arrive(other, now)]).p;
            var x := Stamp(l, now);
            && GoodOps([Arrive(far, now), Arrive(other, now), Arrive(l, now)])
            && F.Fires(cfg.rules, x, OpenSet(p), KnownIn(p), T2AmountDate)
            && OwnSameAmount(x, Stamp(far, now).(status := Open), OpenSet(p))
            && !AnyTableSole(cfg.rules, x, OpenSet(p), KnownIn(p))
  {
    hide Ingest, Decide, Inv, Delivered, Run, IdOf, F.Fires, M.Find, KnownIn, F.AnyExact, F.AnyTolerant, F.AnySole,
         AnyTableSole;
    var far := Like(l, "", "a", l.valueDate + cfg.rules.windowDays + 1);
    var other := Like(l, "'", "bb", l.valueDate);
    LikeDelivered(l, "", "a", l.valueDate + cfg.rules.windowDays + 1);
    LikeDelivered(l, "'", "bb", l.valueDate);
    assert |far.txnRef| != |other.txnRef|;
    IdsDiffer(l, far);
    IdsDiffer(l, other);
    SecondWaits(cfg, far, other, now);
    var p := Run(cfg, INIT, [Arrive(far, now), Arrive(other, now)]).p;
    var x, f, c := Stamp(l, now), Stamp(far, now).(status := Open), Stamp(other, now).(status := Open);
    RefsOfInv(p);
    assert p.legs.Keys == {f.id, c.id};
    FarFires(cfg.rules, p, x, f, c);
  }

  lemma FarFires(rules: Rules, p: Proj, l: Leg, far: Leg, other: Leg)
    requires rules.Valid() && RefsListed(p) && OpenSet(p) == {far, other} && l.id !in p.legs
    requires p.legs.Keys == {far.id, other.id} && p.legs[far.id] == far && p.legs[other.id] == other
    requires far.txnRef != l.txnRef && other.txnRef != l.txnRef && far.txnRef != other.txnRef
    requires far.source == l.source && other.source != l.source && far.Key() == l.Key() == other.Key()
    requires far.amount == l.amount == other.amount && other.valueDate == l.valueDate
    requires !rules.WithinDateWindow(far.valueDate, l.valueDate)
    ensures F.Fires(rules, l, OpenSet(p), KnownIn(p), T2AmountDate)
    ensures OwnSameAmount(l, far, OpenSet(p)) && !AnyTableSole(rules, l, OpenSet(p), KnownIn(p))
  {
    hide M.Find, KnownIn, F.Fires, F.AnyExact, F.AnyTolerant, F.AnySole, AnyTableSole, RefsListed, OpenSet, Lookup,
         F.SolePartner, F.Arrives;
    ArrivesOpen(p, l);
    F.FindRefinesTiers(rules, l, OpenSet(p), KnownIn(p));
    NothingByRef(rules, l, OpenSet(p));
    forall id | id in p.legs ensures id == far.id || id == other.id { assert id in p.legs.Keys; }
    KnownNowhere(p, other.txnRef, l.source);
    KnownNowhere(p, l.txnRef, other.source);
    OwnIds(p, far, other);
    FarSole(rules, l, far, other, OpenSet(p), KnownIn(p));
    SomeSole(rules, l, other, OpenSet(p), KnownIn(p));
    OwnLegForbids(rules, l, far, OpenSet(p), KnownIn(p));
  }

  lemma FarSole(rules: Rules, l: Leg, far: Leg, other: Leg, open: set<Leg>, known: M.Known)
    requires rules.Valid() && open == {far, other}
    requires far.source == l.source && other.source != l.source && far.Key() == l.Key() == other.Key()
    requires other.amount == l.amount && other.valueDate == l.valueDate
             && !rules.WithinDateWindow(far.valueDate, l.valueDate)
    requires !known(other.txnRef, l.source) && !known(l.txnRef, other.source)
    ensures F.SolePartner(rules, l, other, open, known)
  {
  }

  lemma OwnIds(p: Proj, a: Leg, b: Leg)
    requires p.legs.Keys == {a.id, b.id}
    ensures a.id in p.legs && b.id in p.legs
  {
    assert a.id in p.legs.Keys && b.id in p.legs.Keys;
  }

  lemma SomeSole(rules: Rules, l: Leg, c: Leg, open: set<Leg>, known: M.Known)
    requires F.SolePartner(rules, l, c, open, known)
    ensures F.AnySole(rules, l, open, known)
  {
    hide F.SolePartner;
  }

  lemma OwnLegForbids(rules: Rules, l: Leg, s: Leg, open: set<Leg>, known: M.Known)
    requires OwnSameAmount(l, s, open)
    ensures !AnyTableSole(rules, l, open, known)
  {
    hide OwnSameAmount, F.AmountPartner;
  }

  lemma NothingByRef(rules: Rules, l: Leg, open: set<Leg>)
    requires forall c :: c in open ==> c.txnRef != l.txnRef
    ensures !F.AnyExact(rules, l, open) && !F.AnyTolerant(rules, l, open)
  {
    hide F.SameWindow;
  }

  lemma KnownNowhere(p: Proj, ref: string, source: string)
    requires RefsListed(p)
    requires forall id :: id in p.legs && p.legs[id].txnRef == ref ==> p.legs[id].source != source
    ensures !KnownIn(p)(ref, source)
  {
    hide Lookup;
    RelatedMembers(p, ref);
  }

  // ---------------------------------------------------------------- matching across windows

  /**
   Every two legs of the match share their window exactly when they share the counterparty; only a late
   match may not.
   */
  ghost predicate WindowKept(p: Proj, m: Match) {
    forall a, b :: a in m.legIds && b in m.legIds ==>
      && a in p.legs && b in p.legs
      && (p.legs[a].Key() == p.legs[b].Key() <==> p.legs[a].counterparty == p.legs[b].counterparty)
      && (m.rule != T2Late ==> p.legs[a].Key() == p.legs[b].Key())
  }

  lemma BalancedKeepsWindow(rules: Rules, p: Proj, m: Match)
    requires B.MatchBalanced(rules, p, m)
    ensures WindowKept(p, m)
  {
    hide B.LaterFirst, DeriveId;
    var g :| F.Balances(rules, m, g) && B.StoredGrounds(p, g) && B.LaterFirst(p, m, g);
    GroundsShareWindow(rules, m, g);
    F.GroundsIds(rules, m, g);
    forall a, b | a in m.legIds && b in m.legIds
      ensures && a in p.legs && b in p.legs
              && (p.legs[a].Key() == p.legs[b].Key() <==> p.legs[a].counterparty == p.legs[b].counterparty)
              && (m.rule != T2Late ==> p.legs[a].Key() == p.legs[b].Key())
    {
      var x :| x in F.LegsOf(g) && x.id == a;
      var y :| y in F.LegsOf(g) && y.id == b;
    }
  }

  lemma GroundsShareWindow(rules: Rules, m: Match, g: F.Grounds)
    requires F.Balances(rules, m, g)
    ensures forall x, y :: x in F.LegsOf(g) && y in F.LegsOf(g) ==>
              x.currency == y.currency && (m.rule != T2Late ==> x.Key() == y.Key())
  {
    if g.ManyOf? { ManyShareWindow(rules, m, g.anchor, g.many); }
  }

  lemma ManyShareWindow(rules: Rules, m: Match, a: Leg, many: seq<Leg>)
    requires F.ManyBalances(rules, m, a, many)
    ensures forall x :: x in many ==> x.Key() == a.Key()
  {
    forall x | x in many ensures x.Key() == a.Key() {
      var i :| 0 <= i < |many| && many[i] == x;
      assert F.Part(rules, a, many[i]);
    }
  }

  /** In every reachable state only late matches cross windows, and exactly those whose counterparties differ. */
  lemma MatchesKeepWindowsIff(cfg: Config, ops: seq<Op>)
    requires cfg.rules.Valid() && GoodOps(ops) && GoodClocks(ops)
    ensures var p := Run(cfg, INIT, ops).p; forall id :: id in p.matches ==> WindowKept(p, p.matches[id])
  {
    hide Run, B.MatchBalanced, WindowKept;
    B.EveryMatchBalances(cfg, ops);
    var p := Run(cfg, INIT, ops).p;
    forall id | id in p.matches ensures WindowKept(p,
        p.matches[id]) { BalancedKeepsWindow(cfg.rules, p, p.matches[id]); }
  }

  /**
   On a run: a leg that expired is matched by a late arrival of the same ref, currency and amount within
   tolerance, whatever its counterparty and date; with another counterparty the match crosses windows.
   */
  lemma LateMatchMayCross(cfg: Config, r: Leg, l: Leg, now: Time)
    requires cfg.rules.Valid() && Delivered(r) && Delivered(l) && now > 0
    requires r.txnRef == l.txnRef && r.source != l.source && r.currency == l.currency
    requires cfg.rules.WithinTolerance(l.amount, r.amount)
    ensures var p := Run(cfg, INIT, [Arrive(r, now), ExpireLeg(r.id, now, true), Arrive(l, now)]).p;
            && l.id in p.legs && r.id in p.legs && p.legs[l.id].matchId == p.legs[r.id].matchId
            && p.legs[l.id].matchId in p.matches && p.matches[p.legs[l.id].matchId].rule == T2Late
            && (p.legs[l.id].Key() != p.legs[r.id].Key() <==> l.counterparty != r.counterparty)
  {
    hide Ingest, Expire, Delivered, Run, GoodState, Decide, Inv, IdOf, DeriveId;
    FirstIntake(cfg, r, now);
    var s := Run(cfg, INIT, [Arrive(r, now)]);
    var t := Expire(cfg, s, s.p.legs[r.id], now, true);
    var ops := [Arrive(r, now), ExpireLeg(r.id, now, true)];
    assert ops == [Arrive(r, now)] + [ExpireLeg(r.id, now, true)];
    Snoc(cfg, [Arrive(r, now)], ExpireLeg(r.id, now, true));
    assert ops + [Arrive(l, now)] == [Arrive(r, now), ExpireLeg(r.id, now, true), Arrive(l, now)];
    Snoc(cfg, ops, Arrive(l, now));
    IdsDiffer(r, l);
    ExpiredAlone(cfg, s, r, now);
    DeliveredArrives(l);
    LateHeals(cfg, t, l, r, now);
  }

  lemma FirstIntake(cfg: Config, r: Leg, now: Time)
    requires cfg.rules.Valid() && Delivered(r) && now > 0
    ensures var s := Run(cfg, INIT, [Arrive(r, now)]);
            && Inv(s.p) && IsOpen(s.p, r.id) && s.p == Admit(EMPTY, Stamp(r, now))
  {
    hide Delivered, Decide, Run, Linked, OneOpenPerRef;
    FirstWaitsHere(cfg, r, now);
  }

  /** After expiry the leg is stored broken, alone in an open break, and nothing is open. */
  lemma ExpiredAlone(cfg: Config, s: State, r: Leg, now: Time)
    requires cfg.rules.Valid() && Inv(s.p) && s.p == Admit(EMPTY, Stamp(r, now))
    ensures var t := Expire(cfg, s, s.p.legs[r.id], now, true);
            var b := DeriveId(BREAK_PREFIX, [r.id]);
            && Inv(t.p) && t.p.legs == map[r.id := BrokenBy(Stamp(r, now), b)] && t.p.breaks.Keys == {b}
            && t.p.breaks[b].status == BreakOpen && t.p.breaks[b].legIds == [r.id] && OpenSet(t.p) == {}
  {
    hide NewBreak, Related, ApplyProj, ExpirePlan, DeriveId, Linked, OneOpenPerRef;
    var l := s.p.legs[r.id];
    assert l == Stamp(r, now).(status := Open) && IsOpen(s.p, r.id);
    ExpireSettles(cfg, s.p, l, now, true);
    ExpireInv(cfg, s.p, l, now, true);
    NewBreakFacts(cfg, WindowExpired, Related(s.p, l.txnRef), [l], now);
    assert M.LegIds([l]) == [r.id];
    var t := Expire(cfg, s, l, now, true);
    assert t.p.legs.Keys == {r.id};
  }

  /** The late leg is decided to heal the break of the stored one. */
  lemma LateDecides(rules: Rules, p: Proj, l: Leg, late: Leg)
    requires rules.Valid() && Inv(p) && l.id !in p.legs && OpenSet(p) == {}
    requires p.legs.Keys == {late.id} && p.legs[late.id] == late && late.txnRef == l.txnRef
             && Heals(rules, p.breaks, l, late)
    ensures Decide(rules, p, l) == Heal(late)
  {
    hide Decide, LegsPlaced, MatchesLinked, BreaksLinked, OneOpenPerRef, M.Find, Heals, RefsListed, OpenSet, KnownIn,
         Twin;
    RefsOfInv(p);
    R.NothingToFind(rules, l, KnownIn(p));
    HealableTwin(rules, p, l, late.id);
    OutcomeIff(rules, p, l);
    HealFactsInv(rules, p, l);
    var h := Decide(rules, p, l).r;
    assert h.id in p.legs.Keys;
  }

  lemma LateSettles(cfg: Config, p: Proj, l: Leg, late: Leg, now: Time)
    requires l.id !in p.legs && late.id in p.legs && p.legs[late.id] == late && Decide(cfg.rules, p, l) == Heal(late)
    ensures var q := Settle(cfg, p, l, now, Decide(cfg.rules, p, l));
            && l.id in q.legs && late.id in q.legs && q.legs[l.id].matchId == q.legs[late.id].matchId
            && q.legs[l.id].matchId in q.matches && q.matches[q.legs[l.id].matchId].rule == T2Late
            && q.legs[l.id].Key() == l.Key() && q.legs[late.id].Key() == late.Key()
  {
    hide Decide, LateMatch, DeriveId;
    LateMatchFacts(cfg.rules, l, late, now);
  }

  lemma LateHeals(cfg: Config, t: State, l: Leg, r: Leg, now: Time)
    requires cfg.rules.Valid() && Inv(t.p) && Arriving(l) && l.id != r.id && OpenSet(t.p) == {}
    requires r.txnRef == l.txnRef && r.source != l.source && r.currency == l.currency
    requires cfg.rules.WithinTolerance(l.amount, r.amount)
    requires var b := DeriveId(BREAK_PREFIX, [r.id]);
             && t.p.legs == map[r.id := BrokenBy(Stamp(r, now), b)] && t.p.breaks.Keys == {b}
             && t.p.breaks[b].status == BreakOpen && t.p.breaks[b].legIds == [r.id]
    ensures var p := Ingest(cfg, t, l, now, false).p;
            && l.id in p.legs && r.id in p.legs && p.legs[l.id].matchId == p.legs[r.id].matchId
            && p.legs[l.id].matchId in p.matches && p.matches[p.legs[l.id].matchId].rule == T2Late
            && p.legs[l.id].Key() == l.Key() && p.legs[r.id].Key() == r.Key()
  {
    hide Ingest, Decide, Settle, Inv, DeriveId, Arriving, AppendEvents, OpenSet;
    var x := Stamp(l, now);
    var late := t.p.legs[r.id];
    var b := DeriveId(BREAK_PREFIX, [r.id]);
    assert b != "" by { DeriveIdNonEmpty(BREAK_PREFIX, [r.id]); }
    assert b in t.p.breaks.Keys;
    IngestEffect(cfg, t, l, now, false);
    StampKeeps(l, now);
    LateDecides(cfg.rules, t.p, x, late);
    LateSettles(cfg, t.p, x, late, now);
  }

  lemma HealableTwin(rules: Rules, p: Proj, l: Leg, id: Id)
    requires p.legs.Keys == {id} && p.legs[id].txnRef == l.txnRef && Heals(rules, p.breaks, l, p.legs[id])
    ensures Twin(p, l, HealedBy(rules, p.breaks, l)) && !Twin(p, l, OfSameSource(l)) && !Twin(p, l, Waits())
  {
    assert HealedBy(rules, p.breaks, l)(p.legs[id]);
    forall x | x in p.legs ensures x == id { assert x in p.legs.Keys; }
  }
}
