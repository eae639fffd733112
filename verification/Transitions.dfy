/** Each engine step, read at the level of the projections, keeps the invariant. */
module Transitions {
  import opened Sequences
  import opened Ordering
  import opened Domain
  import opened Identity
  import opened Persistence
  import opened Reconciliation
  import opened EventSourcing
  import opened Lifecycle
  import M = Matching
  import Q = OpenLegs
  import F = MatchingFacts

  // ---------------------------------------------------------------- what a decision rests on

  lemma {:induction false} LookupMembers(legs: map<Id, Leg>, ids: seq<Id>)
    ensures forall id :: id in ids && id in legs ==> legs[id] in Lookup(legs, ids)
    ensures forall x :: x in Lookup(legs, ids) ==> exists id :: id in ids && id in legs && legs[id] == x
  {
    if ids != [] {
      var init, last := ids[..|ids| - 1], ids[|ids| - 1];
      LookupMembers(legs, init);
      assert ids == init + [last];
      forall x | x in Lookup(legs, ids) ensures exists id :: id in ids && id in legs && legs[id] == x {
        if x in Lookup(legs, init) {
          var id :| id in init && id in legs && legs[id] == x;
          assert id in ids;
        } else {
          assert last in ids && last in legs && legs[last] == x;
        }
      }
    }
  }

  /** The related legs are exactly the stored legs with that txn_ref. */
  lemma RelatedMembers(p: Proj, ref: string)
    requires RefsListed(p)
    ensures forall x :: x in Related(p, ref) <==> x.id in p.legs && p.legs[x.id] == x && x.txnRef == ref
  {
    LookupMembers(p.legs, RefIds(p, ref));
    forall x: Leg | x.id in p.legs && p.legs[x.id] == x && x.txnRef == ref ensures x in Related(p, ref) {
      assert x.id in RefIds(p, p.legs[x.id].txnRef);
    }
  }

  lemma OpenMembers(p: Proj)
    requires RefsListed(p)
    ensures forall x :: x in OpenSet(p) <==> IsOpen(p, x.id) && p.legs[x.id] == x
    ensures Q.DistinctIds(OpenSet(p))
  {
  }

  lemma ArrivesOpen(p: Proj, l: Leg)
    requires RefsListed(p) && l.id !in p.legs
    ensures F.Arrives(l, OpenSet(p))
  {
    OpenMembers(p);
  }

  /** A joined match consists of the arriving leg and open legs. */
  ghost predicate GoodMatch(p: Proj, l: Leg, m: Match) {
    && |m.legIds| >= 2 && NoDup(m.legIds) && m.id == DeriveId(M.MATCH_PREFIX, m.legIds)
    && l.id in m.legIds && forall id :: id in m.legIds && id != l.id ==> IsOpen(p, id)
  }

  lemma DecideJoins(rules: Rules, p: Proj, l: Leg)
    ensures Decide(rules, p, l).Join? ==> M.Find(rules, l, OpenSet(p), KnownIn(p)) == Some(Decide(rules, p, l).m)
  {
    hide M.Find, Related, Q.ByRef, OpenSet, KnownIn;
  }

  /** Grounds made of the arriving leg and open legs give a good match. */
  lemma GroundsAreGood(rules: Rules, p: Proj, l: Leg, m: Match, g: F.Grounds)
    requires RefsListed(p) && l.id !in p.legs && F.Balances(rules, m, g)
    requires F.LegsOf(g) <= OpenSet(p) + {l} && l in F.LegsOf(g)
    ensures GoodMatch(p, l, m)
  {
    hide F.Balances, DeriveId;
    OpenMembers(p);
    F.GroundsIds(rules, m, g);
    forall id | id in m.legIds && id != l.id ensures IsOpen(p, id) {
      var x :| x in F.LegsOf(g) && x.id == id;
    }
  }

  lemma JoinFacts(rules: Rules, p: Proj, l: Leg)
    requires rules.Valid() && RefsListed(p) && l.id !in p.legs
    requires Decide(rules, p, l).Join?
    ensures GoodMatch(p, l, Decide(rules, p, l).m)
  {
    hide *;
    ArrivesOpen(p, l);
    DecideJoins(rules, p, l);
    var g := F.FindBalances(rules, l, OpenSet(p), KnownIn(p));
    GroundsAreGood(rules, p, l, Decide(rules, p, l).m, g);
  }

  /** Same-ref open legs that do not match: stored, open, and with other ids. */
  ghost predicate GoodPartners(p: Proj, l: Leg, partners: seq<Leg>) {
    && AllStored(p, partners) && NoDup(M.LegIds(partners)) && partners != []
    && forall x :: x in partners ==> x.status == Open && x.txnRef == l.txnRef && x.source != l.source
  }

  lemma DecideConflicts(rules: Rules, p: Proj, l: Leg)
    requires Decide(rules, p, l).Conflict?
    ensures Decide(rules, p, l).partners == Q.ByRef(OpenSet(p), l) != []
    ensures First(Related(p, l.txnRef), Reuses(l)).None?
  {
    hide M.Find, Related, Q.ByRef, OpenSet, KnownIn, First;
  }

  lemma AtMostOnePartner(p: Proj, l: Leg, s: set<Leg>)
    requires Inv(p) && forall c :: c in s ==> c in OpenSet(p) && c.txnRef == l.txnRef
    ensures |s| <= 1
  {
    OpenMembers(p);
    if s != {} {
      var x :| x in s;
      forall y | y in s ensures y == x { assert IsOpen(p, x.id) && IsOpen(p, y.id); }
      assert s == {x};
    }
  }

  lemma ConflictFacts(rules: Rules, p: Proj, l: Leg)
    requires Inv(p) && l.id !in p.legs && Decide(rules, p, l).Conflict?
    ensures GoodPartners(p, l, Decide(rules, p, l).partners)
    ensures |Decide(rules, p, l).partners| == 1
  {
    hide Decide, Related, First;
    var partners := Q.ByRef(OpenSet(p), l);
    var s := set c | c in OpenSet(p) && c.txnRef == l.txnRef && c.id != l.id;
    DecideConflicts(rules, p, l);
    Q.ListingFacts(s);
    AtMostOnePartner(p, l, s);
    OpenMembers(p);
    RelatedMembers(p, l.txnRef);
    FirstMisses(Related(p, l.txnRef), Reuses(l));
    forall x | x in partners ensures x.source != l.source {
      assert !Reuses(l)(x);
    }
  }

  lemma HealFacts(rules: Rules, p: Proj, l: Leg)
    requires RefsListed(p) && l.id !in p.legs && Decide(rules, p, l).Heal?
    ensures var r := Decide(rules, p, l).r;
            r.id in p.legs && p.legs[r.id] == r && r.txnRef == l.txnRef && Heals(rules, p.breaks, l, r)
  {
    hide M.Find, Related, Q.ByRef, OpenSet, KnownIn;
    RelatedMembers(p, l.txnRef);
    var related := Related(p, l.txnRef);
    var i := FirstPosition(related, HealedBy(rules, p.breaks, l));
    assert related[i] in related;
  }

  /** A leg waits only when no stored leg shares its txn_ref. */
  lemma WaitFacts(rules: Rules, p: Proj, l: Leg)
    requires RefsListed(p) && l.id !in p.legs && Decide(rules, p, l).Wait?
    ensures forall id :: id in p.legs ==> p.legs[id].txnRef != l.txnRef
  {
    hide M.Find, Related, Q.ByRef, OpenSet, KnownIn;
    var related := Related(p, l.txnRef);
    RelatedMembers(p, l.txnRef);
    FirstMisses(related, Reuses(l));
    FirstMisses(related, M.NotOfSource(l.source));
    forall id | id in p.legs ensures p.legs[id].txnRef != l.txnRef {
      var x := p.legs[id];
      assert x in related ==> !Reuses(l)(x) && !M.NotOfSource(l.source)(x);
    }
  }

  lemma LateMatchFacts(rules: Rules, l: Leg, r: Leg, now: Time)
    requires l.id != r.id
    ensures var m := LateMatch(rules, l, r, now);
            && (forall id :: id in m.legIds <==> id == l.id || id == r.id)
            && |m.legIds| == 2 && NoDup(m.legIds) && m.id == DeriveId(M.MATCH_PREFIX, m.legIds) && m.rule == T2Late
  {
    var raw := [l.id, r.id];
    SortPermutes(raw, StrLess);
    NoDupMultiset(raw);
    MultisetNoDup(Sort(raw, StrLess), SetOf(raw));
  }

  // ---------------------------------------------------------------- change sets settle as planned

  lemma PutOne(ms: map<Id, Match>, m: Match, bs: map<Id, Break>, b: Break)
    ensures PutMatches(ms, [m]) == ms[m.id := m] && PutMatches(ms, []) == ms
    ensures PutBreaks(bs, [b]) == bs[b.id := b] && PutBreaks(bs, []) == bs
  {
    assert [m][..0] == [] && [b][..0] == [];
  }

  lemma BreakPlanSettles(cfg: Config, p: Proj, l: Leg, partners: seq<Leg>, now: Time, trigger: Trigger, cs: ChangeSet)
    requires l.id !in p.legs && AllStored(p, partners) && NoDup(M.LegIds(partners))
    requires cs.legs == [] && cs.matches == [] && cs.breaks == []
    ensures var related := Related(p, l.txnRef);
            ApplyProj(p, WithBreak(cfg, cs, now, trigger, related, [l] + partners)) ==
            MarkBroken(Admit(p, l), NewBreak(cfg, trigger, related, [l] + partners, now))
  {
    hide Related, DeriveId, AsBroken;
    var related := Related(p, l.txnRef);
    var b := NewBreak(cfg, trigger, related, [l] + partners, now);
    var plan := WithBreak(cfg, cs, now, trigger, related, [l] + partners);
    assert plan.legs == AsBroken([l] + partners, b.id) && plan.matches == [] && plan.breaks == [b];
    BreakSettles(p, l, partners, b);
    UpsertAllKeepsRest(p, plan.legs);
    assert PutMatches(p.matches, []) == p.matches;
    assert [b][..0] == [];
    assert PutBreaks(p.breaks, [b]) == p.breaks[b.id := b];
  }

  lemma AloneIsSelf(l: Leg)
    ensures [l] + [] == [l] && NoDup(M.LegIds([]))
  {
  }

  lemma JoinPlanSettles(cfg: Config, p: Proj, l: Leg, now: Time, replaying: bool, found: Match)
    requires Linked(p) && l.id !in p.legs && l.breakId == "" && GoodMatch(p, l, found)
    ensures ApplyProj(p, Plan(cfg, p, l, now, replaying, Join(found))) == Settle(cfg, p, l, now, Join(found))
  {
    hide Related, DeriveId, Partners;
    var m := found.(matchedAt := now);
    var plan := Plan(cfg, p, l, now, replaying, Join(found));
    forall id | id in m.legIds && id != l.id ensures id in p.legs && p.legs[id].breakId == "" {
      assert IsOpen(p, id);
      assert LegPlaced(p, p.legs[id]);
    }
    MatchSettles(p, l, m);
    UpsertAllKeepsRest(p, plan.legs);
    assert [m][..0] == [];
    assert PutMatches(p.matches, [m]) == p.matches[m.id := m];
    assert PutBreaks(p.breaks, []) == p.breaks;
  }

  lemma MarkedRest(p: Proj, l: Leg, m: Match)
    ensures var t := MarkMatched(Admit(p, l), m); t.matches == p.matches[m.id := m] && t.breaks == p.breaks
  {
  }

  lemma HealPlanSettles(cfg: Config, p: Proj, l: Leg, now: Time, replaying: bool, r: Leg)
    requires Linked(p) && l.id !in p.legs && l.breakId == ""
    requires r.id in p.legs && p.legs[r.id] == r && r.breakId in p.breaks
    ensures ApplyProj(p, Plan(cfg, p, l, now, replaying, Heal(r))) == Settle(cfg, p, l, now, Heal(r))
  {
    hide Related, DeriveId, LateMatch, UpsertAll, PutMatches, PutBreaks, LegsPlaced, MatchesLinked, Admit, MarkMatched,
         BreakLinked, NoDup;
    var m := LateMatch(cfg.rules, l, r, now);
    var b := Resolved(p.breaks[r.breakId], LATE_REASON, SYSTEM_ACTOR, now);
    var plan := Plan(cfg, p, l, now, replaying, Heal(r));
    LateMatchFacts(cfg.rules, l, r, now);
    HealSettles(p, l, r, m);
    assert plan.legs == [l.(status := Matched, matchId := m.id), MatchedBy(r, m.id)];
    UpsertAllKeepsRest(p, plan.legs);
    MarkedRest(p, l, m);
    PutOne(p.matches, m, p.breaks, b);
  }

  lemma WaitPlanSettles(cfg: Config, p: Proj, l: Leg, now: Time, replaying: bool)
    ensures ApplyProj(p, Plan(cfg, p, l, now, replaying, Wait)) == Settle(cfg, p, l, now, Wait)
  {
    var x := l.(status := Open);
    assert [x][..0] == [];
    assert UpsertAll(p, []) == p;
    assert UpsertAll(p, [x]) == Upsert(p, x);
    assert PutMatches(p.matches, []) == p.matches && PutBreaks(p.breaks, []) == p.breaks;
  }

  /** The stored projections after a change set are what the decision stands for. */
  lemma PlanSettles(cfg: Config, p: Proj, l: Leg, now: Time, replaying: bool)
    requires cfg.rules.Valid() && Inv(p) && l.id !in p.legs && Arriving(l)
    ensures var d := Decide(cfg.rules, p, l);
            ApplyProj(p, Plan(cfg, p, l, now, replaying, d)) == Settle(cfg, p, l, now, d)
  {
    hide Decide, Related, NewBreak, WithBreak, ApplyProj, MarkBroken, MarkMatched, Admit, RefsListed, LegsPlaced,
         MatchesLinked, BreaksLinked, OneOpenPerRef;
    var d := Decide(cfg.rules, p, l);
    var cs := Intake(l, now, replaying);
    AloneIsSelf(l);
    match d
    case Reused => BreakPlanSettles(cfg, p, l, [], now, DuplicateRef, cs);
    case Join(m) =>
      JoinFacts(cfg.rules, p, l);
      JoinPlanSettles(cfg, p, l, now, replaying, m);
    case Conflict(partners) =>
      ConflictFacts(cfg.rules, p, l);
      BreakPlanSettles(cfg, p, l, partners, now, RefConflict, cs);
    case Heal(r) =>
      HealFacts(cfg.rules, p, l);
      HealPlanSettles(cfg, p, l, now, replaying, r);
    case Orphan => BreakPlanSettles(cfg, p, l, [], now, RefConflict, cs);
    case Wait => WaitPlanSettles(cfg, p, l, now, replaying);
  }

  // ---------------------------------------------------------------- decisions keep the invariant

  lemma NewBreakFacts(cfg: Config, trigger: Trigger, related: seq<Leg>, legs: seq<Leg>, now: Time)
    requires legs != []
    ensures var b := NewBreak(cfg, trigger, related, legs, now);
            && b.legIds == M.LegIds(legs) && b.id == DeriveId(BREAK_PREFIX, b.legIds) && b.status == BreakOpen
            && b.trigger == trigger && b.openedAt == now && b.resolvedAt.None? && b.actor == ""
            && b.currency == legs[0].currency && b.counterparty == legs[0].counterparty
  {
    hide DeriveId;
  }

  lemma BreakLinks(p: Proj, l: Leg, partners: seq<Leg>, b: Break)
    requires Linked(p) && l.id !in p.legs && Arriving(l) && |partners| <= 1
    requires AllStored(p, partners) && forall x :: x in partners ==> x.status == Open
    requires b.legIds == M.LegIds([l] + partners) && b.id == DeriveId(BREAK_PREFIX, b.legIds) && b.status == BreakOpen
    requires b.currency == l.currency && b.counterparty == l.counterparty
    ensures Linked(MarkBroken(Admit(p, l), b))
  {
    hide Linked, DeriveId, MarkBroken;
    var q := Admit(p, l);
    AdmitLinked(p, l);
    forall id | id in b.legIds ensures IsOpen(q, id) {
      if id != l.id { assert id == partners[0].id && partners[0] in partners; }
    }
    assert |b.legIds| == 2 ==> b.legIds[1] == partners[0].id && partners[0] in partners && b.legIds[0] != b.legIds[1];
    MarkBrokenLinked(q, b);
  }

  lemma BreakKeepsLinks(cfg: Config, p: Proj, l: Leg, partners: seq<Leg>, trigger: Trigger, now: Time)
    requires Linked(p) && l.id !in p.legs && Arriving(l) && |partners| <= 1
    requires AllStored(p, partners) && forall x :: x in partners ==> x.status == Open
    ensures Linked(MarkBroken(Admit(p, l), NewBreak(cfg, trigger, Related(p, l.txnRef), [l] + partners, now)))
  {
    hide Linked, NewBreak, Related, DeriveId, MarkBroken, Admit, Arriving;
    NewBreakFacts(cfg, trigger, Related(p, l.txnRef), [l] + partners, now);
    BreakLinks(p, l, partners, NewBreak(cfg, trigger, Related(p, l.txnRef), [l] + partners, now));
  }

  lemma JoinKeepsLinks(p: Proj, l: Leg, m: Match)
    requires Linked(p) && l.id !in p.legs && Arriving(l) && GoodMatch(p, l, m)
    ensures Linked(MarkMatched(Admit(p, l), m))
  {
    hide Linked, DeriveId, MarkMatched;
    var q := Admit(p, l);
    AdmitLinked(p, l);
    forall id | id in m.legIds ensures IsOpen(q, id) { assert id == l.id || IsOpen(p, id); }
    MarkMatchedLinked(q, m);
  }

  lemma HealKeepsLinks(rules: Rules, p: Proj, l: Leg, r: Leg, now: Time)
    requires Linked(p) && l.id !in p.legs && Arriving(l)
    requires r.id in p.legs && p.legs[r.id] == r && Heals(rules, p.breaks, l, r)
    ensures Linked(Close(MarkMatched(Admit(p, l), LateMatch(rules, l, r, now)), r.breakId, LATE_REASON, SYSTEM_ACTOR,
            now))
  {
    hide Linked, DeriveId, MarkMatched, LateMatch, Close;
    var q := Admit(p, l);
    AdmitLinked(p, l);
    LateMatchFacts(rules, l, r, now);
    HealLinked(q, l.id, r.id, LateMatch(rules, l, r, now), now);
  }

  lemma SettleKeepsLinks(cfg: Config, p: Proj, l: Leg, now: Time)
    requires cfg.rules.Valid() && Inv(p) && l.id !in p.legs && Arriving(l)
    ensures Linked(Settle(cfg, p, l, now, Decide(cfg.rules, p, l)))
  {
    hide Decide, Related, NewBreak, MarkBroken, MarkMatched, Admit, Close, RefsListed, LegsPlaced, MatchesLinked,
         BreaksLinked, OneOpenPerRef;
    AloneIsSelf(l);
    match Decide(cfg.rules, p, l)
    case Reused => BreakKeepsLinks(cfg, p, l, [], DuplicateRef, now);
    case Join(m) =>
      JoinFacts(cfg.rules, p, l);
      JoinKeepsLinks(p, l, m.(matchedAt := now));
    case Conflict(partners) =>
      ConflictFacts(cfg.rules, p, l);
      BreakKeepsLinks(cfg, p, l, partners, RefConflict, now);
    case Heal(r) =>
      HealFacts(cfg.rules, p, l);
      HealKeepsLinks(cfg.rules, p, l, r, now);
    case Orphan => BreakKeepsLinks(cfg, p, l, [], RefConflict, now);
    case Wait => AdmitLinked(p, l);
  }

  /** The arriving leg stays open only when it waits; nothing else becomes open. */
  lemma SettleOpens(cfg: Config, p: Proj, l: Leg, now: Time)
    requires cfg.rules.Valid() && Inv(p) && l.id !in p.legs
    ensures var d := Decide(cfg.rules, p, l);
            var q := Settle(cfg, p, l, now, d);
            forall id :: IsOpen(q, id) ==>
              || (IsOpen(p, id) && q.legs[id] == p.legs[id])
              || (d.Wait? && id == l.id && q.legs[id] == l.(status := Open))
  {
    hide Decide, Related, DeriveId, Linked, OneOpenPerRef, LateMatch;
    var d := Decide(cfg.rules, p, l);
    AloneIsSelf(l);
    match d
    case Reused => NewBreakFacts(cfg, DuplicateRef, Related(p, l.txnRef), [l], now);
    case Join(m) => JoinIncludesSelf(cfg.rules, p, l);
    case Conflict(partners) =>
      NewBreakFacts(cfg, RefConflict, Related(p, l.txnRef), [l] + partners, now);
      assert M.LegIds([l] + partners)[0] == l.id;
    case Heal(r) =>
      HealFactsInv(cfg.rules, p, l);
      LateMatchFacts(cfg.rules, l, r, now);
    case Orphan => NewBreakFacts(cfg, RefConflict, Related(p, l.txnRef), [l], now);
    case Wait =>
  }

  lemma JoinIncludesSelf(rules: Rules, p: Proj, l: Leg)
    requires rules.Valid() && Inv(p) && l.id !in p.legs && Decide(rules, p, l).Join?
    ensures l.id in Decide(rules, p, l).m.legIds
  {
    hide Decide, LegsPlaced, MatchesLinked, BreaksLinked, OneOpenPerRef, RefsListed;
    JoinFacts(rules, p, l);
  }

  lemma HealFactsInv(rules: Rules, p: Proj, l: Leg)
    requires Inv(p) && l.id !in p.legs && Decide(rules, p, l).Heal?
    ensures var r := Decide(rules, p, l).r;
            r.id in p.legs && p.legs[r.id] == r && r.txnRef == l.txnRef && Heals(rules, p.breaks, l, r)
  {
    hide Decide, LegsPlaced, MatchesLinked, BreaksLinked, OneOpenPerRef, RefsListed;
    HealFacts(rules, p, l);
  }

  lemma SettleKeepsOnePerRef(cfg: Config, p: Proj, l: Leg, now: Time)
    requires cfg.rules.Valid() && Inv(p) && l.id !in p.legs
    ensures OneOpenPerRef(Settle(cfg, p, l, now, Decide(cfg.rules, p, l)))
  {
    hide Decide, Settle, LegsPlaced, MatchesLinked, BreaksLinked, RefsListed;
    SettleOpens(cfg, p, l, now);
    if Decide(cfg.rules, p, l).Wait? { WaitFacts(cfg.rules, p, l); }
  }

  /** Every decision keeps the invariant. */
  lemma SettleInv(cfg: Config, p: Proj, l: Leg, now: Time)
    requires cfg.rules.Valid() && Inv(p) && l.id !in p.legs && Arriving(l)
    ensures Inv(Settle(cfg, p, l, now, Decide(cfg.rules, p, l)))
  {
    hide Decide, Settle, Linked, OneOpenPerRef;
    SettleKeepsLinks(cfg, p, l, now);
    SettleKeepsOnePerRef(cfg, p, l, now);
  }

  // ---------------------------------------------------------------- expiry and resolution

  lemma BreakAlone(p: Proj, l: Leg, b: Break)
    requires l.id in p.legs && p.legs[l.id] == l && b.legIds == [l.id]
    ensures var q := UpsertAll(p, AsBroken([l], b.id));
            q.legs == MarkBroken(p, b).legs && q.byRef == p.byRef
  {
    assert M.LegIds([l]) == [l.id];
    BreakStored(p, [l], b.id);
    var q := UpsertAll(p, AsBroken([l], b.id));
    assert forall id :: id in q.legs ==> q.legs[id] == MarkBroken(p, b).legs[id];
  }

  lemma ExpireSettles(cfg: Config, p: Proj, l: Leg, now: Time, forced: bool)
    requires l.id in p.legs && p.legs[l.id] == l
    ensures ApplyProj(p, ExpirePlan(cfg, p, l, now, forced)) ==
            MarkBroken(p, NewBreak(cfg, WindowExpired, Related(p, l.txnRef), [l], now))
  {
    hide Related, DeriveId, AsBroken, NewBreak;
    var b := NewBreak(cfg, WindowExpired, Related(p, l.txnRef), [l], now);
    var plan := ExpirePlan(cfg, p, l, now, forced);
    NewBreakFacts(cfg, WindowExpired, Related(p, l.txnRef), [l], now);
    assert M.LegIds([l]) == [l.id];
    assert plan.legs == AsBroken([l], b.id) && plan.matches == [] && plan.breaks == [b];
    BreakAlone(p, l, b);
    UpsertAllKeepsRest(p, plan.legs);
    assert PutMatches(p.matches, []) == p.matches;
    assert [b][..0] == [];
    assert PutBreaks(p.breaks, [b]) == p.breaks[b.id := b];
  }

  lemma ExpireInv(cfg: Config, p: Proj, l: Leg, now: Time, forced: bool)
    requires Inv(p) && IsOpen(p, l.id) && p.legs[l.id] == l
    ensures Inv(ApplyProj(p, ExpirePlan(cfg, p, l, now, forced)))
  {
    hide Linked, Related, DeriveId, ApplyProj, ExpirePlan, NewBreak;
    ExpireSettles(cfg, p, l, now, forced);
    NewBreakFacts(cfg, WindowExpired, Related(p, l.txnRef), [l], now);
    MarkBrokenLinked(p, NewBreak(cfg, WindowExpired, Related(p, l.txnRef), [l], now));
  }

  lemma ResolveSettles(p: Proj, id: Id, reason: string, actor: string, at: Time, evs: seq<Event>)
    requires id in p.breaks && p.breaks[id].id == id
    ensures ApplyProj(p, ChangeSet([], [], [Resolved(p.breaks[id], reason, actor, at)], evs)) ==
            Close(p, id, reason, actor, at)
  {
    var b := Resolved(p.breaks[id], reason, actor, at);
    assert [b][..0] == [];
    assert PutBreaks(p.breaks, [b]) == p.breaks[b.id := b];
    assert UpsertAll(p, []) == p && PutMatches(p.matches, []) == p.matches;
  }

  lemma CloseInv(p: Proj, id: Id, reason: string, actor: string, at: Time)
    requires Inv(p) && (id in p.breaks ==> p.breaks[id].status == BreakOpen)
    ensures Inv(Close(p, id, reason, actor, at))
  {
    hide Linked;
    CloseLinked(p, id, reason, actor, at);
  }

  lemma NoteSettles(p: Proj, evs: seq<Event>)
    ensures ApplyProj(p, ChangeSet([], [], [], evs)) == p
  {
    assert UpsertAll(p, []) == p && PutMatches(p.matches, []) == p.matches && PutBreaks(p.breaks, []) == p.breaks;
  }
}
