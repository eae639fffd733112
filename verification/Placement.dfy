/**
 Legs that come in with a status, match id or break id of their own. `Ingest` does not strip these
 fields, only replay does, so the invariant can fail; here is exactly when.
 */
module Placement {
  import opened Domain
  import opened Identity
  import opened Persistence
  import opened Reconciliation
  import opened EventSourcing
  import opened Lifecycle
  import opened Transitions
  import opened Reports
  import M = Matching

  /** A valid leg whose placement fields may hold anything. */
  ghost predicate Incoming(l: Leg) { Arriving(l.Unplaced()) }

  /** The carried ids that the outcome will not overwrite are empty. */
  predicate Unburdened(d: Decision, l: Leg) {
    match d
    case Wait => l.matchId == "" && l.breakId == ""
    case Join(_) => l.breakId == ""
    case Heal(_) => l.breakId == ""
    case _ => l.matchId == ""
  }

  // ---------------------------------------------------------------- the stored leg keeps what it carried

  lemma {:induction false} UpsertKeepsHead(p: Proj, rest: seq<Leg>, id: Id)
    requires id in p.legs && forall x :: x in rest ==> x.id != id
    ensures id in UpsertAll(p, rest).legs && UpsertAll(p, rest).legs[id] == p.legs[id]
  {
    if rest != [] {
      assert rest[|rest| - 1] in rest;
      UpsertKeepsHead(p, rest[..|rest| - 1], id);
    }
  }

  lemma HeadStored(p: Proj, x: Leg, rest: seq<Leg>)
    requires forall y :: y in rest ==> y.id != x.id
    ensures var q := UpsertAll(p, [x] + rest); x.id in q.legs && q.legs[x.id] == x
  {
    UpsertHead(p, x, rest);
    UpsertKeepsHead(Upsert(p, x), rest, x.id);
  }

  /** A plan whose first leg is the arriving one stores it as planned. */
  lemma PlannedLeg(p: Proj, cs: ChangeSet, x: Leg, rest: seq<Leg>)
    requires cs.legs == [x] + rest && forall y :: y in rest ==> y.id != x.id
    ensures var q := ApplyProj(p, cs); x.id in q.legs && q.legs[x.id] == x
  {
    hide UpsertAll, PutMatches, PutBreaks;
    HeadStored(p, x, rest);
  }

  lemma BreakCarries(cfg: Config, p: Proj, l: Leg, partners: seq<Leg>, now: Time, trigger: Trigger, cs: ChangeSet)
    requires l.id !in p.legs && AllStored(p, partners) && cs.legs == []
    ensures var q := ApplyProj(p, WithBreak(cfg, cs, now, trigger, Related(p, l.txnRef), [l] + partners));
            l.id in q.legs && q.legs[l.id].status == Broken && q.legs[l.id].matchId == l.matchId
  {
    hide NewBreak, Related, ApplyProj;
    var b := NewBreak(cfg, trigger, Related(p, l.txnRef), [l] + partners, now);
    var legs := AsBroken([l] + partners, b.id);
    var plan := WithBreak(cfg, cs, now, trigger, Related(p, l.txnRef), [l] + partners);
    assert plan.legs == legs;
    assert legs == [l.(status := Broken, breakId := b.id)] + AsBroken(partners, b.id);
    forall y | y in AsBroken(partners, b.id) ensures y.id != l.id {
      var i :| 0 <= i < |partners| && y == AsBroken(partners, b.id)[i];
      assert partners[i] in partners;
    }
    PlannedLeg(p, plan, l.(status := Broken, breakId := b.id), AsBroken(partners, b.id));
  }

  lemma JoinCarries(cfg: Config, p: Proj, l: Leg, now: Time, replaying: bool, m: Match)
    requires Linked(p) && l.id !in p.legs && GoodMatch(p, l, m)
    ensures var q := ApplyProj(p, Plan(cfg, p, l, now, replaying, Join(m)));
            l.id in q.legs && q.legs[l.id].status == Matched && q.legs[l.id].breakId == l.breakId
  {
    hide ApplyProj, Partners, DeriveId, LegsPlaced, MatchesLinked, BreaksLinked;
    PartnersFacts(p.legs, m.legIds, l.id, m.id);
    PlannedLeg(p, Plan(cfg, p, l, now, replaying, Join(m)), l.(status := Matched, matchId := m.id),
        Partners(p.legs, m.legIds, l.id, m.id));
  }

  lemma HealCarries(cfg: Config, p: Proj, l: Leg, now: Time, replaying: bool, r: Leg)
    requires l.id !in p.legs && r.id in p.legs && r.breakId in p.breaks
    ensures var q := ApplyProj(p, Plan(cfg, p, l, now, replaying, Heal(r)));
            l.id in q.legs && q.legs[l.id].status == Matched && q.legs[l.id].breakId == l.breakId
  {
    hide ApplyProj, LateMatch, Resolved;
    var m := LateMatch(cfg.rules, l, r, now);
    var first, second := l.(status := Matched, matchId := m.id), r.(status := Matched, matchId := m.id, breakId := "");
    assert [first, second] == [first] + [second];
    PlannedLeg(p, Plan(cfg, p, l, now, replaying, Heal(r)), first, [second]);
  }

  lemma WaitCarries(cfg: Config, p: Proj, l: Leg, now: Time, replaying: bool)
    ensures var q := ApplyProj(p, Plan(cfg, p, l, now, replaying, Wait));
            l.id in q.legs && q.legs[l.id] == l.(status := Open)
  {
    hide ApplyProj;
    assert [l.(status := Open)] == [l.(status := Open)] + [];
    PlannedLeg(p, Plan(cfg, p, l, now, replaying, Wait), l.(status := Open), []);
  }

  /** Where the leg ends up, and the carried id it still holds. */
  lemma Carries(cfg: Config, p: Proj, l: Leg, now: Time, replaying: bool)
    requires cfg.rules.Valid() && Inv(p) && l.id !in p.legs
    ensures var d := Decide(cfg.rules, p, l);
            var q := ApplyProj(p, Plan(cfg, p, l, now, replaying, d));
            && l.id in q.legs
            && match d
               case Wait => q.legs[l.id] == l.(status := Open)
               case Join(_) => q.legs[l.id].status == Matched && q.legs[l.id].breakId == l.breakId
               case Heal(_) => q.legs[l.id].status == Matched && q.legs[l.id].breakId == l.breakId
               case _ => q.legs[l.id].status == Broken && q.legs[l.id].matchId == l.matchId
  {
    hide Decide, Related, WithBreak, ApplyProj, RefsListed, LegsPlaced, MatchesLinked, BreaksLinked, OneOpenPerRef;
    var cs := Intake(l, now, replaying);
    AloneIsSelf(l);
    match Decide(cfg.rules, p, l)
    case Reused => BreakCarries(cfg, p, l, [], now, DuplicateRef, cs);
    case Join(m) =>
      JoinFacts(cfg.rules, p, l);
      JoinCarries(cfg, p, l, now, replaying, m);
    case Conflict(partners) =>
      ConflictFacts(cfg.rules, p, l);
      BreakCarries(cfg, p, l, partners, now, RefConflict, cs);
    case Heal(r) =>
      HealFacts(cfg.rules, p, l);
      HealCarries(cfg, p, l, now, replaying, r);
    case Orphan => BreakCarries(cfg, p, l, [], now, RefConflict, cs);
    case Wait => WaitCarries(cfg, p, l, now, replaying);
  }

  // ---------------------------------------------------------------- an unburdened leg is as good as a bare one

  lemma UnburdenedSettles(cfg: Config, p: Proj, l: Leg, now: Time, replaying: bool)
    requires cfg.rules.Valid() && Inv(p) && l.id !in p.legs && Unburdened(Decide(cfg.rules, p, l), l)
    ensures var d := Decide(cfg.rules, p, l);
            ApplyProj(p, Plan(cfg, p, l, now, replaying, d)) == Settle(cfg, p, l, now, d)
  {
    hide Decide, Related, NewBreak, WithBreak, ApplyProj, MarkBroken, MarkMatched, Admit, RefsListed, LegsPlaced,
         MatchesLinked, BreaksLinked, OneOpenPerRef;
    var cs := Intake(l, now, replaying);
    AloneIsSelf(l);
    match Decide(cfg.rules, p, l)
    case Reused => BreakPlanSettles(cfg, p, l, [], now, DuplicateRef, cs);
    case Join(m) =>
      JoinFacts(cfg.rules, p, l);
      JoinPlanSettles(cfg, p, l, now, replaying, m);
    case Conflict(partners) =>
      ConflictFacts(cfg.rules, p, l);
      BreakPlanSettles(cfg, p, l, partners, now, RefConflict, cs);
    case Heal(r) =>
      HealFacts(cfg.rules, p, l);
      HealPlanSettles(cfg, p, l, now, replaying, r);
    case Orphan => BreakPlanSettles(cfg, p, l, [], now, RefConflict, cs);
    case Wait => WaitPlanSettles(cfg, p, l, now, replaying);
  }

  lemma BreakForgets(p: Proj, l: Leg, b: Break)
    requires l.id !in p.legs && l.id in b.legIds && l.matchId == ""
    ensures MarkBroken(Admit(p, l), b) == MarkBroken(Admit(p, l.Unplaced()), b)
  {
    var x, y := MarkBroken(Admit(p, l), b), MarkBroken(Admit(p, l.Unplaced()), b);
    assert x.legs.Keys == y.legs.Keys;
    assert forall id :: id in x.legs ==> x.legs[id] == y.legs[id];
    assert x.legs == y.legs;
  }

  lemma MatchForgets(p: Proj, l: Leg, m: Match)
    requires l.id !in p.legs && l.id in m.legIds
    ensures MarkMatched(Admit(p, l), m) == MarkMatched(Admit(p, l.Unplaced()), m)
  {
    var x, y := MarkMatched(Admit(p, l), m), MarkMatched(Admit(p, l.Unplaced()), m);
    assert x.legs.Keys == y.legs.Keys;
    assert forall id :: id in x.legs ==> x.legs[id] == y.legs[id];
    assert x.legs == y.legs;
  }

  lemma BreakStaysLinked(cfg: Config, p: Proj, l: Leg, partners: seq<Leg>, trigger: Trigger, now: Time)
    requires Linked(p) && l.id !in p.legs && Incoming(l) && l.matchId == "" && |partners| <= 1
    requires AllStored(p, partners) && forall x :: x in partners ==> x.status == Open
    ensures Linked(MarkBroken(Admit(p, l), NewBreak(cfg, trigger, Related(p, l.txnRef), [l] + partners, now)))
  {
    hide Linked, NewBreak, Related, DeriveId, MarkBroken, Admit, Arriving;
    var b := NewBreak(cfg, trigger, Related(p, l.txnRef), [l] + partners, now);
    NewBreakFacts(cfg, trigger, Related(p, l.txnRef), [l] + partners, now);
    assert M.LegIds([l] + partners)[0] == l.id;
    assert M.LegIds([l.Unplaced()] + partners) == M.LegIds([l] + partners);
    BreakLinks(p, l.Unplaced(), partners, b);
    BreakForgets(p, l, b);
  }

  lemma JoinStaysLinked(p: Proj, l: Leg, m: Match)
    requires Linked(p) && l.id !in p.legs && Incoming(l) && GoodMatch(p, l, m)
    ensures Linked(MarkMatched(Admit(p, l), m))
  {
    hide Linked, DeriveId, MarkMatched, Admit, Arriving;
    JoinKeepsLinks(p, l.Unplaced(), m);
    MatchForgets(p, l, m);
  }

  lemma HealStaysLinked(rules: Rules, p: Proj, l: Leg, r: Leg, now: Time)
    requires Linked(p) && l.id !in p.legs && Incoming(l)
    requires r.id in p.legs && p.legs[r.id] == r && Heals(rules, p.breaks, l, r)
    ensures Linked(Close(MarkMatched(Admit(p, l), LateMatch(rules, l, r, now)), r.breakId, LATE_REASON, SYSTEM_ACTOR,
            now))
  {
    hide Linked, DeriveId, MarkMatched, Admit, Arriving, Close;
    HealKeepsLinks(rules, p, l.Unplaced(), r, now);
    LateMatchFacts(rules, l, r, now);
    MatchForgets(p, l, LateMatch(rules, l, r, now));
  }

  lemma UnburdenedStaysLinked(cfg: Config, p: Proj, l: Leg, now: Time)
    requires cfg.rules.Valid() && Inv(p) && l.id !in p.legs && Incoming(l) && Unburdened(Decide(cfg.rules, p, l), l)
    ensures Linked(Settle(cfg, p, l, now, Decide(cfg.rules, p, l)))
  {
    hide Decide, Related, NewBreak, MarkBroken, MarkMatched, Admit, Close, RefsListed, LegsPlaced, MatchesLinked,
         BreaksLinked, OneOpenPerRef;
    AloneIsSelf(l);
    match Decide(cfg.rules, p, l)
    case Reused => BreakStaysLinked(cfg, p, l, [], DuplicateRef, now);
    case Join(m) =>
      JoinFacts(cfg.rules, p, l);
      JoinStaysLinked(p, l, m.(matchedAt := now));
    case Conflict(partners) =>
      ConflictFacts(cfg.rules, p, l);
      BreakStaysLinked(cfg, p, l, partners, RefConflict, now);
    case Heal(r) =>
      HealFacts(cfg.rules, p, l);
      HealStaysLinked(cfg.rules, p, l, r, now);
    case Orphan => BreakStaysLinked(cfg, p, l, [], RefConflict, now);
    case Wait =>
      AdmitLinked(p, l.Unplaced());
      AdmitBare(p, l);
  }

  lemma AdmitBare(p: Proj, l: Leg)
    requires l.matchId == "" && l.breakId == ""
    ensures Admit(p, l) == Admit(p, l.Unplaced())
  {
  }

  // ---------------------------------------------------------------- the exact condition

  lemma PlacedOf(p: Proj, id: Id)
    requires Inv(p) && id in p.legs
    ensures LegPlaced(p, p.legs[id])
  {
  }

  /** A new leg keeps the invariant exactly when the ids it carries are overwritten or empty. */
  lemma InvariantKeptIff(cfg: Config, s: State, arriving: Leg, now: Time)
    requires cfg.rules.Valid() && Inv(s.p) && arriving.id !in s.p.legs && Incoming(arriving)
    ensures Inv(Ingest(cfg, s, arriving, now, false).p) <==>
            Unburdened(Decide(cfg.rules, s.p, Stamp(arriving, now)), arriving)
  {
    hide Decide, Plan, Settle, ApplyProj, AppendEvents, Linked, OneOpenPerRef, LegPlaced;
    var l := Stamp(arriving, now);
    var d := Decide(cfg.rules, s.p, l);
    var q := Ingest(cfg, s, arriving, now, false).p;
    assert q == ApplyProj(s.p, Plan(cfg, s.p, l, now, false, d));
    if Unburdened(d, l) {
      UnburdenedSettles(cfg, s.p, l, now, false);
      UnburdenedStaysLinked(cfg, s.p, l, now);
      SettleKeepsOnePerRef(cfg, s.p, l, now);
    } else if Inv(q) {
      Carries(cfg, s.p, l, now, false);
      BurdenShows(q, l, d);
    }
  }

  /**
   What a caller can check: a leg keeps the invariant in every state it can come into exactly when it
   carries neither a match id nor a break id.
   */
  lemma AlwaysKeptIff(cfg: Config, l: Leg, now: Time)
    requires cfg.rules.Valid() && Incoming(l)
    ensures (forall s: State :: Inv(s.p) && l.id !in s.p.legs ==> Inv(Ingest(cfg, s, l, now, false).p)) <==>
            l.matchId == "" && l.breakId == ""
  {
    hide Decide, Ingest, Inv, Incoming;
    if l.matchId == "" && l.breakId == "" {
      forall s: State | Inv(s.p) && l.id !in s.p.legs ensures Inv(Ingest(cfg, s, l, now, false).p) {
        InvariantKeptIff(cfg, s, l, now);
      }
    } else {
      var s := State(EMPTY, []);
      EmptyInv();
      FirstWaits(cfg.rules, Stamp(l, now));
      InvariantKeptIff(cfg, s, l, now);
      assert !Inv(Ingest(cfg, s, l, now, false).p);
    }
  }

  lemma FirstWaits(rules: Rules, l: Leg)
    requires rules.Valid()
    ensures Decide(rules, EMPTY, l).Wait?
  {
    hide Decide, M.Find, Inv;
    EmptyInv();
    FirstOutcome(rules, l);
    OutcomeIff(rules, EMPTY, l);
  }

  lemma BurdenShows(q: Proj, l: Leg, d: Decision)
    requires Inv(q) && l.id in q.legs
    requires match d
             case Wait => q.legs[l.id] == l.(status := Open)
             case Join(_) => q.legs[l.id].status == Matched && q.legs[l.id].breakId == l.breakId
             case Heal(_) => q.legs[l.id].status == Matched && q.legs[l.id].breakId == l.breakId
             case _ => q.legs[l.id].status == Broken && q.legs[l.id].matchId == l.matchId
    ensures Unburdened(d, l)
  {
    hide Linked, OneOpenPerRef;
    PlacedOf(q, l.id);
  }

  /** Concretely: a first leg that claims a match is stored open and claiming it. */
  lemma CarriedMatchIdBreaksInvariant(cfg: Config, l: Leg, now: Time)
    requires cfg.rules.Valid() && Arriving(l)
    ensures !Inv(Ingest(cfg, State(EMPTY, []), l.(matchId := "m_0"), now, false).p)
  {
    hide Decide, Ingest, Inv;
    var x := l.(matchId := "m_0");
    EmptyInv();
    assert x.Unplaced() == l;
    InvariantKeptIff(cfg, State(EMPTY, []), x, now);
    FirstOutcome(cfg.rules, Stamp(x, now));
  }

  lemma JoinTakesAnother(p: Proj, l: Leg, m: Match) returns (id: Id)
    requires GoodMatch(p, l, m)
    ensures IsOpen(p, id)
  {
    hide DeriveId;
    assert m.legIds[0] != m.legIds[1] && m.legIds[0] in m.legIds && m.legIds[1] in m.legIds;
    id := if m.legIds[0] == l.id then m.legIds[1] else m.legIds[0];
  }

  /** With nothing stored no leg can join or heal. */
  lemma FirstOutcome(rules: Rules, l: Leg)
    requires rules.Valid()
    ensures !Decide(rules, EMPTY, l).Join? && !Decide(rules, EMPTY, l).Heal?
  {
    hide Decide, LegsPlaced, MatchesLinked, BreaksLinked, OneOpenPerRef;
    EmptyInv();
    if Decide(rules, EMPTY, l).Join? {
      JoinFacts(rules, EMPTY, l);
      var id := JoinTakesAnother(EMPTY, l, Decide(rules, EMPTY, l).m);
    } else if Decide(rules, EMPTY, l).Heal? {
      HealFacts(rules, EMPTY, l);
    }
  }
}
