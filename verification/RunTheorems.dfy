/** Laws of whole runs: the projection is a fold of the log, and settled facts stay settled. */
module RunTheorems {
  import opened Sequences
  import opened Domain
  import opened Identity
  import opened Persistence
  import opened Reconciliation
  import opened EventSourcing
  import opened Lifecycle
  import opened Transitions
  import opened Runs

  // ---------------------------------------------------------------- the log explains the projections

  /** The events a step other than a replay appends. */
  ghost function Emitted(cfg: Config, s: State, op: Op): seq<Event> {
    match op
    case Arrive(arriving, now) =>
      var l := Stamp(arriving, now);
      if l.id in s.p.legs then [Entry(now, LegDuplicate(l))]
          else [Entry(now, LegIngested(l))] + Derived(cfg, s.p, l, now)
    case ExpireLeg(id, now, forced) =>
      if IsOpen(s.p, id) then ExpirePlan(cfg, s.p, s.p.legs[id], now, forced).events else []
    case CloseWindow(n, olderThan, now) => [Entry(now, WindowClosed(n, olderThan))]
    case ResolveBreak(id, reason, actor, now) =>
      if Resolvable(s.p, id, reason, actor) then [Entry(now, BreakResolvedBy(id, reason, actor, now, ""))] else []
    case StartReplay(_, _, _, _) => []
    case AbandonReplay(from, now) => [Entry(now, ReplayStarted(if from < 1 then 1 else from, |s.log|))]
  }

  lemma IngestFolds(cfg: Config, s: State, arriving: Leg, now: Time)
    requires cfg.rules.Valid() && Inv(s.p) && Arriving(arriving)
    ensures var t := Ingest(cfg, s, arriving, now, false);
            var evs := Emitted(cfg, s, Arrive(arriving, now));
            t.p == Fold(s.p, evs) && t.log == AppendEvents(s.log, evs)
  {
    hide Ingest, Decide, Settle, Inv, AppendEvents, Derived, Admit;
    var l := Stamp(arriving, now);
    IngestEffect(cfg, s, arriving, now, false);
    if l.id in s.p.legs {
      FoldOne(s.p, Entry(now, LegDuplicate(l)));
    } else {
      SettleIsFold(cfg, s.p, l, now);
      FoldAppend(s.p, [Entry(now, LegIngested(l))], Derived(cfg, s.p, l, now));
      FoldOne(s.p, Entry(now, LegIngested(l)));
    }
  }

  lemma ExpireFolds(cfg: Config, s: State, id: Id, now: Time, forced: bool)
    requires Inv(s.p) && IsOpen(s.p, id)
    ensures var t := Expire(cfg, s, s.p.legs[id], now, forced);
            var evs := ExpirePlan(cfg, s.p, s.p.legs[id], now, forced).events;
            t.p == Fold(s.p, evs) && t.log == AppendEvents(s.log, evs)
  {
    hide Inv, ApplyProj, AppendEvents, NewBreak, Related, MarkBroken;
    var l := s.p.legs[id];
    ExpireOwnId(s.p, id);
    ExpireSettles(cfg, s.p, l, now, forced);
    ExpireEvents(cfg, s.p, l, now, forced);
    var evs := ExpirePlan(cfg, s.p, l, now, forced).events;
    assert evs == [evs[0], evs[1]];
    FoldTwo(s.p, evs[0], evs[1]);
  }

  /** Each step is exactly the reaction to the events it appends. */
  lemma StepFolds(cfg: Config, s: State, op: Op)
    requires cfg.rules.Valid() && Inv(s.p) && GoodOp(op) && !op.StartReplay?
    ensures Step(cfg, s, op).p == Fold(s.p, Emitted(cfg, s, op))
    ensures Step(cfg, s, op).log == AppendEvents(s.log, Emitted(cfg, s, op))
  {
    hide Ingest, Inv, ApplyProj, AppendEvents, Derived, Delivered, ExpirePlan, Expire;
    match op
    case Arrive(l, now) =>
      DeliveredArrives(l);
      IngestFolds(cfg, s, l, now);
    case ExpireLeg(id, now, forced) =>
      if IsOpen(s.p, id) { ExpireFolds(cfg, s, id, now, forced); } else { NothingAppended(s); }
    case CloseWindow(n, olderThan, now) =>
      var e := Entry(now, WindowClosed(n, olderThan));
      NoteSettles(s.p, [e]);
      FoldOne(s.p, e);
    case ResolveBreak(id, reason, actor, now) =>
      if Resolvable(s.p, id, reason, actor) {
        BreakUnderOwnId(s.p, id);
        var e := Entry(now, BreakResolvedBy(id, reason, actor, now, ""));
        ResolveSettles(s.p, id, reason, actor, now, [e]);
        FoldOne(s.p, e);
      } else { NothingAppended(s); }
    case AbandonReplay(from, now) =>
      var e := Entry(now, ReplayStarted(if from < 1 then 1 else from, |s.log|));
      NoteSettles(s.p, [e]);
      FoldOne(s.p, e);
  }

  lemma NothingAppended(s: State)
    ensures AppendEvents(s.log, []) == s.log && Fold(s.p, []) == s.p
  {
  }

  ghost predicate NoReplay(ops: seq<Op>) { forall op :: op in ops ==> !op.StartReplay? }

  /** Event sourcing: without replays the stored legs, matches and breaks are the fold of the log. */
  lemma {:induction false} ProjectionIsFoldOfLog(cfg: Config, ops: seq<Op>)
    requires cfg.rules.Valid() && GoodOps(ops) && NoReplay(ops)
    ensures Run(cfg, INIT, ops).p == Fold(EMPTY, Run(cfg, INIT, ops).log)
    ensures GoodState(Run(cfg, INIT, ops))
  {
    hide Step, Inv, Emitted, GoodLog, Numbered;
    if ops == [] {
      InitGood();
    } else {
      var init, op := ops[..|ops| - 1], ops[|ops| - 1];
      assert op in ops && GoodOp(op);
      ProjectionIsFoldOfLog(cfg, init);
      var s := Run(cfg, INIT, init);
      StepFolds(cfg, s, op);
      FoldLog(EMPTY, s.log, Emitted(cfg, s, op));
      StepGood(cfg, s, op);
    }
  }

  // ---------------------------------------------------------------- what no step undoes

  /** Business content is fixed, matched is final, and a broken leg leaves its break only into a match. */
  ghost predicate LegEvolves(a: Leg, b: Leg) {
    && a.Unplaced() == b.Unplaced()
    && (a.status == Matched ==> b == a)
    && (a.status == Broken ==> b == a || b.status == Matched)
  }

  /** A break only ever closes, once, keeping its identity, legs and classification. */
  ghost predicate BreakEvolves(a: Break, b: Break) {
    b == a || (a.status == BreakOpen && b == Resolved(a, b.reason, b.actor, b.resolvedAt.GetOr(0)))
  }

  ghost predicate Evolves(p: Proj, q: Proj) {
    && (forall id :: id in p.legs ==> id in q.legs && LegEvolves(p.legs[id], q.legs[id]))
    && (forall id :: id in p.matches ==> id in q.matches && q.matches[id] == p.matches[id])
    && (forall id :: id in p.breaks ==> id in q.breaks && BreakEvolves(p.breaks[id], q.breaks[id]))
    && (forall ref :: RefIds(p, ref) <= RefIds(q, ref))
  }

  lemma EvolvesTransitive(p: Proj, q: Proj, r: Proj)
    requires Evolves(p, q) && Evolves(q, r)
    ensures Evolves(p, r)
  {
    forall id | id in p.legs ensures id in r.legs && LegEvolves(p.legs[id], r.legs[id]) {
      assert LegEvolves(p.legs[id], q.legs[id]) && LegEvolves(q.legs[id], r.legs[id]);
    }
    forall id | id in p.breaks ensures id in r.breaks && BreakEvolves(p.breaks[id], r.breaks[id]) {
      assert BreakEvolves(p.breaks[id], q.breaks[id]) && BreakEvolves(q.breaks[id], r.breaks[id]);
    }
  }

  lemma AdmitEvolves(p: Proj, l: Leg)
    requires l.id !in p.legs
    ensures Evolves(p, Admit(p, l))
  {
  }

  lemma MatchEvolves(p: Proj, m: Match)
    requires m.id !in p.matches && forall id :: id in m.legIds && id in p.legs ==> p.legs[id].status != Matched
    ensures Evolves(p, MarkMatched(p, m))
  {
  }

  lemma BreakOpens(p: Proj, b: Break)
    requires b.id !in p.breaks && AllOpen(p, b.legIds)
    ensures Evolves(p, MarkBroken(p, b))
  {
    forall id | id in p.legs ensures LegEvolves(p.legs[id], MarkBroken(p, b).legs[id]) {
      if id in b.legIds { assert IsOpen(p, id); }
    }
  }

  lemma CloseEvolves(p: Proj, id: Id, reason: string, actor: string, at: Time)
    requires id in p.breaks ==> p.breaks[id].status == BreakOpen
    ensures Evolves(p, Close(p, id, reason, actor, at))
  {
  }

  lemma NewBreakEvolves(cfg: Config, p: Proj, l: Leg, partners: seq<Leg>, trigger: Trigger, now: Time)
    requires Linked(p) && l.id !in p.legs && Arriving(l) && |partners| <= 1
    requires AllStored(p, partners) && forall x :: x in partners ==> x.status == Open
    ensures Evolves(p, MarkBroken(Admit(p, l), NewBreak(cfg, trigger, Related(p, l.txnRef), [l] + partners, now)))
  {
    hide Linked, NewBreak, Related, DeriveId, MarkBroken, Evolves;
    var b := NewBreak(cfg, trigger, Related(p, l.txnRef), [l] + partners, now);
    var q := Admit(p, l);
    NewBreakFacts(cfg, trigger, Related(p, l.txnRef), [l] + partners, now);
    AdmitLinked(p, l);
    forall id | id in b.legIds ensures IsOpen(q, id) {
      if id != l.id { assert id == partners[0].id && partners[0] in partners; }
    }
    FreshBreakId(q, b);
    BreakOpens(q, b);
    AdmitEvolves(p, l);
    EvolvesTransitive(p, q, MarkBroken(q, b));
  }

  lemma JoinEvolves(p: Proj, l: Leg, m: Match)
    requires Linked(p) && l.id !in p.legs && Arriving(l) && GoodMatch(p, l, m)
    ensures Evolves(p, MarkMatched(Admit(p, l), m))
  {
    hide Linked, DeriveId, MarkMatched, Evolves;
    var q := Admit(p, l);
    AdmitLinked(p, l);
    forall id | id in m.legIds ensures IsOpen(q, id) { assert id == l.id || IsOpen(p, id); }
    FreshMatchId(q, m);
    MatchEvolves(q, m);
    AdmitEvolves(p, l);
    EvolvesTransitive(p, q, MarkMatched(q, m));
  }

  lemma HealEvolves(rules: Rules, p: Proj, l: Leg, r: Leg, now: Time)
    requires Linked(p) && l.id !in p.legs && Arriving(l)
    requires r.id in p.legs && p.legs[r.id] == r && Heals(rules, p.breaks, l, r)
    ensures Evolves(p, Close(MarkMatched(Admit(p, l), LateMatch(rules, l, r, now)), r.breakId, LATE_REASON,
            SYSTEM_ACTOR, now))
  {
    hide Linked, DeriveId, LateMatch, Close, Evolves;
    var q := Admit(p, l);
    var m := LateMatch(rules, l, r, now);
    AdmitLinked(p, l);
    LateMatchFacts(rules, l, r, now);
    FreshMatchId(q, m);
    MatchEvolves(q, m);
    AdmitEvolves(p, l);
    EvolvesTransitive(p, q, MarkMatched(q, m));
    CloseEvolves(MarkMatched(q, m), r.breakId, LATE_REASON, SYSTEM_ACTOR, now);
    EvolvesTransitive(p, MarkMatched(q, m), Close(MarkMatched(q, m), r.breakId, LATE_REASON, SYSTEM_ACTOR, now));
  }

  lemma SettleEvolves(cfg: Config, p: Proj, l: Leg, now: Time)
    requires cfg.rules.Valid() && Inv(p) && l.id !in p.legs && Arriving(l)
    ensures Evolves(p, Settle(cfg, p, l, now, Decide(cfg.rules, p, l)))
  {
    hide Decide, Related, NewBreak, MarkBroken, MarkMatched, Admit, Close, Evolves, RefsListed, LegsPlaced,
         MatchesLinked, BreaksLinked, OneOpenPerRef;
    AloneIsSelf(l);
    match Decide(cfg.rules, p, l)
    case Reused => NewBreakEvolves(cfg, p, l, [], DuplicateRef, now);
    case Join(m) =>
      JoinFacts(cfg.rules, p, l);
      JoinEvolves(p, l, m.(matchedAt := now));
    case Conflict(partners) =>
      ConflictFacts(cfg.rules, p, l);
      NewBreakEvolves(cfg, p, l, partners, RefConflict, now);
    case Heal(r) =>
      HealFacts(cfg.rules, p, l);
      HealEvolves(cfg.rules, p, l, r, now);
    case Orphan => NewBreakEvolves(cfg, p, l, [], RefConflict, now);
    case Wait => AdmitEvolves(p, l);
  }

  lemma EvolvesSelf(p: Proj)
    ensures Evolves(p, p)
  {
  }

  lemma ExpireEvolves(cfg: Config, s: State, id: Id, now: Time, forced: bool)
    requires Inv(s.p) && IsOpen(s.p, id)
    ensures Evolves(s.p, Expire(cfg, s, s.p.legs[id], now, forced).p)
  {
    hide NewBreak, Related, DeriveId, ApplyProj, ExpirePlan, Evolves, LegsPlaced, MatchesLinked, BreaksLinked;
    var l := s.p.legs[id];
    ExpireSettles(cfg, s.p, l, now, forced);
    var b := NewBreak(cfg, WindowExpired, Related(s.p, l.txnRef), [l], now);
    NewBreakFacts(cfg, WindowExpired, Related(s.p, l.txnRef), [l], now);
    assert b.legIds == [id];
    FreshBreakId(s.p, b);
    BreakOpens(s.p, b);
  }

  lemma StepEvolves(cfg: Config, s: State, op: Op)
    requires cfg.rules.Valid() && Inv(s.p) && GoodOp(op) && !op.StartReplay?
    ensures Evolves(s.p, Step(cfg, s, op).p)
  {
    hide Ingest, Inv, ApplyProj, AppendEvents, Delivered, ExpirePlan, Expire, Evolves, Settle, Decide;
    EvolvesSelf(s.p);
    match op
    case Arrive(arriving, now) =>
      DeliveredArrives(arriving);
      IngestEffect(cfg, s, arriving, now, false);
      StampKeeps(arriving, now);
      if Stamp(arriving, now).id !in s.p.legs { SettleEvolves(cfg, s.p, Stamp(arriving, now), now); }
    case ExpireLeg(id, now, forced) =>
      if IsOpen(s.p, id) { ExpireEvolves(cfg, s, id, now, forced); }
    case CloseWindow(n, olderThan, now) => NoteSettles(s.p, [Entry(now, WindowClosed(n, olderThan))]);
    case ResolveBreak(id, reason, actor, now) =>
      if Resolvable(s.p, id, reason, actor) {
        BreakUnderOwnId(s.p, id);
        ResolveSettles(s.p, id, reason, actor, now, [Entry(now, BreakResolvedBy(id, reason, actor, now, ""))]);
        CloseEvolves(s.p, id, reason, actor, now);
      }
    case AbandonReplay(from, now) => NoteSettles(s.p,
        [Entry(now, ReplayStarted(if from < 1 then 1 else from, |s.log|))]);
  }

  /** Between replays: content is immutable, matches are final, resolved breaks never reopen. */
  lemma {:induction false} RunEvolves(cfg: Config, s: State, ops: seq<Op>)
    requires cfg.rules.Valid() && GoodState(s) && GoodOps(ops) && NoReplay(ops)
    ensures Evolves(s.p, Run(cfg, s, ops).p) && GoodState(Run(cfg, s, ops))
  {
    hide Step, Inv, Evolves, GoodLog, Numbered;
    if ops == [] {
      EvolvesSelf(s.p);
    } else {
      var init, op := ops[..|ops| - 1], ops[|ops| - 1];
      assert op in ops && GoodOp(op);
      RunEvolves(cfg, s, init);
      var t := Run(cfg, s, init);
      StepEvolves(cfg, t, op);
      StepGood(cfg, t, op);
      EvolvesTransitive(s.p, t.p, Step(cfg, t, op).p);
    }
  }

  // ---------------------------------------------------------------- consequences of the invariant

  lemma MatchesApart(p: Proj, a: Id, b: Id, leg: Id)
    requires Inv(p) && a in p.matches && b in p.matches && leg in p.matches[a].legIds && leg in p.matches[b].legIds
    ensures a == b
  {
    hide DeriveId, RefsListed, LegsPlaced, BreaksLinked, OneOpenPerRef;
    assert MatchLinked(p, p.matches[a]) && MatchLinked(p, p.matches[b]);
  }

  /** No leg is matched twice. */
  lemma NoLegInTwoMatches(cfg: Config, ops: seq<Op>)
    requires cfg.rules.Valid() && GoodOps(ops) && GoodClocks(ops)
    ensures var p := Run(cfg, INIT, ops).p;
            forall a, b, leg ::
              a in p.matches && b in p.matches && leg in p.matches[a].legIds && leg in p.matches[b].legIds ==> a == b
  {
    hide Run, Inv;
    RunGood(cfg, ops);
    var p := Run(cfg, INIT, ops).p;
    forall a, b, leg | a in p.matches && b in p.matches && leg in p.matches[a].legIds
        && leg in p.matches[b].legIds ensures a == b {
      MatchesApart(p, a, b, leg);
    }
  }

  lemma OpenBreakLeg(p: Proj, b: Id, leg: Id)
    requires Inv(p) && b in p.breaks && p.breaks[b].status == BreakOpen && leg in p.breaks[b].legIds
    ensures leg in p.legs && p.legs[leg].status == Broken && p.legs[leg].breakId == b && p.legs[leg].matchId == ""
  {
    hide DeriveId, RefsListed, MatchesLinked, OneOpenPerRef;
    assert BreakLinked(p, p.breaks[b]);
    assert BreakMember(p, p.breaks[b], leg);
    assert LegPlaced(p, p.legs[leg]);
  }

  /** A leg of an open break is broken by exactly that break. */
  lemma OpenBreakHoldsItsLegs(cfg: Config, ops: seq<Op>)
    requires cfg.rules.Valid() && GoodOps(ops) && GoodClocks(ops)
    ensures var p := Run(cfg, INIT, ops).p;
            forall b, leg :: b in p.breaks && p.breaks[b].status == BreakOpen && leg in p.breaks[b].legIds ==>
              leg in p.legs && p.legs[leg].status == Broken && p.legs[leg].breakId == b && p.legs[leg].matchId == ""
  {
    hide Run, Inv;
    RunGood(cfg, ops);
    var p := Run(cfg, INIT, ops).p;
    forall b, leg | b in p.breaks && p.breaks[b].status == BreakOpen && leg in p.breaks[b].legIds
      ensures leg in p.legs && p.legs[leg].status == Broken && p.legs[leg].breakId == b && p.legs[leg].matchId == ""
    {
      OpenBreakLeg(p, b, leg);
    }
  }

  lemma BreakLegsOf(p: Proj, b: Id)
    requires Inv(p) && b in p.breaks
    ensures 1 <= |p.breaks[b].legIds| <= 2 && forall leg :: leg in p.breaks[b].legIds ==>
            BreakMember(p, p.breaks[b], leg)
  {
    hide DeriveId, RefsListed, MatchesLinked, LegsPlaced, OneOpenPerRef;
  }

  /**
   Every break ever opened has one or two legs; each is still broken by it, or the break had this
   one leg and is resolved, and the leg went into a late-arrival match.
   */
  lemma BreaksAccountForTheirLegs(cfg: Config, ops: seq<Op>)
    requires cfg.rules.Valid() && GoodOps(ops) && GoodClocks(ops)
    ensures var p := Run(cfg, INIT, ops).p;
            forall b :: b in p.breaks ==>
              && 1 <= |p.breaks[b].legIds| <= 2
              && forall leg :: leg in p.breaks[b].legIds ==> BreakMember(p, p.breaks[b], leg)
  {
    hide Run, Inv, BreakMember;
    RunGood(cfg, ops);
    var p := Run(cfg, INIT, ops).p;
    forall b | b in p.breaks
      ensures 1 <= |p.breaks[b].legIds| <= 2 && forall leg :: leg in p.breaks[b].legIds ==>
              BreakMember(p, p.breaks[b], leg)
    {
      BreakLegsOf(p, b);
    }
  }

  lemma BreakNamesLeg(p: Proj, b: Id)
    requires Inv(p) && b in p.breaks
    ensures Describes(p, p.breaks[b])
  {
    hide DeriveId, RefsListed, MatchesLinked, LegsPlaced, OneOpenPerRef;
    assert BreakLinked(p, p.breaks[b]);
  }

  /** Every break carries the currency and the counterparty of the stored leg it names first. */
  lemma BreaksNameTheirLegs(cfg: Config, ops: seq<Op>)
    requires cfg.rules.Valid() && GoodOps(ops) && GoodClocks(ops)
    ensures var p := Run(cfg, INIT, ops).p;
            forall b :: b in p.breaks ==>
              && p.breaks[b].legIds != [] && p.breaks[b].legIds[0] in p.legs
              && p.breaks[b].currency == p.legs[p.breaks[b].legIds[0]].currency
              && p.breaks[b].counterparty == p.legs[p.breaks[b].legIds[0]].counterparty
  {
    hide Run, Inv;
    RunGood(cfg, ops);
    var p := Run(cfg, INIT, ops).p;
    forall b | b in p.breaks ensures Describes(p, p.breaks[b]) { BreakNamesLeg(p, b); }
  }

  /** At most one open leg per txn_ref, although no step checks it. */
  lemma OneOpenLegPerRef(cfg: Config, ops: seq<Op>)
    requires cfg.rules.Valid() && GoodOps(ops) && GoodClocks(ops)
    ensures var p := Run(cfg, INIT, ops).p;
            forall a, b :: IsOpen(p, a) && IsOpen(p, b) && p.legs[a].txnRef == p.legs[b].txnRef ==> a == b
  {
    hide Run, Linked;
    RunGood(cfg, ops);
  }

  /** A ref conflict always involves exactly one open partner, from another source. */
  lemma ConflictIsAPair(cfg: Config, ops: seq<Op>, l: Leg)
    requires cfg.rules.Valid() && GoodOps(ops) && GoodClocks(ops)
    ensures var p := Run(cfg, INIT, ops).p;
            var d := Decide(cfg.rules, p, l);
            l.id !in p.legs && d.Conflict? ==>
              |d.partners| == 1 && d.partners[0].source != l.source && d.partners[0].txnRef == l.txnRef
  {
    hide Run, Decide, Inv;
    RunGood(cfg, ops);
    var p := Run(cfg, INIT, ops).p;
    if l.id !in p.legs && Decide(cfg.rules, p, l).Conflict? {
      ConflictFacts(cfg.rules, p, l);
      var partners := Decide(cfg.rules, p, l).partners;
      assert partners[0] in partners;
    }
  }
}
