/**
 One step of the engine, field by field: what is stored and logged for each outcome of an arriving
 leg, for an expiry and for a manual resolution, in terms of the stored state before the step alone.
 */
module Outcomes {
  import opened Sequences
  import opened Domain
  import opened Identity
  import opened Persistence
  import opened Reconciliation
  import opened EventSourcing
  import opened Lifecycle
  import opened Transitions
  import opened Runs
  import opened Reports
  import M = Matching
  import F = MatchingFacts
  import Q = OpenLegs

  // ---------------------------------------------------------------- vocabulary

  /** The log grown by payloads recorded at `at`. */
  function Logged(log: seq<Event>, at: Time, payloads: seq<Payload>): seq<Event> {
    log + seq(|payloads|, i requires 0 <= i < |payloads| => Event(|log| + i + 1, at, payloads[i]))
  }

  /** The leg with its ingestion time: its own, or the clock reading if it has none. */
  function Timed(l: Leg, now: Time): Leg { if l.ingestedAt != 0 then l else l.(ingestedAt := now) }

  function Under(p: Proj, ref: string): seq<Id> { if ref in p.byRef then p.byRef[ref] else [] }

  /**
   The leg is listed last under its txn_ref, the legs with the given ids get status, match and break,
   all other legs stay as they are.
   */
  ghost predicate Placed(p: Proj, q: Proj, l: Leg, ids: seq<Id>, status: LegStatus, matchId: Id, breakId: Id) {
    && q.byRef == p.byRef[l.txnRef := Under(p, l.txnRef) + [l.id]]
    && q.legs.Keys == p.legs.Keys + {l.id}
    && l.id in ids
    && forall id :: id in q.legs ==>
         var x := if id == l.id then l else p.legs[id];
         q.legs[id] == if id in ids then x.(status := status, matchId := matchId, breakId := breakId) else x
  }

  /** The legs with these ids, `l` among them as it arrived and the others as they are stored. */
  ghost predicate AsArrived(p: Proj, l: Leg, ids: seq<Id>, legs: seq<Leg>) {
    |legs| == |ids| && forall i :: 0 <= i < |ids| ==>
      if ids[i] == l.id then legs[i] == l else ids[i] in p.legs && legs[i] == p.legs[ids[i]]
  }

  /** The stored legs of a txn_ref, in arrival order. */
  ghost predicate StoredUnder(p: Proj, ref: string, legs: seq<Leg>) {
    |legs| == |Under(p, ref)| && forall i :: 0 <= i < |legs| ==>
      Under(p, ref)[i] in p.legs && legs[i] == p.legs[Under(p, ref)[i]]
  }

  /** The break is new, open, and carries what the classifier answers about its legs. */
  ghost predicate Opened(cfg: Config, p: Proj, b: Break, l: Leg, legs: seq<Leg>, related: seq<Leg>, now: Time) {
    && AsArrived(p, l, b.legIds, legs) && b.legIds != [] && b.legIds[0] == l.id
    && StoredUnder(p, l.txnRef, related)
    && b.id == DeriveId("brk", b.legIds)
    && b.currency == l.currency && b.counterparty == l.counterparty
    && b.status == BreakOpen && b.openedAt == now && b.resolvedAt == None && b.actor == ""
    && var c := cfg.classify(ClassifyInput(legs, related, b.trigger, cfg.rules));
       b.category == c.category && b.confidence == c.confidence && b.classifierId == c.classifierId
       && b.reason == c.evidence
  }

  ghost predicate OwnReuse(p: Proj, l: Leg) {
    exists id :: id in p.legs && p.legs[id].txnRef == l.txnRef && p.legs[id].source == l.source
  }

  ghost predicate OpenTwin(p: Proj, l: Leg) {
    exists id :: id in p.legs && p.legs[id].txnRef == l.txnRef && p.legs[id].status == Open
  }

  // ---------------------------------------------------------------- logs and listings

  lemma {:induction false} AppendIsLogged(log: seq<Event>, evs: seq<Event>, at: Time, payloads: seq<Payload>)
    requires |evs| == |payloads| && forall i :: 0 <= i < |evs| ==> evs[i].at == at && evs[i].payload == payloads[i]
    ensures AppendEvents(log, evs) == Logged(log, at, payloads)
  {
    if evs != [] {
      var n := |evs| - 1;
      AppendIsLogged(log, evs[..n], at, payloads[..n]);
      assert Logged(log, at, payloads) == Logged(log, at, payloads[..n]) + [Event(|log| + n + 1, at, payloads[n])];
    }
  }

  lemma {:induction false} LookupIsStored(legs: map<Id, Leg>, ids: seq<Id>)
    requires forall id :: id in ids ==> id in legs
    ensures |Lookup(legs, ids)| == |ids| && forall i :: 0 <= i < |ids| ==> Lookup(legs, ids)[i] == legs[ids[i]]
  {
    if ids != [] {
      var n := |ids| - 1;
      assert ids[n] in ids && forall id :: id in ids[..n] ==> id in ids;
      LookupIsStored(legs, ids[..n]);
    }
  }

  lemma RelatedStored(p: Proj, ref: string)
    requires RefsListed(p)
    ensures StoredUnder(p, ref, Related(p, ref))
  {
    forall id | id in RefIds(p, ref) ensures id in p.legs { assert ref in p.byRef; }
    LookupIsStored(p.legs, RefIds(p, ref));
    forall i | 0 <= i < |Under(p, ref)| ensures Under(p, ref)[i] in p.legs {
      assert Under(p, ref)[i] in RefIds(p, ref);
    }
  }

  lemma TimedIsStamp(l: Leg, now: Time)
    ensures Stamp(l, now) == Timed(l, now)
  {
  }

  // ---------------------------------------------------------------- breaks

  lemma NewBreakOpened(cfg: Config, p: Proj, l: Leg, partners: seq<Leg>, trigger: Trigger, now: Time)
    requires RefsListed(p) && l.id !in p.legs && AllStored(p, partners)
    ensures var b := NewBreak(cfg, trigger, Related(p, l.txnRef), [l] + partners, now);
            && Opened(cfg, p, b, l, [l] + partners, Related(p, l.txnRef), now)
            && b.trigger == trigger && b.legIds == M.LegIds([l] + partners)
  {
    hide DeriveId, Related, RefsListed;
    RelatedStored(p, l.txnRef);
    var legs := [l] + partners;
    forall i | 0 <= i < |legs| ensures if legs[i].id == l.id then legs[i] == l
        else legs[i].id in p.legs && legs[i] == p.legs[legs[i].id] {
      if i > 0 { assert partners[i - 1] in partners; }
    }
  }

  lemma BreakPlaced(p: Proj, l: Leg, b: Break)
    requires Linked(p) && l.id !in p.legs && Arriving(l) && l.id in b.legIds
    requires forall id :: id in b.legIds && id != l.id ==> IsOpen(p, id)
    ensures var q := MarkBroken(Admit(p, l), b);
            Placed(p, q, l, b.legIds, Broken, "", b.id) && q.breaks == p.breaks[b.id := b] && q.matches == p.matches
  {
    hide DeriveId, MatchesLinked, BreaksLinked;
    var q := MarkBroken(Admit(p, l), b);
    forall id | id in q.legs ensures var x := if id == l.id then l else p.legs[id];
        q.legs[id] == if id in b.legIds then x.(status := Broken, matchId := "", breakId := b.id) else x
    {
      if id != l.id { assert LegPlaced(p, p.legs[id]); }
    }
    assert q.legs.Keys == p.legs.Keys + {l.id};
  }

  // ---------------------------------------------------------------- matches

  lemma MatchPlaced(p: Proj, l: Leg, m: Match)
    requires Linked(p) && l.id !in p.legs && Arriving(l) && l.id in m.legIds
    ensures var q := MarkMatched(Admit(p, l), m);
            Placed(p, q, l, m.legIds, Matched, m.id, "") && q.breaks == p.breaks && q.matches == p.matches[m.id := m]
  {
    hide DeriveId, MatchesLinked, BreaksLinked, LegsPlaced;
    var q := MarkMatched(Admit(p, l), m);
    assert q.legs.Keys == p.legs.Keys + {l.id};
  }

  // ---------------------------------------------------------------- late arrivals

  /**
   Leg `id` is stored alone in an open break, reported by another source under the txn_ref of `l`, in
   its currency, and within the tolerance of `l`.
   */
  ghost predicate LateFor(rules: Rules, p: Proj, l: Leg, id: Id) {
    && id in p.legs
    && var r := p.legs[id];
       && r.txnRef == l.txnRef && r.source != l.source && r.currency == l.currency
       && Abs(r.amount - l.amount) <= rules.Tolerance(l.amount)
       && r.status == Broken && r.breakId != "" && r.breakId in p.breaks
       && p.breaks[r.breakId].status == BreakOpen && |p.breaks[r.breakId].legIds| == 1
  }

  /** The match of a late arrival: residual and confidence are taken from the arriving leg's side. */
  ghost predicate LateMatched(rules: Rules, m: Match, l: Leg, r: Leg, now: Time) {
    && (forall id :: id in m.legIds <==> id == l.id || id == r.id) && |m.legIds| == 2
    && m.id == DeriveId("m", m.legIds)
    && m.tier == TierTolerant && m.rule == T2Late && m.residual == r.amount - l.amount && m.currency == l.currency
    && m.confidence == TolerantConfidence(r.amount - l.amount, rules.Tolerance(l.amount)) - 50 && m.matchedAt == now
  }

  lemma LateMatchMade(rules: Rules, l: Leg, r: Leg, now: Time)
    requires l.id != r.id
    ensures LateMatched(rules, LateMatch(rules, l, r, now), l, r, now)
  {
    hide DeriveId;
    LateMatchFacts(rules, l, r, now);
  }

  lemma HealsIsLateFor(rules: Rules, p: Proj, l: Leg, id: Id)
    requires id in p.legs && p.legs[id].txnRef == l.txnRef
    ensures Heals(rules, p.breaks, l, p.legs[id]) <==> LateFor(rules, p, l, id)
  {
  }

  /** The leg that a late arrival takes is the first such leg in arrival order. */
  lemma HealsFirst(rules: Rules, p: Proj, l: Leg) returns (i: nat)
    requires RefsListed(p) && l.id !in p.legs && Decide(rules, p, l).Heal?
    ensures var ids := Under(p, l.txnRef);
            && i < |ids| && ids[i] in p.legs && p.legs[ids[i]] == Decide(rules, p, l).r
            && LateFor(rules, p, l, ids[i]) && forall j :: 0 <= j < i ==> !LateFor(rules, p, l, ids[j])
  {
    hide M.Find, Related, Q.ByRef, OpenSet, KnownIn, Heals, LateFor;
    var related := Related(p, l.txnRef);
    var ids := Under(p, l.txnRef);
    RelatedStored(p, l.txnRef);
    i := FirstPosition(related, HealedBy(rules, p.breaks, l));
    forall j | 0 <= j <= i ensures Heals(rules, p.breaks, l, related[j]) <==> LateFor(rules, p, l, ids[j]) {
      assert ids[j] in p.byRef[l.txnRef];
      HealsIsLateFor(rules, p, l, ids[j]);
    }
    forall j | 0 <= j < i ensures !LateFor(rules, p, l, ids[j]) {
      assert !HealedBy(rules, p.breaks, l)(related[j]);
    }
  }

  lemma HealPlaced(p: Proj, l: Leg, r: Leg, m: Match, now: Time)
    requires Linked(p) && l.id !in p.legs && Arriving(l)
    requires r.id in p.legs && p.legs[r.id] == r && r.breakId in p.breaks
    requires (forall id :: id in m.legIds <==> id == l.id || id == r.id) && |m.legIds| == 2
    ensures var q := Close(MarkMatched(Admit(p, l), m), r.breakId, LATE_REASON, SYSTEM_ACTOR, now);
            && Placed(p, q, l, m.legIds, Matched, m.id, "") && q.matches == p.matches[m.id := m]
            && q.breaks == p.breaks[r.breakId := p.breaks[r.breakId].(status := BreakResolved, resolvedAt := Some(now),
                    reason := "late arrival matched by T2.late-arrival@v1", actor := "system")]
  {
    hide MarkMatched, Admit, Linked, DeriveId;
    MatchPlaced(p, l, m);
  }

  // ---------------------------------------------------------------- one arriving leg

  /** What the report about a new leg says has happened, in fields; `legs` and `related` are those of a new break. */
  ghost predicate Happened(cfg: Config, s: State, t: State, l: Leg, now: Time, r: IngestResult, intake: seq<Payload>,
                           legs: seq<Leg>, related: seq<Leg>)
  {
    var p, q := s.p, t.p;
    match r.outcome
    case Duplicate => false
    case WaitsOpen =>
      && r == IngestResult(l.id, WaitsOpen, "", "", None)
      && Placed(p, q, l, [l.id], Open, "", "") && q.matches == p.matches && q.breaks == p.breaks
      && t.log == Logged(s.log, now, intake)
    case JoinedMatch =>
      && r.matchId in q.matches
      && var m := q.matches[r.matchId];
         && r == IngestResult(l.id, JoinedMatch, m.id, "", Some(m.rule)) && m.matchedAt == now && m.rule != T2Late
         && Placed(p, q, l, m.legIds, Matched, m.id, "") && q.matches == p.matches[m.id := m] && q.breaks == p.breaks
         && t.log == Logged(s.log, now, intake + [MatchCreated(m)])
    case OpenedBreak =>
      && r.breakId in q.breaks
      && var b := q.breaks[r.breakId];
         && r == IngestResult(l.id, OpenedBreak, "", b.id, None) && Opened(cfg, p, b, l, legs, related, now)
         && b.trigger == (if OwnReuse(p, l) then DuplicateRef else RefConflict)
         && |b.legIds| == (if !OwnReuse(p, l) && OpenTwin(p, l) then 2 else 1)
         && (|b.legIds| == 2 ==> legs[1].status == Open && legs[1].txnRef == l.txnRef && legs[1].source != l.source)
         && Placed(p, q, l, b.legIds, Broken, "", b.id) && q.breaks == p.breaks[b.id := b] && q.matches == p.matches
         && t.log == Logged(s.log, now, intake + [BreakOpened(b)])
    case ResolvedBreak =>
      && r.matchId in q.matches && r.breakId in p.breaks && r.breakId in q.breaks
      && var m, b := q.matches[r.matchId], q.breaks[r.breakId];
         && |legs| == 1 && LateFor(cfg.rules, p, l, legs[0].id) && p.legs[legs[0].id] == legs[0]
         && (exists i :: 0 <= i < |Under(p, l.txnRef)| && Under(p, l.txnRef)[i] == legs[0].id
               && forall j :: 0 <= j < i ==> !LateFor(cfg.rules, p, l, Under(p, l.txnRef)[j]))
         && r == IngestResult(l.id, ResolvedBreak, m.id, legs[0].breakId, Some(T2Late))
         && LateMatched(cfg.rules, m, l, legs[0], now)
         && b == p.breaks[r.breakId].(status := BreakResolved, resolvedAt := Some(now),
                    reason := "late arrival matched by T2.late-arrival@v1", actor := "system")
         && Placed(p, q, l, m.legIds, Matched, m.id, "") && q.matches == p.matches[m.id := m]
         && q.breaks == p.breaks[r.breakId := b]
         && t.log == Logged(s.log, now, intake + [MatchCreated(m), BreakResolvedBy(r.breakId, b.reason, b.actor, now,
                    m.id)])
  }

  function IntakeOf(l: Leg, replaying: bool): seq<Payload> { if replaying then [] else [LegIngested(l)] }

  /** The step of a leg that is not stored yet, in the terms of `Settle`. */
  ghost predicate Stepped(cfg: Config, s: State, t: State, l: Leg, now: Time, intake: seq<Payload>) {
    && t.p == Settle(cfg, s.p, l, now, Decide(cfg.rules, s.p, l))
    && t.log == AppendEvents(s.log, seq(|intake|, i requires 0 <= i < |intake| => Entry(now, intake[i]))
                                    + Derived(cfg, s.p, l, now))
  }

  lemma LogIs(cfg: Config, s: State, t: State, l: Leg, now: Time, intake: seq<Payload>, rest: seq<Payload>)
    requires Stepped(cfg, s, t, l, now, intake)
    requires var d := Derived(cfg, s.p, l, now);
             |d| == |rest| && forall i :: 0 <= i < |d| ==> d[i] == Entry(now, rest[i])
    ensures t.log == Logged(s.log, now, intake + rest)
  {
    hide Derived, Settle, Decide, AppendEvents, Logged;
    var evs := seq(|intake|, i requires 0 <= i < |intake| => Entry(now, intake[i])) + Derived(cfg, s.p, l, now);
    AppendIsLogged(s.log, evs, now, intake + rest);
  }

  lemma TwinsIff(rules: Rules, p: Proj, l: Leg)
    requires RefsListed(p) && l.id !in p.legs
    ensures Decide(rules, p, l).Reused? <==> OwnReuse(p, l)
    ensures Decide(rules, p, l).Conflict? ==> OpenTwin(p, l) && !OwnReuse(p, l)
    ensures Decide(rules, p, l).Orphan? ==> !OpenTwin(p, l)
  {
    hide Decide, RefsListed;
    OutcomeIff(rules, p, l);
    assert Twin(p, l, OfSameSource(l)) <==> OwnReuse(p, l) by {
      assert forall r :: OfSameSource(l)(r) <==> r.source == l.source;
    }
    assert Twin(p, l, Waits()) <==> OpenTwin(p, l) by {
      assert forall r :: Waits()(r) <==> r.status == Open;
    }
  }

  lemma BreakHappened(cfg: Config, s: State, t: State, l: Leg, partners: seq<Leg>, trigger: Trigger, now: Time,
                      intake: seq<Payload>)
    requires Inv(s.p) && l.id !in s.p.legs && Arriving(l) && Stepped(cfg, s, t, l, now, intake)
    requires AllStored(s.p, partners) && |partners| <= 1 && forall x :: x in partners ==> x.status == Open
    requires forall x :: x in partners ==> x.txnRef == l.txnRef && x.source != l.source
    requires var b := NewBreak(cfg, trigger, Related(s.p, l.txnRef), [l] + partners, now);
             && Settle(cfg, s.p, l, now, Decide(cfg.rules, s.p, l)) == MarkBroken(Admit(s.p, l), b)
             && Derived(cfg, s.p, l, now) == [Entry(now, BreakOpened(b))]
    requires trigger == if OwnReuse(s.p, l) then DuplicateRef else RefConflict
    requires |partners| == if !OwnReuse(s.p, l) && OpenTwin(s.p, l) then 1 else 0
    ensures Happened(cfg, s, t, l, now,
                     IngestResult(l.id, OpenedBreak, "", DeriveId(BREAK_PREFIX, M.LegIds([l] + partners)), None),
                     intake, [l] + partners, Related(s.p, l.txnRef))
  {
    hide NewBreak, Related, DeriveId, Settle, Decide, Derived, MarkBroken, Admit, Opened, Placed, Logged, LegsPlaced,
         MatchesLinked, BreaksLinked, RefsListed, OneOpenPerRef, OwnReuse, OpenTwin, AppendEvents, Arriving;
    var b := NewBreak(cfg, trigger, Related(s.p, l.txnRef), [l] + partners, now);
    NewBreakOpened(cfg, s.p, l, partners, trigger, now);
    NewBreakFacts(cfg, trigger, Related(s.p, l.txnRef), [l] + partners, now);
    assert M.LegIds([l] + partners)[0] == l.id;
    forall id | id in b.legIds && id != l.id ensures IsOpen(s.p, id) {
      assert partners[0] in partners && id == partners[0].id;
    }
    BreakPlaced(s.p, l, b);
    LogIs(cfg, s, t, l, now, intake, [BreakOpened(b)]);
    if |partners| == 1 { assert partners[0] in partners; }
  }

  lemma JoinHappened(cfg: Config, s: State, t: State, l: Leg, now: Time, intake: seq<Payload>, found: Match)
    requires cfg.rules.Valid() && Inv(s.p) && l.id !in s.p.legs && Arriving(l) && Stepped(cfg, s, t, l, now, intake)
    requires Decide(cfg.rules, s.p, l) == Join(found)
    ensures Happened(cfg, s, t, l, now, IngestResult(l.id, JoinedMatch, found.id, "", Some(found.rule)), intake, [], [])
  {
    hide Decide, DeriveId, MarkMatched, Admit, Placed, Logged, LegsPlaced, MatchesLinked, BreaksLinked, RefsListed,
         OneOpenPerRef, AppendEvents, Arriving, Partners, Related;
    var m := found.(matchedAt := now);
    JoinFacts(cfg.rules, s.p, l);
    JoinRule(cfg.rules, s.p, l);
    MatchPlaced(s.p, l, m);
    LogIs(cfg, s, t, l, now, intake, [MatchCreated(m)]);
  }

  /** No tier finds a late-arrival match. */
  lemma JoinRule(rules: Rules, p: Proj, l: Leg)
    requires rules.Valid() && RefsListed(p) && l.id !in p.legs && Decide(rules, p, l).Join?
    ensures Decide(rules, p, l).m.rule != T2Late
  {
    hide Decide, M.Find, RefsListed, OpenSet, KnownIn, F.Arrives;
    ArrivesOpen(p, l);
    DecideJoins(rules, p, l);
    F.FindRefinesTiers(rules, l, OpenSet(p), KnownIn(p));
  }

  lemma HealHappened(cfg: Config, s: State, t: State, l: Leg, now: Time, intake: seq<Payload>, r: Leg)
    requires Inv(s.p) && l.id !in s.p.legs && Arriving(l) && Stepped(cfg, s, t, l, now, intake)
    requires Decide(cfg.rules, s.p, l) == Heal(r)
    ensures Happened(cfg, s, t, l, now, Told(cfg, l, now, Heal(r)), intake, [r], [])
  {
    hide Decide, DeriveId, MarkMatched, Admit, Close, Placed, Logged, LegsPlaced, MatchesLinked, BreaksLinked,
         OneOpenPerRef, AppendEvents, Arriving, LateMatch, Related, LateFor;
    var m := LateMatch(cfg.rules, l, r, now);
    var i := HealsFirst(cfg.rules, s.p, l);
    HealFacts(cfg.rules, s.p, l);
    LateMatchMade(cfg.rules, l, r, now);
    HealPlaced(s.p, l, r, m, now);
    BreakUnderOwnId(s.p, r.breakId);
    LogIs(cfg, s, t, l, now, intake, [MatchCreated(m),
        BreakResolvedBy(r.breakId, LATE_REASON, SYSTEM_ACTOR, now, m.id)]);
    assert Under(s.p, l.txnRef)[i] == r.id;
  }

  lemma WaitHappened(cfg: Config, s: State, t: State, l: Leg, now: Time, intake: seq<Payload>)
    requires Inv(s.p) && l.id !in s.p.legs && Arriving(l) && Stepped(cfg, s, t, l, now, intake)
    requires Decide(cfg.rules, s.p, l) == Wait
    ensures Happened(cfg, s, t, l, now, IngestResult(l.id, WaitsOpen, "", "", None), intake, [], [])
  {
    hide Decide, DeriveId, Logged, LegsPlaced, MatchesLinked, BreaksLinked, OneOpenPerRef, AppendEvents, Related;
    LogIs(cfg, s, t, l, now, intake, []);
    assert intake + [] == intake;
    var q := Admit(s.p, l);
    assert q.legs.Keys == s.p.legs.Keys + {l.id};
  }

  lemma NewLegHappened(cfg: Config, s: State, t: State, l: Leg, now: Time, intake: seq<Payload>)
      returns (legs: seq<Leg>, related: seq<Leg>)
    requires cfg.rules.Valid() && Inv(s.p) && l.id !in s.p.legs && Arriving(l) && Stepped(cfg, s, t, l, now, intake)
    ensures Happened(cfg, s, t, l, now, Told(cfg, l, now, Decide(cfg.rules, s.p, l)), intake, legs, related)
  {
    hide Decide, NewBreak, DeriveId, MarkMatched, MarkBroken, Admit, Close, Happened, LegsPlaced, MatchesLinked,
         BreaksLinked, RefsListed, OneOpenPerRef, AppendEvents, Arriving, LateMatch, Related, OwnReuse, OpenTwin;
    TwinsIff(cfg.rules, s.p, l);
    AloneIsSelf(l);
    legs, related := [], Related(s.p, l.txnRef);
    match Decide(cfg.rules, s.p, l)
    case Reused =>
      legs := [l] + [];
      BreakHappened(cfg, s, t, l, [], DuplicateRef, now, intake);
    case Join(m) =>
      related := [];
      JoinHappened(cfg, s, t, l, now, intake, m);
    case Conflict(partners) =>
      ConflictFacts(cfg.rules, s.p, l);
      legs := [l] + partners;
      BreakHappened(cfg, s, t, l, partners, RefConflict, now, intake);
    case Heal(r) =>
      legs, related := [r], [];
      HealHappened(cfg, s, t, l, now, intake, r);
    case Orphan =>
      legs := [l] + [];
      BreakHappened(cfg, s, t, l, [], RefConflict, now, intake);
    case Wait =>
      related := [];
      WaitHappened(cfg, s, t, l, now, intake);
  }

  /**
   One leg through the engine, in fields: a stored id is noted as a duplicate, and for any other leg the
   reported outcome says exactly which legs, matches, breaks and events are stored.
   */
  lemma IngestTells(cfg: Config, s: State, arriving: Leg, now: Time, replaying: bool)
      returns (legs: seq<Leg>, related: seq<Leg>)
    requires cfg.rules.Valid() && Inv(s.p) && Arriving(arriving)
    ensures var l := Timed(arriving, now);
            var t := Ingest(cfg, s, arriving, now, replaying);
            var r := Report(cfg, s.p, arriving, now);
            && r.legId == arriving.id
            && (r.outcome == Duplicate <==> arriving.id in s.p.legs)
            && (r.outcome == Duplicate ==>
                  r == IngestResult(arriving.id, Duplicate, "", "", None) &&
                  t.p == s.p && t.log == if replaying then s.log else Logged(s.log, now, [LegDuplicate(l)]))
            && (r.outcome != Duplicate ==> Happened(cfg, s, t, l, now, r, IntakeOf(l, replaying), legs, related))
  {
    hide Ingest, Inv, Decide, Settle, Arriving, AppendEvents, Happened, Derived, Logged;
    var l := Timed(arriving, now);
    legs, related := [], [];
    TimedIsStamp(arriving, now);
    StampKeeps(arriving, now);
    IngestEffect(cfg, s, arriving, now, replaying);
    if l.id in s.p.legs {
      AppendIsLogged(s.log, [Entry(now, LegDuplicate(l))], now, [LegDuplicate(l)]);
    } else {
      var intake := IntakeOf(l, replaying);
      assert seq(|intake|, i requires 0 <= i < |intake| => Entry(now, intake[i])) ==
             if replaying then [] else [Entry(now, LegIngested(l))];
      legs, related := NewLegHappened(cfg, s, Ingest(cfg, s, arriving, now, replaying), l, now, intake);
      ToldAbout(cfg, l, now, Decide(cfg.rules, s.p, l));
    }
  }

  lemma ToldAbout(cfg: Config, l: Leg, now: Time, d: Decision)
    ensures Told(cfg, l, now, d).legId == l.id && Told(cfg, l, now, d).outcome != Duplicate
  {
  }

  /** The six outcomes once more, with the late-arrival condition in fields. */
  lemma OutcomeTells(cfg: Config, p: Proj, l: Leg, now: Time)
    requires RefsListed(p) && l.id !in p.legs
    ensures var outcome := Told(cfg, l, now, Decide(cfg.rules, p, l)).outcome;
            var late := exists id :: LateFor(cfg.rules, p, l, id);
            var known := exists id :: id in p.legs && p.legs[id].txnRef == l.txnRef;
            && (outcome == JoinedMatch <==> !OwnReuse(p, l) && Found(cfg.rules, p, l))
            && (outcome == ResolvedBreak <==> !OwnReuse(p, l) && !Found(cfg.rules, p, l) && !OpenTwin(p, l) && late)
            && (outcome == WaitsOpen <==> !Found(cfg.rules, p, l) && !known)
            && (outcome == OpenedBreak <==>
                  OwnReuse(p, l) || (!Found(cfg.rules, p, l) && known && (OpenTwin(p, l) || !late)))
  {
    hide Decide, Found, RefsListed, Heals, DeriveId, LateMatch;
    OutcomeIff(cfg.rules, p, l);
    assert forall r :: OfSameSource(l)(r) <==> r.source == l.source;
    assert forall r :: Waits()(r) <==> r.status == Open;
    assert forall r :: Anything()(r);
    assert forall r :: HealedBy(cfg.rules, p.breaks, l)(r) <==> Heals(cfg.rules, p.breaks, l, r);
    forall id | id in p.legs && p.legs[id].txnRef == l.txnRef
      ensures Heals(cfg.rules, p.breaks, l, p.legs[id]) <==> LateFor(cfg.rules, p, l, id)
    {
      HealsIsLateFor(cfg.rules, p, l, id);
    }
  }

  /** The amount-date tier asks the store whether a source has reported a txn_ref. */
  lemma KnownIff(p: Proj, ref: string, source: string)
    requires RefsListed(p)
    ensures KnownIn(p)(ref, source) <==>
            exists id :: id in p.legs && p.legs[id].txnRef == ref && p.legs[id].source == source
  {
    hide Lookup;
    RelatedMembers(p, ref);
    var related := Related(p, ref);
    assert KnownIn(p)(ref, source) <==> exists r :: r in related && r.source == source;
    if exists id :: id in p.legs && p.legs[id].txnRef == ref && p.legs[id].source == source {
      var id :| id in p.legs && p.legs[id].txnRef == ref && p.legs[id].source == source;
      assert p.legs[id] in related;
    }
  }

  // ---------------------------------------------------------------- expiry and resolution

  /** One expiry: the leg alone in a new break, both facts logged. */
  lemma ExpireTells(cfg: Config, s: State, id: Id, now: Time, forced: bool) returns (b: Break)
    requires Inv(s.p) && IsOpen(s.p, id)
    ensures var l := s.p.legs[id];
            var t := Expire(cfg, s, l, now, forced);
            && b.legIds == [id] && b.trigger == WindowExpired
            && Opened(cfg, s.p, b, l, [l], Related(s.p, l.txnRef), now)
                && StoredUnder(s.p, l.txnRef, Related(s.p, l.txnRef))
            && t.p == s.p.(legs := s.p.legs[id := l.(status := Broken, breakId := b.id)],
                breaks := s.p.breaks[b.id := b])
            && b.id !in s.p.breaks
            && t.log == Logged(s.log, now, [LegExpired(id, forced), BreakOpened(b)])
  {
    hide NewBreak, Related, DeriveId, AppendEvents, Logged, ApplyProj, ExpirePlan, LegsPlaced, MatchesLinked,
         BreaksLinked, OneOpenPerRef;
    var l := s.p.legs[id];
    b := NewBreak(cfg, WindowExpired, Related(s.p, l.txnRef), [l], now);
    ExpireOwnId(s.p, id);
    RelatedStored(s.p, l.txnRef);
    ExpireSettles(cfg, s.p, l, now, forced);
    NewBreakFacts(cfg, WindowExpired, Related(s.p, l.txnRef), [l], now);
    NewBreakLabels(cfg, WindowExpired, Related(s.p, l.txnRef), [l], now);
    assert M.LegIds([l]) == [id];
    FreshBreakId(s.p, b);
    ExpireEvents(cfg, s.p, l, now, forced);
    AppendIsLogged(s.log, ExpirePlan(cfg, s.p, l, now, forced).events, now, [LegExpired(id, forced), BreakOpened(b)]);
    var q := MarkBroken(s.p, b);
    assert q.legs == s.p.legs[id := l.(status := Broken, breakId := b.id)];
  }

  lemma NewBreakLabels(cfg: Config, trigger: Trigger, related: seq<Leg>, legs: seq<Leg>, now: Time)
    requires legs != []
    ensures var b := NewBreak(cfg, trigger, related, legs, now);
            var c := cfg.classify(ClassifyInput(legs, related, trigger, cfg.rules));
            && b.category == c.category && b.confidence == c.confidence && b.classifierId == c.classifierId
            && b.reason == c.evidence
  {
    hide DeriveId;
  }

  /** A manual resolution: exactly the open break changes, in status, time, reason and actor. */
  lemma ResolveTells(s: State, id: Id, reason: string, actor: string, now: Time)
    requires Inv(s.p)
    ensures var t := Resolve(s, id, reason, actor, now);
            if reason != "" && actor != "" && id in s.p.breaks && s.p.breaks[id].status == BreakOpen
            then && t.p == s.p.(breaks := s.p.breaks[id := s.p.breaks[id].(status := BreakResolved,
                        resolvedAt := Some(now), reason := reason, actor := actor)])
                 && t.log == Logged(s.log, now, [BreakResolvedBy(id, reason, actor, now, "")])
            else t == s
  {
    hide ApplyProj, AppendEvents, Linked;
    if Resolvable(s.p, id, reason, actor) {
      BreakUnderOwnId(s.p, id);
      var e := Entry(now, BreakResolvedBy(id, reason, actor, now, ""));
      ResolveSettles(s.p, id, reason, actor, now, [e]);
      AppendIsLogged(s.log, [e], now, [e.payload]);
    }
  }

  /** A logged manual resolution is applied again as it was, to an open break and without a second event. */
  lemma ReapplyTells(s: State, id: Id, reason: string, actor: string, at: Time, matchId: Id)
    requires Inv(s.p)
    ensures Reapply(s, BreakResolvedBy(id, reason, actor, at, matchId)) ==
            if matchId == "" && id != "" && id in s.p.breaks && s.p.breaks[id].status == BreakOpen
            then s.(p := s.p.(breaks := s.p.breaks[id := s.p.breaks[id].(status := BreakResolved,
                        resolvedAt := Some(at), reason := reason, actor := actor)]))
            else s
  {
    hide ApplyProj, Linked;
    if id in s.p.breaks {
      BreakUnderOwnId(s.p, id);
      ResolveSettles(s.p, id, reason, actor, at, []);
    }
  }
}
