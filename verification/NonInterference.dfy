/**
 Two-run laws. A view forgets clock readings, classifier labels, or both; states that look the
 same in a view keep looking the same through every step. Hence the classifier cannot affect
 matching, and a replay under another clock re-derives the same state.
 */
module NonInterference {
  import opened Sequences
  import opened Domain
  import opened Identity
  import opened Persistence
  import opened Reconciliation
  import opened EventSourcing
  import opened Lifecycle
  import opened Transitions
  import opened Runs
  import M = Matching

  /** What an observer forgets. */
  datatype View = View(times: bool, labels: bool)

  function SeenMatch(v: View, m: Match): Match {
    if v.times then m.(matchedAt := ZERO_TIME) else m
  }

  /** Labels are category, confidence, classifier id, and the reason while the break is open. */
  function SeenBreak(v: View, b: Break): Break {
    var c := if v.labels then b.(category := "", confidence := 0, classifierId := "",
        reason := if b.status == BreakOpen then "" else b.reason) else b;
    if v.times then c.(openedAt := ZERO_TIME, resolvedAt := if b.resolvedAt.Some? then Some(ZERO_TIME) else None) else c
  }

  function Seen(v: View, p: Proj): Proj {
    p.(matches := map id | id in p.matches :: SeenMatch(v, p.matches[id]),
       breaks := map id | id in p.breaks :: SeenBreak(v, p.breaks[id]))
  }

  function SeenPayload(v: View, e: Payload): Payload {
    match e
    case MatchCreated(m) => MatchCreated(SeenMatch(v, m))
    case BreakOpened(b) => BreakOpened(SeenBreak(v, b))
    case BreakResolvedBy(id, reason, actor, at, m) => if v.times then BreakResolvedBy(id, reason, actor, ZERO_TIME, m)
        else e
    case _ => e
  }

  function SeenEvent(v: View, e: Event): Event {
    Event(e.seqNo, if v.times then ZERO_TIME else e.at, SeenPayload(v, e.payload))
  }

  function SeenLog(v: View, log: seq<Event>): (r: seq<Event>)
    ensures |r| == |log| && forall i :: 0 <= i < |log| ==> r[i] == SeenEvent(v, log[i])
  {
    seq(|log|, i requires 0 <= i < |log| => SeenEvent(v, log[i]))
  }

  function SeenState(v: View, s: State): State {
    State(Seen(v, s.p), SeenLog(v, s.log))
  }

  /** Two engines and clock readings that differ only in what the view forgets. */
  ghost predicate Alike(v: View, cfg: Config, cfg': Config, now: Time, now': Time) {
    cfg.rules == cfg'.rules && (v.labels || cfg.classify == cfg'.classify) && (v.times || now == now')
  }

  // ---------------------------------------------------------------- decisions look alike

  lemma SeenParts(v: View, p: Proj, q: Proj)
    requires Seen(v, p) == Seen(v, q)
    ensures p.legs == q.legs && p.byRef == q.byRef
    ensures p.matches.Keys == q.matches.Keys && p.breaks.Keys == q.breaks.Keys
    ensures forall id :: id in p.matches ==> SeenMatch(v, p.matches[id]) == SeenMatch(v, q.matches[id])
    ensures forall id :: id in p.breaks ==> SeenBreak(v, p.breaks[id]) == SeenBreak(v, q.breaks[id])
  {
    var a, b := Seen(v, p), Seen(v, q);
    assert a.matches.Keys == p.matches.Keys && b.matches.Keys == q.matches.Keys;
    assert a.breaks.Keys == p.breaks.Keys && b.breaks.Keys == q.breaks.Keys;
    forall id | id in p.matches ensures SeenMatch(v, p.matches[id]) == SeenMatch(v, q.matches[id]) {
      assert a.matches[id] == b.matches[id];
    }
    forall id | id in p.breaks ensures SeenBreak(v, p.breaks[id]) == SeenBreak(v, q.breaks[id]) {
      assert a.breaks[id] == b.breaks[id];
    }
  }

  lemma SameSeen(v: View, p: Proj, q: Proj)
    requires p.legs == q.legs && p.byRef == q.byRef
    requires p.matches.Keys == q.matches.Keys && p.breaks.Keys == q.breaks.Keys
    requires forall id :: id in p.matches ==> SeenMatch(v, p.matches[id]) == SeenMatch(v, q.matches[id])
    requires forall id :: id in p.breaks ==> SeenBreak(v, p.breaks[id]) == SeenBreak(v, q.breaks[id])
    ensures Seen(v, p) == Seen(v, q)
  {
    hide SeenMatch, SeenBreak;
    assert Seen(v, p).matches == Seen(v, q).matches;
    assert Seen(v, p).breaks == Seen(v, q).breaks;
  }

  lemma SeenBreakFacts(v: View, a: Break, b: Break)
    requires SeenBreak(v, a) == SeenBreak(v, b)
    ensures a.id == b.id && a.legIds == b.legIds && a.status == b.status && a.trigger == b.trigger && a.actor == b.actor
    ensures a.status == BreakResolved ==> a.reason == b.reason
  {
    var c, d := SeenBreak(v, a), SeenBreak(v, b);
    assert c.id == a.id && d.id == b.id && c.legIds == a.legIds && d.legIds == b.legIds;
    assert c.status == a.status && d.status == b.status && c.trigger == a.trigger && d.trigger == b.trigger;
    assert c.actor == a.actor && d.actor == b.actor;
    assert a.status == BreakResolved ==> c.reason == a.reason;
    assert b.status == BreakResolved ==> d.reason == b.reason;
  }

  lemma HealsAgrees(v: View, rules: Rules, p: Proj, q: Proj, l: Leg, r: Leg)
    requires Seen(v, p) == Seen(v, q)
    ensures Heals(rules, p.breaks, l, r) == Heals(rules, q.breaks, l, r)
  {
    hide Seen, SeenBreak, SeenMatch;
    SeenParts(v, p, q);
    assert r.breakId in p.breaks <==> r.breakId in q.breaks by { assert r.breakId in p.breaks.Keys <==>
           r.breakId in q.breaks.Keys; }
    if r.breakId in p.breaks { SeenBreakFacts(v, p.breaks[r.breakId], q.breaks[r.breakId]); }
  }

  /** What becomes of a leg does not depend on forgotten facts. */
  lemma DecideAgrees(v: View, rules: Rules, p: Proj, q: Proj, l: Leg)
    requires Seen(v, p) == Seen(v, q)
    ensures Decide(rules, p, l) == Decide(rules, q, l)
    ensures Related(p, l.txnRef) == Related(q, l.txnRef)
  {
    hide Seen, SeenBreak, SeenMatch, M.Find, Lookup, First, Heals;
    SeenParts(v, p, q);
    var related := Related(p, l.txnRef);
    forall r | r in related ensures HealedBy(rules, p.breaks, l)(r) == HealedBy(rules, q.breaks, l)(r) {
      HealsAgrees(v, rules, p, q, l, r);
    }
    FirstAgrees(related, HealedBy(rules, p.breaks, l), HealedBy(rules, q.breaks, l));
  }

  // ---------------------------------------------------------------- reactions look alike

  lemma AdmitAgrees(v: View, p: Proj, q: Proj, l: Leg)
    requires Seen(v, p) == Seen(v, q)
    ensures Seen(v, Admit(p, l)) == Seen(v, Admit(q, l))
  {
    hide Seen, SeenBreak, SeenMatch;
    SeenParts(v, p, q);
    SameSeen(v, Admit(p, l), Admit(q, l));
  }

  lemma MatchAgrees(v: View, p: Proj, q: Proj, m: Match, m': Match)
    requires Seen(v, p) == Seen(v, q) && SeenMatch(v, m) == SeenMatch(v, m') && m.id == m'.id && m.legIds == m'.legIds
    ensures Seen(v, MarkMatched(p, m)) == Seen(v, MarkMatched(q, m'))
  {
    hide Seen, SeenBreak, SeenMatch;
    SeenParts(v, p, q);
    SameSeen(v, MarkMatched(p, m), MarkMatched(q, m'));
  }

  lemma BreakAgrees(v: View, p: Proj, q: Proj, b: Break, b': Break)
    requires Seen(v, p) == Seen(v, q) && SeenBreak(v, b) == SeenBreak(v, b')
    ensures Seen(v, MarkBroken(p, b)) == Seen(v, MarkBroken(q, b'))
  {
    hide Seen, SeenBreak, SeenMatch;
    SeenParts(v, p, q);
    SeenBreakFacts(v, b, b');
    SameSeen(v, MarkBroken(p, b), MarkBroken(q, b'));
  }

  lemma ResolvedAgrees(v: View, a: Break, b: Break, reason: string, actor: string, at: Time, at': Time)
    requires SeenBreak(v, a) == SeenBreak(v, b) && (v.times || at == at')
    ensures SeenBreak(v, Resolved(a, reason, actor, at)) == SeenBreak(v, Resolved(b, reason, actor, at'))
  {
    var c, d := SeenBreak(v, a), SeenBreak(v, b);
    assert c.id == d.id && c.legIds == d.legIds && c.currency == d.currency && c.counterparty == d.counterparty;
    assert c.category == d.category && c.confidence == d.confidence && c.classifierId == d.classifierId;
    assert c.trigger == d.trigger && c.openedAt == d.openedAt;
  }

  lemma CloseAgrees(v: View, p: Proj, q: Proj, id: Id, reason: string, actor: string, at: Time, at': Time)
    requires Seen(v, p) == Seen(v, q) && (v.times || at == at')
    ensures Seen(v, Close(p, id, reason, actor, at)) == Seen(v, Close(q, id, reason, actor, at'))
  {
    hide Seen, SeenBreak, SeenMatch, Resolved;
    SeenParts(v, p, q);
    assert id in p.breaks <==> id in q.breaks by { assert id in p.breaks.Keys <==> id in q.breaks.Keys; }
    if id in p.breaks {
      ResolvedAgrees(v, p.breaks[id], q.breaks[id], reason, actor, at, at');
      SameSeen(v, Close(p, id, reason, actor, at), Close(q, id, reason, actor, at'));
    }
  }

  lemma NewBreakAgrees(v: View, cfg: Config, cfg': Config, trigger: Trigger, related: seq<Leg>, legs: seq<Leg>,
      now: Time, now': Time)
    requires Alike(v, cfg, cfg', now, now') && legs != []
    ensures SeenBreak(v, NewBreak(cfg, trigger, related, legs, now)) ==
            SeenBreak(v, NewBreak(cfg', trigger, related, legs, now'))
  {
    hide DeriveId;
  }

  /** Carrying out a decision looks alike in both runs. */
  lemma SettleAgrees(v: View, cfg: Config, cfg': Config, p: Proj, q: Proj, l: Leg, now: Time, now': Time)
    requires Alike(v, cfg, cfg', now, now') && Seen(v, p) == Seen(v, q)
    ensures Seen(v, Settle(cfg, p, l, now, Decide(cfg.rules, p, l))) ==
            Seen(v, Settle(cfg', q, l, now', Decide(cfg'.rules, q, l)))
  {
    hide Seen, SeenBreak, Decide, NewBreak, MarkBroken, MarkMatched, Admit, Close, M.Pair, Related;
    DecideAgrees(v, cfg.rules, p, q, l);
    AdmitAgrees(v, p, q, l);
    var p1, q1 := Admit(p, l), Admit(q, l);
    var related := Related(p, l.txnRef);
    match Decide(cfg.rules, p, l)
    case Reused =>
      NewBreakAgrees(v, cfg, cfg', DuplicateRef, related, [l], now, now');
      BreakAgrees(v, p1, q1, NewBreak(cfg, DuplicateRef, related, [l], now),
          NewBreak(cfg', DuplicateRef, related, [l], now'));
    case Join(m) => MatchAgrees(v, p1, q1, m.(matchedAt := now), m.(matchedAt := now'));
    case Conflict(partners) =>
      NewBreakAgrees(v, cfg, cfg', RefConflict, related, [l] + partners, now, now');
      BreakAgrees(v, p1, q1, NewBreak(cfg, RefConflict, related, [l] + partners, now),
          NewBreak(cfg', RefConflict, related, [l] + partners, now'));
    case Heal(r) =>
      var m, m' := LateMatch(cfg.rules, l, r, now), LateMatch(cfg'.rules, l, r, now');
      MatchAgrees(v, p1, q1, m, m');
      CloseAgrees(v, MarkMatched(p1, m), MarkMatched(q1, m'), r.breakId, LATE_REASON, SYSTEM_ACTOR, now, now');
    case Orphan =>
      NewBreakAgrees(v, cfg, cfg', RefConflict, related, [l], now, now');
      BreakAgrees(v, p1, q1, NewBreak(cfg, RefConflict, related, [l], now),
          NewBreak(cfg', RefConflict, related, [l], now'));
    case Wait =>
  }

  // ---------------------------------------------------------------- logs look alike

  lemma {:induction false} AppendSeen(v: View, log: seq<Event>, evs: seq<Event>)
    ensures SeenLog(v, AppendEvents(log, evs)) == AppendEvents(SeenLog(v, log), SeenLog(v, evs))
  {
    hide SeenPayload;
    if evs != [] {
      var n := |evs| - 1;
      AppendSeen(v, log, evs[..n]);
      assert SeenLog(v, evs)[..n] == SeenLog(v, evs[..n]);
      AppendExtends(log, evs[..n]);
    }
  }

  lemma AppendAgrees(v: View, log: seq<Event>, log': seq<Event>, evs: seq<Event>, evs': seq<Event>)
    requires SeenLog(v, log) == SeenLog(v, log') && SeenLog(v, evs) == SeenLog(v, evs')
    ensures SeenLog(v, AppendEvents(log, evs)) == SeenLog(v, AppendEvents(log', evs'))
  {
    hide SeenLog, AppendEvents;
    AppendSeen(v, log, evs);
    AppendSeen(v, log', evs');
  }

  lemma OneSeen(v: View, a: seq<Event>, b: seq<Event>)
    requires |a| == |b| == 1 && SeenEvent(v, a[0]) == SeenEvent(v, b[0])
    ensures SeenLog(v, a) == SeenLog(v, b)
  {
    hide SeenEvent;
  }

  lemma PairSeen(v: View, a: seq<Event>, b: seq<Event>)
    requires |a| == |b| == 2 && SeenEvent(v, a[0]) == SeenEvent(v, b[0]) && SeenEvent(v, a[1]) == SeenEvent(v, b[1])
    ensures SeenLog(v, a) == SeenLog(v, b)
  {
    hide SeenEvent;
  }

  lemma ConsSeen(v: View, a: Event, b: Event, x: seq<Event>, y: seq<Event>)
    requires SeenEvent(v, a) == SeenEvent(v, b) && SeenLog(v, x) == SeenLog(v, y)
    ensures SeenLog(v, [a] + x) == SeenLog(v, [b] + y)
  {
    hide SeenEvent;
    assert |x| == |SeenLog(v, x)| == |y|;
    forall i | 0 <= i < |x| ensures SeenEvent(v, x[i]) == SeenEvent(v, y[i]) {
      assert SeenLog(v, x)[i] == SeenLog(v, y)[i];
    }
  }

  /** The events of a plan, without the intake event, named by decision. */
  lemma DerivedShape(cfg: Config, p: Proj, l: Leg, now: Time, d: Decision)
    ensures var evs := Plan(cfg, p, l, now, true, d).events;
            var related := Related(p, l.txnRef);
            match d
            case Reused => evs == [Entry(now, BreakOpened(NewBreak(cfg, DuplicateRef, related, [l], now)))]
            case Join(m) => evs == [Entry(now, MatchCreated(m.(matchedAt := now)))]
            case Conflict(partners) => evs ==
                [Entry(now, BreakOpened(NewBreak(cfg, RefConflict, related, [l] + partners, now)))]
            case Heal(r) =>
              if r.breakId in p.breaks then
                evs == [Entry(now, MatchCreated(LateMatch(cfg.rules, l, r, now))),
                        Entry(now, BreakResolvedBy(p.breaks[r.breakId].id, LATE_REASON, SYSTEM_ACTOR, now,
                            LateMatch(cfg.rules, l, r, now).id))]
              else evs == []
            case Orphan => evs == [Entry(now, BreakOpened(NewBreak(cfg, RefConflict, related, [l], now)))]
            case Wait => evs == []
  {
    hide Related, NewBreak, LateMatch, Partners, AsBroken;
  }

  lemma BreakEventAgrees(v: View, cfg: Config, cfg': Config, trigger: Trigger, related: seq<Leg>, legs: seq<Leg>,
      now: Time, now': Time)
    requires Alike(v, cfg, cfg', now, now') && legs != []
    ensures SeenLog(v, [Entry(now, BreakOpened(NewBreak(cfg, trigger, related, legs, now)))]) ==
            SeenLog(v, [Entry(now', BreakOpened(NewBreak(cfg', trigger, related, legs, now')))])
  {
    hide NewBreak, SeenBreak;
    NewBreakAgrees(v, cfg, cfg', trigger, related, legs, now, now');
    OneSeen(v, [Entry(now, BreakOpened(NewBreak(cfg, trigger, related, legs, now)))],
        [Entry(now', BreakOpened(NewBreak(cfg', trigger, related, legs, now')))]);
  }

  lemma HealEventsAgree(v: View, cfg: Config, cfg': Config, p: Proj, q: Proj, l: Leg, r: Leg, now: Time, now': Time)
    requires Alike(v, cfg, cfg', now, now') && Seen(v, p) == Seen(v, q)
    ensures SeenLog(v, Plan(cfg, p, l, now, true, Heal(r)).events) ==
            SeenLog(v, Plan(cfg', q, l, now', true, Heal(r)).events)
  {
    hide Seen, SeenBreak, M.Pair, Plan, SeenLog;
    SeenParts(v, p, q);
    DerivedShape(cfg, p, l, now, Heal(r));
    DerivedShape(cfg', q, l, now', Heal(r));
    assert r.breakId in p.breaks <==> r.breakId in q.breaks by { assert r.breakId in p.breaks.Keys <==>
           r.breakId in q.breaks.Keys; }
    if r.breakId in p.breaks {
      SeenBreakFacts(v, p.breaks[r.breakId], q.breaks[r.breakId]);
      PairSeen(v, Plan(cfg, p, l, now, true, Heal(r)).events, Plan(cfg', q, l, now', true, Heal(r)).events);
    }
  }

  lemma DerivedAgree(v: View, cfg: Config, cfg': Config, p: Proj, q: Proj, l: Leg, now: Time, now': Time, d: Decision)
    requires Alike(v, cfg, cfg', now, now') && Seen(v, p) == Seen(v, q) && Related(p, l.txnRef) == Related(q, l.txnRef)
    ensures SeenLog(v, Plan(cfg, p, l, now, true, d).events) == SeenLog(v, Plan(cfg', q, l, now', true, d).events)
  {
    hide Seen, SeenBreak, NewBreak, M.Pair, Related, Plan, SeenLog;
    var related := Related(p, l.txnRef);
    DerivedShape(cfg, p, l, now, d);
    DerivedShape(cfg', q, l, now', d);
    match d
    case Reused => BreakEventAgrees(v, cfg, cfg', DuplicateRef, related, [l], now, now');
    case Join(m) => OneSeen(v, Plan(cfg, p, l, now, true, d).events, Plan(cfg', q, l, now', true, d).events);
    case Conflict(partners) => BreakEventAgrees(v, cfg, cfg', RefConflict, related, [l] + partners, now, now');
    case Heal(r) => HealEventsAgree(v, cfg, cfg', p, q, l, r, now, now');
    case Orphan => BreakEventAgrees(v, cfg, cfg', RefConflict, related, [l], now, now');
    case Wait =>
  }

  /** What a decision records looks alike in both runs. */
  lemma PlanEventsAgree(v: View, cfg: Config, cfg': Config, p: Proj, q: Proj, l: Leg, now: Time, now': Time,
      replaying: bool)
    requires Alike(v, cfg, cfg', now, now') && Seen(v, p) == Seen(v, q)
    ensures SeenLog(v, Plan(cfg, p, l, now, replaying, Decide(cfg.rules, p, l)).events) ==
            SeenLog(v, Plan(cfg', q, l, now', replaying, Decide(cfg'.rules, q, l)).events)
  {
    hide Seen, Decide, Related, Plan, SeenLog;
    DecideAgrees(v, cfg.rules, p, q, l);
    var d := Decide(cfg.rules, p, l);
    DerivedAgree(v, cfg, cfg', p, q, l, now, now', d);
    if !replaying {
      PlanEvents(cfg, p, l, now, d);
      PlanEvents(cfg', q, l, now', d);
      ConsSeen(v, Entry(now, LegIngested(l)), Entry(now', LegIngested(l)), Plan(cfg, p, l, now, true, d).events,
          Plan(cfg', q, l, now', true, d).events);
    }
  }

  /** One leg through both engines. */
  lemma IngestAgrees(v: View, cfg: Config, cfg': Config, s: State, t: State, arriving: Leg, now: Time, now': Time,
      replaying: bool)
    requires Alike(v, cfg, cfg', now, now') && cfg.rules.Valid() && Inv(s.p) && Inv(t.p) && Arriving(arriving)
    requires SeenState(v, s) == SeenState(v, t) && Stamp(arriving, now) == Stamp(arriving, now')
    ensures SeenState(v, Ingest(cfg, s, arriving, now, replaying)) ==
            SeenState(v, Ingest(cfg', t, arriving, now', replaying))
    ensures Report(cfg, s.p, arriving, now) == Report(cfg', t.p, arriving, now')
  {
    hide Seen, SeenBreak, SeenMatch, SeenLog, Decide, Settle, Plan, Inv, Arriving, AppendEvents, ApplyProj;
    var l := Stamp(arriving, now);
    SeenParts(v, s.p, t.p);
    DecideAgrees(v, cfg.rules, s.p, t.p, l);
    IngestEffect(cfg, s, arriving, now, replaying);
    IngestEffect(cfg', t, arriving, now', replaying);
    if l.id in s.p.legs {
      assert SeenLog(v, [Entry(now, LegDuplicate(l))]) ==
             SeenLog(v, [Entry(now', LegDuplicate(l))]) by { NoteSeen(v, LegDuplicate(l), now, now'); }
      if !replaying { AppendAgrees(v, s.log, t.log, [Entry(now, LegDuplicate(l))], [Entry(now', LegDuplicate(l))]); }
    } else {
      SettleAgrees(v, cfg, cfg', s.p, t.p, l, now, now');
      PlanEventsAgree(v, cfg, cfg', s.p, t.p, l, now, now', replaying);
      AppendAgrees(v, s.log, t.log, Plan(cfg, s.p, l, now, replaying, Decide(cfg.rules, s.p, l)).events,
                   Plan(cfg', t.p, l, now', replaying, Decide(cfg'.rules, t.p, l)).events);
    }
  }

  lemma NoteSeen(v: View, e: Payload, now: Time, now': Time)
    requires v.times || now == now'
    ensures SeenLog(v, [Entry(now, e)]) == SeenLog(v, [Entry(now', e)])
  {
    var a, b := SeenLog(v, [Entry(now, e)]), SeenLog(v, [Entry(now', e)]);
    assert a[0] == b[0];
  }

  // ---------------------------------------------------------------- every step looks alike

  lemma ExpireAgrees(v: View, cfg: Config, cfg': Config, s: State, t: State, id: Id, now: Time, forced: bool)
    requires Alike(v, cfg, cfg', now, now) && Inv(s.p) && Inv(t.p) && SeenState(v, s) == SeenState(v, t)
    requires IsOpen(s.p, id) && IsOpen(t.p, id)
    ensures SeenState(v, Expire(cfg, s, s.p.legs[id], now, forced)) ==
            SeenState(v, Expire(cfg', t, t.p.legs[id], now, forced))
  {
    hide Seen, SeenBreak, SeenMatch, SeenLog, Inv, AppendEvents, ApplyProj, NewBreak, MarkBroken, Lookup, ExpirePlan;
    var l := s.p.legs[id];
    SeenParts(v, s.p, t.p);
    ExpireOwnId(s.p, id);
    ExpireSettles(cfg, s.p, l, now, forced);
    ExpireSettles(cfg', t.p, l, now, forced);
    var related := Related(s.p, l.txnRef);
    var b, b' := NewBreak(cfg, WindowExpired, related, [l], now), NewBreak(cfg', WindowExpired, related, [l], now);
    NewBreakAgrees(v, cfg, cfg', WindowExpired, related, [l], now, now);
    BreakAgrees(v, s.p, t.p, b, b');
    ExpireEvents(cfg, s.p, l, now, forced);
    ExpireEvents(cfg', t.p, l, now, forced);
    var evs, evs' := ExpirePlan(cfg, s.p, l, now, forced).events, ExpirePlan(cfg', t.p, l, now, forced).events;
    PairSeen(v, evs, evs');
    AppendAgrees(v, s.log, t.log, evs, evs');
  }

  lemma ResolveAgrees(v: View, s: State, t: State, id: Id, reason: string, actor: string, now: Time)
    requires Inv(s.p) && Inv(t.p) && SeenState(v, s) == SeenState(v, t)
    ensures SeenState(v, Resolve(s, id, reason, actor, now)) == SeenState(v, Resolve(t, id, reason, actor, now))
  {
    hide Seen, SeenBreak, SeenMatch, SeenLog, Inv, AppendEvents, ApplyProj, Close, Resolved;
    SeenParts(v, s.p, t.p);
    assert id in s.p.breaks <==> id in t.p.breaks by { assert id in s.p.breaks.Keys <==> id in t.p.breaks.Keys; }
    if id in s.p.breaks { SeenBreakFacts(v, s.p.breaks[id], t.p.breaks[id]); }
    if Resolvable(s.p, id, reason, actor) {
      BreakUnderOwnId(s.p, id);
      BreakUnderOwnId(t.p, id);
      var e := Entry(now, BreakResolvedBy(id, reason, actor, now, ""));
      ResolveSettles(s.p, id, reason, actor, now, [e]);
      ResolveSettles(t.p, id, reason, actor, now, [e]);
      CloseAgrees(v, s.p, t.p, id, reason, actor, now, now);
      AppendAgrees(v, s.log, t.log, [e], [e]);
    }
  }

  lemma ReapplyAgrees(v: View, s: State, t: State, e: Payload, e': Payload)
    requires Inv(s.p) && Inv(t.p) && SeenState(v, s) == SeenState(v, t)
    requires e.BreakResolvedBy? && e'.BreakResolvedBy? && SeenPayload(v, e) == SeenPayload(v, e')
    ensures SeenState(v, Reapply(s, e)) == SeenState(v, Reapply(t, e'))
  {
    hide Seen, SeenBreak, SeenMatch, SeenLog, Inv, ApplyProj, Close, Resolved;
    SeenParts(v, s.p, t.p);
    var id := e.breakId;
    assert id in s.p.breaks <==> id in t.p.breaks by { assert id in s.p.breaks.Keys <==> id in t.p.breaks.Keys; }
    if id in s.p.breaks { SeenBreakFacts(v, s.p.breaks[id], t.p.breaks[id]); }
    if e.matchId == "" && id != "" && id in s.p.breaks && s.p.breaks[id].status == BreakOpen {
      BreakUnderOwnId(s.p, id);
      BreakUnderOwnId(t.p, id);
      ResolveSettles(s.p, id, e.reason, e.actor, e.at, []);
      ResolveSettles(t.p, id, e'.reason, e'.actor, e'.at, []);
      CloseAgrees(v, s.p, t.p, id, e.reason, e.actor, e.at, e'.at);
    }
  }

  lemma ReplayOneAgrees(v: View, cfg: Config, cfg': Config, s: State, t: State, ev: Event, ev': Event, now: Time,
      now': Time)
    requires Alike(v, cfg, cfg', now, now') && cfg.rules.Valid() && Inv(s.p) && Inv(t.p)
             && SeenState(v, s) == SeenState(v, t)
    requires SeenEvent(v, ev) == SeenEvent(v, ev') && GoodEvent(ev)
    ensures SeenState(v, ReplayOne(cfg, s, ev, now)) == SeenState(v, ReplayOne(cfg', t, ev', now'))
  {
    hide SeenState, Inv, Ingest, Reapply, Delivered, Redelivered, SeenMatch, SeenBreak;
    assert SeenPayload(v, ev.payload) == SeenPayload(v, ev'.payload);
    match ev.payload
    case LegIngested(l) =>
      RedeliveredSame(l);
      DeliveredArrives(l);
      IngestAgrees(v, cfg, cfg', s, t, l, now, now', true);
    case BreakResolvedBy(_, _, _, _, _) => ReapplyAgrees(v, s, t, ev.payload, ev'.payload);
    case _ =>
  }

  /** Replaying alike events from alike states gives alike states, whatever the clocks if times are forgotten. */
  lemma {:induction false} ReplayAllAgrees(v: View, cfg: Config, cfg': Config, s: State, t: State, evs: seq<Event>,
      evs': seq<Event>, clock: nat -> Time, clock': nat -> Time)
    requires forall n: nat :: Alike(v, cfg, cfg', clock(n), clock'(n))
    requires cfg.rules == cfg'.rules && cfg.rules.Valid() && GoodState(s) && GoodState(t)
             && SeenState(v, s) == SeenState(v, t)
    requires SeenLog(v, evs) == SeenLog(v, evs') && GoodLog(evs) && GoodLog(evs') && Ticks(clock) && Ticks(clock')
    ensures SeenState(v, ReplayAll(cfg, s, evs, clock)) == SeenState(v, ReplayAll(cfg', t, evs', clock'))
  {
    hide SeenState, ReplayOne, GoodEvent, Inv, SeenPayload, GoodState;
    assert |evs| == |SeenLog(v, evs)| == |evs'|;
    if evs != [] {
      var n := |evs| - 1;
      assert SeenLog(v, evs[..n]) == SeenLog(v, evs)[..n] == SeenLog(v, evs')[..n] == SeenLog(v, evs'[..n]);
      assert SeenEvent(v, evs[n]) == SeenLog(v, evs)[n] == SeenLog(v, evs')[n] == SeenEvent(v, evs'[n]);
      assert GoodEvent(evs[n]);
      ReplayAllAgrees(v, cfg, cfg', s, t, evs[..n], evs'[..n], clock, clock');
      ReplayAllGood(cfg, s, evs[..n], clock);
      ReplayAllGood(cfg', t, evs'[..n], clock');
      InvOf(ReplayAll(cfg, s, evs[..n], clock));
      InvOf(ReplayAll(cfg', t, evs'[..n], clock'));
      ReplayOneAgrees(v, cfg, cfg', ReplayAll(cfg, s, evs[..n], clock), ReplayAll(cfg', t, evs'[..n], clock'), evs[n],
          evs'[n], clock(evs[n].seqNo), clock'(evs'[n].seqNo));
    }
  }

  lemma InvOf(s: State)
    requires GoodState(s)
    ensures Inv(s.p) && GoodLog(s.log)
  {
  }

  lemma BaseAgrees(v: View, s: State, t: State, from: nat, now: Time)
    requires SeenState(v, s) == SeenState(v, t)
    ensures SeenState(v, ReplayBase(s, from, now)) == SeenState(v, ReplayBase(t, from, now))
    ensures |s.log| == |t.log|
  {
    hide Seen, AppendEvents, SeenEvent;
    assert |s.log| == |SeenLog(v, s.log)| == |t.log|;
    var e := Entry(now, ReplayStarted(from, |s.log|));
    AppendAgrees(v, s.log, t.log, [e], [e]);
  }

  lemma PartSeen(v: View, log: seq<Event>, log': seq<Event>, from: nat, upTo: nat)
    requires SeenLog(v, log) == SeenLog(v, log')
    ensures var evs, evs' := ReplayRange(log, from), ReplayRange(log', from);
            && |evs| == |evs'|
            && SeenLog(v, if upTo < |evs| then evs[..upTo] else evs) ==
                SeenLog(v, if upTo < |evs'| then evs'[..upTo] else evs')
  {
    hide SeenEvent;
    assert |log| == |SeenLog(v, log)| == |log'|;
    var evs, evs' := ReplayRange(log, from), ReplayRange(log', from);
    var lo := if from < 1 then 1 else from;
    forall i | 0 <= i < |evs| ensures SeenEvent(v, evs[i]) == SeenEvent(v, evs'[i]) {
      assert SeenLog(v, log)[lo - 1 + i] == SeenLog(v, log')[lo - 1 + i];
    }
  }

  lemma ReplayAgrees(v: View, cfg: Config, cfg': Config, s: State, t: State, from: nat, now: Time,
                     clock: nat -> Time, upTo: nat)
    requires cfg.rules == cfg'.rules && (v.labels || cfg.classify == cfg'.classify) && cfg.rules.Valid()
    requires GoodState(s) && GoodState(t) && SeenState(v, s) == SeenState(v, t) && Ticks(clock)
    ensures var op := StartReplay(from, now, clock, upTo);
            SeenState(v, Step(cfg, s, op)) == SeenState(v, Step(cfg', t, op))
  {
    hide Ingest, Inv, Delivered, GoodLog, Numbered, ReplayAll, ReplayBase, ApplyProj, AppendEvents, Ticks, Expire,
         Resolve, Seen, SeenLog, GoodState;
    InvOf(s);
    InvOf(t);
    var lo := if from < 1 then 1 else from;
    var evs, evs' := ReplayRange(s.log, from), ReplayRange(t.log, from);
    var part, part' := if upTo < |evs| then evs[..upTo] else evs, if upTo < |evs'| then evs'[..upTo] else evs';
    PartSeen(v, s.log, t.log, from, upTo);
    GoodPart(s.log, part);
    GoodPart(t.log, part');
    BaseAgrees(v, s, t, lo, now);
    BaseGood(s, lo, now);
    BaseGood(t, lo, now);
    ReplayAllAgrees(v, cfg, cfg', ReplayBase(s, lo, now), ReplayBase(t, lo, now), part, part', clock, clock);
  }

  lemma StepAgrees(v: View, cfg: Config, cfg': Config, s: State, t: State, op: Op)
    requires cfg.rules == cfg'.rules && (v.labels || cfg.classify == cfg'.classify) && cfg.rules.Valid()
    requires GoodState(s) && GoodState(t) && SeenState(v, s) == SeenState(v, t) && GoodOp(op) && GoodClock(op)
    ensures SeenState(v, Step(cfg, s, op)) == SeenState(v, Step(cfg', t, op))
  {
    hide Ingest, Inv, Delivered, GoodLog, Numbered, ReplayAll, ReplayBase, ApplyProj, AppendEvents, Ticks, Expire,
         Resolve, Seen, SeenLog, GoodState;
    InvOf(s);
    InvOf(t);
    SeenParts(v, s.p, t.p);
    match op
    case Arrive(l, now) =>
      DeliveredArrives(l);
      IngestAgrees(v, cfg, cfg', s, t, l, now, now, false);
    case ExpireLeg(id, now, forced) =>
      if IsOpen(s.p, id) { ExpireAgrees(v, cfg, cfg', s, t, id, now, forced); }
    case CloseWindow(n, olderThan, now) =>
      var e := Entry(now, WindowClosed(n, olderThan));
      NoteSettles(s.p, [e]);
      NoteSettles(t.p, [e]);
      AppendAgrees(v, s.log, t.log, [e], [e]);
    case ResolveBreak(id, reason, actor, now) => ResolveAgrees(v, s, t, id, reason, actor, now);
    case StartReplay(from, now, clock, upTo) =>
      ReplayAgrees(v, cfg, cfg', s, t, from, now, clock, upTo);
    case AbandonReplay(from, now) =>
      assert |s.log| == |SeenLog(v, s.log)| == |t.log|;
      var e := Entry(now, ReplayStarted(if from < 1 then 1 else from, |s.log|));
      NoteSettles(s.p, [e]);
      NoteSettles(t.p, [e]);
      AppendAgrees(v, s.log, t.log, [e], [e]);
  }

  lemma {:induction false} RunAgrees(v: View, cfg: Config, cfg': Config, ops: seq<Op>)
    requires cfg.rules == cfg'.rules && (v.labels || cfg.classify == cfg'.classify) && cfg.rules.Valid()
    requires GoodOps(ops) && GoodClocks(ops)
    ensures SeenState(v, Run(cfg, INIT, ops)) == SeenState(v, Run(cfg', INIT, ops))
  {
    hide Step, GoodState, SeenState;
    if ops != [] {
      var init, op := ops[..|ops| - 1], ops[|ops| - 1];
      assert op in ops && GoodOp(op) && GoodClock(op);
      RunAgrees(v, cfg, cfg', init);
      RunGood(cfg, init);
      RunGood(cfg', init);
      StepAgrees(v, cfg, cfg', Run(cfg, INIT, init), Run(cfg', INIT, init), op);
    }
  }

  const LABEL_BLIND := View(false, true)

  /**
   Two pure classifiers, the same run: legs, matches, break ids, legs, statuses, the log and every
   outcome agree; only category, confidence, classifier id and the reason of open breaks may differ.
   */
  lemma ClassifierCannotInterfere(cfg: Config, classify': Classifier, ops: seq<Op>)
    requires cfg.rules.Valid() && GoodOps(ops) && GoodClocks(ops)
    ensures var s, t := Run(cfg, INIT, ops), Run(Config(cfg.rules, classify'), INIT, ops);
            && SeenState(LABEL_BLIND, s) == SeenState(LABEL_BLIND, t)
            && s.p.legs == t.p.legs && s.p.byRef == t.p.byRef && s.p.matches == t.p.matches
            && s.p.breaks.Keys == t.p.breaks.Keys
            && forall l, now :: Arriving(l) ==>
                Report(cfg, s.p, l, now) == Report(Config(cfg.rules, classify'), t.p, l, now)
  {
    hide Run, Seen, SeenBreak, SeenLog, GoodState, Report, Arriving;
    var cfg' := Config(cfg.rules, classify');
    var s, t := Run(cfg, INIT, ops), Run(cfg', INIT, ops);
    RunAgrees(LABEL_BLIND, cfg, cfg', ops);
    SeenParts(LABEL_BLIND, s.p, t.p);
    assert s.p.matches == t.p.matches;
    RunGood(cfg, ops);
    RunGood(cfg', ops);
    InvOf(s);
    InvOf(t);
    forall l, now | Arriving(l) ensures Report(cfg, s.p, l, now) == Report(cfg', t.p, l, now) {
      IngestAgrees(LABEL_BLIND, cfg, cfg', s, t, l, now, now, false);
    }
  }
}
