/**
 What a resolution says about the legs: a break signed as a late arrival has its leg in a match, any
 other keeps its legs broken, exactly as long as no operator resolves one with the engine's own
 reason and actor.
 */
module Resolutions {
  import opened Domain
  import opened Identity
  import opened Persistence
  import opened Reconciliation
  import opened EventSourcing
  import opened Lifecycle
  import opened Transitions
  import opened Runs
  import opened ReplayTheorems
  import M = Matching

  predicate Forged(reason: string, actor: string) { reason == LATE_REASON && actor == SYSTEM_ACTOR }

  /** No operator signs a resolution as the engine does. */
  ghost predicate HonestOps(ops: seq<Op>) { forall op :: op in ops ==> HonestOp(op) }

  ghost predicate HonestOp(op: Op) { op.ResolveBreak? ==> !Forged(op.reason, op.actor) }

  /** An operator's resolution that is accepted and signed as the engine does. */
  ghost predicate Forges(s: State, op: Op) {
    op.ResolveBreak? && Resolvable(s.p, op.id, op.reason, op.actor) && Forged(op.reason, op.actor)
  }

  ghost predicate NoForgery(cfg: Config, ops: seq<Op>) {
    forall i :: 0 <= i < |ops| ==> !Forges(Run(cfg, INIT, ops[..i]), ops[i])
  }

  ghost predicate HonestLog(log: seq<Event>) { forall e :: e in log ==> HonestPayload(e.payload) }

  ghost predicate HonestPayload(e: Payload) {
    e.BreakResolvedBy? && e.matchId == "" ==> !Forged(e.reason, e.actor)
  }

  /** Breaks signed as late arrivals have their legs matched. */
  ghost predicate LateKept(p: Proj) {
    forall b, leg :: b in p.breaks && SignedLate(p.breaks[b]) && leg in p.breaks[b].legIds ==>
      leg in p.legs && p.legs[leg].status == Matched
  }

  ghost predicate Truthful(s: State) { LateKept(s.p) && HonestLog(s.log) }

  // ---------------------------------------------------------------- one reaction at a time

  lemma MarkBrokenKept(p: Proj, b: Break)
    requires LateKept(p) && b.status == BreakOpen && AllOpen(p, b.legIds)
    ensures LateKept(MarkBroken(p, b))
  {
  }

  lemma MarkMatchedKept(p: Proj, m: Match)
    requires LateKept(p)
    ensures LateKept(MarkMatched(p, m))
  {
  }

  lemma CloseKept(p: Proj, id: Id, reason: string, actor: string, at: Time)
    requires LateKept(p) && (id in p.breaks ==> p.breaks[id].status == BreakOpen)
    requires Forged(reason, actor) ==>
               id in p.breaks && forall leg :: leg in p.breaks[id].legIds ==>
                   leg in p.legs && p.legs[leg].status == Matched
    ensures LateKept(Close(p, id, reason, actor, at))
  {
  }

  lemma AdmitKept(p: Proj, l: Leg)
    requires LateKept(p) && l.id !in p.legs
    ensures LateKept(Admit(p, l))
  {
  }

  lemma BreakKept(cfg: Config, p: Proj, l: Leg, partners: seq<Leg>, trigger: Trigger, now: Time)
    requires LateKept(p) && l.id !in p.legs && |partners| <= 1
    requires AllStored(p, partners) && forall x :: x in partners ==> x.status == Open
    ensures LateKept(MarkBroken(Admit(p, l), NewBreak(cfg, trigger, Related(p, l.txnRef), [l] + partners, now)))
  {
    hide NewBreak, Related, LateKept, MarkBroken;
    var b := NewBreak(cfg, trigger, Related(p, l.txnRef), [l] + partners, now);
    NewBreakFacts(cfg, trigger, Related(p, l.txnRef), [l] + partners, now);
    AdmitKept(p, l);
    var q := Admit(p, l);
    forall id | id in b.legIds ensures IsOpen(q, id) {
      if id != l.id { assert id == partners[0].id && partners[0] in partners; }
    }
    MarkBrokenKept(q, b);
  }

  lemma HealKept(rules: Rules, p: Proj, l: Leg, r: Leg, now: Time)
    requires Linked(p) && LateKept(p) && l.id !in p.legs
    requires r.id in p.legs && p.legs[r.id] == r && Heals(rules, p.breaks, l, r)
    ensures LateKept(Close(MarkMatched(Admit(p, l), LateMatch(rules, l, r, now)), r.breakId, LATE_REASON,
            SYSTEM_ACTOR, now))
  {
    hide LateKept, LateMatch, MarkMatched, Close, RefsListed, MatchesLinked, BreaksLinked;
    var m := LateMatch(rules, l, r, now);
    var q := MarkMatched(Admit(p, l), m);
    AdmitKept(p, l);
    MarkMatchedKept(Admit(p, l), m);
    LateMatchFacts(rules, l, r, now);
    assert LegPlaced(p, r);
    MatchedLeg(Admit(p, l), m, r.id);
    assert q.breaks == p.breaks by { MarkedRest(p, l, m); }
    CloseKept(q, r.breakId, LATE_REASON, SYSTEM_ACTOR, now);
  }

  lemma MatchedLeg(p: Proj, m: Match, id: Id)
    requires id in p.legs && id in m.legIds
    ensures id in MarkMatched(p, m).legs && MarkMatched(p, m).legs[id].status == Matched
  {
  }

  lemma SettleKept(cfg: Config, p: Proj, l: Leg, now: Time)
    requires cfg.rules.Valid() && Inv(p) && LateKept(p) && l.id !in p.legs
    ensures LateKept(Settle(cfg, p, l, now, Decide(cfg.rules, p, l)))
  {
    hide Decide, Related, NewBreak, MarkBroken, MarkMatched, Admit, Close, LateKept, RefsListed, LegsPlaced,
         MatchesLinked, BreaksLinked, OneOpenPerRef;
    AloneIsSelf(l);
    match Decide(cfg.rules, p, l)
    case Reused => BreakKept(cfg, p, l, [], DuplicateRef, now);
    case Join(m) =>
      AdmitKept(p, l);
      MarkMatchedKept(Admit(p, l), m.(matchedAt := now));
    case Conflict(partners) =>
      ConflictFacts(cfg.rules, p, l);
      BreakKept(cfg, p, l, partners, RefConflict, now);
    case Heal(r) =>
      HealFacts(cfg.rules, p, l);
      HealKept(cfg.rules, p, l, r, now);
    case Orphan => BreakKept(cfg, p, l, [], RefConflict, now);
    case Wait => AdmitKept(p, l);
  }

  // ---------------------------------------------------------------- steps

  lemma AppendHonest(log: seq<Event>, evs: seq<Event>)
    requires HonestLog(log) && HonestLog(evs)
    ensures HonestLog(AppendEvents(log, evs))
  {
    hide HonestPayload;
    AppendExtends(log, evs);
    var r := AppendEvents(log, evs);
    forall e | e in r ensures HonestPayload(e.payload) {
      var i :| 0 <= i < |r| && r[i] == e;
      if i < |log| { assert r[..|log|][i] == log[i]; }
          else { assert r[|log| + (i - |log|)].payload == evs[i - |log|].payload && evs[i - |log|] in evs; }
    }
  }

  lemma IngestKept(cfg: Config, s: State, arriving: Leg, now: Time, replaying: bool)
    requires cfg.rules.Valid() && Inv(s.p) && Arriving(arriving) && Truthful(s)
    ensures Truthful(Ingest(cfg, s, arriving, now, replaying))
  {
    hide Ingest, Inv, Arriving, Decide, Settle, LateKept, AppendEvents, Derived;
    var l := Stamp(arriving, now);
    IngestEffect(cfg, s, arriving, now, replaying);
    StampKeeps(arriving, now);
    if l.id in s.p.legs {
      AppendHonest(s.log, [Entry(now, LegDuplicate(l))]);
    } else {
      SettleKept(cfg, s.p, l, now);
      DerivedHonest(cfg, s.p, l, now);
      AppendHonest(s.log, (if replaying then [] else [Entry(now, LegIngested(l))]) + Derived(cfg, s.p, l, now));
    }
  }

  lemma DerivedHonest(cfg: Config, p: Proj, l: Leg, now: Time)
    ensures HonestLog(Derived(cfg, p, l, now))
  {
    hide Decide, NewBreak, LateMatch, Related, DeriveId;
    var d := Decide(cfg.rules, p, l);
    if d.Heal? { LateIdNonEmpty(cfg.rules, l, d.r, now); }
  }

  lemma LateIdNonEmpty(rules: Rules, l: Leg, r: Leg, now: Time)
    ensures LateMatch(rules, l, r, now).id != ""
  {
  }

  lemma ExpireKept(cfg: Config, s: State, id: Id, now: Time, forced: bool)
    requires Inv(s.p) && IsOpen(s.p, id) && Truthful(s)
    ensures Truthful(Expire(cfg, s, s.p.legs[id], now, forced))
  {
    hide Inv, LateKept, NewBreak, Related, ApplyProj, ExpirePlan, MarkBroken, AppendEvents;
    var l := s.p.legs[id];
    ExpireOwnId(s.p, id);
    ExpireSettles(cfg, s.p, l, now, forced);
    var b := NewBreak(cfg, WindowExpired, Related(s.p, l.txnRef), [l], now);
    NewBreakFacts(cfg, WindowExpired, Related(s.p, l.txnRef), [l], now);
    MarkBrokenKept(s.p, b);
    ExpireEvents(cfg, s.p, l, now, forced);
    AppendHonest(s.log, ExpirePlan(cfg, s.p, l, now, forced).events);
  }

  lemma ResolveKept(s: State, id: Id, reason: string, actor: string, now: Time)
    requires Inv(s.p) && Truthful(s) && !(Resolvable(s.p, id, reason, actor) && Forged(reason, actor))
    ensures Truthful(Resolve(s, id, reason, actor, now))
  {
    hide Inv, LateKept, ApplyProj, AppendEvents, Close;
    if Resolvable(s.p, id, reason, actor) {
      BreakUnderOwnId(s.p, id);
      var evs := [Entry(now, BreakResolvedBy(id, reason, actor, now, ""))];
      ResolveSettles(s.p, id, reason, actor, now, evs);
      CloseKept(s.p, id, reason, actor, now);
      AppendHonest(s.log, evs);
    }
  }

  lemma ReplayOneKept(cfg: Config, s: State, ev: Event, now: Time)
    requires cfg.rules.Valid() && GoodState(s) && GoodEvent(ev) && Truthful(s) && HonestPayload(ev.payload)
    ensures Truthful(ReplayOne(cfg, s, ev, now))
  {
    hide Ingest, Inv, Delivered, GoodLog, Numbered, Redelivered, ApplyProj, LateKept, AppendEvents, Close;
    match ev.payload
    case LegIngested(l) =>
      RedeliveredSame(l);
      DeliveredArrives(l);
      IngestKept(cfg, s, l, now, true);
    case BreakResolvedBy(id, reason, actor, at, m) =>
      if Reapply(s, ev.payload) != s {
        BreakUnderOwnId(s.p, id);
        ResolveSettles(s.p, id, reason, actor, at, []);
        CloseKept(s.p, id, reason, actor, at);
        AppendHonest(s.log, []);
      }
    case _ =>
  }

  lemma {:induction false} ReplayKept(cfg: Config, s: State, evs: seq<Event>, clock: nat -> Time)
    requires cfg.rules.Valid() && GoodState(s) && GoodLog(evs) && Ticks(clock) && Truthful(s) && HonestLog(evs)
    ensures Truthful(ReplayAll(cfg, s, evs, clock))
  {
    hide GoodState, ReplayOne, GoodEvent, Truthful, HonestPayload;
    if evs != [] {
      var init, ev := evs[..|evs| - 1], evs[|evs| - 1];
      assert GoodLog(init) && GoodEvent(ev) && HonestPayload(ev.payload);
      ReplayKept(cfg, s, init, clock);
      ReplayAllGood(cfg, s, init, clock);
      ReplayOneKept(cfg, ReplayAll(cfg, s, init, clock), ev, clock(ev.seqNo));
    }
  }

  lemma PartialReplayKept(cfg: Config, s: State, from: nat, now: Time, clock: nat -> Time, upTo: nat)
    requires cfg.rules.Valid() && GoodState(s) && Ticks(clock) && Truthful(s)
    ensures Truthful(PartialReplay(cfg, s, from, now, clock, upTo))
  {
    hide Inv, Numbered, Ticks, ReplayAll, AppendEvents, GoodEvent, HonestPayload;
    var evs := ReplayRange(s.log, from);
    var part := if upTo < |evs| then evs[..upTo] else evs;
    var lo := if from < 1 then 1 else from;
    GoodPart(s.log, part);
    BaseGood(s, lo, now);
    NoteHonest(s.log, Entry(now, ReplayStarted(lo, |s.log|)));
    ReplayKept(cfg, ReplayBase(s, lo, now), part, clock);
  }

  lemma NoteHonest(log: seq<Event>, e: Event)
    requires HonestLog(log) && !e.payload.BreakResolvedBy?
    ensures HonestLog(AppendEvents(log, [e]))
  {
    hide AppendEvents;
    AppendHonest(log, [e]);
  }

  lemma StepKept(cfg: Config, s: State, op: Op)
    requires cfg.rules.Valid() && GoodState(s) && GoodOp(op) && GoodClock(op) && Truthful(s) && !Forges(s, op)
    ensures Truthful(Step(cfg, s, op))
  {
    hide Ingest, Inv, Delivered, GoodLog, Numbered, Ticks, PartialReplay, Expire, Resolve, ApplyProj, AppendEvents,
         LateKept, HonestLog;
    match op
    case Arrive(l, now) =>
      DeliveredArrives(l);
      IngestKept(cfg, s, l, now, false);
    case ExpireLeg(id, now, forced) => if IsOpen(s.p, id) { ExpireKept(cfg, s, id, now, forced); }
    case CloseWindow(n, olderThan, now) =>
      var e := Entry(now, WindowClosed(n, olderThan));
      NoteSettles(s.p, [e]);
      NoteHonest(s.log, e);
    case ResolveBreak(id, reason, actor, now) => ResolveKept(s, id, reason, actor, now);
    case StartReplay(from, now, clock, upTo) => PartialReplayKept(cfg, s, from, now, clock, upTo);
    case AbandonReplay(from, now) =>
      var e := Entry(now, ReplayStarted(if from < 1 then 1 else from, |s.log|));
      NoteSettles(s.p, [e]);
      NoteHonest(s.log, e);
  }

  lemma {:induction false} RunKept(cfg: Config, ops: seq<Op>)
    requires cfg.rules.Valid() && GoodOps(ops) && GoodClocks(ops) && NoForgery(cfg, ops)
    ensures Truthful(Run(cfg, INIT, ops))
  {
    hide GoodState, Step, Truthful, Forges;
    if ops == [] {
      assert Truthful(INIT) by { InitTruthful(); }
    } else {
      var init, op := ops[..|ops| - 1], ops[|ops| - 1];
      assert op in ops && GoodOp(op) && GoodClock(op);
      ForgeryOfPrefix(cfg, ops);
      RunKept(cfg, init);
      RunGood(cfg, init);
      StepKept(cfg, Run(cfg, INIT, init), op);
    }
  }

  lemma ForgeryOfPrefix(cfg: Config, ops: seq<Op>)
    requires ops != []
    ensures var n := |ops| - 1;
            NoForgery(cfg, ops) <==> NoForgery(cfg, ops[..n]) && !Forges(Run(cfg, INIT, ops[..n]), ops[n])
  {
    hide Run, Forges;
    var n := |ops| - 1;
    forall i | 0 <= i < n ensures ops[..n][..i] == ops[..i] && ops[..n][i] == ops[i] {}
  }

  lemma InitTruthful()
    ensures Truthful(INIT)
  {
  }

  // ---------------------------------------------------------------- what the signature tells

  /** The one leg of a break signed as a late arrival is in a late match; any other break keeps its legs. */
  ghost predicate SignatureTells(p: Proj, b: Break) {
    if SignedLate(b)
    then |b.legIds| == 1 && forall leg :: leg in b.legIds ==>
           && leg in p.legs && p.legs[leg].status == Matched
           && p.legs[leg].matchId in p.matches && p.matches[p.legs[leg].matchId].rule == T2Late
    else forall leg :: leg in b.legIds ==> leg in p.legs && p.legs[leg].status == Broken && p.legs[leg].breakId == b.id
  }

  lemma KeptTells(p: Proj, b: Id)
    requires Inv(p) && LateKept(p) && b in p.breaks
    ensures SignatureTells(p, p.breaks[b])
  {
    hide RefsListed, LegsPlaced, MatchesLinked, OneOpenPerRef, DeriveId;
    var k := p.breaks[b];
    assert BreakLinked(p, k);
    forall leg | leg in k.legIds ensures BreakMember(p, k, leg) {}
    assert k.legIds[0] in k.legIds;
  }

  ghost predicate Tells(p: Proj) { forall b :: b in p.breaks ==> SignatureTells(p, p.breaks[b]) }

  lemma TruthTells(s: State)
    requires GoodState(s) && Truthful(s)
    ensures Tells(s.p)
  {
    hide Inv, LateKept, SignatureTells, HonestLog, GoodLog, Numbered;
    forall b | b in s.p.breaks ensures SignatureTells(s.p, s.p.breaks[b]) { KeptTells(s.p, b); }
  }

  /** A forged resolution shows: the break is signed as a late arrival and its legs are still broken. */
  lemma ForgeryShows(s: State, id: Id, reason: string, actor: string, now: Time)
    requires Inv(s.p) && Resolvable(s.p, id, reason, actor) && Forged(reason, actor)
    ensures !Tells(Resolve(s, id, reason, actor, now).p)
  {
    hide Resolve, RefsListed, LegsPlaced, MatchesLinked, OneOpenPerRef, DeriveId;
    BreakUnderOwnId(s.p, id);
    ResolvedBreakKeeps(s, id, reason, actor, now);
    var k := s.p.breaks[id];
    assert BreakLinked(s.p, k) && BreakMember(s.p, k, k.legIds[0]);
    var p := Resolve(s, id, reason, actor, now).p;
    assert !SignatureTells(p, p.breaks[id]);
  }

  /** From a truthful state a step leads to one where signatures tell exactly when it is no forged resolution. */
  lemma StepTellsIff(cfg: Config, s: State, op: Op)
    requires cfg.rules.Valid() && GoodState(s) && GoodOp(op) && GoodClock(op) && Truthful(s)
    ensures Tells(Step(cfg, s, op).p) <==> !Forges(s, op)
  {
    hide Ingest, Inv, Delivered, GoodLog, Numbered, Ticks, PartialReplay, Expire, Resolve, ApplyProj, AppendEvents,
         LateKept, HonestLog, Tells, Resolvable, Forged;
    if Forges(s, op) {
      ForgeryShows(s, op.id, op.reason, op.actor, op.now);
    } else {
      StepGood(cfg, s, op);
      StepKept(cfg, s, op);
      TruthTells(Step(cfg, s, op));
    }
  }

  /** The signature of every break tells where its legs are, at every point of the run. */
  ghost predicate AlwaysTells(cfg: Config, ops: seq<Op>) {
    forall i :: 0 <= i <= |ops| ==> Tells(Run(cfg, INIT, ops[..i]).p)
  }

  lemma TellsOfPrefix(cfg: Config, ops: seq<Op>)
    requires ops != []
    ensures AlwaysTells(cfg, ops) <==> AlwaysTells(cfg, ops[..|ops| - 1]) && Tells(Run(cfg, INIT, ops).p)
  {
    hide Run, Tells;
    var n := |ops| - 1;
    assert ops[..|ops|] == ops;
    forall i | 0 <= i <= n ensures ops[..n][..i] == ops[..i] {}
  }

  /** Along any run signatures tell exactly when the run holds no accepted resolution forged by an operator. */
  lemma {:induction false} SignaturesTellIff(cfg: Config, ops: seq<Op>)
    requires cfg.rules.Valid() && GoodOps(ops) && GoodClocks(ops)
    ensures AlwaysTells(cfg, ops) <==> NoForgery(cfg, ops)
  {
    hide GoodState, Step, Truthful, Forges, Tells, NoForgery, AlwaysTells;
    if ops == [] {
      NothingToTell(cfg);
    } else {
      var init, op := ops[..|ops| - 1], ops[|ops| - 1];
      assert op in ops && GoodOp(op) && GoodClock(op);
      ForgeryOfPrefix(cfg, ops);
      TellsOfPrefix(cfg, ops);
      SignaturesTellIff(cfg, init);
      if NoForgery(cfg, init) {
        RunGood(cfg, init);
        RunKept(cfg, init);
        StepTellsIff(cfg, Run(cfg, INIT, init), op);
      }
    }
  }

  lemma NothingToTell(cfg: Config)
    ensures AlwaysTells(cfg, []) && NoForgery(cfg, [])
  {
  }

  /**
   In every reachable state, unless an operator signed as the engine, the signature of a break tells
   where its legs are.
   */
  lemma ResolutionsTell(cfg: Config, ops: seq<Op>)
    requires cfg.rules.Valid() && GoodOps(ops) && GoodClocks(ops) && HonestOps(ops)
    ensures Tells(Run(cfg, INIT, ops).p)
  {
    hide Run, Tells;
    forall i | 0 <= i < |ops| ensures !Forges(Run(cfg, INIT, ops[..i]), ops[i]) { assert HonestOp(ops[i]); }
    SignaturesTellIff(cfg, ops);
    assert ops[..|ops|] == ops;
  }

  /** The premise is needed: an operator may sign as the engine, and the leg stays broken. */
  lemma ForgedSignature(cfg: Config, l: Leg, now: Time)
    requires cfg.rules.Valid() && Delivered(l) && now > 0
    ensures var b := DeriveId(BREAK_PREFIX, [l.id]);
            var p := Run(cfg, INIT, [Arrive(l, now), ExpireLeg(l.id, now, true),
                ResolveBreak(b, LATE_REASON, SYSTEM_ACTOR, now)]).p;
            b in p.breaks && SignedLate(p.breaks[b]) && !SignatureTells(p, p.breaks[b])
  {
    hide Ingest, Expire, Delivered, GoodState, NewBreak, Related, DeriveId, Resolve;
    var b := DeriveId(BREAK_PREFIX, [l.id]);
    var ops := [Arrive(l, now), ExpireLeg(l.id, now, true), ResolveBreak(b, LATE_REASON, SYSTEM_ACTOR, now)];
    assert ops[..2][..1] == [Arrive(l, now)];
    FirstIntakeLogged(cfg, l, now);
    var s := Run(cfg, INIT, [Arrive(l, now)]);
    var t := Expire(cfg, s, s.p.legs[l.id], now, true);
    assert Run(cfg, INIT, ops[..2]) == Step(cfg, Run(cfg, INIT, ops[..2][..1]), ops[1]) == t;
    assert Run(cfg, INIT, ops) == Step(cfg, Run(cfg, INIT, ops[..2]), ops[2]) ==
           Resolve(t, b, LATE_REASON, SYSTEM_ACTOR, now);
    InvOfGood(s);
    ExpiredBreak(cfg, s, l.id, now);
    ResolvedBreakKeeps(t, b, LATE_REASON, SYSTEM_ACTOR, now);
  }

  lemma InvOfGood(s: State)
    requires GoodState(s)
    ensures Inv(s.p)
  {
  }

  lemma ExpiredBreak(cfg: Config, s: State, id: Id, now: Time)
    requires Inv(s.p) && IsOpen(s.p, id)
    ensures var p := Expire(cfg, s, s.p.legs[id], now, true).p;
            var b := DeriveId(BREAK_PREFIX, [id]);
            && b in p.breaks && p.breaks[b].status == BreakOpen && p.breaks[b].legIds == [id] && p.breaks[b].id == b
            && id in p.legs && p.legs[id].status == Broken
  {
    hide Inv, NewBreak, Related, ApplyProj, ExpirePlan, DeriveId;
    var l := s.p.legs[id];
    ExpireOwnId(s.p, id);
    ExpireSettles(cfg, s.p, l, now, true);
    NewBreakFacts(cfg, WindowExpired, Related(s.p, l.txnRef), [l], now);
    assert M.LegIds([l]) == [id];
  }

  lemma ResolvedBreakKeeps(s: State, b: Id, reason: string, actor: string, now: Time)
    requires reason != "" && actor != "" && b in s.p.breaks && s.p.breaks[b].status == BreakOpen
             && s.p.breaks[b].id == b
    ensures var p := Resolve(s, b, reason, actor, now).p;
            && p.legs == s.p.legs && b in p.breaks && p.breaks[b] == Resolved(s.p.breaks[b], reason, actor, now)
  {
    hide ApplyProj, AppendEvents;
    ResolveSettles(s.p, b, reason, actor, now, [Entry(now, BreakResolvedBy(b, reason, actor, now, ""))]);
  }
}
