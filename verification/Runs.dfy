/** Whole runs: the invariant, the event-sourced projection and what no step may undo. */
module Runs {
  import opened Domain
  import opened Identity
  import opened Persistence
  import opened Reconciliation
  import opened EventSourcing
  import opened Lifecycle
  import opened Transitions
  import M = Matching

  /** A leg as `Ingest` hands it to the engine: valid, with its derived id, nothing placed. */
  ghost predicate Delivered(l: Leg) {
    Arriving(l) && CleanText(l) && l.id == IdOf(l)
  }

  /**
   The atomic steps of the engine. A replay may stop after any number of events; an abandoned one
   logs its start and cannot clear the projections.
   */
  datatype Op =
    | Arrive(leg: Leg, now: Time)
    | ExpireLeg(id: Id, now: Time, forced: bool)
    | CloseWindow(expired: nat, olderThan: int, now: Time)
    | ResolveBreak(id: Id, reason: string, actor: string, now: Time)
    | StartReplay(from: nat, now: Time, clock: nat -> Time, upTo: nat)
    | AbandonReplay(from: nat, now: Time)

  /** The events a replay from `from` reads. */
  function ReplayRange(log: seq<Event>, from: nat): seq<Event> {
    var lo := if from < 1 then 1 else from;
    if lo <= |log| then log[lo - 1..] else []
  }

  ghost function PartialReplay(cfg: Config, s: State, from: nat, now: Time, clock: nat -> Time, upTo: nat): State {
    var evs := ReplayRange(s.log, from);
    ReplayAll(cfg, ReplayBase(s, if from < 1 then 1 else from, now), if upTo < |evs| then evs[..upTo] else evs, clock)
  }

  ghost function Step(cfg: Config, s: State, op: Op): State {
    match op
    case Arrive(l, now) => Ingest(cfg, s, l, now, false)
    case ExpireLeg(id, now, forced) => if IsOpen(s.p, id) then Expire(cfg, s, s.p.legs[id], now, forced) else s
    case CloseWindow(n, olderThan, now) => ApplyTo(s, CloseNote(n, olderThan, now))
    case ResolveBreak(id, reason, actor, now) => Resolve(s, id, reason, actor, now)
    case StartReplay(from, now, clock, upTo) => PartialReplay(cfg, s, from, now, clock, upTo)
    case AbandonReplay(from, now) => ApplyTo(s, ReplayNote(if from < 1 then 1 else from, |s.log|, now))
  }

  ghost function Run(cfg: Config, s: State, ops: seq<Op>): State {
    if ops == [] then s else Step(cfg, Run(cfg, s, ops[..|ops| - 1]), ops[|ops| - 1])
  }

  const INIT := State(EMPTY, [])

  ghost predicate GoodOp(op: Op) { op.Arrive? ==> Delivered(op.leg) && op.now > 0 }

  ghost predicate GoodOps(ops: seq<Op>) { forall op :: op in ops ==> GoodOp(op) }

  /** Every logged intake can be delivered again as it was. */
  ghost predicate GoodEvent(e: Event) {
    e.payload.LegIngested? ==> Delivered(e.payload.leg) && e.payload.leg.ingestedAt > 0
  }

  ghost predicate GoodLog(log: seq<Event>) { forall e :: e in log ==> GoodEvent(e) }

  ghost predicate GoodState(s: State) { Inv(s.p) && Numbered(s.log) && GoodLog(s.log) }

  // ---------------------------------------------------------------- one leg

  /** The events that record a decision, without the intake event. */
  ghost function Derived(cfg: Config, p: Proj, l: Leg, now: Time): seq<Event> {
    Plan(cfg, p, l, now, true, Decide(cfg.rules, p, l)).events
  }

  /** Events that re-derive state: everything but intake and duplicate notes. */
  ghost predicate IsDerived(e: Event) { !e.payload.LegIngested? && !e.payload.LegDuplicate? }

  lemma PlanEvents(cfg: Config, p: Proj, l: Leg, now: Time, d: Decision)
    ensures Plan(cfg, p, l, now, false, d).events == [Entry(now, LegIngested(l))] + Plan(cfg, p, l, now, true, d).events
    ensures forall e :: e in Plan(cfg, p, l, now, true, d).events ==> IsDerived(e)
  {
    hide Related, DeriveId, NewBreak, AsBroken, LateMatch, Partners, M.LegIds;
  }

  lemma SettleIsFold(cfg: Config, p: Proj, l: Leg, now: Time)
    requires Inv(p) && l.id !in p.legs
    ensures Settle(cfg, p, l, now, Decide(cfg.rules, p, l)) == Fold(Admit(p, l), Derived(cfg, p, l, now))
  {
    hide Decide, Related, DeriveId, NewBreak, AsBroken, LateMatch, Partners, M.LegIds, Linked, OneOpenPerRef,
         MarkMatched, MarkBroken, Admit;
    var d := Decide(cfg.rules, p, l);
    var evs := Plan(cfg, p, l, now, true, d).events;
    var q := Admit(p, l);
    AloneIsSelf(l);
    if d.Wait? {
      assert evs == [];
    } else if d.Heal? {
      HealFactsInv(cfg.rules, p, l);
      BreakUnderOwnId(p, d.r.breakId);
      assert |evs| == 2;
      assert evs == [evs[0], evs[1]];
      FoldTwo(q, evs[0], evs[1]);
    } else {
      assert |evs| == 1;
      assert evs == [evs[0]];
      FoldOne(q, evs[0]);
    }
  }

  lemma BreakUnderOwnId(p: Proj, id: Id)
    requires Inv(p) && id in p.breaks
    ensures p.breaks[id].id == id
  {
  }

  lemma StampKeeps(l: Leg, now: Time)
    requires Arriving(l)
    ensures Arriving(Stamp(l, now)) && Stamp(l, now).id == l.id
    ensures Delivered(l) && now > 0 ==> Delivered(Stamp(l, now)) && Stamp(l, now).ingestedAt > 0
  {
    IdOfContent(l, Stamp(l, now));
  }

  /** The effect of one leg on the stored state. */
  lemma IngestEffect(cfg: Config, s: State, arriving: Leg, now: Time, replaying: bool)
    requires cfg.rules.Valid() && Inv(s.p) && Arriving(arriving)
    ensures var l := Stamp(arriving, now);
            var t := Ingest(cfg, s, arriving, now, replaying);
            && Inv(t.p)
            && (l.id in s.p.legs ==> t.p == s.p && t.log == if replaying then s.log
                else AppendEvents(s.log, [Entry(now, LegDuplicate(l))]))
            && (l.id !in s.p.legs ==>
                  && t.p == Settle(cfg, s.p, l, now, Decide(cfg.rules, s.p, l))
                  && t.log == AppendEvents(s.log,
                      (if replaying then [] else [Entry(now, LegIngested(l))]) + Derived(cfg, s.p, l, now)))
  {
    hide Decide, Plan, Settle, Inv, ApplyProj, AppendEvents, Arriving;
    var l := Stamp(arriving, now);
    StampKeeps(arriving, now);
    if l.id in s.p.legs {
      NoteSettles(s.p, [Entry(now, LegDuplicate(l))]);
    } else {
      PlanSettles(cfg, s.p, l, now, replaying);
      SettleInv(cfg, s.p, l, now);
      PlanEvents(cfg, s.p, l, now, Decide(cfg.rules, s.p, l));
      assert [] + Derived(cfg, s.p, l, now) == Derived(cfg, s.p, l, now);
    }
  }

  // ---------------------------------------------------------------- the log stays good

  lemma AppendGood(log: seq<Event>, evs: seq<Event>)
    requires GoodLog(log) && Numbered(log) && forall e :: e in evs ==> GoodEvent(e)
    ensures GoodLog(AppendEvents(log, evs)) && Numbered(AppendEvents(log, evs))
  {
    hide Delivered;
    AppendExtends(log, evs);
    var r := AppendEvents(log, evs);
    forall e | e in r ensures GoodEvent(e) {
      var i :| 0 <= i < |r| && r[i] == e;
      if i < |log| { assert log[i] == r[..|log|][i] == e; }
          else { assert r[|log| + (i - |log|)].payload == evs[i - |log|].payload && evs[i - |log|] in evs; }
    }
  }

  lemma IngestGood(cfg: Config, s: State, arriving: Leg, now: Time, replaying: bool)
    requires cfg.rules.Valid() && GoodState(s) && Delivered(arriving) && now > 0
    ensures GoodState(Ingest(cfg, s, arriving, now, replaying))
  {
    hide Ingest, Decide, Plan, Settle, Inv, AppendEvents, Delivered, Arriving, GoodLog, Numbered;
    var l := Stamp(arriving, now);
    DeliveredArrives(arriving);
    StampKeeps(arriving, now);
    IngestEffect(cfg, s, arriving, now, replaying);
    if l.id in s.p.legs {
      if !replaying { AppendGood(s.log, [Entry(now, LegDuplicate(l))]); }
    } else {
      PlanEvents(cfg, s.p, l, now, Decide(cfg.rules, s.p, l));
      var evs := (if replaying then [] else [Entry(now, LegIngested(l))]) + Derived(cfg, s.p, l, now);
      forall e | e in evs ensures GoodEvent(e) {
        if e in Derived(cfg, s.p, l, now) { assert IsDerived(e); }
      }
      AppendGood(s.log, evs);
    }
  }

  lemma DeliveredArrives(l: Leg)
    requires Delivered(l)
    ensures Arriving(l)
  {
  }

  /** Re-delivering a logged intake is delivering the same leg. */
  lemma RedeliveredSame(l: Leg)
    requires Delivered(l)
    ensures Redelivered(l) == l
  {
    hide IdOf;
  }

  lemma ReplayOneGood(cfg: Config, s: State, ev: Event, now: Time)
    requires cfg.rules.Valid() && GoodState(s) && GoodEvent(ev) && now > 0
    ensures GoodState(ReplayOne(cfg, s, ev, now))
  {
    hide Ingest, Inv, Delivered, GoodLog, Numbered, Redelivered;
    match ev.payload
    case LegIngested(l) =>
      RedeliveredSame(l);
      IngestGood(cfg, s, l, now, true);
    case BreakResolvedBy(id, reason, actor, at, m) =>
      if Reapply(s, ev.payload) != s {
        BreakUnderOwnId(s.p, id);
        ResolveSettles(s.p, id, reason, actor, at, []);
        CloseInv(s.p, id, reason, actor, at);
      }
    case _ =>
  }

  ghost predicate Ticks(clock: nat -> Time) { forall n: nat :: clock(n) > 0 }

  lemma {:induction false} ReplayAllGood(cfg: Config, s: State, evs: seq<Event>, clock: nat -> Time)
    requires cfg.rules.Valid() && GoodState(s) && GoodLog(evs) && Ticks(clock)
    ensures GoodState(ReplayAll(cfg, s, evs, clock))
  {
    hide GoodState, ReplayOne, GoodEvent;
    if evs != [] {
      var init, ev := evs[..|evs| - 1], evs[|evs| - 1];
      assert GoodLog(init) && GoodEvent(ev);
      ReplayAllGood(cfg, s, init, clock);
      ReplayOneGood(cfg, ReplayAll(cfg, s, init, clock), ev, clock(ev.seqNo));
    }
  }

  lemma BaseGood(s: State, from: nat, now: Time)
    requires GoodState(s)
    ensures GoodState(ReplayBase(s, from, now))
  {
    hide Numbered, GoodLog;
    AppendGood(s.log, [Entry(now, ReplayStarted(from, |s.log|))]);
    EmptyInv();
  }

  ghost predicate GoodClock(op: Op) { op.StartReplay? ==> Ticks(op.clock) }

  lemma ExpireGood(cfg: Config, s: State, id: Id, now: Time, forced: bool)
    requires GoodState(s) && IsOpen(s.p, id)
    ensures GoodState(Expire(cfg, s, s.p.legs[id], now, forced))
  {
    hide Inv, GoodLog, Numbered, ApplyProj, AppendEvents, ExpirePlan;
    ExpireOwnId(s.p, id);
    ExpireInv(cfg, s.p, s.p.legs[id], now, forced);
    ExpireEvents(cfg, s.p, s.p.legs[id], now, forced);
    AppendGood(s.log, ExpirePlan(cfg, s.p, s.p.legs[id], now, forced).events);
  }

  lemma ResolveGood(s: State, id: Id, reason: string, actor: string, now: Time)
    requires GoodState(s)
    ensures GoodState(Resolve(s, id, reason, actor, now))
  {
    hide Inv, GoodLog, Numbered, ApplyProj, AppendEvents;
    if Resolvable(s.p, id, reason, actor) {
      BreakUnderOwnId(s.p, id);
      ResolveSettles(s.p, id, reason, actor, now, [Entry(now, BreakResolvedBy(id, reason, actor, now, ""))]);
      CloseInv(s.p, id, reason, actor, now);
      AppendGood(s.log, [Entry(now, BreakResolvedBy(id, reason, actor, now, ""))]);
    }
  }

  lemma PartialReplayGood(cfg: Config, s: State, from: nat, now: Time, clock: nat -> Time, upTo: nat)
    requires cfg.rules.Valid() && GoodState(s) && Ticks(clock)
    ensures GoodState(PartialReplay(cfg, s, from, now, clock, upTo))
  {
    hide Inv, GoodLog, Numbered, Ticks, ReplayAll, ReplayBase;
    var evs := ReplayRange(s.log, from);
    var part := if upTo < |evs| then evs[..upTo] else evs;
    GoodPart(s.log, part);
    BaseGood(s, if from < 1 then 1 else from, now);
    ReplayAllGood(cfg, ReplayBase(s, if from < 1 then 1 else from, now), part, clock);
  }

  lemma StepGood(cfg: Config, s: State, op: Op)
    requires cfg.rules.Valid() && GoodState(s) && GoodOp(op) && GoodClock(op)
    ensures GoodState(Step(cfg, s, op))
  {
    hide Ingest, Inv, Delivered, GoodLog, Numbered, Ticks, PartialReplay, Expire, Resolve, ApplyProj, AppendEvents;
    match op
    case Arrive(l, now) => IngestGood(cfg, s, l, now, false);
    case ExpireLeg(id, now, forced) => if IsOpen(s.p, id) { ExpireGood(cfg, s, id, now, forced); }
    case CloseWindow(n, olderThan, now) =>
      var e := Entry(now, WindowClosed(n, olderThan));
      NoteSettles(s.p, [e]);
      AppendGood(s.log, [e]);
    case ResolveBreak(id, reason, actor, now) => ResolveGood(s, id, reason, actor, now);
    case StartReplay(from, now, clock, upTo) => PartialReplayGood(cfg, s, from, now, clock, upTo);
    case AbandonReplay(from, now) =>
      var e := Entry(now, ReplayStarted(if from < 1 then 1 else from, |s.log|));
      NoteSettles(s.p, [e]);
      AppendGood(s.log, [e]);
  }

  lemma GoodPart(log: seq<Event>, part: seq<Event>)
    requires GoodLog(log) && forall e :: e in part ==> e in log
    ensures GoodLog(part)
  {
  }

  lemma ExpireOwnId(p: Proj, id: Id)
    requires Inv(p) && id in p.legs
    ensures p.legs[id].id == id
  {
  }

  lemma ExpireEvents(cfg: Config, p: Proj, l: Leg, now: Time, forced: bool)
    ensures var evs := ExpirePlan(cfg, p, l, now, forced).events;
            && |evs| == 2 && evs[0] == Entry(now, LegExpired(l.id, forced))
            && evs[1] == Entry(now, BreakOpened(NewBreak(cfg, WindowExpired, Related(p, l.txnRef), [l], now)))
  {
  }

  ghost predicate GoodClocks(ops: seq<Op>) { forall op :: op in ops ==> GoodClock(op) }

  /** In every reachable state the invariant holds, whatever mix of steps and partial replays led there. */
  lemma {:induction false} RunGood(cfg: Config, ops: seq<Op>)
    requires cfg.rules.Valid() && GoodOps(ops) && GoodClocks(ops)
    ensures GoodState(Run(cfg, INIT, ops))
  {
    hide GoodState, Step;
    if ops == [] {
      InitGood();
    } else {
      var init, op := ops[..|ops| - 1], ops[|ops| - 1];
      assert op in ops && GoodOp(op) && GoodClock(op);
      RunGood(cfg, init);
      StepGood(cfg, Run(cfg, INIT, init), op);
    }
  }

  lemma InitGood()
    ensures GoodState(INIT)
  {
    EmptyInv();
  }
}
