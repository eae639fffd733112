/** What a replay from the first event re-derives, and exactly when that is the current state. */
module ReplayTheorems {
  import opened Sequences
  import opened Domain
  import opened Identity
  import opened Persistence
  import opened Reconciliation
  import opened EventSourcing
  import opened Lifecycle
  import opened Transitions
  import opened Runs
  import opened RunTheorems
  import opened NonInterference
  import opened Ordering
  import M = Matching
  import Q = OpenLegs

  /** Forgets clock readings only. */
  const TIME_BLIND := View(true, false)

  /** The projections that the log re-derives. */
  ghost function Rederived(cfg: Config, log: seq<Event>, clock: nat -> Time): Proj {
    ReplayAll(cfg, INIT, log, clock).p
  }

  // ---------------------------------------------------------------- replay reads only intakes and manual resolutions

  /** Events that a replay passes over. */
  ghost predicate PassedOver(e: Payload) {
    !e.LegIngested? && (e.BreakResolvedBy? ==> e.matchId != "")
  }

  lemma {:induction false} ReplaySkips(cfg: Config, s: State, a: seq<Event>, b: seq<Event>, clock: nat -> Time)
    requires forall e :: e in b ==> PassedOver(e.payload)
    ensures ReplayAll(cfg, s, a + b, clock) == ReplayAll(cfg, s, a, clock)
  {
    hide Ingest, Redelivered, ApplyProj, AppendEvents, Resolved;
    if b == [] {
      assert a + b == a;
    } else {
      var n := |b| - 1;
      ReplaySkips(cfg, s, a, b[..n], clock);
      assert (a + b)[..|a + b| - 1] == a + b[..n];
      assert b[n] in b && PassedOver(b[n].payload);
    }
  }

  lemma IngestProj(cfg: Config, s: State, t: State, l: Leg, now: Time)
    requires s.p == t.p
    ensures Ingest(cfg, s, l, now, true).p == Ingest(cfg, t, l, now, true).p
  {
    hide Decide, Plan, ApplyProj, AppendEvents;
  }

  /** The projections of a replay do not depend on the log it appends to. */
  lemma {:induction false} ReplayIgnoresBaseLog(cfg: Config, s: State, t: State, evs: seq<Event>, clock: nat -> Time)
    requires s.p == t.p
    ensures ReplayAll(cfg, s, evs, clock).p == ReplayAll(cfg, t, evs, clock).p
  {
    hide Ingest, Redelivered, ApplyProj, AppendEvents;
    if evs != [] {
      var init, ev := evs[..|evs| - 1], evs[|evs| - 1];
      ReplayIgnoresBaseLog(cfg, s, t, init, clock);
      var s', t' := ReplayAll(cfg, s, init, clock), ReplayAll(cfg, t, init, clock);
      if ev.payload.LegIngested? { IngestProj(cfg, s', t', Redelivered(ev.payload.leg), clock(ev.seqNo)); }
    }
  }

  // ---------------------------------------------------------------- what a replay appends

  /** Old log kept, nothing appended that a later replay would read. */
  ghost predicate ExtendsQuietly(log: seq<Event>, log': seq<Event>) {
    log <= log' && forall i :: |log| <= i < |log'| ==> PassedOver(log'[i].payload) && IsDerived(log'[i])
  }

  lemma QuietAppend(log: seq<Event>, mid: seq<Event>, evs: seq<Event>)
    requires ExtendsQuietly(log, mid) && forall e :: e in evs ==> PassedOver(e.payload) && IsDerived(e)
    ensures ExtendsQuietly(log, AppendEvents(mid, evs))
  {
    hide PassedOver;
    AppendExtends(mid, evs);
    var r := AppendEvents(mid, evs);
    forall i | |log| <= i < |r| ensures PassedOver(r[i].payload) && IsDerived(r[i]) {
      if i < |mid| { assert r[..|mid|][i] == mid[i]; }
      else { assert r[|mid| + (i - |mid|)].payload == evs[i - |mid|].payload && evs[i - |mid|] in evs; }
    }
  }

  lemma DerivedQuiet(cfg: Config, p: Proj, l: Leg, now: Time, d: Decision)
    ensures forall e :: e in Plan(cfg, p, l, now, true, d).events ==> PassedOver(e.payload) && IsDerived(e)
  {
    hide Related, NewBreak, DeriveId, Plan;
    DerivedShape(cfg, p, l, now, d);
    if d.Heal? { DeriveIdNonEmpty(M.MATCH_PREFIX, LateMatch(cfg.rules, l, d.r, now).legIds); }
  }

  lemma IngestQuiet(cfg: Config, s: State, arriving: Leg, now: Time, log: seq<Event>)
    requires ExtendsQuietly(log, s.log)
    ensures ExtendsQuietly(log, Ingest(cfg, s, arriving, now, true).log)
  {
    hide Decide, Plan, ApplyProj, AppendEvents, ExtendsQuietly, PassedOver;
    var l := Stamp(arriving, now);
    if l.id !in s.p.legs {
      var d := Decide(cfg.rules, s.p, l);
      DerivedQuiet(cfg, s.p, l, now, d);
      QuietAppend(log, s.log, Plan(cfg, s.p, l, now, true, d).events);
    }
  }

  /** A replay keeps the old log as a prefix and adds no intake or duplicate event. */
  lemma {:induction false} ReplayQuiet(cfg: Config, s: State, evs: seq<Event>, clock: nat -> Time, log: seq<Event>)
    requires ExtendsQuietly(log, s.log)
    ensures ExtendsQuietly(log, ReplayAll(cfg, s, evs, clock).log)
  {
    hide Ingest, Redelivered, ApplyProj, ExtendsQuietly;
    if evs != [] {
      var init, ev := evs[..|evs| - 1], evs[|evs| - 1];
      ReplayQuiet(cfg, s, init, clock, log);
      var s' := ReplayAll(cfg, s, init, clock);
      if ev.payload.LegIngested? { IngestQuiet(cfg, s', Redelivered(ev.payload.leg), clock(ev.seqNo), log); }
    }
  }

  lemma ReplayAppends(cfg: Config, s: State, from: nat, now: Time, clock: nat -> Time)
    ensures ExtendsQuietly(s.log, Replay(cfg, s, from, now, clock).log)
  {
    hide ReplayAll, ExtendsQuietly, AppendEvents;
    var lo := if from < 1 then 1 else from;
    QuietSelf(s.log);
    QuietAppend(s.log, s.log, [Entry(now, ReplayStarted(lo, |s.log|))]);
    ReplayQuiet(cfg, ReplayBase(s, lo, now), if lo <= |s.log| then s.log[lo - 1..] else [], clock, s.log);
  }

  lemma QuietSelf(log: seq<Event>)
    ensures ExtendsQuietly(log, log)
  {
  }

  lemma QuietTail(log: seq<Event>, log': seq<Event>)
    requires ExtendsQuietly(log, log')
    ensures log' == log + log'[|log|..] && forall e :: e in log'[|log|..] ==> PassedOver(e.payload)
  {
  }

  // ---------------------------------------------------------------- re-derivation follows each step

  /** The log re-derives the state, up to clock readings. */
  ghost predicate Reproduced(cfg: Config, s: State, clock: nat -> Time) {
    Seen(TIME_BLIND, Rederived(cfg, s.log, clock)) == Seen(TIME_BLIND, s.p)
  }

  lemma RederivedGood(cfg: Config, log: seq<Event>, clock: nat -> Time)
    requires cfg.rules.Valid() && GoodLog(log) && Ticks(clock)
    ensures Inv(Rederived(cfg, log, clock))
  {
    hide GoodState, ReplayAll, GoodLog;
    InitGood();
    ReplayAllGood(cfg, INIT, log, clock);
    InvOf(ReplayAll(cfg, INIT, log, clock));
  }

  lemma AppendSplit(log: seq<Event>, evs: seq<Event>)
    requires evs != [] && forall e :: e in evs[1..] ==> PassedOver(e.payload)
    ensures var r := AppendEvents(log, evs);
            && |r| > |log| && r[|log|].payload == evs[0].payload
            && r == log + [r[|log|]] + r[|log| + 1..]
            && forall e :: e in r[|log| + 1..] ==> PassedOver(e.payload)
  {
    hide PassedOver;
    AppendExtends(log, evs);
    var r := AppendEvents(log, evs);
    assert r[|log| + 0].payload == evs[0].payload;
    forall e | e in r[|log| + 1..] ensures PassedOver(e.payload) {
      var i :| 0 <= i < |r[|log| + 1..]| && r[|log| + 1..][i] == e;
      assert r[|log| + (i + 1)].payload == evs[i + 1].payload && evs[i + 1] == evs[1..][i] && evs[1..][i] in evs[1..];
    }
  }

  lemma ReplayLast(cfg: Config, s: State, a: seq<Event>, ev: Event, clock: nat -> Time)
    ensures ReplayAll(cfg, s, a + [ev], clock) == ReplayOne(cfg, ReplayAll(cfg, s, a, clock), ev, clock(ev.seqNo))
  {
    hide ReplayOne;
    assert (a + [ev])[..|a|] == a;
  }

  /** A first delivery and its replay lead to states that differ only in clock readings. */
  lemma ArriveReproduced(cfg: Config, s: State, arriving: Leg, now: Time, clock: nat -> Time)
    requires cfg.rules.Valid() && GoodState(s) && Delivered(arriving) && now > 0 && Ticks(clock)
    requires Reproduced(cfg, s, clock) && arriving.id !in s.p.legs
    ensures Reproduced(cfg, Ingest(cfg, s, arriving, now, false), clock)
  {
    hide Ingest, Inv, Delivered, Arriving, Seen, Decide, Settle, Plan, GoodLog, Numbered, ReplayAll, AppendEvents;
    var l := Stamp(arriving, now);
    DeliveredArrives(arriving);
    StampKeeps(arriving, now);
    IngestEffect(cfg, s, arriving, now, false);
    var d := Decide(cfg.rules, s.p, l);
    var evs := [Entry(now, LegIngested(l))] + Plan(cfg, s.p, l, now, true, d).events;
    assert evs[1..] == Plan(cfg, s.p, l, now, true, d).events;
    DerivedQuiet(cfg, s.p, l, now, d);
    AppendSplit(s.log, evs);
    var r := AppendEvents(s.log, evs);
    var ev := r[|s.log|];
    ReplaySkips(cfg, INIT, s.log + [ev], r[|s.log| + 1..], clock);
    ReplayLast(cfg, INIT, s.log, ev, clock);
    var x := ReplayAll(cfg, INIT, s.log, clock);
    RederivedGood(cfg, s.log, clock);
    RedeliveredSame(l);
    DeliveredArrives(l);
    SeenParts(TIME_BLIND, x.p, s.p);
    IngestEffect(cfg, x, l, clock(ev.seqNo), true);
    assert Stamp(l, clock(ev.seqNo)) == l;
    SettleAgrees(TIME_BLIND, cfg, cfg, x.p, s.p, l, clock(ev.seqNo), now);
  }

  lemma DuplicateReproduced(cfg: Config, s: State, arriving: Leg, now: Time, clock: nat -> Time)
    requires cfg.rules.Valid() && GoodState(s) && Delivered(arriving) && Reproduced(cfg, s, clock)
    requires arriving.id in s.p.legs
    ensures Reproduced(cfg, Ingest(cfg, s, arriving, now, false), clock)
  {
    hide Ingest, Inv, Delivered, Arriving, Seen, Decide, Settle, GoodLog, Numbered, ReplayAll, Reproduced, AppendEvents;
    var l := Stamp(arriving, now);
    DeliveredArrives(arriving);
    IngestEffect(cfg, s, arriving, now, false);
    var t := Ingest(cfg, s, arriving, now, false);
    var e := Entry(now, LegDuplicate(l));
    NoteReproduced(cfg, s, t, e, clock);
  }

  lemma NoteReproduced(cfg: Config, s: State, t: State, e: Event, clock: nat -> Time)
    requires Reproduced(cfg, s, clock) && t.p == s.p && t.log == AppendEvents(s.log, [e]) && PassedOver(e.payload)
    ensures Reproduced(cfg, t, clock)
  {
    hide Seen, ReplayAll;
    assert [e][1..] == [];
    AppendSplit(s.log, [e]);
    var r := t.log;
    var tail := r[|s.log|..];
    assert r == s.log + tail;
    assert tail == [r[|s.log|]] + r[|s.log| + 1..];
    ReplaySkips(cfg, INIT, s.log, tail, clock);
  }

  lemma ResolveReproduced(cfg: Config, s: State, id: Id, reason: string, actor: string, now: Time, clock: nat -> Time)
    requires cfg.rules.Valid() && GoodState(s) && Reproduced(cfg, s, clock) && Ticks(clock)
    ensures Reproduced(cfg, Resolve(s, id, reason, actor, now), clock)
  {
    hide Inv, Seen, GoodLog, Numbered, ReplayAll, AppendEvents, ApplyProj, Close, Resolved, SeenBreak, Ticks;
    if Resolvable(s.p, id, reason, actor) {
      BreakUnderOwnId(s.p, id);
      NonEmptyBreakId(s.p, id);
      var e := Entry(now, BreakResolvedBy(id, reason, actor, now, ""));
      ResolveSettles(s.p, id, reason, actor, now, [e]);
      assert [e][1..] == [];
      AppendSplit(s.log, [e]);
      var r := AppendEvents(s.log, [e]);
      var ev := r[|s.log|];
      ReplaySkips(cfg, INIT, s.log + [ev], r[|s.log| + 1..], clock);
      ReplayLast(cfg, INIT, s.log, ev, clock);
      var x := ReplayAll(cfg, INIT, s.log, clock);
      RederivedGood(cfg, s.log, clock);
      SeenParts(TIME_BLIND, x.p, s.p);
      assert id in x.p.breaks by { assert id in s.p.breaks.Keys; }
      SeenBreakFacts(TIME_BLIND, x.p.breaks[id], s.p.breaks[id]);
      BreakUnderOwnId(x.p, id);
      ResolveSettles(x.p, id, reason, actor, now, []);
      CloseAgrees(TIME_BLIND, x.p, s.p, id, reason, actor, now, now);
    }
  }

  lemma NonEmptyBreakId(p: Proj, id: Id)
    requires Inv(p) && id in p.breaks
    ensures id != ""
  {
    hide DeriveId;
    assert BreakLinked(p, p.breaks[id]);
    DeriveIdNonEmpty(BREAK_PREFIX, p.breaks[id].legIds);
  }

  /** A complete replay under any clock leaves a state that the grown log re-derives. */
  lemma ReplayReproduced(cfg: Config, s: State, now: Time, clock: nat -> Time, clock': nat -> Time)
    requires cfg.rules.Valid() && GoodState(s) && Ticks(clock) && Ticks(clock')
    ensures Reproduced(cfg, Replay(cfg, s, 1, now, clock), clock')
    ensures Replay(cfg, s, 1, now, clock).p == Rederived(cfg, s.log, clock)
  {
    hide Inv, Seen, GoodLog, Numbered, ReplayAll, ReplayBase, SeenLog, GoodState, Ticks, ExtendsQuietly;
    var t := Replay(cfg, s, 1, now, clock);
    assert (if 1 <= |s.log| then s.log[0..] else []) == s.log;
    BaseEmpty(s, now);
    ReplayIgnoresBaseLog(cfg, ReplayBase(s, 1, now), INIT, s.log, clock);
    ReplayAppends(cfg, s, 1, now, clock);
    QuietTail(s.log, t.log);
    ReplaySkips(cfg, INIT, s.log, t.log[|s.log|..], clock');
    InitGood();
    InvOf(s);
    ReplayAllAgrees(TIME_BLIND, cfg, cfg, INIT, INIT, s.log, s.log, clock', clock);
  }

  lemma BaseEmpty(s: State, now: Time)
    ensures ReplayBase(s, 1, now).p == EMPTY
  {
  }

  // ---------------------------------------------------------------- exactly when replay reproduces the state

  /** No stored break came from window expiry, open or resolved. */
  ghost predicate NoneExpired(p: Proj) {
    forall id :: id in p.breaks ==> p.breaks[id].trigger != WindowExpired
  }

  lemma SettleNoneExpired(cfg: Config, p: Proj, l: Leg, now: Time, d: Decision)
    requires NoneExpired(p)
    ensures NoneExpired(Settle(cfg, p, l, now, d))
  {
    hide Related, DeriveId, LateMatch;
  }

  lemma ReplayOneNoneExpired(cfg: Config, s: State, ev: Event, now: Time)
    requires cfg.rules.Valid() && GoodState(s) && GoodEvent(ev) && NoneExpired(s.p)
    ensures NoneExpired(ReplayOne(cfg, s, ev, now).p)
  {
    hide Ingest, Inv, Delivered, GoodLog, Numbered, Redelivered, ApplyProj, Settle, Decide;
    match ev.payload
    case LegIngested(l) =>
      RedeliveredSame(l);
      DeliveredArrives(l);
      IngestEffect(cfg, s, l, now, true);
      if Stamp(l, now).id !in s.p.legs { SettleNoneExpired(cfg, s.p, Stamp(l, now), now,
          Decide(cfg.rules, s.p, Stamp(l, now))); }
    case BreakResolvedBy(id, reason, actor, at, m) =>
      if Reapply(s, ev.payload) != s {
        BreakUnderOwnId(s.p, id);
        ResolveSettles(s.p, id, reason, actor, at, []);
      }
    case _ =>
  }

  /** A replay never re-derives an expiry: leg.expired events are passed over. */
  lemma {:induction false} ReplayNoneExpired(cfg: Config, s: State, evs: seq<Event>, clock: nat -> Time)
    requires cfg.rules.Valid() && GoodState(s) && GoodLog(evs) && Ticks(clock) && NoneExpired(s.p)
    ensures NoneExpired(ReplayAll(cfg, s, evs, clock).p)
  {
    hide GoodState, ReplayOne, GoodEvent, NoneExpired;
    if evs != [] {
      var init, ev := evs[..|evs| - 1], evs[|evs| - 1];
      assert GoodLog(init) && GoodEvent(ev);
      ReplayNoneExpired(cfg, s, init, clock);
      ReplayAllGood(cfg, s, init, clock);
      ReplayOneNoneExpired(cfg, ReplayAll(cfg, s, init, clock), ev, clock(ev.seqNo));
    }
  }

  lemma SeenNoneExpired(v: View, p: Proj, q: Proj)
    requires Seen(v, p) == Seen(v, q) && NoneExpired(p)
    ensures NoneExpired(q)
  {
    hide Seen, SeenBreak, SeenMatch;
    SeenParts(v, p, q);
    forall id | id in q.breaks ensures q.breaks[id].trigger != WindowExpired {
      assert id in p.breaks.Keys;
      SeenBreakFacts(v, p.breaks[id], q.breaks[id]);
    }
  }

  lemma ExpiryStays(p: Proj, q: Proj)
    requires Evolves(p, q) && !NoneExpired(p)
    ensures !NoneExpired(q)
  {
    hide LegEvolves;
    var id :| id in p.breaks && p.breaks[id].trigger == WindowExpired;
    assert BreakEvolves(p.breaks[id], q.breaks[id]);
  }

  lemma ExpireShows(cfg: Config, s: State, id: Id, now: Time, forced: bool)
    requires Inv(s.p) && IsOpen(s.p, id)
    ensures !NoneExpired(Expire(cfg, s, s.p.legs[id], now, forced).p)
  {
    hide Inv, NewBreak, Related, ApplyProj, ExpirePlan;
    var l := s.p.legs[id];
    ExpireOwnId(s.p, id);
    ExpireSettles(cfg, s.p, l, now, forced);
    var b := NewBreak(cfg, WindowExpired, Related(s.p, l.txnRef), [l], now);
    NewBreakFacts(cfg, WindowExpired, Related(s.p, l.txnRef), [l], now);
    assert MarkBroken(s.p, b).breaks[b.id] == b;
  }

  /** A replay in the run is complete: from the first event to the last one logged before it. */
  ghost predicate CompleteStep(s: State, op: Op) {
    op.StartReplay? ==> op.from <= 1 && |s.log| <= op.upTo
  }

  /** The last replay of the run, if there is one, was complete; what earlier replays did does not matter. */
  ghost predicate LastReplayComplete(cfg: Config, ops: seq<Op>) {
    ops != [] ==>
      var init, op := ops[..|ops| - 1], ops[|ops| - 1];
      if op.StartReplay? then CompleteStep(Run(cfg, INIT, init), op) else LastReplayComplete(cfg, init)
  }

  lemma PartialIsReplay(cfg: Config, s: State, from: nat, now: Time, clock: nat -> Time, upTo: nat)
    requires from <= 1 && |s.log| <= upTo
    ensures PartialReplay(cfg, s, from, now, clock, upTo) == Replay(cfg, s, 1, now, clock)
  {
    hide ReplayAll, ReplayBase;
    var evs := ReplayRange(s.log, from);
    assert !(upTo < |evs|);
    assert evs == if 1 <= |s.log| then s.log[0..] else [];
  }

  lemma CompleteIsReplay(cfg: Config, s: State, op: Op)
    requires op.StartReplay? && CompleteStep(s, op)
    ensures Step(cfg, s, op) == Replay(cfg, s, 1, op.now, op.clock)
  {
    hide ReplayAll, ReplayBase, Ingest, Expire, Resolve, ApplyTo, AppendEvents, ApplyProj, IsOpen;
    PartialIsReplay(cfg, s, op.from, op.now, op.clock, op.upTo);
  }

  ghost predicate Tracked(cfg: Config, s: State, clock: nat -> Time) {
    NoneExpired(s.p) ==> Reproduced(cfg, s, clock)
  }

  lemma StepTracked(cfg: Config, s: State, op: Op, clock: nat -> Time)
    requires cfg.rules.Valid() && GoodState(s) && GoodOp(op) && GoodClock(op) && CompleteStep(s, op) && Ticks(clock)
    requires op.StartReplay? || Tracked(cfg, s, clock)
    ensures Tracked(cfg, Step(cfg, s, op), clock)
  {
    hide Ingest, Inv, Delivered, GoodLog, Numbered, Ticks, Expire, Resolve, Replay, PartialReplay, NoneExpired,
         Reproduced, AppendEvents, ApplyProj, Evolves;
    if !NoneExpired(s.p) && !op.StartReplay? {
      StepEvolves(cfg, s, op);
      ExpiryStays(s.p, Step(cfg, s, op).p);
    } else {
      match op
      case Arrive(l, now) =>
        if l.id in s.p.legs { DuplicateReproduced(cfg, s, l, now, clock); }
            else { ArriveReproduced(cfg, s, l, now, clock); }
      case ExpireLeg(id, now, forced) =>
        if IsOpen(s.p, id) { ExpireShows(cfg, s, id, now, forced); }
      case CloseWindow(n, olderThan, now) =>
        var e := Entry(now, WindowClosed(n, olderThan));
        NoteSettles(s.p, [e]);
        NoteReproduced(cfg, s, Step(cfg, s, op), e, clock);
      case ResolveBreak(id, reason, actor, now) => ResolveReproduced(cfg, s, id, reason, actor, now, clock);
      case StartReplay(from, now, own, upTo) =>
        CompleteIsReplay(cfg, s, op);
        ReplayReproduced(cfg, s, now, own, clock);
      case AbandonReplay(from, now) =>
        var e := Entry(now, ReplayStarted(if from < 1 then 1 else from, |s.log|));
        NoteSettles(s.p, [e]);
        NoteReproduced(cfg, s, Step(cfg, s, op), e, clock);
    }
  }

  lemma {:induction false} RunTracked(cfg: Config, ops: seq<Op>, clock: nat -> Time)
    requires cfg.rules.Valid() && GoodOps(ops) && GoodClocks(ops) && LastReplayComplete(cfg, ops) && Ticks(clock)
    ensures Tracked(cfg, Run(cfg, INIT, ops), clock) && GoodState(Run(cfg, INIT, ops))
  {
    hide Step, GoodState, CompleteStep, NoneExpired;
    if ops == [] {
      InitGood();
    } else {
      var init, op := ops[..|ops| - 1], ops[|ops| - 1];
      assert op in ops && GoodOp(op) && GoodClock(op);
      RunGood(cfg, init);
      if !op.StartReplay? {
        RunTracked(cfg, init, clock);
        NotAReplay(Run(cfg, INIT, init), op);
      }
      StepTracked(cfg, Run(cfg, INIT, init), op, clock);
      StepGood(cfg, Run(cfg, INIT, init), op);
    }
  }

  lemma NotAReplay(s: State, op: Op)
    requires !op.StartReplay?
    ensures CompleteStep(s, op)
  {
  }

  /**
   Replay from the first event reproduces legs, matches and breaks, manual resolutions included and
   up to clock readings, exactly when no stored break came from window expiry.
   */
  lemma ReplayReproducesIff(cfg: Config, ops: seq<Op>, now: Time, clock: nat -> Time)
    requires cfg.rules.Valid() && GoodOps(ops) && GoodClocks(ops) && LastReplayComplete(cfg, ops) && Ticks(clock)
    ensures var s := Run(cfg, INIT, ops);
            Seen(TIME_BLIND, Replay(cfg, s, 1, now, clock).p) == Seen(TIME_BLIND, s.p) <==> NoneExpired(s.p)
  {
    hide Run, Replay, Seen, GoodState, Ticks, ReplayAll, GoodLog;
    var s := Run(cfg, INIT, ops);
    RunTracked(cfg, ops, clock);
    ReplayReproduced(cfg, s, now, clock, clock);
    InitGood();
    InvOf(s);
    assert NoneExpired(INIT.p);
    ReplayNoneExpired(cfg, INIT, s.log, clock);
    if Seen(TIME_BLIND, Replay(cfg, s, 1, now, clock).p) == Seen(TIME_BLIND, s.p) {
      SeenNoneExpired(TIME_BLIND, Rederived(cfg, s.log, clock), s.p);
    }
  }

  ghost predicate NoExpiry(ops: seq<Op>) { forall op :: op in ops ==> !op.ExpireLeg? }

  /** Replay derives no expiry break, from wherever it starts and wherever it stops. */
  lemma PartialNoneExpired(cfg: Config, s: State, from: nat, now: Time, clock: nat -> Time, upTo: nat)
    requires cfg.rules.Valid() && GoodState(s) && Ticks(clock)
    ensures NoneExpired(PartialReplay(cfg, s, from, now, clock, upTo).p)
  {
    hide Inv, Numbered, Ticks, ReplayAll;
    var evs := ReplayRange(s.log, from);
    var part := if upTo < |evs| then evs[..upTo] else evs;
    GoodPart(s.log, part);
    BaseGood(s, if from < 1 then 1 else from, now);
    ReplayNoneExpired(cfg, ReplayBase(s, if from < 1 then 1 else from, now), part, clock);
  }

  lemma StepNoneExpired(cfg: Config, s: State, op: Op)
    requires cfg.rules.Valid() && GoodState(s) && GoodOp(op) && GoodClock(op) && !op.ExpireLeg?
    requires NoneExpired(s.p)
    ensures NoneExpired(Step(cfg, s, op).p)
  {
    hide Ingest, Inv, Delivered, GoodLog, Numbered, Ticks, Replay, PartialReplay, AppendEvents, ApplyProj, ReplayAll,
         Settle, Decide;
    match op
    case Arrive(arriving, now) =>
      DeliveredArrives(arriving);
      IngestEffect(cfg, s, arriving, now, false);
      var l := Stamp(arriving, now);
      if l.id !in s.p.legs { SettleNoneExpired(cfg, s.p, l, now, Decide(cfg.rules, s.p, l)); }
    case CloseWindow(n, olderThan, now) => NoteSettles(s.p, [Entry(now, WindowClosed(n, olderThan))]);
    case ResolveBreak(id, reason, actor, now) =>
      if Resolvable(s.p, id, reason, actor) {
        BreakUnderOwnId(s.p, id);
        ResolveSettles(s.p, id, reason, actor, now, [Entry(now, BreakResolvedBy(id, reason, actor, now, ""))]);
      }
    case StartReplay(from, now, clock, upTo) =>
      PartialNoneExpired(cfg, s, from, now, clock, upTo);
    case AbandonReplay(from, now) => NoteSettles(s.p,
        [Entry(now, ReplayStarted(if from < 1 then 1 else from, |s.log|))]);
  }

  lemma {:induction false} RunNoneExpired(cfg: Config, ops: seq<Op>)
    requires cfg.rules.Valid() && GoodOps(ops) && GoodClocks(ops) && NoExpiry(ops)
    ensures NoneExpired(Run(cfg, INIT, ops).p)
  {
    hide Step, GoodState;
    if ops != [] {
      var init, op := ops[..|ops| - 1], ops[|ops| - 1];
      assert op in ops && GoodOp(op) && GoodClock(op);
      RunNoneExpired(cfg, init);
      RunGood(cfg, init);
      StepNoneExpired(cfg, Run(cfg, INIT, init), op);
    }
  }

  /** In a history without expiry, replay from the first event reproduces the state, however often it is repeated. */
  lemma ReplayReproducesExpiryFree(cfg: Config, ops: seq<Op>, now: Time, clock: nat -> Time)
    requires cfg.rules.Valid() && GoodOps(ops) && GoodClocks(ops) && LastReplayComplete(cfg, ops) && NoExpiry(ops)
             && Ticks(clock)
    ensures var s := Run(cfg, INIT, ops);
            var once := Replay(cfg, s, 1, now, clock);
            && Seen(TIME_BLIND, once.p) == Seen(TIME_BLIND, s.p)
            && Seen(TIME_BLIND, Replay(cfg, once, 1, now, clock).p) == Seen(TIME_BLIND, s.p)
  {
    hide Run, Seen, Replay, GoodState, NoneExpired, LastReplayComplete, ReplayAll;
    var s := Run(cfg, INIT, ops);
    RunNoneExpired(cfg, ops);
    ReplayReproducesIff(cfg, ops, now, clock);
    RunGood(cfg, ops);
    ReplayReproduced(cfg, s, now, clock, clock);
    var once := Replay(cfg, s, 1, now, clock);
    ReplayGood(cfg, s, now, clock);
    ReplayReproduced(cfg, once, now, clock, clock);
  }

  lemma ReplayGood(cfg: Config, s: State, now: Time, clock: nat -> Time)
    requires cfg.rules.Valid() && GoodState(s) && Ticks(clock)
    ensures GoodState(Replay(cfg, s, 1, now, clock))
  {
    hide ReplayAll, Inv, Numbered, ReplayBase;
    var evs := if 1 <= |s.log| then s.log[0..] else [];
    GoodPart(s.log, evs);
    BaseGood(s, 1, now);
    ReplayAllGood(cfg, ReplayBase(s, 1, now), evs, clock);
  }

  lemma EmptyListings(l: Leg, batch: string)
    ensures Q.CandidatesByRef({}, l) == [] && Q.Candidates({}, l) == [] && Q.SameSourceInWindow({}, l) == []
    ensures Q.ByRef({}, l) == [] && Q.RefLegs({}, batch) == [] && Q.ByBatch({}, l, batch) == []
  {
    hide Canon;
    var none: set<Leg> := {};
    Q.ListingFacts(none);
    assert Q.Listing({}) == [];
    assert (set c | c in none && c.Key() == l.Key() && c.source != l.source) == {};
    assert (set c | c in none && c.txnRef == l.txnRef && c.source != l.source && c.Key() == l.Key()) == {};
    assert (set c | c in none && c.Key() == l.Key() && c.source == l.source && c.id != l.id) == {};
    assert (set c | c in none && c.txnRef == l.txnRef && c.id != l.id) == {};
    assert (set c | c in none && c.txnRef == batch) == {};
    assert (set c | c in none && batch != "" && c.Batch() == batch && c.id != l.id && c.Key() == l.Key()) == {};
  }

  lemma NothingToFind(rules: Rules, l: Leg, known: M.Known)
    ensures M.Find(rules, l, {}, known) == None
  {
    hide Q.CandidatesByRef, Q.Candidates, Q.SameSourceInWindow, Q.RefLegs, Q.ByBatch, M.Pair, M.Many;
    EmptyListings(l, l.SettlementKey());
    EmptyListings(l, l.Batch());
    var none: seq<Leg> := [];
    assert (set c | c in none :: c.source) == {};
    CanonMembers<string>({}, StrLess);
    assert M.SourcesOf(none) == [];
    assert none + none == none;
    assert M.OnePool(rules, l, {}) == [];
    assert M.Settlements(rules, l, {}) == [];
  }

  /** The first leg ever waits in the window. */
  lemma FirstLegWaits(cfg: Config, l: Leg, now: Time)
    requires cfg.rules.Valid() && Arriving(l)
    ensures IsOpen(Ingest(cfg, INIT, l, now, false).p, l.id)
  {
    hide M.Find, Q.ByRef, Ingest, Inv;
    var x := Stamp(l, now);
    EmptyInv();
    IngestEffect(cfg, INIT, l, now, false);
    assert OpenSet(EMPTY) == {};
    NothingToFind(cfg.rules, x, KnownIn(EMPTY));
    EmptyListings(x, "");
    assert Related(EMPTY, x.txnRef) == [];
    assert Decide(cfg.rules, EMPTY, x) == Wait;
  }

  lemma AppendTail(log: seq<Event>, evs: seq<Event>) returns (tail: seq<Event>)
    requires forall e :: e in evs ==> PassedOver(e.payload)
    ensures AppendEvents(log, evs) == log + tail
    ensures forall e :: e in tail ==> PassedOver(e.payload)
  {
    hide PassedOver, AppendEvents;
    AppendExtends(log, evs);
    var r := AppendEvents(log, evs);
    tail := r[|log|..];
    forall e | e in tail ensures PassedOver(e.payload) {
      var i :| 0 <= i < |tail| && tail[i] == e;
      assert r[|log| + i].payload == evs[i].payload && evs[i] in evs;
    }
  }

  lemma ExpireTail(cfg: Config, s: State, id: Id, now: Time, forced: bool) returns (tail: seq<Event>)
    requires IsOpen(s.p, id)
    ensures Expire(cfg, s, s.p.legs[id], now, forced).log == s.log + tail
    ensures forall e :: e in tail ==> PassedOver(e.payload)
  {
    hide ApplyProj, ExpirePlan, AppendEvents, NewBreak;
    ExpireEvents(cfg, s.p, s.p.legs[id], now, forced);
    tail := AppendTail(s.log, ExpirePlan(cfg, s.p, s.p.legs[id], now, forced).events);
  }

  lemma ExpireBreaksLeg(cfg: Config, s: State, id: Id, now: Time, forced: bool)
    requires Inv(s.p) && IsOpen(s.p, id)
    ensures var q := Expire(cfg, s, s.p.legs[id], now, forced).p; id in q.legs && q.legs[id].status == Broken
  {
    hide Inv, NewBreak, Related, ApplyProj, ExpirePlan;
    var l := s.p.legs[id];
    ExpireOwnId(s.p, id);
    ExpireSettles(cfg, s.p, l, now, forced);
    NewBreakFacts(cfg, WindowExpired, Related(s.p, l.txnRef), [l], now);
    assert M.LegIds([l])[0] == id;
  }

  /** The state before an expiry is what replay makes of the log after it. */
  lemma ReplayUndoesExpiry(cfg: Config, s: State, id: Id, now: Time, forced: bool, clock: nat -> Time)
    requires cfg.rules.Valid() && GoodState(s) && Ticks(clock) && IsOpen(s.p, id) && Reproduced(cfg, s, clock)
    ensures var t := Expire(cfg, s, s.p.legs[id], now, forced);
            && Replay(cfg, t, 1, now, clock).p.legs == s.p.legs
            && id in t.p.legs && t.p.legs[id].status == Broken
  {
    hide GoodState, Ticks, Replay, ReplayAll, Expire, Seen;
    var t := Expire(cfg, s, s.p.legs[id], now, forced);
    var tail := ExpireTail(cfg, s, id, now, forced);
    ExpireGood(cfg, s, id, now, forced);
    InvOf(s);
    ExpireBreaksLeg(cfg, s, id, now, forced);
    ReplayReproduced(cfg, t, now, clock, clock);
    ReplaySkips(cfg, INIT, s.log, tail, clock);
    SeenParts(TIME_BLIND, Rederived(cfg, s.log, clock), s.p);
  }

  /** One leg, expired, is broken; after a replay it is open again: what the law above excludes. */
  lemma ExpiredLegIsReopened(cfg: Config, l: Leg, now: Time, clock: nat -> Time)
    requires cfg.rules.Valid() && Delivered(l) && now > 0 && Ticks(clock)
    ensures var s := Run(cfg, INIT, [Arrive(l, now), ExpireLeg(l.id, now, true)]);
            && l.id in s.p.legs && s.p.legs[l.id].status == Broken
            && IsOpen(Replay(cfg, s, 1, now, clock).p, l.id)
  {
    hide Seen, Replay, GoodState, Delivered, Ingest, Expire;
    var ops := [Arrive(l, now), ExpireLeg(l.id, now, true)];
    assert ops[..1] == [Arrive(l, now)] && ops[..1][..0] == [];
    assert LastReplayComplete(cfg, ops[..1][..0]);
    assert LastReplayComplete(cfg, ops[..1]);
    assert Run(cfg, INIT, ops[..1][..0]) == INIT;
    var s := Run(cfg, INIT, ops[..1]);
    assert s == Ingest(cfg, INIT, l, now, false);
    DeliveredArrives(l);
    FirstLegWaits(cfg, l, now);
    RunGood(cfg, ops[..1]);
    ReplayReproducesExpiryFree(cfg, ops[..1], now, clock);
    ReplayReproduced(cfg, s, now, clock, clock);
    assert Run(cfg, INIT, ops) == Expire(cfg, s, s.p.legs[l.id], now, true);
    ReplayUndoesExpiry(cfg, s, l.id, now, true, clock);
  }

  // ---------------------------------------------------------------- after a replay from a later event

  lemma FirstIntakeLogged(cfg: Config, l: Leg, now: Time)
    requires cfg.rules.Valid() && Delivered(l) && now > 0
    ensures var s := Run(cfg, INIT, [Arrive(l, now)]);
            && s == Ingest(cfg, INIT, l, now, false) && |s.log| == 1 && s.log[0].payload.LegIngested?
            && GoodState(s) && IsOpen(s.p, l.id) && NoneExpired(s.p)
  {
    hide Ingest, Inv, Delivered, Numbered, GoodLog, Settle, Decide, NoneExpired;
    assert [Arrive(l, now)][..0] == [] && Run(cfg, INIT, []) == INIT;
    DeliveredArrives(l);
    FirstLegWaits(cfg, l, now);
    RunGood(cfg, [Arrive(l, now)]);
    InitGood();
    IngestEffect(cfg, INIT, l, now, false);
    FirstDecision(cfg, l, now);
    RunNoneExpired(cfg, [Arrive(l, now)]);
    var intake := [Entry(now, LegIngested(Stamp(l, now)))];
    assert intake + [] == intake && intake[..0] == [];
    assert AppendEvents([], intake) == AppendEvents([], []) + [intake[0].(seqNo := 1)];
  }

  lemma FirstDecision(cfg: Config, l: Leg, now: Time)
    requires cfg.rules.Valid() && Arriving(l)
    ensures Derived(cfg, EMPTY, Stamp(l, now), now) == []
  {
    hide M.Find, Q.ByRef;
    var x := Stamp(l, now);
    assert OpenSet(EMPTY) == {};
    NothingToFind(cfg.rules, x, KnownIn(EMPTY));
    EmptyListings(x, "");
    assert Related(EMPTY, x.txnRef) == [];
    assert Decide(cfg.rules, EMPTY, x) == Wait;
  }

  /**
   The law fails after a replay from a later event: the first leg is dropped, although nothing expired,
   and only a replay from the first event brings it back.
   */
  lemma LaterReplayLosesTheFirstLeg(cfg: Config, l: Leg, now: Time, clock: nat -> Time, upTo: nat)
    requires cfg.rules.Valid() && Delivered(l) && now > 0 && Ticks(clock)
    ensures var s := Run(cfg, INIT, [Arrive(l, now), StartReplay(2, now, clock, upTo)]);
            && s.p == EMPTY && NoneExpired(s.p)
            && IsOpen(Replay(cfg, s, 1, now, clock).p, l.id)
  {
    hide Seen, Replay, GoodState, Delivered, Ingest, ReplayAll, Ticks;
    var ops := [Arrive(l, now), StartReplay(2, now, clock, upTo)];
    assert ops[..1] == [Arrive(l, now)];
    var s0 := Run(cfg, INIT, [Arrive(l, now)]);
    FirstIntakeLogged(cfg, l, now);
    var s := Run(cfg, INIT, ops);
    assert s == PartialReplay(cfg, s0, 2, now, clock, upTo);
    LaterReplayIsBase(cfg, s0, now, clock, upTo);
    BaseGood(s0, 2, now);
    ReplayReproduced(cfg, s, now, clock, clock);
    var tail := AppendTail(s0.log, ReplayNote(2, |s0.log|, now).events);
    ReplaySkips(cfg, INIT, s0.log, tail, clock);
    ReplayReproduced(cfg, s0, now, clock, clock);
    assert LastReplayComplete(cfg, []) && [Arrive(l, now)][..0] == [];
    ReplayReproducesIff(cfg, [Arrive(l, now)], now, clock);
    SeenParts(TIME_BLIND, Rederived(cfg, s0.log, clock), s0.p);
  }

  lemma LaterReplayIsBase(cfg: Config, s: State, now: Time, clock: nat -> Time, upTo: nat)
    requires |s.log| == 1
    ensures PartialReplay(cfg, s, 2, now, clock, upTo) == ReplayBase(s, 2, now)
  {
  }
}
