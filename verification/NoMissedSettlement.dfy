/**
 No settlement is overlooked: unless a pool searched for its own window, batch and source of parts was
 capped, no open settlement leg sits beside open legs of one other source that sum to it.
 */
module NoMissedSettlement {
  import opened Sequences
  import opened Ordering
  import opened Domain
  import opened SubsetSum
  import opened Persistence
  import opened Reconciliation
  import opened EventSourcing
  import opened Lifecycle
  import opened Transitions
  import opened Runs
  import M = Matching
  import F = MatchingFacts

  /** `c` could be a part of settlement leg `s`. */
  ghost predicate CouldSettle(rules: Rules, s: Leg, c: Leg) {
    c.source != s.source && F.SameWindow(rules, c, s) && c.amount < s.amount && F.Hinted(rules, s, c)
  }

  /** An overlooked settlement: open legs of source `src` that sum to open leg `s` of another within tolerance. */
  ghost predicate Missed(rules: Rules, open: set<Leg>, s: Leg, src: string, many: set<Leg>) {
    && s in open && many <= open
    && 2 <= |many| <= rules.t3MaxSubset
    && (forall c :: c in many ==> CouldSettle(rules, s, c) && c.source == src)
    && Abs(SetSum(many) - s.amount) <= rules.Tolerance(s.amount)
  }

  /** Where a settlement is looked for: a window, when rules ask for batches a settlement key, the parts' source. */
  datatype Place = Place(window: WindowKey, batch: string, source: string)

  /** Where parts of source `src` are looked for that settle `s`. */
  function PlaceOf(s: Leg, src: string): Place { Place(s.Key(), s.SettlementKey(), src) }

  /** Settlement leg `s` is looked for at this place. */
  ghost predicate SettlesAt(rules: Rules, s: Leg, at: Place) {
    s.Key() == at.window && (rules.t3RequireBatchHint ==> s.SettlementKey() == at.batch)
  }

  /** `c` can be a part of a settlement looked for at this place. */
  ghost predicate PartAt(rules: Rules, c: Leg, at: Place) {
    c.source == at.source && c.Key() == at.window &&
    (rules.t3RequireBatchHint ==> at.batch != "" && c.Batch() == at.batch)
  }

  ghost predicate NoneMissed(rules: Rules, open: set<Leg>, at: Place) {
    forall s, many :: SettlesAt(rules, s, at) ==> !Missed(rules, open, s, at.source, many)
  }

  /** The pool of parts of source `src` searched for settlement leg `l` was not capped. */
  ghost predicate PartsFit(rules: Rules, l: Leg, open: set<Leg>, src: string) {
    |Filter(M.OnePool(rules, l, open), M.OfSource(src))| <= rules.t3MaxCandidates
  }

  /** No pool of siblings searched with `l` for a settlement leg of this place was capped. */
  ghost predicate SiblingsFit(rules: Rules, l: Leg, open: set<Leg>, at: Place) {
    forall s :: s in M.Settlements(rules, l, open) && M.Settles(rules, l, s) && SettlesAt(rules, s, at) ==>
      |Filter(M.Siblings(rules, l, open), M.PartOf(rules, s))| <= rules.t3MaxCandidates
  }

  /** No pool that the many-to-one tier searches with `l` at this place exceeds the candidate cap. */
  ghost predicate PoolsFit(rules: Rules, l: Leg, open: set<Leg>, at: Place) {
    && (SettlesAt(rules, l, at) ==> PartsFit(rules, l, open, at.source))
    && (PartAt(rules, l, at) ==> SiblingsFit(rules, l, open, at))
  }

  ghost predicate AllPaid(open: set<Leg>) { forall c :: c in open ==> c.amount > 0 }

  lemma PoolSearchFits(rules: Rules, n: nat, k: nat)
    requires SearchFits(rules) && n <= rules.t3MaxCandidates && k <= rules.t3MaxSubset
    ensures Nodes(n, k) < NODE_BUDGET
  {
    NodesMonotone(n, rules.t3MaxCandidates, k, rules.t3MaxSubset);
  }

  // ---------------------------------------------------------------- orientation (a)

  lemma {:induction false} SumToOneComplete(rules: Rules, l: Leg, pool: seq<Leg>, sources: seq<string>, src: string,
      many: set<Leg>)
    requires SearchFits(rules) && NoDup(pool) && AllPositive(pool) && src in sources
    requires |Filter(pool, M.OfSource(src))| <= rules.t3MaxCandidates
    requires many <= SetOf(pool) && forall c :: c in many ==> c.source == src
    requires 2 <= |many| <= rules.t3MaxSubset && Abs(SetSum(many) - l.amount) <= rules.Tolerance(l.amount)
    ensures M.SumToOne(rules, l, pool, sources).Some?
  {
    hide FindSubset, Nodes, SetSum, M.Many;
    var group := Filter(pool, M.OfSource(src));
    if sources[0] == src {
      FilterMembers(pool, M.OfSource(src));
      FilterNoDup(pool, M.OfSource(src));
      F.CapFacts(group, rules.t3MaxCandidates);
      forall c | c in many ensures c in SetOf(group) { assert c in pool && M.OfSource(src)(c); }
      var c :| c in many;
      assert c in group;
      PoolSearchFits(rules, |group|, rules.t3MaxSubset);
      FindSubsetComplete(group, l.amount, rules.Tolerance(l.amount), 2, rules.t3MaxSubset, many);
    } else {
      SumToOneComplete(rules, l, pool, sources[1..], src, many);
    }
  }

  lemma SourceListed(pool: seq<Leg>, c: Leg)
    requires c in pool
    ensures c.source in M.SourcesOf(pool)
  {
    var srcs := set x | x in pool :: x.source;
    assert c.source in srcs;
    CanonMembers(srcs, StrLess);
  }

  lemma AsSettlement(rules: Rules, l: Leg, open: set<Leg>, src: string, many: set<Leg>)
    requires SearchFits(rules) && F.Arrives(l, open) && AllPaid(open) && PartsFit(rules, l, open, src)
    requires many <= open && 2 <= |many| <= rules.t3MaxSubset
    requires forall c :: c in many ==> CouldSettle(rules, l, c) && c.source == src
    requires Abs(SetSum(many) - l.amount) <= rules.Tolerance(l.amount)
    ensures M.Tier3(rules, l, open).Some?
  {
    hide M.OnePool, M.SumToOne, M.CompleteMany, M.Siblings, M.Settlements, M.SourcesOf, SearchFits, SetSum;
    var pool := M.OnePool(rules, l, open);
    F.OnePoolMembers(rules, l, open);
    assert many != {};
    var c :| c in many;
    assert CouldSettle(rules, l, c);
    forall d | d in many ensures d in pool { assert CouldSettle(rules, l, d); }
    SourceListed(pool, c);
    SumToOneComplete(rules, l, pool, M.SourcesOf(pool), src, many);
  }

  // ---------------------------------------------------------------- orientation (b)

  lemma {:induction false} CompleteManyComplete(rules: Rules, l: Leg, settlements: seq<Leg>, same: seq<Leg>, s: Leg,
      rest: set<Leg>)
    requires SearchFits(rules) && NoDup(same) && AllPositive(same) && s in settlements && M.Settles(rules, l, s)
    requires |Filter(same, M.PartOf(rules, s))| <= rules.t3MaxCandidates
    requires rest <= SetOf(Filter(same, M.PartOf(rules, s)))
    requires 1 <= |rest| <= rules.t3MaxSubset - 1
             && Abs(SetSum(rest) - (s.amount - l.amount)) <= rules.Tolerance(s.amount)
    ensures M.CompleteMany(rules, l, settlements, same).Some?
  {
    hide FindSubset, Nodes, SetSum, M.Many, Filter;
    var group := Filter(same, M.PartOf(rules, s));
    if settlements[0] == s {
      FilterMembers(same, M.PartOf(rules, s));
      FilterNoDup(same, M.PartOf(rules, s));
      F.CapFacts(group, rules.t3MaxCandidates);
      var c :| c in rest;
      assert c in group;
      PoolSearchFits(rules, |group|, rules.t3MaxSubset - 1);
      FindSubsetComplete(group, s.amount - l.amount, rules.Tolerance(s.amount), 1, rules.t3MaxSubset - 1, rest);
    } else {
      CompleteManyComplete(rules, l, settlements[1..], same, s, rest);
    }
  }

  lemma SettlementListed(rules: Rules, l: Leg, open: set<Leg>, s: Leg)
    requires F.Arrives(l, open) && s in open && CouldSettle(rules, s, l)
    ensures s in M.Settlements(rules, l, open)
  {
    if rules.t3RequireBatchHint {
      F.HintedSettlements(rules, l, open);
      assert F.BatchSettlement(l, s);
    } else {
      F.ScanMembers(rules, l, open);
    }
  }

  lemma AsPart(rules: Rules, l: Leg, open: set<Leg>, s: Leg, rest: set<Leg>)
    requires SearchFits(rules) && F.Arrives(l, open) && AllPaid(open)
    requires |Filter(M.Siblings(rules, l, open), M.PartOf(rules, s))| <= rules.t3MaxCandidates
    requires s in open && CouldSettle(rules, s, l) && rest <= open
    requires forall c :: c in rest ==> CouldSettle(rules, s, c) && c.source == l.source
    requires 1 <= |rest| <= rules.t3MaxSubset - 1
    requires Abs(SetSum(rest) - (s.amount - l.amount)) <= rules.Tolerance(s.amount)
    ensures M.Tier3(rules, l, open).Some?
  {
    hide M.OnePool, M.SumToOne, M.CompleteMany, M.Siblings, M.Settlements, M.SourcesOf, SearchFits, SetSum, Filter;
    var same := M.Siblings(rules, l, open);
    F.SiblingsMembers(rules, l, open);
    SettlementListed(rules, l, open, s);
    FilterMembers(same, M.PartOf(rules, s));
    forall c | c in rest ensures c in Filter(same, M.PartOf(rules, s)) {
      assert CouldSettle(rules, s, c);
      assert c in same && M.PartOf(rules, s)(c);
    }
    CompleteManyComplete(rules, l, M.Settlements(rules, l, open), same, s, rest);
  }

  // ---------------------------------------------------------------- the last-added leg

  lemma PlacedAlike(rules: Rules, a: Leg, l: Leg)
    ensures CouldSettle(rules, l.(status := Open), a) <==> CouldSettle(rules, l, a)
    ensures CouldSettle(rules, a, l.(status := Open)) <==> CouldSettle(rules, a, l)
    ensures forall at :: SettlesAt(rules, l.(status := Open), at) <==> SettlesAt(rules, l, at)
  {
  }

  lemma MissedAsSettlement(rules: Rules, l: Leg, open: set<Leg>, src: string, many: set<Leg>)
    requires SearchFits(rules) && F.Arrives(l, open) && AllPaid(open) && PartsFit(rules, l, open, src)
    requires Missed(rules, open + {l.(status := Open)}, l.(status := Open), src, many)
    ensures M.Tier3(rules, l, open).Some?
  {
    hide M.Tier3, SearchFits, PartsFit, SetSum, CouldSettle;
    var l' := l.(status := Open);
    forall c | c in many ensures c in open && CouldSettle(rules, l, c) {
      assert CouldSettle(rules, l', c);
      OtherSource(rules, l', c);
      PlacedAlike(rules, c, l);
    }
    AsSettlement(rules, l, open, src, many);
  }

  lemma OtherSource(rules: Rules, s: Leg, c: Leg)
    requires CouldSettle(rules, s, c)
    ensures c.source != s.source
  {
  }

  /** A part of settlement leg `s` is looked for where `s` is, and `s` is among those it completes. */
  lemma PartsPlace(rules: Rules, l: Leg, open: set<Leg>, s: Leg, at: Place)
    requires F.Arrives(l, open) && s in open && CouldSettle(rules, s, l) && SettlesAt(rules, s, at)
             && l.source == at.source
    ensures PartAt(rules, l, at) && M.Settles(rules, l, s) && s in M.Settlements(rules, l, open)
  {
    hide M.Settlements;
    SettlementListed(rules, l, open, s);
  }

  lemma MissedAsPart(rules: Rules, l: Leg, open: set<Leg>, s: Leg, many: set<Leg>, at: Place)
    requires SearchFits(rules) && F.Arrives(l, open) && AllPaid(open) && PoolsFit(rules, l, open, at)
    requires SettlesAt(rules, s, at) && s in open
    requires Missed(rules, open + {l.(status := Open)}, s, at.source, many) && l.(status := Open) in many
    ensures M.Tier3(rules, l, open).Some?
  {
    hide M.Tier3, M.Settlements, M.Siblings, SearchFits, PartsFit, SetSum, CouldSettle, Filter;
    var l' := l.(status := Open);
    var rest := many - {l'};
    SetSumRemove(many, l');
    PlacedAlike(rules, s, l);
    PartsPlace(rules, l, open, s, at);
    AsPart(rules, l, open, s, rest);
  }

  /** Adding a leg that found no many-to-one match completes no settlement, whichever side it is on. */
  lemma WaitingMissesNothing(rules: Rules, l: Leg, open: set<Leg>, at: Place)
    requires SearchFits(rules) && F.Arrives(l, open) && AllPaid(open) && PoolsFit(rules, l, open, at)
    requires NoneMissed(rules, open, at) && M.Tier3(rules, l, open).None?
    ensures NoneMissed(rules, open + {l.(status := Open)}, at)
  {
    hide M.Tier3, SearchFits, PoolsFit, Missed, AllPaid, F.Arrives, SettlesAt;
    forall s, many | SettlesAt(rules, s, at) ensures !Missed(rules, open + {l.(status := Open)}, s, at.source, many) {
      if Missed(rules, open + {l.(status := Open)}, s, at.source, many) { LastAdded(rules, l, open, s, many, at); }
    }
  }

  lemma LastAdded(rules: Rules, l: Leg, open: set<Leg>, s: Leg, many: set<Leg>, at: Place)
    requires SearchFits(rules) && F.Arrives(l, open) && AllPaid(open) && PoolsFit(rules, l, open, at)
    requires SettlesAt(rules, s, at) && Missed(rules, open + {l.(status := Open)}, s, at.source, many)
    requires NoneMissed(rules, open, at)
    ensures M.Tier3(rules, l, open).Some?
  {
    hide M.Tier3, SearchFits, PartsFit, SiblingsFit, SetSum, CouldSettle, AllPaid, F.Arrives, SettlesAt, PartAt;
    var l' := l.(status := Open);
    assert !Missed(rules, open, s, at.source, many);
    PlacedAlike(rules, s, l);
    if s == l' {
      MissedAsSettlement(rules, l, open, at.source, many);
    } else {
      assert l' in many;
      MissedAsPart(rules, l, open, s, many, at);
    }
  }

  lemma FewerMissNothing(rules: Rules, open: set<Leg>, fewer: set<Leg>, at: Place)
    requires NoneMissed(rules, open, at) && fewer <= open
    ensures NoneMissed(rules, fewer, at)
  {
    forall s, many | SettlesAt(rules, s, at) ensures !Missed(rules, fewer, s, at.source, many) {
      assert !Missed(rules, open, s, at.source, many);
    }
  }

  lemma FindsNoTier3(rules: Rules, p: Proj, l: Leg)
    requires Decide(rules, p, l).Wait?
    ensures M.Tier3(rules, l, OpenSet(p)).None?
  {
    hide Related, OpenSet, KnownIn, M.Tier3, M.Tier1, M.Tier2Ref, M.Tier2AmountDate, M.ByRefInWindow, M.Scan;
  }

  lemma StoredPaid(p: Proj)
    requires Inv(p)
    ensures AllPaid(OpenSet(p))
  {
    forall id | id in p.legs ensures p.legs[id].amount > 0 { assert LegPlaced(p, p.legs[id]); }
  }

  lemma SettleMissesNothing(cfg: Config, p: Proj, l: Leg, now: Time, at: Place)
    requires SearchFits(cfg.rules) && Inv(p) && l.id !in p.legs && Arriving(l)
    requires NoneMissed(cfg.rules, OpenSet(p), at)
             && (Decide(cfg.rules, p, l).Wait? ==> PoolsFit(cfg.rules, l, OpenSet(p), at))
    ensures NoneMissed(cfg.rules, OpenSet(Settle(cfg, p, l, now, Decide(cfg.rules, p, l))), at)
  {
    hide Decide, Settle, LegsPlaced, MatchesLinked, BreaksLinked, OneOpenPerRef, Arriving, PoolsFit, NoneMissed,
         Nodes, M.Tier3;
    var open := OpenSet(p);
    var q := Settle(cfg, p, l, now, Decide(cfg.rules, p, l));
    SettleOpens(cfg, p, l, now);
    if Decide(cfg.rules, p, l).Wait? {
      var more := open + {l.(status := Open)};
      FindsNoTier3(cfg.rules, p, l);
      ArrivesOpen(p, l);
      StoredPaid(p);
      WaitingMissesNothing(cfg.rules, l, open, at);
      forall x | x in OpenSet(q) ensures x in more {
        var id :| id in q.legs && q.legs[id].status == Open && q.legs[id] == x;
        assert IsOpen(q, id);
      }
      FewerMissNothing(cfg.rules, more, OpenSet(q), at);
    } else {
      forall x | x in OpenSet(q) ensures x in open {
        var id :| id in q.legs && q.legs[id].status == Open && q.legs[id] == x;
        assert IsOpen(q, id);
      }
      FewerMissNothing(cfg.rules, open, OpenSet(q), at);
    }
  }

  // ---------------------------------------------------------------- whole runs

  /** If the arriving leg is left waiting, the pools searched with it at this place were not capped. */
  ghost predicate RoomyArrival(cfg: Config, p: Proj, arriving: Leg, now: Time, at: Place) {
    var l := Stamp(arriving, now);
    l.id !in p.legs && Decide(cfg.rules, p, l).Wait? ==> PoolsFit(cfg.rules, l, OpenSet(p), at)
  }

  ghost predicate RoomyReplay(cfg: Config, s: State, evs: seq<Event>, clock: nat -> Time, at: Place) {
    evs != [] ==>
      var init, ev := evs[..|evs| - 1], evs[|evs| - 1];
      && RoomyReplay(cfg, s, init, clock, at)
      && (ev.payload.LegIngested? ==>
            RoomyArrival(cfg, ReplayAll(cfg, s, init, clock).p, Redelivered(ev.payload.leg), clock(ev.seqNo), at))
  }

  ghost predicate RoomyStep(cfg: Config, s: State, op: Op, at: Place) {
    match op
    case Arrive(l, now) => RoomyArrival(cfg, s.p, l, now, at)
    case StartReplay(from, now, clock, upTo) =>
      var evs := ReplayRange(s.log, from);
      RoomyReplay(cfg, ReplayBase(s, if from < 1 then 1 else from, now), if upTo < |evs| then evs[..upTo]
          else evs, clock, at)
    case _ => true
  }

  /** No pool searched at this place for a leg that was left waiting was capped at any point of the run. */
  ghost predicate RoomyRun(cfg: Config, ops: seq<Op>, at: Place) {
    ops != [] ==>
      && RoomyRun(cfg, ops[..|ops| - 1], at)
      && RoomyStep(cfg, Run(cfg, INIT, ops[..|ops| - 1]), ops[|ops| - 1], at)
  }

  lemma IngestMissesNothing(cfg: Config, s: State, arriving: Leg, now: Time, replaying: bool, at: Place)
    requires SearchFits(cfg.rules) && Inv(s.p) && Arriving(arriving) && RoomyArrival(cfg, s.p, arriving, now, at)
    requires NoneMissed(cfg.rules, OpenSet(s.p), at)
    ensures NoneMissed(cfg.rules, OpenSet(Ingest(cfg, s, arriving, now, replaying).p), at)
  {
    hide Ingest, Inv, Settle, Decide, Arriving, NoneMissed, OpenSet, PoolsFit, Nodes;
    IngestEffect(cfg, s, arriving, now, replaying);
    StampKeeps(arriving, now);
    if Stamp(arriving, now).id !in s.p.legs { SettleMissesNothing(cfg, s.p, Stamp(arriving, now), now, at); }
  }

  lemma BrokenFewer(p: Proj, b: Break)
    ensures OpenSet(MarkBroken(p, b)) <= OpenSet(p)
  {
  }

  lemma CloseSameOpen(p: Proj, id: Id, reason: string, actor: string, at: Time)
    ensures OpenSet(Close(p, id, reason, actor, at)) == OpenSet(p)
  {
  }

  lemma ReplayOneMissesNothing(cfg: Config, s: State, ev: Event, now: Time, at: Place)
    requires SearchFits(cfg.rules) && GoodState(s) && GoodEvent(ev) && NoneMissed(cfg.rules, OpenSet(s.p), at)
    requires ev.payload.LegIngested? ==> RoomyArrival(cfg, s.p, Redelivered(ev.payload.leg), now, at)
    ensures NoneMissed(cfg.rules, OpenSet(ReplayOne(cfg, s, ev, now).p), at)
  {
    hide Ingest, Inv, Delivered, GoodLog, Numbered, Redelivered, ApplyProj, NoneMissed, OpenSet, RoomyArrival,
         SearchFits;
    match ev.payload
    case LegIngested(l) =>
      RedeliveredSame(l);
      DeliveredArrives(l);
      IngestMissesNothing(cfg, s, l, now, true, at);
    case BreakResolvedBy(id, reason, actor, at, m) =>
      if Reapply(s, ev.payload) != s {
        BreakUnderOwnId(s.p, id);
        ResolveSettles(s.p, id, reason, actor, at, []);
        CloseSameOpen(s.p, id, reason, actor, at);
      }
    case _ =>
  }

  lemma {:induction false} ReplayMissesNothing(cfg: Config, s: State, evs: seq<Event>, clock: nat -> Time, at: Place)
    requires SearchFits(cfg.rules) && GoodState(s) && GoodLog(evs) && Ticks(clock)
             && RoomyReplay(cfg, s, evs, clock, at)
    requires NoneMissed(cfg.rules, OpenSet(s.p), at)
    ensures NoneMissed(cfg.rules, OpenSet(ReplayAll(cfg, s, evs, clock).p), at)
  {
    hide GoodState, ReplayOne, GoodEvent, NoneMissed, OpenSet, RoomyArrival, Nodes, Redelivered;
    if evs != [] {
      var init, ev := evs[..|evs| - 1], evs[|evs| - 1];
      assert GoodLog(init) && GoodEvent(ev);
      ReplayMissesNothing(cfg, s, init, clock, at);
      ReplayAllGood(cfg, s, init, clock);
      ReplayOneMissesNothing(cfg, ReplayAll(cfg, s, init, clock), ev, clock(ev.seqNo), at);
    }
  }

  lemma ExpireMissesNothing(cfg: Config, s: State, id: Id, now: Time, forced: bool, at: Place)
    requires Inv(s.p) && IsOpen(s.p, id) && NoneMissed(cfg.rules, OpenSet(s.p), at)
    ensures NoneMissed(cfg.rules, OpenSet(Expire(cfg, s, s.p.legs[id], now, forced).p), at)
  {
    hide Inv, NoneMissed, OpenSet, NewBreak, Related, ApplyProj, ExpirePlan, MarkBroken;
    var l := s.p.legs[id];
    ExpireOwnId(s.p, id);
    ExpireSettles(cfg, s.p, l, now, forced);
    var b := NewBreak(cfg, WindowExpired, Related(s.p, l.txnRef), [l], now);
    BrokenFewer(s.p, b);
    FewerMissNothing(cfg.rules, OpenSet(s.p), OpenSet(MarkBroken(s.p, b)), at);
  }

  lemma StepMissesNothing(cfg: Config, s: State, op: Op, at: Place)
    requires SearchFits(cfg.rules) && GoodState(s) && GoodOp(op) && GoodClock(op) && RoomyStep(cfg, s, op, at)
    requires NoneMissed(cfg.rules, OpenSet(s.p), at)
    ensures NoneMissed(cfg.rules, OpenSet(Step(cfg, s, op).p), at)
  {
    hide Ingest, Inv, Delivered, GoodLog, Numbered, ReplayAll, ReplayBase, ApplyProj, Ticks, NoneMissed, OpenSet,
         RoomyArrival, Expire, RoomyReplay, SearchFits;
    match op
    case Arrive(l, now) =>
      DeliveredArrives(l);
      IngestMissesNothing(cfg, s, l, now, false, at);
    case ExpireLeg(id, now, forced) =>
      if IsOpen(s.p, id) { ExpireMissesNothing(cfg, s, id, now, forced, at); }
    case CloseWindow(n, olderThan, now) => NoteSettles(s.p, [Entry(now, WindowClosed(n, olderThan))]);
    case ResolveBreak(id, reason, actor, now) =>
      if Resolvable(s.p, id, reason, actor) {
        BreakUnderOwnId(s.p, id);
        ResolveSettles(s.p, id, reason, actor, now, [Entry(now, BreakResolvedBy(id, reason, actor, now, ""))]);
        CloseSameOpen(s.p, id, reason, actor, now);
      }
    case StartReplay(from, now, clock, upTo) =>
      var evs := ReplayRange(s.log, from);
      var part := if upTo < |evs| then evs[..upTo] else evs;
      var lo := if from < 1 then 1 else from;
      GoodPart(s.log, part);
      BaseGood(s, lo, now);
      BaseMissesNothing(cfg, s, lo, now, at);
      ReplayMissesNothing(cfg, ReplayBase(s, lo, now), part, clock, at);
    case AbandonReplay(from, now) => NoteSettles(s.p,
        [Entry(now, ReplayStarted(if from < 1 then 1 else from, |s.log|))]);
  }

  lemma BaseMissesNothing(cfg: Config, s: State, from: nat, now: Time, at: Place)
    ensures NoneMissed(cfg.rules, OpenSet(ReplayBase(s, from, now).p), at)
  {
    assert OpenSet(EMPTY) == {};
  }

  lemma {:induction false} RunMissesNothing(cfg: Config, ops: seq<Op>, at: Place)
    requires SearchFits(cfg.rules) && GoodOps(ops) && GoodClocks(ops) && RoomyRun(cfg, ops, at)
    ensures NoneMissed(cfg.rules, OpenSet(Run(cfg, INIT, ops).p), at)
  {
    hide GoodState, Step, NoneMissed, OpenSet, RoomyStep, Nodes;
    if ops == [] {
      InitMissesNothing(cfg, at);
    } else {
      var init, op := ops[..|ops| - 1], ops[|ops| - 1];
      assert op in ops && GoodOp(op) && GoodClock(op);
      RunMissesNothing(cfg, init, at);
      RunGood(cfg, init);
      StepMissesNothing(cfg, Run(cfg, INIT, init), op, at);
    }
  }

  lemma InitMissesNothing(cfg: Config, at: Place)
    ensures NoneMissed(cfg.rules, OpenSet(INIT.p), at)
  {
    assert OpenSet(EMPTY) == {};
  }

  /**
   In every reachable state, if the rules keep the search within its node budget and no pool searched
   for parts of source `src` at the place of settlement leg `s` was capped, no open legs of `src` sum to `s`.
   */
  lemma NoSettlementMissed(cfg: Config, ops: seq<Op>, s: Leg, src: string, many: set<Leg>)
    requires SearchFits(cfg.rules) && GoodOps(ops) && GoodClocks(ops) && RoomyRun(cfg, ops, PlaceOf(s, src))
    ensures !Missed(cfg.rules, OpenSet(Run(cfg, INIT, ops).p), s, src, many)
  {
    hide Run, OpenSet, RoomyRun, Missed, SearchFits;
    RunMissesNothing(cfg, ops, PlaceOf(s, src));
    assert SettlesAt(cfg.rules, s, PlaceOf(s, src));
  }

  /** The default rules qualify: 24 candidates and subsets of 6 stay within the budget. */
  lemma NoSettlementMissedByDefault(cfg: Config, ops: seq<Op>, s: Leg, src: string, many: set<Leg>)
    requires cfg.rules == Rules(10, 2, 2, 24, 6, true)
    requires GoodOps(ops) && GoodClocks(ops) && RoomyRun(cfg, ops, PlaceOf(s, src))
    ensures !Missed(cfg.rules, OpenSet(Run(cfg, INIT, ops).p), s, src, many)
  {
    hide Nodes, RoomyRun, Run, Missed, OpenSet;
    DefaultSearchFits();
    NoSettlementMissed(cfg, ops, s, src, many);
  }
}
