/**
 The engine as it runs: a single writer over the store that keeps the open-leg index in step.
 Every method is proved against the transitions of `Reconciliation`; a failed apply changes nothing.
 */
module ReconEngine {
  import opened Sequences
  import opened Domain
  import opened Identity
  import opened Persistence
  import opened OpenIndex
  import opened Reconciliation
  import opened ExactlyOnce
  import opened Calls
  import Runs
  import EventSourcing
  import Lifecycle
  import Transitions
  import O = Outcomes
  import R = ReplayTheorems
  import Matcher
  import M = Matching
  import Q = OpenLegs
  import F = MatchingFacts

  // ---------------------------------------------------------------- the index after a change set

  /** Applying legs with distinct ids overwrites exactly those ids. */
  lemma {:induction false} UpsertOverwrites(p: Proj, legs: seq<Leg>)
    requires NoDup(M.LegIds(legs))
    ensures var q := UpsertAll(p, legs);
            && (forall id :: id in q.legs <==> id in p.legs || id in M.LegIds(legs))
            && (forall x :: x in legs ==> x.id in q.legs && q.legs[x.id] == x)
            && (forall id :: id in p.legs && id !in M.LegIds(legs) ==> id in q.legs && q.legs[id] == p.legs[id])
  {
    if legs != [] {
      var n := |legs| - 1;
      var init := legs[..n];
      var ids, before := M.LegIds(legs), M.LegIds(init);
      assert ids == before + [legs[n].id];
      UpsertOverwrites(p, init);
      forall x | x in init ensures x.id != legs[n].id {
        var i :| 0 <= i < n && init[i] == x;
        assert ids[i] == x.id;
      }
    }
  }

  /** The open legs after a change set: those it did not touch, and those it stores as open. */
  lemma OpenAfter(p: Proj, legs: seq<Leg>)
    requires Coherent(p) && NoDup(M.LegIds(legs))
    ensures OpenSet(UpsertAll(p, legs)) ==
            (set c | c in OpenSet(p) && c.id !in M.LegIds(legs)) + (set c | c in legs && c.status == Open)
  {
    hide UpsertAll;
    UpsertOverwrites(p, legs);
    F.IdMembers(legs);
    var q := UpsertAll(p, legs);
    var target := (set c | c in OpenSet(p) && c.id !in M.LegIds(legs)) + (set c | c in legs && c.status == Open);
    forall x | x in OpenSet(q) ensures x in target {
      var id :| id in q.legs && q.legs[id].status == Open && q.legs[id] == x;
      if id in M.LegIds(legs) {
        var y :| y in legs && y.id == id;
      }
    }
    forall x | x in target ensures x in OpenSet(q) {
      if x in legs { assert q.legs[x.id] == x; } else { assert p.legs[x.id] == x && q.legs[x.id] == x; }
    }
  }

  /** A change set that leaves no leg open removes its legs from the open set. */
  lemma OpenAfterClosing(p: Proj, cs: ChangeSet)
    requires Coherent(p) && NoDup(M.LegIds(cs.legs)) && forall x :: x in cs.legs ==> x.status != Open
    ensures OpenSet(ApplyProj(p, cs)) == set c | c in OpenSet(p) && c.id !in M.LegIds(cs.legs)
  {
    hide UpsertAll;
    OpenAfter(p, cs.legs);
    assert (set c | c in cs.legs && c.status == Open) == {};
    assert OpenSet(ApplyProj(p, cs)) == OpenSet(UpsertAll(p, cs.legs));
  }

  lemma OpenAfterNote(p: Proj, evs: seq<Event>)
    ensures OpenSet(ApplyProj(p, ChangeSet([], [], [], evs))) == OpenSet(p)
  {
    assert UpsertAll(p, []) == p;
  }

  /** Legs in a break are broken and keep their ids. */
  lemma BreakLegs(cfg: Config, cs: ChangeSet, now: Time, trigger: Trigger, related: seq<Leg>, legs: seq<Leg>)
    requires legs != [] && cs.legs == []
    ensures var plan := WithBreak(cfg, cs, now, trigger, related, legs);
            && M.LegIds(plan.legs) == M.LegIds(legs)
            && forall x :: x in plan.legs ==> x.status == Broken
  {
    hide NewBreak;
  }

  lemma OpenAfterBreaks(p: Proj, cs: ChangeSet)
    requires cs.legs == []
    ensures OpenSet(ApplyProj(p, cs)) == OpenSet(p)
  {
    assert UpsertAll(p, []) == p;
  }

  lemma DeliverStep(cfg: Config, s: State, batch: seq<Leg>, i: nat, clock: nat -> Time)
    requires i < |batch|
    ensures Deliver(cfg, s, batch[..i + 1], clock) ==
            Ingest(cfg, Deliver(cfg, s, batch[..i], clock), batch[i], clock(i), false)
  {
    hide Ingest;
    assert batch[..i + 1][..i] == batch[..i];
  }

  lemma ExpireStep(cfg: Config, s: State, due: seq<Leg>, i: nat, now: Time, forced: bool)
    requires i < |due|
    ensures ExpireAll(cfg, s, due[..i + 1], now, forced) ==
            Expire(cfg, ExpireAll(cfg, s, due[..i], now, forced), due[i], now, forced)
  {
    hide Expire;
    assert due[..i + 1][..i] == due[..i];
  }

  lemma ExpireNothing(cfg: Config, s: State, none: seq<Leg>, now: Time, forced: bool)
    requires none == []
    ensures ExpireAll(cfg, s, none, now, forced) == s
  {
  }

  // ---------------------------------------------------------------- counters

  /** The positions whose outcome is among the given ones. */
  ghost function Where(results: seq<IngestResult>, outcomes: set<Outcome>): set<int> {
    set i | 0 <= i < |results| && results[i].outcome in outcomes
  }

  lemma WhereStep(results: seq<IngestResult>, r: IngestResult, outcomes: set<Outcome>)
    ensures |Where(results + [r], outcomes)| == |Where(results, outcomes)| + if r.outcome in outcomes then 1 else 0
  {
    var more := results + [r];
    if r.outcome in outcomes {
      assert Where(more, outcomes) == Where(results, outcomes) + {|results|};
    } else {
      assert Where(more, outcomes) == Where(results, outcomes);
    }
  }

  /** Each counter is the number of results with its outcomes. */
  ghost predicate Counted(results: seq<IngestResult>, matched: nat, breaks: nat, open: nat) {
    && matched == |Where(results, {JoinedMatch, ResolvedBreak})|
    && breaks == |Where(results, {OpenedBreak})|
    && open == |Where(results, {WaitsOpen})|
  }

  lemma CountedStep(results: seq<IngestResult>, r: IngestResult, matched: nat, breaks: nat, open: nat)
    requires Counted(results, matched, breaks, open)
    ensures Counted(results + [r], matched + (if r.outcome == JoinedMatch || r.outcome == ResolvedBreak then 1 else 0),
                    breaks + (if r.outcome == OpenedBreak then 1 else 0),
                    open + (if r.outcome == WaitsOpen then 1 else 0))
  {
    hide Where;
    WhereStep(results, r, {JoinedMatch, ResolvedBreak});
    WhereStep(results, r, {OpenedBreak});
    WhereStep(results, r, {WaitsOpen});
  }

  lemma NothingCounted()
    ensures Counted([], 0, 0, 0) && Where([], {Duplicate}) == {}
  {
  }

  /** What a replay counts: legs handled and their outcomes. */
  datatype Tally = Tally(legs: nat, matched: nat, breaks: nat, open: nat)

  const NO_TALLY := Tally(0, 0, 0, 0)

  function Count(t: Tally, r: IngestResult): Tally {
    var next := t.(legs := t.legs + 1);
    match r.outcome
    case JoinedMatch => next.(matched := t.matched + 1)
    case ResolvedBreak => next.(matched := t.matched + 1)
    case OpenedBreak => next.(breaks := t.breaks + 1)
    case WaitsOpen => next.(open := t.open + 1)
    case Duplicate => next
  }

  /** The tally of replaying `evs` from `s`: every intake counts once, under what was reported for it. */
  ghost function Tallied(cfg: Config, s: State, evs: seq<Event>, clock: nat -> Time): Tally {
    if evs == [] then NO_TALLY
    else
      var init, ev := evs[..|evs| - 1], evs[|evs| - 1];
      CountEvent(cfg, Tallied(cfg, s, init, clock), ReplayAll(cfg, s, init, clock).p, ev, clock(ev.seqNo))
  }

  ghost function CountEvent(cfg: Config, t: Tally, p: Proj, ev: Event, now: Time): Tally {
    if ev.payload.LegIngested? then Count(t, Report(cfg, p, Redelivered(ev.payload.leg), now)) else t
  }

  /** What is reported for the intakes among the replayed events, in order. */
  ghost function Reported(cfg: Config, s: State, evs: seq<Event>, clock: nat -> Time): seq<IngestResult> {
    if evs == [] then []
    else
      var init, ev := evs[..|evs| - 1], evs[|evs| - 1];
      Reported(cfg, s, init, clock) +
      if ev.payload.LegIngested?
      then [Report(cfg, ReplayAll(cfg, s, init, clock).p, Redelivered(ev.payload.leg), clock(ev.seqNo))] else []
  }

  /** The counters of a replay are those of the reports about the replayed intakes, outcome by outcome. */
  lemma {:induction false} TallyCounts(cfg: Config, s: State, evs: seq<Event>, clock: nat -> Time)
    ensures var t, rs := Tallied(cfg, s, evs, clock), Reported(cfg, s, evs, clock);
            t.legs == |rs| && Counted(rs, t.matched, t.breaks, t.open)
  {
    hide ReplayAll, Report, Redelivered, Counted;
    if evs == [] {
      NothingCounted();
    } else {
      var init, ev := evs[..|evs| - 1], evs[|evs| - 1];
      TallyCounts(cfg, s, init, clock);
      if ev.payload.LegIngested? {
        var r := Report(cfg, ReplayAll(cfg, s, init, clock).p, Redelivered(ev.payload.leg), clock(ev.seqNo));
        var t := Tallied(cfg, s, init, clock);
        CountedStep(Reported(cfg, s, init, clock), r, t.matched, t.breaks, t.open);
        assert Tallied(cfg, s, evs, clock) == Count(t, r);
        assert Reported(cfg, s, evs, clock) == Reported(cfg, s, init, clock) + [r];
      } else {
        assert Reported(cfg, s, evs, clock) == Reported(cfg, s, init, clock);
      }
    }
  }

  lemma ReplayStep(cfg: Config, s: State, log: seq<Event>, lo: nat, i: nat, clock: nat -> Time)
    requires lo <= i < |log|
    ensures ReplayAll(cfg, s, log[lo..i + 1], clock) ==
            ReplayOne(cfg, ReplayAll(cfg, s, log[lo..i], clock), log[i], clock(log[i].seqNo))
    ensures Tallied(cfg, s, log[lo..i + 1], clock) ==
            CountEvent(cfg, Tallied(cfg, s, log[lo..i], clock), ReplayAll(cfg, s, log[lo..i], clock).p, log[i],
                clock(log[i].seqNo))
  {
    hide ReplayOne, CountEvent;
    var evs := log[lo..i + 1];
    assert evs[..|evs| - 1] == log[lo..i] && evs[|evs| - 1] == log[i];
  }

  lemma ReplayNothing(cfg: Config, s: State, none: seq<Event>, clock: nat -> Time)
    requires none == []
    ensures ReplayAll(cfg, s, none, clock) == s && Tallied(cfg, s, none, clock) == NO_TALLY
  {
  }

  /** A replay that handled `n` events, spelled out on the log it started from. */
  lemma ReplayEffect(cfg: Config, s: State, from: nat, now: Time, clock: nat -> Time, n: nat)
    requires n <= |Runs.ReplayRange(s.log, from)|
    ensures var lo := if from < 1 then 1 else from;
            var all := Runs.ReplayRange(s.log, from);
            && (lo > |s.log| ==> all == [])
            && (lo <= |s.log| ==> |all| == |s.log| - lo + 1 && UpTo(all, n) == s.log[lo - 1..lo - 1 + n])
            && Effect(cfg, s, Replaying(from, now, clock, n)) ==
                ReplayAll(cfg, ReplayBase(s, lo, now), UpTo(all, n), clock)
  {
    hide ReplayAll, ReplayBase;
  }

  lemma AbandonEffect(cfg: Config, s: State, from: nat, now: Time)
    ensures Effect(cfg, s, Abandoned(from, now)) == ApplyTo(s, ReplayNote(if from < 1 then 1 else from, |s.log|, now))
  {
  }

  lemma EmptyOpen()
    ensures OpenSet(EMPTY) == {}
  {
  }

  lemma BaseQuiet(s: State, lo: nat, now: Time)
    ensures R.ExtendsQuietly(s.log, ReplayBase(s, lo, now).log)
  {
    R.QuietSelf(s.log);
    R.QuietAppend(s.log, s.log, ReplayNote(lo, |s.log|, now).events);
  }

  /** A replay only ever extends the log it started from. */
  lemma LogKept(cfg: Config, s: State, evs: seq<Event>, clock: nat -> Time, log: seq<Event>)
    requires R.ExtendsQuietly(log, s.log)
    ensures log <= ReplayAll(cfg, s, evs, clock).log
  {
    hide ReplayAll;
    R.ReplayQuiet(cfg, s, evs, clock, log);
  }

  const PAGE := 500

  /** The page starts at event number `first` and agrees with the old log as far as that reaches. */
  ghost predicate IsPage(page: seq<Event>, log: seq<Event>, first: nat)
    requires 1 <= first
  {
    forall k :: 0 <= k < |page| ==> page[k].seqNo == first + k && (first + k <= |log| ==> page[k] == log[first - 1 + k])
  }

  /** A page read from the grown log: never empty, and a short one reaches the end of the old log. */
  lemma PageFacts(events: seq<Event>, page: seq<Event>, log: seq<Event>, first: nat)
    requires log <= events && Numbered(events) && 1 <= first <= |log| && page <= events[first - 1..]
    requires |page| == if |events| - first + 1 > PAGE then PAGE else |events| - first + 1
    ensures IsPage(page, log, first) && |page| > 0 && (|page| < PAGE ==> first - 1 + |page| >= |log|)
  {
    forall k | 0 <= k < |page|
      ensures page[k].seqNo == first + k && (first + k <= |log| ==> page[k] == log[first - 1 + k])
    {
      assert page[k] == events[first - 1..][k] == events[first - 1 + k];
    }
  }

  lemma ConsIds(x: Leg, rest: seq<Leg>)
    ensures M.LegIds([x] + rest) == [x.id] + M.LegIds(rest)
  {
  }

  lemma JoinLegs(p: Proj, l: Leg, m: Match)
    requires Coherent(p) && l.id !in p.legs && NoDup(m.legIds) && l.id in m.legIds
    requires forall id :: id in m.legIds && id != l.id ==> id in p.legs
    ensures var legs := [l.(status := Matched, matchId := m.id)] + Partners(p.legs, m.legIds, l.id, m.id);
            && NoDup(M.LegIds(legs))
            && (forall id :: id in M.LegIds(legs) <==> id in m.legIds)
            && forall x :: x in legs ==> x.status == Matched
  {
    hide Partners, M.LegIds;
    EventSourcing.PartnersFacts(p.legs, m.legIds, l.id, m.id);
    ConsIds(l.(status := Matched, matchId := m.id), Partners(p.legs, m.legIds, l.id, m.id));
  }

  /** The match a tier found names the arriving leg and open legs, each once. */
  lemma FoundLegs(rules: Rules, p: Proj, l: Leg, m: Match)
    requires rules.Valid() && Coherent(p) && l.id !in p.legs && M.Find(rules, l, OpenSet(p), KnownIn(p)) == Some(m)
    ensures NoDup(m.legIds) && l.id in m.legIds
    ensures forall id :: id in m.legIds && id != l.id ==> id in p.legs && p.legs[id] in OpenSet(p)
  {
    hide M.Find, F.Balances, F.LegsOf;
    OpenSetDistinct(p);
    var g := F.FindBalances(rules, l, OpenSet(p), KnownIn(p));
    F.GroundsIds(rules, m, g);
    forall id | id in m.legIds && id != l.id ensures id in p.legs && p.legs[id] in OpenSet(p) {
      var x :| x in F.LegsOf(g) && x.id == id;
    }
  }

  lemma PartnerLegs(p: Proj, l: Leg, partners: seq<Leg>)
    requires Coherent(p) && l.id !in p.legs && partners == Q.ByRef(OpenSet(p), l)
    ensures NoDup(M.LegIds([l] + partners))
    ensures forall x :: x in partners ==> x in OpenSet(p)
  {
    hide Q.Listing, M.LegIds, OpenSet;
    OpenSetDistinct(p);
    Q.ListingFacts(set c | c in OpenSet(p) && c.txnRef == l.txnRef && c.id != l.id);
    F.IdsNoDup(partners, OpenSet(p));
    ConsIds(l, partners);
    F.IdMembers(partners);
    FreshHead(l.id, M.LegIds(partners));
  }

  lemma FreshHead(id: Id, ids: seq<Id>)
    requires NoDup(ids) && id !in ids
    ensures NoDup([id] + ids)
  {
  }

  /** The open legs that leave with a ref conflict are exactly the partners. */
  lemma SameRefGone(p: Proj, l: Leg, partners: seq<Leg>)
    requires Coherent(p) && l.id !in p.legs
    ensures forall c :: c in OpenSet(p) ==> (c.id in M.LegIds(partners) <==> c.id in M.LegIds([l] + partners))
  {
    ConsIds(l, partners);
  }

  lemma AloneGone(p: Proj, l: Leg)
    requires Coherent(p) && l.id !in p.legs
    ensures NoDup(M.LegIds([l])) && forall c :: c in OpenSet(p) ==> (c.id in [] <==> c.id in M.LegIds([l]))
  {
    assert M.LegIds([l]) == [l.id];
  }

  lemma LateGone(p: Proj, l: Leg, r: Leg, m: Match)
    requires Coherent(p) && l.id !in p.legs && r.id in p.legs && p.legs[r.id] == r && r.status == Broken
    ensures var legs := [l.(status := Matched, matchId := m.id), r.(status := Matched, matchId := m.id, breakId := "")];
            && NoDup(M.LegIds(legs))
            && forall c :: c in OpenSet(p) ==> (c.id in [] <==> c.id in M.LegIds(legs))
  {
    var legs := [l.(status := Matched, matchId := m.id), r.(status := Matched, matchId := m.id, breakId := "")];
    assert M.LegIds(legs) == [l.id, r.id];
  }

  lemma RelatedStored(rules: Rules, p: Proj, l: Leg, r: Leg)
    requires Coherent(p) && First(Related(p, l.txnRef), HealedBy(rules, p.breaks, l)) == Some(r)
    ensures r.id in p.legs && p.legs[r.id] == r && Heals(rules, p.breaks, l, r)
  {
    hide Lookup;
    var related := Related(p, l.txnRef);
    var i := FirstPosition(related, HealedBy(rules, p.breaks, l));
    assert related[i] in related;
    Transitions.LookupMembers(p.legs, RefIds(p, l.txnRef));
    var id :| id in RefIds(p, l.txnRef) && id in p.legs && p.legs[id] == r;
  }

  lemma NewBreakId(cfg: Config, trigger: Trigger, related: seq<Leg>, legs: seq<Leg>, now: Time)
    requires legs != []
    ensures NewBreak(cfg, trigger, related, legs, now).id == DeriveId(BREAK_PREFIX, M.LegIds(legs))
  {
    hide DeriveId;
  }

  /** The order in which a decision is reached. */
  lemma DecideOrder(rules: Rules, p: Proj, l: Leg)
    ensures var related := Related(p, l.txnRef);
            var m := M.Find(rules, l, OpenSet(p), KnownIn(p));
            var partners := Q.ByRef(OpenSet(p), l);
            var late := First(related, HealedBy(rules, p.breaks, l));
            Decide(rules, p, l) ==
              if First(related, Reuses(l)).Some? then Reused
              else if m.Some? then Join(m.value)
              else if |partners| > 0 then Conflict(partners)
              else if late.Some? then Heal(late.value)
              else if First(related, M.NotOfSource(l.source)).Some? then Orphan
              else Wait
  {
    hide Related, M.Find, OpenSet, KnownIn, Q.ByRef, First;
  }

  lemma KnownInIs(p: Proj)
    ensures KnownIn(p) == KnownAmong(p.legs, p.byRef)
  {
  }

  lemma WaitPlan(cfg: Config, p: Proj, l: Leg, now: Time, replaying: bool)
    ensures Plan(cfg, p, l, now, replaying, Wait) == Intake(l, now, replaying).(legs := [l.(status := Open)])
    ensures Told(cfg, l, now, Wait) == IngestResult(l.id, WaitsOpen, "", "", None)
  {
  }

  /** Validation of an incoming leg; trimming and case folding are taken as done. */
  predicate ValidLeg(l: Leg) {
    && !Blank(l.source) && !Blank(l.txnRef) && !Blank(l.counterparty)
    && l.amount > 0 && l.valueDate != 0
    && |l.currency| == 3 && forall c :: c in l.currency ==> 'A' <= c <= 'Z'
  }

  predicate Blank(s: string) { forall c :: c in s ==> c == ' ' || c == '\t' || c == '\n' || c == '\r' }

  /**
   What validation asks of a leg: names that are not blank, a positive amount, a value date, a currency
   of three capital letters.
   */
  ghost predicate Acceptable(l: Leg) {
    && Legible(l.source) && Legible(l.txnRef) && Legible(l.counterparty)
    && l.amount >= 1 && l.valueDate != 0
    && Code(l.currency)
  }

  ghost predicate Legible(s: string) { exists c :: c in s && c != ' ' && c != '\t' && c != '\n' && c != '\r' }

  ghost predicate Code(s: string) {
    exists a: char, b: char, c: char :: s == [a, b, c] && Capital(a) && Capital(b) && Capital(c)
  }

  ghost predicate Capital(c: char) { 'A' <= c <= 'Z' }

  lemma CodeIff(s: string)
    ensures Code(s) <==> |s| == 3 && forall c :: c in s ==> 'A' <= c <= 'Z'
  {
    if |s| == 3 && forall c :: c in s ==> 'A' <= c <= 'Z' {
      assert s == [s[0], s[1], s[2]] && s[0] in s && s[1] in s && s[2] in s;
      assert Capital(s[0]) && Capital(s[1]) && Capital(s[2]);
    }
  }

  lemma ValidIff(l: Leg)
    ensures ValidLeg(l) <==> Acceptable(l)
  {
    BlankIff(l.source);
    BlankIff(l.txnRef);
    BlankIff(l.counterparty);
    CodeIff(l.currency);
  }

  lemma BlankIff(s: string)
    ensures Blank(s) <==> !Legible(s)
  {
  }

  /** The batch with derived ids assigned. */
  ghost function Identified(legs: seq<Leg>): (r: seq<Leg>)
    ensures |r| == |legs| && forall i :: 0 <= i < |r| ==> r[i] == legs[i].(id := IdOf(legs[i]))
  {
    seq(|legs|, i requires 0 <= i < |legs| => legs[i].(id := IdOf(legs[i])))
  }

  /** A batch that validation accepts is what the theorems about runs ask of a call. */
  lemma AcceptedIsGood(legs: seq<Leg>, clock: nat -> Time, upTo: nat)
    requires forall l :: l in legs ==> Acceptable(l) && CleanText(l) && l == l.Unplaced()
    requires Runs.Ticks(clock)
    ensures GoodCall(Batch(Identified(legs), clock, upTo))
  {
    hide IdOf, CleanText;
    var batch := Identified(legs);
    forall l | l in batch ensures Runs.Delivered(l) {
      var i :| 0 <= i < |batch| && batch[i] == l;
      assert legs[i] in legs;
      ValidIff(legs[i]);
      IdOfContent(legs[i], l);
      IdNulFree(legs[i]);
      SameText(legs[i], l);
    }
  }

  lemma SameText(a: Leg, b: Leg)
    requires CleanText(a) && SameContent(a, b)
    ensures CleanText(b)
  {
  }

  datatype BatchResult = BatchResult(accepted: nat, duplicates: nat, matched: nat, breaks: nat, open: nat,
      results: seq<IngestResult>)

  datatype IngestError = InvalidLeg | Interrupted

  datatype ResolveError = MissingReasonOrActor | BreakNotFound | AlreadyResolved | NotPersisted

  datatype ReplayResult = ReplayResult(fromSeq: nat, throughSeq: nat, eventsRead: nat, tally: Tally)

  const NO_RESULT := ReplayResult(0, 0, 0, NO_TALLY)

  class Engine {
    const cfg: Config
    const ttl: nat
    const store: Store
    var ix: Index
    var replaying: bool

    /** Index and store agree: the index holds exactly the stored open legs. */
    ghost predicate Valid()
      reads this, store, ix
    {
      && cfg.rules.Valid() && store.Valid() && ix.Valid() && ix.ttl == ttl
      && ix.Contents() == OpenSet(store.Projections())
    }

    /** The index starts empty: over a store that already holds open legs `Rebuild` has to follow. */
    constructor (store: Store, cfg: Config, ttl: nat)
      requires cfg.rules.Valid() && store.Valid()
      ensures this.store == store && this.cfg == cfg && this.ttl == ttl && !replaying && fresh(ix)
      ensures Valid() <==> OpenSet(store.Projections()) == {}
    {
      this.cfg, this.ttl, this.store, this.replaying := cfg, ttl, store, false;
      ix := new Index(ttl);
    }

    /** Wires an engine, or refuses rules and window lengths the engine cannot work with. */
    static method Create(store: Store, cfg: Config, ttl: int) returns (e: Option<Engine>)
      requires store.Valid()
      ensures var r := cfg.rules;
              e.Some? <==>
                && 0 <= r.toleranceBps <= 10_000 && r.toleranceAbs >= 0 && 0 <= r.windowDays <= 365
                && 2 <= r.t3MaxCandidates <= 64 && 2 <= r.t3MaxSubset <= 12 && ttl > 0
      ensures e.Some? ==>
                && fresh(e.value) && e.value.store == store && e.value.cfg == cfg && e.value.ttl == ttl
                && !e.value.replaying
                && (e.value.Valid() <==> OpenSet(store.Projections()) == {})
    {
      if !cfg.rules.Valid() || ttl <= 0 { return None; }
      var engine := new Engine(store, cfg, ttl);
      e := Some(engine);
    }

    /** Process start or recovery: whatever the index held, it is rebuilt from the stored open legs. */
    method Rebuild()
      requires cfg.rules.Valid() && store.Valid()
      modifies this`ix
      ensures Valid() && fresh(ix)
    {
      var legs := store.OpenLegs();
      var fresh_ := new Index(ttl);
      OpenSetDistinct(store.Projections());
      for i := 0 to |legs|
        invariant fresh_.Valid() && fresh_.Contents() == SetOf(legs[..i]) && fresh(fresh_) && fresh_.ttl == ttl
      {
        forall c | c in fresh_.Contents() ensures c.id != legs[i].id {
          var j :| 0 <= j < i && legs[j] == c;
          assert legs[i] in SetOf(legs) && legs[j] in SetOf(legs);
        }
        fresh_.Add(legs[i]);
        assert legs[..i + 1] == legs[..i] + [legs[i]];
      }
      assert legs[..|legs|] == legs;
      ix := fresh_;
    }

    // -------------------------------------------------------------- pieces of one ingest step

    /** Classifies and records a break, leg by leg. */
    method OpenBreak(cs: ChangeSet, now: Time, trigger: Trigger, related: seq<Leg>, legs: seq<Leg>)
        returns (out: ChangeSet, b: Break)
      requires legs != []
      ensures out == WithBreak(cfg, cs, now, trigger, related, legs) && b == NewBreak(cfg, trigger, related, legs, now)
    {
      hide DeriveId;
      var c := cfg.classify(ClassifyInput(legs, related, trigger, cfg.rules));
      var ids := [];
      for i := 0 to |legs|
        invariant ids == M.LegIds(legs[..i])
      {
        ids := ids + [legs[i].id];
      }
      assert legs[..|legs|] == legs;
      b := Break(DeriveId(BREAK_PREFIX, ids), ids, legs[0].currency, legs[0].counterparty, c.category, c.confidence,
                 c.classifierId, trigger, BreakOpen, now, None, c.evidence, "");
      var broken := [];
      for i := 0 to |legs|
        invariant broken == AsBroken(legs[..i], b.id)
      {
        broken := broken + [legs[i].(status := Broken, breakId := b.id)];
      }
      out := cs.(legs := cs.legs + broken, breaks := cs.breaks + [b],
          events := cs.events + [Entry(now, BreakOpened(b))]);
    }

    /** Whether this source already used the txn_ref with other content. */
    method Reused(l: Leg, related: seq<Leg>) returns (r: bool)
      ensures r <==> First(related, Reuses(l)).Some?
    {
      for i := 0 to |related|
        invariant forall j :: 0 <= j < i ==> !Reuses(l)(related[j])
      {
        if related[i].source == l.source && related[i].id != l.id {
          FirstAt(related, Reuses(l), i);
          return true;
        }
      }
      FirstNone(related, Reuses(l));
      return false;
    }

    method ReportedElsewhere(l: Leg, related: seq<Leg>) returns (r: bool)
      ensures r <==> First(related, M.NotOfSource(l.source)).Some?
    {
      for i := 0 to |related|
        invariant forall j :: 0 <= j < i ==> !M.NotOfSource(l.source)(related[j])
      {
        if related[i].source != l.source {
          FirstAt(related, M.NotOfSource(l.source), i);
          return true;
        }
      }
      FirstNone(related, M.NotOfSource(l.source));
      return false;
    }

    /** The first related leg that waits alone in an open break and fits the late arrival. */
    method FindLate(l: Leg, related: seq<Leg>) returns (r: Option<Leg>)
      ensures r == First(related, HealedBy(cfg.rules, store.breaks, l))
    {
      ghost var fits := HealedBy(cfg.rules, store.breaks, l);
      for i := 0 to |related|
        invariant forall j :: 0 <= j < i ==> !fits(related[j])
      {
        var c := related[i];
        if c.source == l.source || c.status != Broken || c.breakId == "" { continue; }
        if !cfg.rules.WithinTolerance(l.amount, c.amount) || c.currency != l.currency { continue; }
        var b := store.GetBreak(c.breakId);
        if b.None? || b.value.status != BreakOpen || |b.value.legIds| != 1 { continue; }
        FirstAt(related, fits, i);
        return Some(c);
      }
      FirstNone(related, fits);
      return None;
    }

    /** The legs of a match, read back from the index and marked. */
    method MatchedLegs(l: Leg, m: Match) returns (legs: seq<Leg>)
      requires Valid() && l.id !in store.legs && NoDup(m.legIds)
      requires forall id :: id in m.legIds && id != l.id ==>
               id in store.legs && store.legs[id] in OpenSet(store.Projections())
      ensures legs == [l.(status := Matched, matchId := m.id)] + Partners(store.legs, m.legIds, l.id, m.id)
    {
      legs := [l.(status := Matched, matchId := m.id)];
      for i := 0 to |m.legIds|
        invariant legs == [l.(status := Matched, matchId := m.id)] + Partners(store.legs, m.legIds[..i], l.id, m.id)
      {
        var id := m.legIds[i];
        assert m.legIds[..i + 1][..i] == m.legIds[..i];
        if id == l.id { continue; }
        var p := ix.Get(id);
        assert store.legs[id] in ix.Contents() && store.legs[id].id == id;
        legs := legs + [p.value.(status := Matched, matchId := m.id)];
      }
      assert m.legIds[..|m.legIds|] == m.legIds;
    }

    /** Persists a change set that leaves no leg open and takes its legs out of the index. */
    method Settle(cs: ChangeSet, gone: seq<Id>) returns (ok: bool)
      requires Valid() && NoDup(M.LegIds(cs.legs)) && forall x :: x in cs.legs ==> x.status != Open
      requires forall c :: c in ix.Contents() ==> (c.id in gone <==> c.id in M.LegIds(cs.legs))
      modifies store, ix
      ensures Valid()
      ensures store.Contents() == if ok then ApplyTo(old(store.Contents()), cs) else old(store.Contents())
    {
      hide ApplyProj, AppendEvents, M.LegIds;
      ghost var p := store.Projections();
      OpenAfterClosing(p, cs);
      ok := store.Apply(cs);
      if !ok { return; }
      ghost var open := ix.Contents();
      ix.Remove(gone);
      assert ix.Contents() == set c | c in open && c.id !in M.LegIds(cs.legs);
    }

    method SettleBreak(cs: ChangeSet, now: Time, trigger: Trigger, related: seq<Leg>, legs: seq<Leg>, gone: seq<Id>)
      returns (ok: bool, b: Break)
      requires Valid() && legs != [] && NoDup(M.LegIds(legs)) && cs.legs == []
      requires forall c :: c in ix.Contents() ==> (c.id in gone <==> c.id in M.LegIds(legs))
      modifies store, ix
      ensures Valid() && b == NewBreak(cfg, trigger, related, legs, now)
      ensures store.Contents() ==
              if ok then ApplyTo(old(store.Contents()), WithBreak(cfg, cs, now, trigger, related, legs))
                  else old(store.Contents())
    {
      hide ApplyProj, AppendEvents, M.LegIds, WithBreak, NewBreak, OpenSet;
      var plan;
      plan, b := OpenBreak(cs, now, trigger, related, legs);
      BreakLegs(cfg, cs, now, trigger, related, legs);
      ok := Settle(plan, gone);
    }

    /** Step 4: a late arrival takes its partner out of a single-leg break. */
    method SettleLate(l: Leg, now: Time, related: seq<Leg>, cs: ChangeSet, r: Leg) returns (ok: bool, res: IngestResult)
      requires Valid() && l.id !in store.legs && cs == Intake(l, now, replaying)
      requires r.id in store.legs && store.legs[r.id] == r && Heals(cfg.rules, store.breaks, l, r)
      modifies store, ix
      ensures Valid()
      ensures !ok ==> store.Contents() == old(store.Contents())
      ensures ok ==> && store.Contents() == ApplyTo(old(store.Contents()),
              Plan(cfg, old(store.Projections()), l, now, replaying, Heal(r)))
                     && res == Told(cfg, l, now, Heal(r))
    {
      hide ApplyProj, AppendEvents, Related, DeriveId;
      var b := store.GetBreak(r.breakId);
      var m := M.Pair(l, r, TierTolerant, T2Late,
          TolerantConfidence(r.amount - l.amount, cfg.rules.Tolerance(l.amount)) - 50).(matchedAt := now);
      var closed := b.value.(status := BreakResolved, resolvedAt := Some(now), reason := LATE_REASON,
          actor := SYSTEM_ACTOR);
      var plan := cs.(legs := [l.(status := Matched, matchId := m.id),
          r.(status := Matched, matchId := m.id, breakId := "")],
                      matches := [m], breaks := [closed],
                      events := cs.events + [Entry(now, MatchCreated(m)),
                                             Entry(now, BreakResolvedBy(closed.id, closed.reason, closed.actor, now,
                                                 m.id))]);
      LateGone(store.Projections(), l, r, m);
      ok := Settle(plan, []);
      res := IngestResult(l.id, ResolvedBreak, m.id, closed.id, Some(m.rule));
    }

    /** Step 6: the leg waits in the window. */
    method SettleWait(l: Leg, cs: ChangeSet) returns (ok: bool)
      requires Valid() && l.id !in store.legs && cs.legs == [] && cs.matches == [] && cs.breaks == []
      modifies store, ix
      ensures Valid()
      ensures store.Contents() == if ok then ApplyTo(old(store.Contents()), cs.(legs := [l.(status := Open)]))
              else old(store.Contents())
    {
      hide AppendEvents, UpsertAll;
      var waiting := l.(status := Open);
      ghost var p := store.Projections();
      assert M.LegIds([waiting]) == [l.id];
      OpenAfter(p, [waiting]);
      ok := store.Apply(cs.(legs := [waiting]));
      if !ok { return; }
      ghost var open := ix.Contents();
      ix.Add(waiting);
      assert (set c | c in open && c.id !in [l.id]) == open;
      assert (set c | c in [waiting] && c.status == Open) == {waiting};
    }

    /** Step 3: a definite break with the open partners. */
    method SettleConflict(l: Leg, now: Time, related: seq<Leg>, cs: ChangeSet, partners: seq<Leg>)
        returns (ok: bool, r: IngestResult)
      requires Valid() && l.id !in store.legs && related == Related(store.Projections(), l.txnRef)
               && cs == Intake(l, now, replaying)
      requires NoDup(M.LegIds([l] + partners))
      modifies store, ix
      ensures Valid()
      ensures !ok ==> store.Contents() == old(store.Contents())
      ensures ok ==> && store.Contents() == ApplyTo(old(store.Contents()),
              Plan(cfg, old(store.Projections()), l, now, replaying, Conflict(partners)))
                     && r == Told(cfg, l, now, Conflict(partners))
    {
      hide ApplyProj, AppendEvents, M.LegIds, Related, NewBreak, OpenSet, DeriveId, WithBreak;
      var b;
      SameRefGone(store.Projections(), l, partners);
      ok, b := SettleBreak(cs, now, RefConflict, related, [l] + partners, M.LegIds(partners));
      NewBreakId(cfg, RefConflict, related, [l] + partners, now);
      r := IngestResult(l.id, OpenedBreak, "", b.id, None);
    }

    /** Steps 1 and 5: the leg alone opens a break. */
    method SettleAlone(l: Leg, now: Time, related: seq<Leg>, cs: ChangeSet, d: Decision)
        returns (ok: bool, r: IngestResult)
      requires Valid() && l.id !in store.legs && related == Related(store.Projections(), l.txnRef)
               && cs == Intake(l, now, replaying)
      requires d.Reused? || d.Orphan?
      modifies store, ix
      ensures Valid()
      ensures !ok ==> store.Contents() == old(store.Contents())
      ensures ok ==> && store.Contents() == ApplyTo(old(store.Contents()),
              Plan(cfg, old(store.Projections()), l, now, replaying, d))
                     && r == Told(cfg, l, now, d)
    {
      hide ApplyProj, AppendEvents, M.LegIds, Related, NewBreak, OpenSet, DeriveId, WithBreak;
      var b;
      var trigger := if d.Reused? then DuplicateRef else RefConflict;
      AloneGone(store.Projections(), l);
      ok, b := SettleBreak(cs, now, trigger, related, [l], []);
      NewBreakId(cfg, trigger, related, [l], now);
      r := IngestResult(l.id, OpenedBreak, "", b.id, None);
    }

    /** Step 2: the arriving leg joins a match. */
    method SettleJoin(l: Leg, now: Time, cs: ChangeSet, found: Match) returns (ok: bool, r: IngestResult)
      requires Valid() && l.id !in store.legs && cs == Intake(l, now, replaying)
      requires M.Find(cfg.rules, l, OpenSet(store.Projections()), KnownIn(store.Projections())) == Some(found)
      modifies store, ix
      ensures Valid()
      ensures !ok ==> store.Contents() == old(store.Contents())
      ensures ok ==> && store.Contents() == ApplyTo(old(store.Contents()),
              Plan(cfg, old(store.Projections()), l, now, replaying, Join(found)))
                     && r == Told(cfg, l, now, Join(found))
    {
      hide ApplyProj, AppendEvents, M.LegIds, Related, DeriveId, M.Find, KnownIn, Partners;
      ghost var p := store.Projections();
      FoundLegs(cfg.rules, p, l, found);
      var m := found.(matchedAt := now);
      var legs := MatchedLegs(l, m);
      JoinLegs(p, l, m);
      var plan := cs.(legs := legs, matches := [m], events := cs.events + [Entry(now, MatchCreated(m))]);
      ok := Settle(plan, m.legIds);
      r := IngestResult(l.id, JoinedMatch, m.id, "", Some(m.rule));
    }

    /** Steps 3 to 6, once the txn_ref is not re-used and no tier matched. */
    method IngestUnmatched(l: Leg, now: Time, related: seq<Leg>, cs: ChangeSet) returns (ok: bool, r: IngestResult)
      requires Valid() && l.id !in store.legs && related == Related(store.Projections(), l.txnRef)
               && cs == Intake(l, now, replaying)
      requires !Decide(cfg.rules, store.Projections(), l).Reused? && !Decide(cfg.rules, store.Projections(), l).Join?
      modifies store, ix
      ensures Valid()
      ensures !ok ==> store.Contents() == old(store.Contents())
      ensures var d := Decide(cfg.rules, old(store.Projections()), l);
              ok ==> && store.Contents() == ApplyTo(old(store.Contents()),
                  Plan(cfg, old(store.Projections()), l, now, replaying, d))
                     && r == Told(cfg, l, now, d)
    {
      hide ApplyTo, Related, Decide, Plan, Told, OpenSet, M.Find, KnownIn, First, Q.ByRef, Coherent, OwnIds, Numbered;
      ghost var p := store.Projections();
      DecideOrder(cfg.rules, p, l);
      var partners := ix.ByRef(l);
      if |partners| > 0 {
        PartnerLegs(p, l, partners);
        ok, r := SettleConflict(l, now, related, cs, partners);
        return;
      }
      var late := FindLate(l, related);
      if late.Some? {
        RelatedStored(cfg.rules, p, l, late.value);
        ok, r := SettleLate(l, now, related, cs, late.value);
        return;
      }
      var elsewhere := ReportedElsewhere(l, related);
      if elsewhere {
        ok, r := SettleAlone(l, now, related, cs, Orphan);
        return;
      }
      WaitPlan(cfg, p, l, now, replaying);
      ok := SettleWait(l, cs);
      r := IngestResult(l.id, WaitsOpen, "", "", None);
    }

    /** Steps 1 to 6 for a leg that is not stored yet. */
    method IngestNew(l: Leg, now: Time) returns (ok: bool, r: IngestResult)
      requires Valid() && l.id !in store.legs
      modifies store, ix
      ensures Valid()
      ensures !ok ==> store.Contents() == old(store.Contents())
      ensures var d := Decide(cfg.rules, old(store.Projections()), l);
              ok ==> && store.Contents() == ApplyTo(old(store.Contents()),
                  Plan(cfg, old(store.Projections()), l, now, replaying, d))
                     && r == Told(cfg, l, now, d)
    {
      hide ApplyTo, Related, Decide, Plan, Told, OpenSet, M.Find, KnownIn, First, Q.ByRef, Coherent, OwnIds, Numbered;
      ghost var p := store.Projections();
      var related := store.LegsByTxnRef(l.txnRef);
      var cs := Intake(l, now, replaying);
      DecideOrder(cfg.rules, p, l);
      var reused := Reused(l, related);
      if reused {
        ok, r := SettleAlone(l, now, related, cs, Decision.Reused);
        return;
      }
      var m := Matcher.Find(cfg.rules, l, ix, KnownAmong(store.legs, store.byRef));
      KnownInIs(p);
      if m.Some? {
        ok, r := SettleJoin(l, now, cs, m.value);
        return;
      }
      ok, r := IngestUnmatched(l, now, related, cs);
    }

    /** One leg: dedupe, then the six ordered outcomes. A failed apply leaves everything as it was. */
    method IngestOne(arriving: Leg, now: Time) returns (ok: bool, r: IngestResult)
      requires Valid()
      modifies store, ix
      ensures Valid()
      ensures !ok ==> store.Contents() == old(store.Contents())
      ensures ok ==> && store.Contents() == Ingest(cfg, old(store.Contents()), arriving, now, replaying)
                     && r == Report(cfg, old(store.Projections()), arriving, now)
    {
      hide ApplyProj, AppendEvents, Decide, Plan, Told, OpenSet, Coherent, OwnIds, Numbered;
      var l := if arriving.ingestedAt == ZERO_TIME then arriving.(ingestedAt := now) else arriving;
      var seen := store.HasLeg(l.id);
      if seen {
        ok := true;
        if !replaying {
          OpenAfterNote(store.Projections(), DuplicateNote(l, now).events);
          ok := store.Apply(DuplicateNote(l, now));
        }
        r := IngestResult(l.id, Duplicate, "", "", None);
        return;
      }
      ok, r := IngestNew(l, now);
    }

    // -------------------------------------------------------------- batches

    /** Validates the whole batch and assigns ids before anything is stored. */
    method Prepare(legs: seq<Leg>) returns (ok: bool, out: seq<Leg>)
      ensures ok <==> forall l :: l in legs ==> Acceptable(l)
      ensures ok ==> out == Identified(legs)
    {
      hide ValidLeg, Acceptable, IdOf;
      forall l ensures ValidLeg(l) <==> Acceptable(l) { ValidIff(l); }
      out := [];
      for i := 0 to |legs|
        invariant forall j :: 0 <= j < i ==> ValidLeg(legs[j])
        invariant out == Identified(legs[..i])
      {
        if !ValidLeg(legs[i]) { return false, out; }
        var id := ComputeId(legs[i]);
        out := out + [legs[i].(id := id)];
      }
      assert legs[..|legs|] == legs;
      ok := true;
    }

    /** Counts an outcome once. */
    static function Tally(res: BatchResult, r: IngestResult): BatchResult {
      var next := res.(accepted := res.accepted + 1, results := res.results + [r]);
      match r.outcome
      case Duplicate => next.(duplicates := res.duplicates + 1)
      case JoinedMatch => next.(matched := res.matched + 1)
      case ResolvedBreak => next.(matched := res.matched + 1)
      case OpenedBreak => next.(breaks := res.breaks + 1)
      case WaitsOpen => next.(open := res.open + 1)
    }

    /** Delivers a prepared batch leg by leg until it is through, cancelled, or an apply fails. */
    method DeliverAll(batch: seq<Leg>, clock: nat -> Time) returns (res: BatchResult, done: bool)
      requires Valid() && !replaying
      modifies store, ix
      ensures Valid()
      ensures res.accepted <= |batch| && (done <==> res.accepted == |batch|)
      ensures store.Contents() == Deliver(cfg, old(store.Contents()), batch[..res.accepted], clock)
      ensures |res.results| == res.accepted == res.duplicates + res.matched + res.breaks + res.open
      ensures res.duplicates == |Where(res.results, {Duplicate})|
      ensures Counted(res.results, res.matched, res.breaks, res.open)
      ensures forall i :: 0 <= i < res.accepted ==>
                res.results[i] == Report(cfg, Deliver(cfg, old(store.Contents()), batch[..i], clock).p, batch[i],
                    clock(i))
    {
      hide Ingest, Report, OpenSet, Coherent, OwnIds, Numbered, Deliver, Counted, Where;
      res := BatchResult(0, 0, 0, 0, 0, []);
      NothingCounted();
      ghost var s := store.Contents();
      DeliverNothing(cfg, s, batch[..0], clock);
      for i := 0 to |batch|
        invariant Valid() && !replaying && res.accepted == i
        invariant store.Contents() == Deliver(cfg, s, batch[..i], clock)
        invariant |res.results| == i == res.duplicates + res.matched + res.breaks + res.open
        invariant res.duplicates == |Where(res.results, {Duplicate})|
        invariant Counted(res.results, res.matched, res.breaks, res.open)
        invariant forall j :: 0 <= j < i ==>
                    res.results[j] == Report(cfg, Deliver(cfg, s, batch[..j], clock).p, batch[j], clock(j))
      {
        var cancelled: bool := *;
        if cancelled { return res, false; }
        var applied, r := IngestOne(batch[i], clock(i));
        if !applied { return res, false; }
        DeliverStep(cfg, s, batch, i, clock);
        WhereStep(res.results, r, {Duplicate});
        CountedStep(res.results, r, res.matched, res.breaks, res.open);
        res := Tally(res, r);
      }
      done := true;
    }

    /**
     All-or-nothing validation, then one atomic step per leg; the batch may stop between legs or on
     a failed apply, and what was applied so far is exactly a delivery of that prefix.
     */
    method IngestBatch(legs: seq<Leg>, clock: nat -> Time) returns (res: BatchResult, err: Option<IngestError>)
      requires Valid() && !replaying
      modifies store, ix
      ensures Valid()
      ensures err == Some(InvalidLeg) <==> exists l :: l in legs && !Acceptable(l)
      ensures err == Some(InvalidLeg) ==> res.accepted == 0
      ensures res.accepted <= |legs| && (err.None? ==> res.accepted == |legs|)
      ensures err == Some(Interrupted) ==> res.accepted < |legs|
      ensures store.Contents() == Effect(cfg, old(store.Contents()), Batch(Identified(legs), clock, res.accepted))
      ensures |res.results| == res.accepted == res.duplicates + res.matched + res.breaks + res.open
      ensures res.duplicates == |Where(res.results, {Duplicate})|
      ensures Counted(res.results, res.matched, res.breaks, res.open)
      ensures forall i :: 0 <= i < res.accepted ==>
                res.results[i] == Report(cfg, Deliver(cfg, old(store.Contents()), Identified(legs)[..i], clock).p,
                    Identified(legs)[i], clock(i))
    {
      hide Report, OpenSet, ValidLeg, Acceptable, Coherent, OwnIds, Numbered, Deliver, Identified, Counted, Where;
      var ok, batch := Prepare(legs);
      if !ok {
        NothingCounted();
        DeliverNothing(cfg, store.Contents(), UpTo(Identified(legs), 0), clock);
        return BatchResult(0, 0, 0, 0, 0, []), Some(InvalidLeg);
      }
      var done;
      res, done := DeliverAll(batch, clock);
      assert batch[..res.accepted] == UpTo(batch, res.accepted);
      err := if done then None else Some(Interrupted);
    }

    // -------------------------------------------------------------- expiry

    /** Expires the legs that have been open for the whole window. */
    method Sweep(now: Time) returns (ok: bool, count: nat)
      requires Valid()
      modifies store, ix
      ensures Valid()
      ensures var due := Due(old(store.Projections()), now - ttl);
              && count <= |due| && (ok ==> count == |due|)
              && store.Contents() == Effect(cfg, old(store.Contents()), Expiry(now - ttl, now, -1, false, count, false))
      ensures Lifecycle.Inv(old(store.Projections())) ==>
                Aged(old(store.Projections()), store.Projections(), now - ttl, now, ok)
    {
      hide Effect, Due, OpenSet, Coherent, OwnIds, Numbered, Aged, Lifecycle.Inv;
      ok, count := Expire(now, -1, false);
    }

    /** Forces every leg at least `olderThan` old into a break; a negative age means all of them. */
    method CloseWindow(now: Time, olderThan: int) returns (ok: bool, count: nat)
      requires Valid()
      modifies store, ix
      ensures Valid()
      ensures var age := if olderThan < 0 then 0 else olderThan;
              var due := Due(old(store.Projections()), now - age);
              && count <= |due| && (ok ==> count == |due|)
              && store.Contents() == Effect(cfg, old(store.Contents()),
                  Expiry(now - age, now, age, true, count, ok && due != []))
      ensures var age := if olderThan < 0 then 0 else olderThan;
              && (Lifecycle.Inv(old(store.Projections())) ==>
                    Aged(old(store.Projections()), store.Projections(), now - age, now, ok))
              && (ok && count > 0 ==>
                    && store.events != []
                    && store.events[|store.events| - 1] == Event(|store.events|, now, WindowClosed(count, age)))
    {
      hide Effect, Due, OpenSet, Coherent, OwnIds, Numbered, Aged, Lifecycle.Inv;
      ok, count := Expire(now, if olderThan < 0 then 0 else olderThan, true);
    }

    /** Expires the given open legs one by one until they are through, cancelled, or an apply fails. */
    method ExpireEach(due: seq<Leg>, now: Time, forced: bool) returns (ok: bool, count: nat)
      requires Valid() && forall i, j :: 0 <= i < j < |due| ==> due[i].id != due[j].id
      requires forall x :: x in due ==> x in OpenSet(store.Projections())
      modifies store, ix
      ensures Valid() && count <= |due| && (ok ==> count == |due|)
      ensures store.Contents() == ExpireAll(cfg, old(store.Contents()), due[..count], now, forced)
    {
      hide Reconciliation.Expire, ExpireAll, OpenSet, Coherent, OwnIds, Numbered;
      ghost var s := store.Contents();
      ExpireNothing(cfg, s, due[..0], now, forced);
      count := 0;
      while count < |due|
        invariant Valid() && 0 <= count <= |due|
        invariant store.Contents() == ExpireAll(cfg, s, due[..count], now, forced)
        invariant forall j :: count <= j < |due| ==> due[j] in OpenSet(store.Projections())
      {
        var cancelled: bool := *;
        if cancelled { return false, count; }
        var still := ix.Get(due[count].id);
        assert still.Some?;
        ok := ExpireOne(due[count], now, forced);
        if !ok { return false, count; }
        ExpireStep(cfg, s, due, count, now, forced);
        count := count + 1;
      }
      ok := true;
    }

    /**
     Pushes every expired leg into a break of its own, in canonical order; a forced closing of the
     window is logged once all of them are through.
     */
    method Expire(now: Time, olderThan: int, forced: bool) returns (ok: bool, count: nat)
      requires Valid()
      modifies store, ix
      ensures Valid()
      ensures var cutoff := if olderThan >= 0 then now - olderThan else now - ttl;
              var due := Due(old(store.Projections()), cutoff);
              && count <= |due| && (ok ==> count == |due|)
              && store.Contents() == Effect(cfg, old(store.Contents()),
                  Expiry(cutoff, now, olderThan, forced, count, ok && forced && due != []))
      ensures var cutoff := if olderThan >= 0 then now - olderThan else now - ttl;
              && (Lifecycle.Inv(old(store.Projections())) ==>
                    Aged(old(store.Projections()), store.Projections(), cutoff, now, ok))
              && (ok && forced && count > 0 ==>
                    && store.events != []
                    && store.events[|store.events| - 1] == Event(|store.events|, now, WindowClosed(count, olderThan)))
    {
      hide ExpireAll, Q.ExpiredBy, AppendEvents, ApplyProj, OpenSet, Coherent, OwnIds, Numbered, Aged, Lifecycle.Inv;
      ghost var s := store.Contents();
      var due := ix.Expired(now, olderThan);
      ghost var cutoff := if olderThan >= 0 then now - olderThan else now - ttl;
      assert due == Due(s.p, cutoff);
      DueLegs(s.p, cutoff);
      assert forall x :: x in due ==> x in OpenSet(store.Projections());
      if |due| == 0 {
        assert UpTo(due, 0) == [];
        ExpireNothing(cfg, s, UpTo(due, 0), now, forced);
        ExpiryPromised(cfg, s, cutoff, now, olderThan, forced, 0, false, true);
        return true, 0;
      }
      ok, count := ExpireEach(due, now, forced);
      assert due[..count] == UpTo(due, count);
      if ok && forced {
        OpenAfterNote(store.Projections(), CloseNote(count, olderThan, now).events);
        O.AppendIsLogged(store.events, CloseNote(count, olderThan, now).events, now,
            [WindowClosed(count, olderThan)]);
        ok := store.Apply(CloseNote(count, olderThan, now));
      }
      ExpiryPromised(cfg, s, cutoff, now, olderThan, forced, count, ok && forced && due != [], ok);
    }

    method ExpireOne(l: Leg, now: Time, forced: bool) returns (ok: bool)
      requires Valid() && l in OpenSet(store.Projections())
      modifies store, ix
      ensures Valid()
      ensures store.Contents() == if ok then Reconciliation.Expire(cfg, old(store.Contents()), l, now, forced)
              else old(store.Contents())
      ensures forall c :: c in old(OpenSet(store.Projections())) && c.id != l.id ==> c in OpenSet(store.Projections())
    {
      hide WithBreak, AppendEvents, ApplyProj, NewBreak, Related, OpenSet;
      var related := store.LegsByTxnRef(l.txnRef);
      var cs := ChangeSet([], [], [], [Entry(now, LegExpired(l.id, forced))]);
      var b;
      ghost var p := store.Projections();
      assert M.LegIds([l]) == [l.id];
      BreakLegs(cfg, cs, now, WindowExpired, related, [l]);
      OpenAfterClosing(p, WithBreak(cfg, cs, now, WindowExpired, related, [l]));
      ok, b := SettleBreak(cs, now, WindowExpired, related, [l], [l.id]);
    }

    // -------------------------------------------------------------- resolution

    /** Closes an open break with an audited reason and actor. */
    method ResolveBreak(id: Id, reason: string, actor: string, now: Time) returns (err: Option<ResolveError>)
      requires Valid()
      modifies store, ix
      ensures Valid()
      ensures err.None? ==>
                && Resolvable(old(store.Projections()), id, reason, actor)
                && store.Contents() == Effect(cfg, old(store.Contents()), Resolution(id, reason, actor, now))
      ensures err.None? ==>
                && store.legs == old(store.legs) && store.byRef == old(store.byRef)
                    && store.matches == old(store.matches)
                && store.breaks == old(store.breaks)[id := old(store.breaks)[id].(status := BreakResolved,
                    resolvedAt := Some(now), reason := reason, actor := actor)]
                && store.events == O.Logged(old(store.events), now, [BreakResolvedBy(id, reason, actor, now, "")])
      ensures err.Some? ==> store.Contents() == old(store.Contents())
      ensures Resolvable(old(store.Projections()), id, reason, actor) <==> err.None? || err == Some(NotPersisted)
      ensures err == Some(MissingReasonOrActor) <==> reason == "" || actor == ""
      ensures err == Some(BreakNotFound) <==> reason != "" && actor != "" && id !in old(store.breaks)
      ensures err == Some(AlreadyResolved) <==>
                && reason != "" && actor != ""
                && id in old(store.breaks) && old(store.breaks)[id].status == BreakResolved
    {
      hide AppendEvents, OpenSet;
      if reason == "" || actor == "" { return Some(MissingReasonOrActor); }
      var found := store.GetBreak(id);
      if found.None? { return Some(BreakNotFound); }
      var b := found.value;
      if b.status == BreakResolved { return Some(AlreadyResolved); }
      var closed := b.(status := BreakResolved, resolvedAt := Some(now), reason := reason, actor := actor);
      var cs := ChangeSet([], [], [closed], [Entry(now, BreakResolvedBy(b.id, reason, actor, now, ""))]);
      OpenAfterBreaks(store.Projections(), cs);
      Transitions.ResolveSettles(store.Projections(), id, reason, actor, now, cs.events);
      O.AppendIsLogged(store.events, cs.events, now, [BreakResolvedBy(id, reason, actor, now, "")]);
      var ok := store.Apply(cs);
      if !ok { return Some(NotPersisted); }
      return None;
    }

    // -------------------------------------------------------------- replay

    /** Restores a manual resolution without a second audit event. */
    method ReapplyResolution(e: Payload) returns (ok: bool)
      requires Valid() && e.BreakResolvedBy?
      modifies store
      ensures Valid()
      ensures store.Contents() == if ok then Reapply(old(store.Contents()), e) else old(store.Contents())
    {
      hide OpenSet, Coherent, Numbered;
      if e.matchId != "" || e.breakId == "" { return true; }
      var found := store.GetBreak(e.breakId);
      if found.None? || found.value.status != BreakOpen { return true; }
      var closed := found.value.(status := BreakResolved, resolvedAt := Some(e.at), reason := e.reason,
          actor := e.actor);
      var cs := ChangeSet([], [], [closed], []);
      OpenAfterBreaks(store.Projections(), cs);
      ok := store.Apply(cs);
    }

    /** One event of the log: a manual resolution, a leg to ingest again, or nothing to do. */
    method ReplayEvent(ev: Event, now: Time) returns (ok: bool, r: Option<IngestResult>)
      requires Valid() && replaying
      modifies store, ix
      ensures Valid()
      ensures store.Contents() == if ok then ReplayOne(cfg, old(store.Contents()), ev, now) else old(store.Contents())
      ensures ok ==> r == if ev.payload.LegIngested?
                          then Some(Report(cfg, old(store.Projections()), Redelivered(ev.payload.leg), now)) else None
    {
      hide Ingest, Reapply, OpenSet, Coherent, OwnIds, Numbered, IdOf, Report;
      r := None;
      if ev.payload.BreakResolvedBy? {
        ok := ReapplyResolution(ev.payload);
        return;
      }
      if !ev.payload.LegIngested? { return true, None; }
      var id := ComputeId(ev.payload.leg);
      var l := ev.payload.leg.(id := id, status := Fresh, matchId := "", breakId := "");
      var result;
      ok, result := IngestOne(l, now);
      r := Some(result);
    }

    /** Handles the events of one page up to `through`; `log` is the log the replay started from. */
    method ReplayPage(page: seq<Event>, from: nat, first: nat, through: nat, clock: nat -> Time, tally: Tally,
                      ghost base: State, ghost log: seq<Event>)
      returns (ok: bool, read: nat, t: Tally)
      requires Valid() && replaying && 1 <= from <= first <= through == |log| && IsPage(page, log, first)
      requires store.Contents() == ReplayAll(cfg, base, log[from - 1..first - 1], clock)
      requires tally == Tallied(cfg, base, log[from - 1..first - 1], clock)
      modifies store, ix
      ensures Valid() && read <= |page| && first - 1 + read <= through
      ensures ok ==> read == |page| || first - 1 + read == through
      ensures !ok ==> read > 0
      ensures var done := first - 1 + read - (if ok then 0 else 1);
              && store.Contents() == ReplayAll(cfg, base, log[from - 1..done], clock)
              && t == Tallied(cfg, base, log[from - 1..done], clock)
    {
      hide ReplayAll, ReplayOne, OpenSet, Coherent, OwnIds, Numbered, Tallied, Report, Count;
      read, t := 0, tally;
      while read < |page| && page[read].seqNo <= through
        invariant Valid() && replaying && 0 <= read <= |page| && first - 1 + read <= through
        invariant store.Contents() == ReplayAll(cfg, base, log[from - 1..first - 1 + read], clock)
        invariant t == Tallied(cfg, base, log[from - 1..first - 1 + read], clock)
      {
        var ev := page[read];
        ReplayStep(cfg, base, log, from - 1, first - 1 + read, clock);
        read := read + 1;
        var r;
        ok, r := ReplayEvent(ev, clock(ev.seqNo));
        if !ok { return; }
        if r.Some? { t := Count(t, r.value); }
      }
      ok := true;
    }

    /**
     Pages through the events from `from` to `through` of the log it is appending to. Each of them
     is handled once and in order; events appended on the way are never handled.
     */
    method ReplayPages(from: nat, through: nat, clock: nat -> Time, ghost base: State, ghost log: seq<Event>)
      returns (ok: bool, read: nat, t: Tally)
      requires Valid() && replaying && 1 <= from <= through == |log|
      requires store.Contents() == base && R.ExtendsQuietly(log, base.log)
      modifies store, ix
      ensures Valid() && read <= through - from + 1 && (ok ==> read == through - from + 1) && (!ok ==> read > 0)
      ensures var done := from - 1 + read - (if ok then 0 else 1);
              && store.Contents() == ReplayAll(cfg, base, log[from - 1..done], clock)
              && t == Tallied(cfg, base, log[from - 1..done], clock)
    {
      hide ReplayAll, ReplayOne, R.ExtendsQuietly, OpenSet, Coherent, OwnIds, Numbered, Tallied, IsPage;
      ReplayNothing(cfg, base, log[from - 1..from - 1], clock);
      var cursor := from;
      read, t := 0, NO_TALLY;
      while cursor <= through
        invariant Valid() && replaying && cursor == from + read && from <= cursor <= through + 1
        invariant store.Contents() == ReplayAll(cfg, base, log[from - 1..cursor - 1], clock)
        invariant t == Tallied(cfg, base, log[from - 1..cursor - 1], clock)
        decreases through + 1 - cursor
      {
        LogKept(cfg, base, log[from - 1..cursor - 1], clock, log);
        var page := store.EventsFrom(cursor, PAGE);
        PageFacts(store.events, page, log, cursor);
        if |page| == 0 { break; }
        var n;
        ok, n, t := ReplayPage(page, from, cursor, through, clock, t, base, log);
        cursor, read := cursor + n, read + n;
        if !ok { return; }
        if |page| < PAGE { break; }
      }
      ok := true;
    }

    /**
     Clears the projections and re-derives them from the log. If an apply fails part way the state is
     that of the events handled so far; if the projections cannot be cleared only the start is logged.
     Index and store agree in every case.
     */
    method Replay(from: nat, now: Time, clock: nat -> Time) returns (ok: bool, res: ReplayResult)
      requires Valid() && !replaying
      modifies this`ix, this`replaying, store
      ensures Valid() && !replaying
      ensures var s := old(store.Contents());
              var all := Runs.ReplayRange(s.log, from);
              var lo := if from < 1 then 1 else from;
              var handled := res.eventsRead - if ok then 0 else 1;
              && res.eventsRead <= |all| && (ok ==> res.eventsRead == |all|)
              && (!ok && res.eventsRead == 0 ==>
                    res == NO_RESULT && (store.Contents() == s
                        || store.Contents() == Effect(cfg, s, Abandoned(from, now))))
              && (ok || res.eventsRead > 0 ==>
                    && store.Contents() == Effect(cfg, s, Replaying(from, now, clock, handled))
                    && res.fromSeq == lo && res.throughSeq == |s.log|
                    && res.tally == Tallied(cfg, ReplayBase(s, lo, now), UpTo(all, handled), clock))
      ensures var s := old(store.Contents());
              var handled := res.eventsRead - if ok then 0 else 1;
              ok || res.eventsRead > 0 ==>
                var base := ReplayBase(s, if from < 1 then 1 else from, now);
                var told := Reported(cfg, base, UpTo(Runs.ReplayRange(s.log, from), handled), clock);
                res.tally.legs == |told| && Counted(told, res.tally.matched, res.tally.breaks, res.tally.open)
    {
      hide Reported, Counted, ReplayAll, OpenSet, AppendEvents, R.ExtendsQuietly, Coherent, OwnIds, Numbered, Tallied,
           ApplyProj, Effect;
      var lo := if from < 1 then 1 else from;
      ghost var s := store.Contents();
      var through := store.LastSeq();
      res := NO_RESULT;
      OpenAfterNote(s.p, ReplayNote(lo, through, now).events);
      ok := store.Apply(ReplayNote(lo, through, now));
      if !ok { return; }
      ok := store.ResetProjections();
      if !ok {
        AbandonEffect(cfg, s, from, now);
        return;
      }
      ghost var base := ReplayBase(s, lo, now);
      ix := new Index(ttl);
      EmptyOpen();
      BaseQuiet(s, lo, now);
      res := ReplayResult(lo, through, 0, NO_TALLY);
      if lo > through {
        ReplayEffect(cfg, s, from, now, clock, 0);
        ReplayNothing(cfg, base, [], clock);
        TallyCounts(cfg, base, UpTo(Runs.ReplayRange(s.log, from), 0), clock);
        return;
      }
      replaying := true;
      var read, t;
      ok, read, t := ReplayPages(lo, through, clock, base, s.log);
      replaying := false;
      res := res.(eventsRead := read, tally := t);
      ReplayEffect(cfg, s, from, now, clock, read - if ok then 0 else 1);
      TallyCounts(cfg, base, UpTo(Runs.ReplayRange(s.log, from), read - if ok then 0 else 1), clock);
    }
  }
}
