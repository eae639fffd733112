/**
 The engine's transitions as functions on the stored state: what an arriving leg is decided
 to be, the change set that records it, expiry, manual resolution and replay.
 */
module Reconciliation {
  import opened Sequences
  import opened Domain
  import opened Identity
  import opened Persistence
  import M = Matching
  import Q = OpenLegs

  const BREAK_PREFIX := "brk"
  const LATE_REASON := "late arrival matched by T2.late-arrival@v1"

  datatype Outcome = Duplicate | JoinedMatch | OpenedBreak | WaitsOpen | ResolvedBreak

  datatype IngestResult = IngestResult(legId: Id, outcome: Outcome, matchId: Id, breakId: Id, rule: Option<RuleId>)

  // ---------------------------------------------------------------- deciding

  /** What becomes of a leg that is not an exact re-delivery, in order of precedence. */
  datatype Decision =
    | Reused                        // same source re-used the txn_ref with other content
    | Join(m: Match)                // a tier found a match
    | Conflict(partners: seq<Leg>)  // open legs with the same txn_ref that do not match
    | Heal(r: Leg)                  // late arrival for a leg alone in an open break
    | Orphan                        // the other side reported this txn_ref and is settled elsewhere
    | Wait                          // nothing to match yet

  function KnownAmong(legs: map<Id, Leg>, byRef: map<string, seq<Id>>): M.Known {
    (ref: string, source: string) =>
      exists r :: r in Lookup(legs, if ref in byRef then byRef[ref] else []) && r.source == source
  }

  /** Whether a stored leg of a source carries a txn_ref. */
  function KnownIn(p: Proj): M.Known { KnownAmong(p.legs, p.byRef) }

  function Reuses(l: Leg): Leg -> bool {
    (r: Leg) => r.source == l.source && r.id != l.id
  }

  /** `r` waits alone in an open break and `l` is its late counterpart. */
  predicate Heals(rules: Rules, breaks: map<Id, Break>, l: Leg, r: Leg) {
    && r.source != l.source && r.status == Broken && r.breakId != ""
    && rules.WithinTolerance(l.amount, r.amount) && r.currency == l.currency
    && r.breakId in breaks && breaks[r.breakId].status == BreakOpen && |breaks[r.breakId].legIds| == 1
  }

  function HealedBy(rules: Rules, breaks: map<Id, Break>, l: Leg): Leg -> bool {
    (r: Leg) => Heals(rules, breaks, l, r)
  }

  ghost function Decide(rules: Rules, p: Proj, l: Leg): Decision {
    var related := Related(p, l.txnRef);
    var open := OpenSet(p);
    if First(related, Reuses(l)).Some? then Reused
    else
      var m := M.Find(rules, l, open, KnownIn(p));
      if m.Some? then Join(m.value)
      else if |Q.ByRef(open, l)| > 0 then Conflict(Q.ByRef(open, l))
      else
        var healed := First(related, HealedBy(rules, p.breaks, l));
        if healed.Some? then Heal(healed.value)
        else if First(related, M.NotOfSource(l.source)).Some? then Orphan
        else Wait
  }

  // ---------------------------------------------------------------- change sets

  function Entry(at: Time, payload: Payload): Event { Event(0, at, payload) }

  function NewBreak(cfg: Config, trigger: Trigger, related: seq<Leg>, legs: seq<Leg>, now: Time): Break
    requires legs != []
  {
    var c := cfg.classify(ClassifyInput(legs, related, trigger, cfg.rules));
    var ids := M.LegIds(legs);
    Break(DeriveId(BREAK_PREFIX, ids), ids, legs[0].currency, legs[0].counterparty, c.category, c.confidence,
          c.classifierId, trigger, BreakOpen, now, None, c.evidence, "")
  }

  function AsBroken(legs: seq<Leg>, breakId: Id): seq<Leg> {
    seq(|legs|, i requires 0 <= i < |legs| => legs[i].(status := Broken, breakId := breakId))
  }

  function WithBreak(cfg: Config, cs: ChangeSet, now: Time, trigger: Trigger, related: seq<Leg>,
      legs: seq<Leg>): ChangeSet
    requires legs != []
  {
    var b := NewBreak(cfg, trigger, related, legs, now);
    cs.(legs := cs.legs + AsBroken(legs, b.id), breaks := cs.breaks + [b],
        events := cs.events + [Entry(now, BreakOpened(b))])
  }

  /** The stored partners of a match, marked; the arriving leg itself is skipped. */
  function Partners(legs: map<Id, Leg>, ids: seq<Id>, self: Id, matchId: Id): seq<Leg> {
    if ids == [] then []
    else
      var id := ids[|ids| - 1];
      Partners(legs, ids[..|ids| - 1], self, matchId) +
      if id == self || id !in legs then [] else [legs[id].(status := Matched, matchId := matchId)]
  }

  function LateMatch(rules: Rules, l: Leg, r: Leg, now: Time): Match {
    M.Pair(l, r, TierTolerant, T2Late, TolerantConfidence(r.amount - l.amount,
        rules.Tolerance(l.amount)) - 50).(matchedAt := now)
  }

  function Resolved(b: Break, reason: string, actor: string, at: Time): Break {
    b.(status := BreakResolved, resolvedAt := Some(at), reason := reason, actor := actor)
  }

  function Intake(l: Leg, now: Time, replaying: bool): ChangeSet {
    ChangeSet([], [], [], if replaying then [] else [Entry(now, LegIngested(l))])
  }

  /** The change set that records decision `d` about leg `l`. */
  function Plan(cfg: Config, p: Proj, l: Leg, now: Time, replaying: bool, d: Decision): ChangeSet {
    var cs := Intake(l, now, replaying);
    var related := Related(p, l.txnRef);
    match d
    case Reused => WithBreak(cfg, cs, now, DuplicateRef, related, [l])
    case Join(found) =>
      var m := found.(matchedAt := now);
      cs.(legs := [l.(status := Matched, matchId := m.id)] + Partners(p.legs, m.legIds, l.id, m.id),
          matches := [m], events := cs.events + [Entry(now, MatchCreated(m))])
    case Conflict(partners) => WithBreak(cfg, cs, now, RefConflict, related, [l] + partners)
    case Heal(r) =>
      if r.breakId !in p.breaks then cs
      else
        var m := LateMatch(cfg.rules, l, r, now);
        var b := Resolved(p.breaks[r.breakId], LATE_REASON, SYSTEM_ACTOR, now);
        cs.(legs := [l.(status := Matched, matchId := m.id), r.(status := Matched, matchId := m.id, breakId := "")],
            matches := [m], breaks := [b],
            events := cs.events + [Entry(now, MatchCreated(m)),
                                   Entry(now, BreakResolvedBy(b.id, b.reason, b.actor, now, m.id))])
    case Orphan => WithBreak(cfg, cs, now, RefConflict, related, [l])
    case Wait => cs.(legs := [l.(status := Open)])
  }

  function Stamp(l: Leg, now: Time): Leg {
    if l.ingestedAt == ZERO_TIME then l.(ingestedAt := now) else l
  }

  function DuplicateNote(l: Leg, now: Time): ChangeSet {
    ChangeSet([], [], [], [Entry(now, LegDuplicate(l))])
  }

  /** One leg through the engine; `replaying` suppresses the intake and duplicate events. */
  ghost function Ingest(cfg: Config, s: State, arriving: Leg, now: Time, replaying: bool): State {
    var l := Stamp(arriving, now);
    if l.id in s.p.legs then
      if replaying then s else ApplyTo(s, DuplicateNote(l, now))
    else ApplyTo(s, Plan(cfg, s.p, l, now, replaying, Decide(cfg.rules, s.p, l)))
  }

  /** What is reported about a decision. */
  function Told(cfg: Config, l: Leg, now: Time, d: Decision): IngestResult {
    match d
    case Join(m) => IngestResult(l.id, JoinedMatch, m.id, "", Some(m.rule))
    case Heal(r) => IngestResult(l.id, ResolvedBreak, LateMatch(cfg.rules, l, r, now).id, r.breakId, Some(T2Late))
    case Wait => IngestResult(l.id, WaitsOpen, "", "", None)
    case Conflict(partners) => IngestResult(l.id, OpenedBreak, "", DeriveId(BREAK_PREFIX, M.LegIds([l] + partners)),
        None)
    case _ => IngestResult(l.id, OpenedBreak, "", DeriveId(BREAK_PREFIX, M.LegIds([l])), None)
  }

  /** What `Ingest` reports. */
  ghost function Report(cfg: Config, p: Proj, arriving: Leg, now: Time): IngestResult {
    var l := Stamp(arriving, now);
    if l.id in p.legs then IngestResult(l.id, Duplicate, "", "", None) else Told(cfg, l, now, Decide(cfg.rules, p, l))
  }

  // ---------------------------------------------------------------- expiry and resolution

  function ExpirePlan(cfg: Config, p: Proj, l: Leg, now: Time, forced: bool): ChangeSet {
    WithBreak(cfg, ChangeSet([], [], [], [Entry(now, LegExpired(l.id, forced))]), now, WindowExpired,
              Related(p, l.txnRef), [l])
  }

  /** One open leg is pushed into a break of its own. */
  function Expire(cfg: Config, s: State, l: Leg, now: Time, forced: bool): State {
    ApplyTo(s, ExpirePlan(cfg, s.p, l, now, forced))
  }

  function ExpireAll(cfg: Config, s: State, legs: seq<Leg>, now: Time, forced: bool): State {
    if legs == [] then s
    else Expire(cfg, ExpireAll(cfg, s, legs[..|legs| - 1], now, forced), legs[|legs| - 1], now, forced)
  }

  function CloseNote(expired: nat, olderThan: int, now: Time): ChangeSet {
    ChangeSet([], [], [], [Entry(now, WindowClosed(expired, olderThan))])
  }

  predicate Resolvable(p: Proj, id: Id, reason: string, actor: string) {
    reason != "" && actor != "" && id in p.breaks && p.breaks[id].status == BreakOpen
  }

  function ResolvePlan(b: Break, reason: string, actor: string, now: Time): ChangeSet {
    ChangeSet([], [], [Resolved(b, reason, actor, now)], [Entry(now, BreakResolvedBy(b.id, reason, actor, now, ""))])
  }

  /** A manual resolution; refused requests change nothing. */
  function Resolve(s: State, id: Id, reason: string, actor: string, now: Time): State {
    if Resolvable(s.p, id, reason, actor) then ApplyTo(s, ResolvePlan(s.p.breaks[id], reason, actor, now)) else s
  }

  // ---------------------------------------------------------------- replay

  /** The leg of a leg.ingested payload as if it had just arrived. */
  ghost function Redelivered(l: Leg): Leg {
    l.Unplaced().(id := IdOf(l))
  }

  /** A manual resolution is restored if its break was re-derived and is open. */
  function Reapply(s: State, e: Payload): State
    requires e.BreakResolvedBy?
  {
    if e.matchId != "" || e.breakId == "" || e.breakId !in s.p.breaks || s.p.breaks[e.breakId].status != BreakOpen
        then s
    else ApplyTo(s, ChangeSet([], [], [Resolved(s.p.breaks[e.breakId], e.reason, e.actor, e.at)], []))
  }

  ghost function ReplayOne(cfg: Config, s: State, ev: Event, now: Time): State {
    match ev.payload
    case BreakResolvedBy(_, _, _, _, _) => Reapply(s, ev.payload)
    case LegIngested(l) => Ingest(cfg, s, Redelivered(l), now, true)
    case _ => s
  }

  /** The replay step folded over events; `clock` gives the reading taken at each sequence number. */
  ghost function ReplayAll(cfg: Config, s: State, evs: seq<Event>, clock: nat -> Time): State {
    if evs == [] then s
    else
      var ev := evs[|evs| - 1];
      ReplayOne(cfg, ReplayAll(cfg, s, evs[..|evs| - 1], clock), ev, clock(ev.seqNo))
  }

  function ReplayNote(from: nat, through: nat, now: Time): ChangeSet {
    ChangeSet([], [], [], [Entry(now, ReplayStarted(from, through))])
  }

  /** The state after the start marker is logged and the projections are cleared. */
  function ReplayBase(s: State, from: nat, now: Time): State {
    ApplyTo(s, ReplayNote(from, |s.log|, now)).(p := EMPTY)
  }

  ghost function Replay(cfg: Config, s: State, from: nat, now: Time, clock: nat -> Time): State {
    var lo := if from < 1 then 1 else from;
    ReplayAll(cfg, ReplayBase(s, lo, now), if lo <= |s.log| then s.log[lo - 1..] else [], clock)
  }
}
