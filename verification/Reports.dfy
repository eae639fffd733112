/** What `ingestOne` reports about a leg is what the store then holds. */
module Reports {
  import opened Sequences
  import opened Domain
  import opened Identity
  import opened Persistence
  import opened Reconciliation
  import opened EventSourcing
  import opened Lifecycle
  import opened Transitions
  import opened Runs
  import M = Matching
  import Q = OpenLegs

  /** The report about leg `id` is true of the step from `p` to `q`. */
  ghost predicate Truthful(r: IngestResult, id: Id, p: Proj, q: Proj) {
    && r.legId == id && id in q.legs
    && match r.outcome
       case Duplicate => id in p.legs && q == p
       case WaitsOpen => id !in p.legs && q.legs[id].status == Open
       case JoinedMatch =>
         && id !in p.legs && q.legs[id].status == Matched && q.legs[id].matchId == r.matchId
         && r.matchId in q.matches && r.matchId !in p.matches && r.rule == Some(q.matches[r.matchId].rule)
             && q.breaks == p.breaks
       case ResolvedBreak =>
         && id !in p.legs && q.legs[id].status == Matched && q.legs[id].matchId == r.matchId
         && r.matchId in q.matches && r.matchId !in p.matches
             && r.rule == Some(T2Late) == Some(q.matches[r.matchId].rule)
         && r.breakId in p.breaks && p.breaks[r.breakId].status == BreakOpen
         && r.breakId in q.breaks && q.breaks[r.breakId].status == BreakResolved
       case OpenedBreak =>
         && id !in p.legs && q.legs[id].status == Broken && q.legs[id].breakId == r.breakId
         && r.breakId in q.breaks && r.breakId !in p.breaks && q.breaks[r.breakId].status == BreakOpen
             && q.matches == p.matches
  }

  lemma BreakReported(cfg: Config, p: Proj, l: Leg, partners: seq<Leg>, trigger: Trigger, now: Time)
    requires Linked(p) && l.id !in p.legs && Arriving(l) && |partners| <= 1
    requires AllStored(p, partners) && forall x :: x in partners ==> x.status == Open
    ensures var b := NewBreak(cfg, trigger, Related(p, l.txnRef), [l] + partners, now);
            Truthful(IngestResult(l.id, OpenedBreak, "", DeriveId(BREAK_PREFIX, M.LegIds([l] + partners)), None),
                l.id, p, MarkBroken(Admit(p, l), b))
  {
    hide NewBreak, Related, DeriveId, Linked;
    var b := NewBreak(cfg, trigger, Related(p, l.txnRef), [l] + partners, now);
    NewBreakFacts(cfg, trigger, Related(p, l.txnRef), [l] + partners, now);
    assert M.LegIds([l] + partners)[0] == l.id;
    var q := Admit(p, l);
    AdmitLinked(p, l);
    forall id | id in b.legIds ensures IsOpen(q, id) {
      if id != l.id { assert id == partners[0].id && partners[0] in partners; }
    }
    FreshBreakId(q, b);
  }

  lemma JoinReported(p: Proj, l: Leg, m: Match)
    requires Linked(p) && l.id !in p.legs && Arriving(l) && GoodMatch(p, l, m)
    ensures Truthful(IngestResult(l.id, JoinedMatch, m.id, "", Some(m.rule)), l.id, p, MarkMatched(Admit(p, l), m))
  {
    hide DeriveId, Linked;
    var q := Admit(p, l);
    AdmitLinked(p, l);
    forall id | id in m.legIds ensures id in q.legs
        && q.legs[id].status != Matched { assert id == l.id || IsOpen(p, id); }
    FreshMatchId(q, m);
  }

  lemma HealReported(rules: Rules, p: Proj, l: Leg, r: Leg, now: Time)
    requires Linked(p) && l.id !in p.legs && Arriving(l)
    requires r.id in p.legs && p.legs[r.id] == r && Heals(rules, p.breaks, l, r)
    ensures var m := LateMatch(rules, l, r, now);
            Truthful(IngestResult(l.id, ResolvedBreak, m.id, r.breakId, Some(T2Late)), l.id, p,
                     Close(MarkMatched(Admit(p, l), m), r.breakId, LATE_REASON, SYSTEM_ACTOR, now))
  {
    hide DeriveId, Linked, LateMatch;
    var m := LateMatch(rules, l, r, now);
    var q := Admit(p, l);
    AdmitLinked(p, l);
    LateMatchFacts(rules, l, r, now);
    FreshMatchId(q, m);
  }

  lemma SettleReported(cfg: Config, p: Proj, l: Leg, now: Time)
    requires cfg.rules.Valid() && Inv(p) && l.id !in p.legs && Arriving(l)
    ensures var d := Decide(cfg.rules, p, l); Truthful(Told(cfg, l, now, d), l.id, p, Settle(cfg, p, l, now, d))
  {
    hide Decide, Related, NewBreak, DeriveId, MarkBroken, MarkMatched, Close, LateMatch, Truthful, RefsListed,
         LegsPlaced, MatchesLinked, BreaksLinked, OneOpenPerRef;
    AloneIsSelf(l);
    match Decide(cfg.rules, p, l)
    case Reused => BreakReported(cfg, p, l, [], DuplicateRef, now);
    case Join(m) =>
      JoinFacts(cfg.rules, p, l);
      JoinReported(p, l, m.(matchedAt := now));
    case Conflict(partners) =>
      ConflictFacts(cfg.rules, p, l);
      BreakReported(cfg, p, l, partners, RefConflict, now);
    case Heal(r) =>
      HealFacts(cfg.rules, p, l);
      HealReported(cfg.rules, p, l, r, now);
    case Orphan => BreakReported(cfg, p, l, [], RefConflict, now);
    case Wait => WaitReported(p, l);
  }

  lemma WaitReported(p: Proj, l: Leg)
    requires l.id !in p.legs
    ensures Truthful(IngestResult(l.id, WaitsOpen, "", "", None), l.id, p, Admit(p, l))
  {
  }

  /** Outcome, match id, break id and rule of every report describe the state after the step. */
  lemma ReportIsTrue(cfg: Config, s: State, arriving: Leg, now: Time, replaying: bool)
    requires cfg.rules.Valid() && Inv(s.p) && Arriving(arriving)
    ensures Truthful(Report(cfg, s.p, arriving, now), arriving.id, s.p, Ingest(cfg, s, arriving, now, replaying).p)
  {
    hide Ingest, Inv, Decide, Told, Settle, Arriving, AppendEvents;
    var l := Stamp(arriving, now);
    StampKeeps(arriving, now);
    IngestEffect(cfg, s, arriving, now, replaying);
    if l.id !in s.p.legs { SettleReported(cfg, s.p, l, now); }
  }

  // ---------------------------------------------------------------- which outcome, from the stored legs alone

  /** Some stored leg with the txn_ref of `l` satisfies `f`. */
  ghost predicate Twin(p: Proj, l: Leg, f: Leg -> bool) {
    exists id :: id in p.legs && p.legs[id].txnRef == l.txnRef && f(p.legs[id])
  }

  ghost function OfSameSource(l: Leg): Leg -> bool { (r: Leg) => r.source == l.source }

  ghost function Waits(): Leg -> bool { (r: Leg) => r.status == Open }

  ghost function Anything(): Leg -> bool { (r: Leg) => true }

  ghost predicate Found(rules: Rules, p: Proj, l: Leg) { M.Find(rules, l, OpenSet(p), KnownIn(p)).Some? }

  lemma FirstIffTwin(p: Proj, l: Leg, f: Leg -> bool)
    requires RefsListed(p)
    ensures First(Related(p, l.txnRef), f).Some? <==> Twin(p, l, f)
  {
    hide Related;
    var related := Related(p, l.txnRef);
    RelatedMembers(p, l.txnRef);
    if First(related, f).Some? {
      var i := FirstPosition(related, f);
      assert related[i] in related && related[i].id in p.legs;
    } else {
      FirstMisses(related, f);
      forall id | id in p.legs && p.legs[id].txnRef == l.txnRef ensures !f(p.legs[id]) {
        assert p.legs[id].id == id && p.legs[id] in related;
      }
    }
  }

  lemma ByRefIffTwin(p: Proj, l: Leg)
    requires RefsListed(p) && l.id !in p.legs
    ensures |Q.ByRef(OpenSet(p), l)| > 0 <==> Twin(p, l, Waits())
  {
    hide Q.Listing;
    OpenMembers(p);
    var s := set c | c in OpenSet(p) && c.txnRef == l.txnRef && c.id != l.id;
    Q.ListingFacts(s);
    if s != {} {
      var c :| c in s;
      assert c.id in p.legs && Waits()(p.legs[c.id]);
    }
    if Twin(p, l, Waits()) {
      var id :| id in p.legs && p.legs[id].txnRef == l.txnRef && Waits()(p.legs[id]);
      assert p.legs[id] in s;
    }
  }

  lemma OwnIffReuses(p: Proj, l: Leg)
    requires RefsListed(p) && l.id !in p.legs
    ensures Twin(p, l, Reuses(l)) <==> Twin(p, l, OfSameSource(l))
    ensures !Twin(p, l, OfSameSource(l)) ==> (Twin(p, l, M.NotOfSource(l.source)) <==> Twin(p, l, Anything()))
  {
    if Twin(p, l, OfSameSource(l)) {
      var id :| id in p.legs && p.legs[id].txnRef == l.txnRef && OfSameSource(l)(p.legs[id]);
      assert Reuses(l)(p.legs[id]);
    }
    if Twin(p, l, Reuses(l)) {
      var id :| id in p.legs && p.legs[id].txnRef == l.txnRef && Reuses(l)(p.legs[id]);
      assert OfSameSource(l)(p.legs[id]);
    }
    if !Twin(p, l, OfSameSource(l)) && Twin(p, l, Anything()) {
      var id :| id in p.legs && p.legs[id].txnRef == l.txnRef && Anything()(p.legs[id]);
      assert !OfSameSource(l)(p.legs[id]);
      assert M.NotOfSource(l.source)(p.legs[id]);
    }
    if Twin(p, l, M.NotOfSource(l.source)) {
      var id :| id in p.legs && p.legs[id].txnRef == l.txnRef && M.NotOfSource(l.source)(p.legs[id]);
      assert Anything()(p.legs[id]);
    }
  }

  /** The six outcomes, each with the exact condition on the stored legs. */
  lemma OutcomeIff(rules: Rules, p: Proj, l: Leg)
    requires RefsListed(p) && l.id !in p.legs
    ensures var d := Decide(rules, p, l);
            var own, open, heal := Twin(p, l, OfSameSource(l)), Twin(p, l, Waits()),
                Twin(p, l, HealedBy(rules, p.breaks, l));
            var found := Found(rules, p, l);
            && (d.Reused? <==> own)
            && (d.Join? <==> !own && found)
            && (d.Conflict? <==> !own && !found && open)
            && (d.Heal? <==> !own && !found && !open && heal)
            && (d.Orphan? <==> !own && !found && !open && !heal && Twin(p, l, Anything()))
            && (d.Wait? <==> !own && !found && !open && !heal && !Twin(p, l, Anything()))
  {
    hide M.Find, Related, Q.ByRef, OpenSet, KnownIn, First, Twin, RefsListed;
    FirstIffTwin(p, l, Reuses(l));
    FirstIffTwin(p, l, HealedBy(rules, p.breaks, l));
    FirstIffTwin(p, l, M.NotOfSource(l.source));
    ByRefIffTwin(p, l);
    OwnIffReuses(p, l);
  }
}
