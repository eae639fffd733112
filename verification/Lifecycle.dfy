/**
 The invariant of the stored state: every leg is open, matched or broken and linked both ways
 to its match or break; at most one open leg per txn_ref.
 */
module Lifecycle {
  import opened Sequences
  import opened Domain
  import opened Identity
  import opened Persistence
  import opened Reconciliation
  import opened EventSourcing
  import M = Matching

  /** A leg as the engine receives it: valid, identified, not placed yet. */
  ghost predicate Arriving(l: Leg) {
    && l.status == Fresh && l.matchId == "" && l.breakId == ""
    && l.amount > 0 && l.txnRef != "" && NulFree(l.id)
  }

  ghost predicate RefsListed(p: Proj) {
    && (forall id :: id in p.legs ==> p.legs[id].id == id && id in RefIds(p, p.legs[id].txnRef))
    && (forall ref :: ref in p.byRef ==> NoDup(p.byRef[ref]))
    && (forall ref, id :: ref in p.byRef && id in p.byRef[ref] ==> id in p.legs && p.legs[id].txnRef == ref)
  }

  /** The leg is in exactly one place, and that place names it. */
  ghost predicate LegPlaced(p: Proj, l: Leg) {
    && NulFree(l.id) && l.amount > 0
    && match l.status
       case Fresh => false
       case Open => l.matchId == "" && l.breakId == ""
       case Matched => l.breakId == "" && l.matchId in p.matches && l.id in p.matches[l.matchId].legIds
       case Broken => l.matchId == "" && l.breakId in p.breaks && l.id in p.breaks[l.breakId].legIds
  }

  ghost predicate MatchLinked(p: Proj, m: Match) {
    && |m.legIds| >= 2 && NoDup(m.legIds) && m.id == DeriveId(M.MATCH_PREFIX, m.legIds)
    && forall id :: id in m.legIds ==> id in p.legs && p.legs[id].status == Matched && p.legs[id].matchId == m.id
  }

  /** Resolved with the reason and the actor of a late arrival. */
  predicate SignedLate(b: Break) {
    b.status == BreakResolved && b.reason == LATE_REASON && b.actor == SYSTEM_ACTOR
  }

  /** The leg of a break is broken by it, unless a late arrival took the leg of a single-leg break and signed for it. */
  ghost predicate BreakMember(p: Proj, b: Break, id: Id) {
    && id in p.legs
    && (|| (p.legs[id].status == Broken && p.legs[id].breakId == b.id)
        || (SignedLate(b) && |b.legIds| == 1 && p.legs[id].status == Matched
            && p.legs[id].matchId in p.matches && p.matches[p.legs[id].matchId].rule == T2Late))
  }

  /** A break carries the currency and counterparty of its first leg. */
  ghost predicate Describes(p: Proj, b: Break) {
    && b.legIds != [] && b.legIds[0] in p.legs
    && b.currency == p.legs[b.legIds[0]].currency && b.counterparty == p.legs[b.legIds[0]].counterparty
  }

  ghost predicate BreakLinked(p: Proj, b: Break) {
    && 1 <= |b.legIds| <= 2 && NoDup(b.legIds) && b.id == DeriveId(BREAK_PREFIX, b.legIds) && Describes(p, b)
    && forall id :: id in b.legIds ==> BreakMember(p, b, id)
  }

  ghost predicate LegsPlaced(p: Proj) { forall id :: id in p.legs ==> LegPlaced(p, p.legs[id]) }

  ghost predicate MatchesLinked(p: Proj) { forall id :: id in p.matches ==>
      p.matches[id].id == id && MatchLinked(p, p.matches[id]) }

  ghost predicate BreaksLinked(p: Proj) { forall id :: id in p.breaks ==>
      p.breaks[id].id == id && BreakLinked(p, p.breaks[id]) }

  ghost predicate Linked(p: Proj) {
    RefsListed(p) && LegsPlaced(p) && MatchesLinked(p) && BreaksLinked(p)
  }

  ghost predicate IsOpen(p: Proj, id: Id) { id in p.legs && p.legs[id].status == Open }

  ghost predicate OneOpenPerRef(p: Proj) {
    forall a, b :: IsOpen(p, a) && IsOpen(p, b) && p.legs[a].txnRef == p.legs[b].txnRef ==> a == b
  }

  ghost predicate Inv(p: Proj) { Linked(p) && OneOpenPerRef(p) }

  lemma EmptyInv()
    ensures Inv(EMPTY)
  {
  }

  // ---------------------------------------------------------------- single reactions keep the links

  lemma AdmitRefs(p: Proj, l: Leg)
    requires RefsListed(p) && l.id !in p.legs
    ensures RefsListed(Admit(p, l))
  {
    var q := Admit(p, l);
    var ids := RefIds(p, l.txnRef);
    assert l.id !in ids;
    assert q.byRef[l.txnRef] == ids + [l.id];
    forall id | id in q.legs ensures q.legs[id].id == id && id in RefIds(q, q.legs[id].txnRef) {
      if id != l.id { assert id in RefIds(p, p.legs[id].txnRef); }
    }
  }

  lemma AdmitLinked(p: Proj, l: Leg)
    requires Linked(p) && l.id !in p.legs && Arriving(l)
    ensures Linked(Admit(p, l))
  {
    AdmitRefs(p, l);
    var q := Admit(p, l);
    forall id | id in q.legs ensures LegPlaced(q, q.legs[id]) {
      if id != l.id { assert LegPlaced(p, p.legs[id]); }
    }
    forall id | id in q.matches ensures MatchLinked(q, q.matches[id]) { assert MatchLinked(p, p.matches[id]); }
    forall id | id in q.breaks ensures BreakLinked(q, q.breaks[id]) {
      assert BreakLinked(p, p.breaks[id]);
      forall x | x in q.breaks[id].legIds ensures BreakMember(q, q.breaks[id],
          x) { assert BreakMember(p, p.breaks[id], x); }
    }
  }

  ghost predicate AllOpen(p: Proj, ids: seq<Id>) {
    forall id :: id in ids ==> IsOpen(p, id)
  }

  lemma OpenIdsNulFree(p: Proj, ids: seq<Id>)
    requires LegsPlaced(p) && RefsListed(p) && forall id :: id in ids ==> id in p.legs
    ensures AllNulFree(ids)
  {
    forall id | id in ids ensures NulFree(id) { assert LegPlaced(p, p.legs[id]); }
  }

  /** Ids derived from leg ids cannot clash with a stored match over other legs. */
  lemma FreshMatchId(p: Proj, m: Match)
    requires Linked(p) && m.legIds != [] && m.id == DeriveId(M.MATCH_PREFIX, m.legIds)
    requires forall id :: id in m.legIds ==> id in p.legs && p.legs[id].status != Matched
    ensures m.id !in p.matches
  {
    if m.id in p.matches {
      var old_ := p.matches[m.id];
      assert MatchLinked(p, old_);
      OpenIdsNulFree(p, m.legIds);
      OpenIdsNulFree(p, old_.legIds);
      assert m.legIds[0] in m.legIds;
      DeriveIdInjective(M.MATCH_PREFIX, m.legIds, old_.legIds);
    }
  }

  lemma FreshBreakId(p: Proj, b: Break)
    requires Linked(p) && b.legIds != [] && b.id == DeriveId(BREAK_PREFIX, b.legIds) && AllOpen(p, b.legIds)
    ensures b.id !in p.breaks
  {
    if b.id in p.breaks {
      var old_ := p.breaks[b.id];
      assert BreakLinked(p, old_);
      OpenIdsNulFree(p, b.legIds);
      forall id | id in old_.legIds ensures id in p.legs { assert BreakMember(p, old_, id); }
      OpenIdsNulFree(p, old_.legIds);
      assert b.legIds[0] in b.legIds && IsOpen(p, b.legIds[0]);
      assert forall id :: id in old_.legIds ==> BreakMember(p, old_, id) && !IsOpen(p, id);
      DeriveIdInjective(BREAK_PREFIX, b.legIds, old_.legIds);
    }
  }

  /** Legs change only in status and links. */
  ghost predicate SameLegs(p: Proj, q: Proj) {
    && q.byRef == p.byRef && q.legs.Keys == p.legs.Keys
    && forall id :: id in p.legs ==> q.legs[id].Unplaced() == p.legs[id].Unplaced()
  }

  lemma RefsKept(p: Proj, q: Proj)
    requires RefsListed(p) && SameLegs(p, q)
    ensures RefsListed(q)
  {
    forall id | id in q.legs ensures q.legs[id].id == id && id in RefIds(q, q.legs[id].txnRef) {
      assert q.legs[id].Unplaced().id == p.legs[id].Unplaced().id;
      assert q.legs[id].Unplaced().txnRef == p.legs[id].Unplaced().txnRef;
    }
    forall ref, id | ref in q.byRef && id in q.byRef[ref] ensures id in q.legs && q.legs[id].txnRef == ref {
      assert q.legs[id].Unplaced().txnRef == p.legs[id].Unplaced().txnRef;
    }
  }

  /** A break keeps its links when its members keep their state. */
  lemma BreakKept(p: Proj, q: Proj, b: Break)
    requires BreakLinked(p, b)
    requires forall x :: x in b.legIds ==> x in q.legs && q.legs[x] == p.legs[x]
    requires forall id :: id in p.matches ==> id in q.matches && q.matches[id] == p.matches[id]
    ensures BreakLinked(q, b)
  {
    forall x | x in b.legIds ensures BreakMember(q, b, x) { assert BreakMember(p, b, x); }
  }

  /** The members of a linked break are not open. */
  lemma MembersNotOpen(p: Proj, b: Break)
    requires BreakLinked(p, b)
    ensures forall x :: x in b.legIds ==> x in p.legs && !IsOpen(p, x)
  {
    forall x | x in b.legIds ensures x in p.legs && !IsOpen(p, x) { assert BreakMember(p, b, x); }
  }

  lemma MatchedLegs(p: Proj, m: Match)
    requires Linked(p) && AllOpen(p, m.legIds) && m.id !in p.matches
    ensures LegsPlaced(MarkMatched(p, m))
  {
    var q := MarkMatched(p, m);
    forall id | id in q.legs ensures LegPlaced(q, q.legs[id]) { assert LegPlaced(p, p.legs[id]); }
  }

  lemma MatchedMatches(p: Proj, m: Match)
    requires Linked(p) && AllOpen(p, m.legIds) && m.id !in p.matches
    requires |m.legIds| >= 2 && NoDup(m.legIds) && m.id == DeriveId(M.MATCH_PREFIX, m.legIds)
    ensures MatchesLinked(MarkMatched(p, m))
  {
    var q := MarkMatched(p, m);
    forall id | id in q.matches ensures q.matches[id].id == id && MatchLinked(q, q.matches[id]) {
      if id != m.id { assert MatchLinked(p, p.matches[id]); }
    }
  }

  lemma MatchedBreaks(p: Proj, m: Match)
    requires Linked(p) && AllOpen(p, m.legIds) && m.id !in p.matches
    ensures BreaksLinked(MarkMatched(p, m))
  {
    var q := MarkMatched(p, m);
    forall id | id in q.breaks ensures q.breaks[id].id == id && BreakLinked(q, q.breaks[id]) {
      MembersNotOpen(p, p.breaks[id]);
      BreakKept(p, q, p.breaks[id]);
    }
  }

  lemma MarkMatchedLinked(p: Proj, m: Match)
    requires Linked(p) && AllOpen(p, m.legIds)
    requires |m.legIds| >= 2 && NoDup(m.legIds) && m.id == DeriveId(M.MATCH_PREFIX, m.legIds)
    ensures Linked(MarkMatched(p, m)) && m.id !in p.matches
  {
    FreshMatchId(p, m);
    RefsKept(p, MarkMatched(p, m));
    MatchedLegs(p, m);
    MatchedMatches(p, m);
    MatchedBreaks(p, m);
  }

  lemma BrokenLegs(p: Proj, b: Break)
    requires Linked(p) && AllOpen(p, b.legIds) && b.id !in p.breaks
    ensures LegsPlaced(MarkBroken(p, b))
  {
    hide DeriveId, MatchesLinked, BreaksLinked;
    var q := MarkBroken(p, b);
    forall id | id in q.legs ensures LegPlaced(q, q.legs[id]) { assert LegPlaced(p, p.legs[id]); }
  }

  lemma BrokenMatches(p: Proj, b: Break)
    requires Linked(p) && AllOpen(p, b.legIds)
    ensures MatchesLinked(MarkBroken(p, b))
  {
    hide DeriveId, LegsPlaced, BreaksLinked, RefsListed;
    var q := MarkBroken(p, b);
    forall id | id in q.matches ensures q.matches[id].id == id && MatchLinked(q, q.matches[id]) {
      assert MatchLinked(p, p.matches[id]);
      forall x | x in q.matches[id].legIds ensures x !in b.legIds { assert !IsOpen(p, x); }
    }
  }

  lemma BrokenBreaks(p: Proj, b: Break)
    requires Linked(p) && AllOpen(p, b.legIds) && b.id !in p.breaks && Describes(p, b)
    requires 1 <= |b.legIds| <= 2 && NoDup(b.legIds) && b.id == DeriveId(BREAK_PREFIX, b.legIds)
    ensures BreaksLinked(MarkBroken(p, b))
  {
    var q := MarkBroken(p, b);
    forall id | id in q.breaks ensures q.breaks[id].id == id && BreakLinked(q, q.breaks[id]) {
      if id == b.id {
        forall x | x in b.legIds ensures BreakMember(q, b, x) { assert IsOpen(p, x); }
      } else {
        MembersNotOpen(p, p.breaks[id]);
        BreakKept(p, q, p.breaks[id]);
      }
    }
  }

  lemma MarkBrokenLinked(p: Proj, b: Break)
    requires Linked(p) && AllOpen(p, b.legIds) && Describes(p, b)
    requires 1 <= |b.legIds| <= 2 && NoDup(b.legIds) && b.id == DeriveId(BREAK_PREFIX, b.legIds)
    ensures Linked(MarkBroken(p, b)) && b.id !in p.breaks
  {
    FreshBreakId(p, b);
    RefsKept(p, MarkBroken(p, b));
    BrokenLegs(p, b);
    BrokenMatches(p, b);
    BrokenBreaks(p, b);
  }

  lemma ClosedBreaks(p: Proj, id: Id, reason: string, actor: string, at: Time, b: Id)
    requires BreaksLinked(p) && b in p.breaks && (id in p.breaks ==> p.breaks[id].status == BreakOpen)
    ensures var q := Close(p, id, reason, actor, at);
            b in q.breaks && q.breaks[b].id == b && BreakLinked(q, q.breaks[b])
  {
    hide DeriveId, NoDup;
    var q := Close(p, id, reason, actor, at);
    assert BreakLinked(p, p.breaks[b]);
    forall x | x in q.breaks[b].legIds ensures BreakMember(q, q.breaks[b], x) {
      assert BreakMember(p, p.breaks[b], x);
    }
  }

  lemma ClosedRest(p: Proj, id: Id, reason: string, actor: string, at: Time)
    requires RefsListed(p) && LegsPlaced(p) && MatchesLinked(p)
    ensures var q := Close(p, id, reason, actor, at); RefsListed(q) && LegsPlaced(q) && MatchesLinked(q)
  {
    hide DeriveId, NoDup;
    var q := Close(p, id, reason, actor, at);
    assert q.legs == p.legs && q.byRef == p.byRef && q.matches == p.matches;
    forall x | x in q.legs ensures LegPlaced(q, q.legs[x]) { assert LegPlaced(p, p.legs[x]); }
    forall x | x in q.matches ensures q.matches[x].id == x && MatchLinked(q, q.matches[x]) {
      assert MatchLinked(p, p.matches[x]);
    }
  }

  lemma CloseLinked(p: Proj, id: Id, reason: string, actor: string, at: Time)
    requires Linked(p) && (id in p.breaks ==> p.breaks[id].status == BreakOpen)
    ensures Linked(Close(p, id, reason, actor, at))
  {
    hide DeriveId, NoDup, RefsListed, LegsPlaced, MatchesLinked, BreakLinked;
    var q := Close(p, id, reason, actor, at);
    ClosedRest(p, id, reason, actor, at);
    forall b | b in q.breaks ensures q.breaks[b].id == b && BreakLinked(q, q.breaks[b]) {
      ClosedBreaks(p, id, reason, actor, at, b);
    }
  }

  /** The premises of a late arrival: `lid` just admitted, `rid` alone in its break. */
  ghost predicate LatePair(p: Proj, lid: Id, rid: Id, m: Match) {
    && lid in p.legs && rid in p.legs && lid != rid
    && p.legs[lid].status == Open && p.legs[rid].status == Broken
    && p.legs[rid].breakId in p.breaks && |p.breaks[p.legs[rid].breakId].legIds| == 1
    && (forall id :: id in m.legIds <==> id == lid || id == rid)
    && |m.legIds| >= 2 && NoDup(m.legIds) && m.id == DeriveId(M.MATCH_PREFIX, m.legIds) && m.rule == T2Late
  }

  /** The pair is matched, the break is resolved, and nothing else changes. */
  ghost predicate HealedTo(p: Proj, lid: Id, rid: Id, m: Match, q: Proj)
    requires rid in p.legs && p.legs[rid].breakId in p.breaks
  {
    var bid := p.legs[rid].breakId;
    && q.legs.Keys == p.legs.Keys && q.byRef == p.byRef
    && (forall x :: x in p.legs && x != lid && x != rid ==> q.legs[x] == p.legs[x])
    && (forall x :: x in p.legs && (x == lid || x == rid) ==> q.legs[x] == MatchedBy(p.legs[x], m.id))
    && q.matches == p.matches[m.id := m] && q.breaks.Keys == p.breaks.Keys
    && (forall b :: b in p.breaks && b != bid ==> q.breaks[b] == p.breaks[b])
    && q.breaks[bid].id == p.breaks[bid].id && q.breaks[bid].legIds == p.breaks[bid].legIds && SignedLate(q.breaks[bid])
    && q.breaks[bid].currency == p.breaks[bid].currency && q.breaks[bid].counterparty == p.breaks[bid].counterparty
  }

  lemma HealShape(p: Proj, lid: Id, rid: Id, m: Match, at: Time)
    requires LatePair(p, lid, rid, m)
    ensures HealedTo(p, lid, rid, m, Close(MarkMatched(p, m), p.legs[rid].breakId, LATE_REASON, SYSTEM_ACTOR, at))
  {
    hide DeriveId;
  }

  lemma PairPlaced(p: Proj, lid: Id, rid: Id, m: Match, q: Proj, x: Id)
    requires LatePair(p, lid, rid, m) && HealedTo(p, lid, rid, m, q)
    requires (x == lid || x == rid) && x in p.legs && p.legs[x].id == x && LegPlaced(p, p.legs[x])
    ensures LegPlaced(q, q.legs[x])
  {
    hide DeriveId, NoDup;
    assert q.legs[x] == MatchedBy(p.legs[x], m.id) && q.matches[m.id] == m;
  }

  lemma OtherPlaced(p: Proj, lid: Id, rid: Id, m: Match, q: Proj, x: Id)
    requires LatePair(p, lid, rid, m) && HealedTo(p, lid, rid, m, q) && m.id !in p.matches
    requires x in p.legs && x != lid && x != rid && LegPlaced(p, p.legs[x])
    ensures LegPlaced(q, p.legs[x]) && q.legs[x] == p.legs[x]
  {
    hide DeriveId, NoDup;
    if p.legs[x].status == Broken { assert p.legs[x].breakId in q.breaks.Keys; }
  }

  lemma HealedLegs(p: Proj, lid: Id, rid: Id, m: Match, q: Proj)
    requires Linked(p) && LatePair(p, lid, rid, m) && m.id !in p.matches && HealedTo(p, lid, rid, m, q)
    ensures LegsPlaced(q)
  {
    hide DeriveId, MatchesLinked, BreaksLinked, RefsListed, LegPlaced;
    forall x | x in q.legs ensures LegPlaced(q, q.legs[x]) {
      assert x in p.legs.Keys && LegPlaced(p, p.legs[x]);
      OwnLegId(p, x);
      if x == lid || x == rid { PairPlaced(p, lid, rid, m, q, x); } else { OtherPlaced(p, lid, rid, m, q, x); }
    }
  }

  lemma HealedMatches(p: Proj, lid: Id, rid: Id, m: Match, q: Proj)
    requires Linked(p) && LatePair(p, lid, rid, m) && m.id !in p.matches && HealedTo(p, lid, rid, m, q)
    ensures MatchesLinked(q)
  {
    hide DeriveId, LegsPlaced, BreaksLinked, RefsListed;
    forall x | x in q.matches ensures q.matches[x].id == x && MatchLinked(q, q.matches[x]) {
      if x != m.id {
        assert MatchLinked(p, p.matches[x]);
        forall id | id in p.matches[x].legIds ensures id != lid && id != rid
            && id in q.legs { assert id in p.legs.Keys; }
      } else {
        assert lid in p.legs.Keys && rid in p.legs.Keys;
      }
    }
  }

  lemma SingleBreak(p: Proj, lid: Id, rid: Id, m: Match)
    requires Linked(p) && LatePair(p, lid, rid, m)
    ensures var b := p.breaks[p.legs[rid].breakId]; b.legIds == [rid] && BreakLinked(p, b)
  {
    hide DeriveId, MatchesLinked, RefsListed, BreakMember, NoDup, BreakLinked;
    OwnLegId(p, rid);
    assert LegPlaced(p, p.legs[rid]);
  }

  lemma HealedBreak(p: Proj, lid: Id, rid: Id, m: Match, q: Proj)
    requires Linked(p) && LatePair(p, lid, rid, m) && HealedTo(p, lid, rid, m, q)
    ensures BreakLinked(q, q.breaks[p.legs[rid].breakId])
  {
    hide DeriveId, Linked;
    SingleBreak(p, lid, rid, m);
    assert rid in q.legs.Keys;
    assert BreakMember(q, q.breaks[p.legs[rid].breakId], rid);
  }

  lemma OwnLegId(p: Proj, id: Id)
    requires RefsListed(p) && id in p.legs
    ensures p.legs[id].id == id
  {
  }

  lemma OtherBreak(p: Proj, lid: Id, rid: Id, m: Match, q: Proj, b: Id)
    requires Linked(p) && LatePair(p, lid, rid, m) && m.id !in p.matches && HealedTo(p, lid, rid, m, q)
    requires b in p.breaks && b != p.legs[rid].breakId
    ensures BreakLinked(q, q.breaks[b])
  {
    hide DeriveId, MatchesLinked, RefsListed, LegsPlaced;
    MembersNotOpen(p, p.breaks[b]);
    forall x | x in p.breaks[b].legIds ensures x != rid && x in q.legs {
      assert BreakMember(p, p.breaks[b], x) && x in p.legs.Keys;
    }
    BreakKept(p, q, p.breaks[b]);
  }

  lemma HealedBreaks(p: Proj, lid: Id, rid: Id, m: Match, q: Proj)
    requires Linked(p) && LatePair(p, lid, rid, m) && m.id !in p.matches && HealedTo(p, lid, rid, m, q)
    ensures BreaksLinked(q)
  {
    hide DeriveId, MatchesLinked, RefsListed, LegsPlaced, BreakLinked;
    forall b | b in q.breaks ensures q.breaks[b].id == b && BreakLinked(q, q.breaks[b]) {
      assert b in p.breaks.Keys;
      if b == p.legs[rid].breakId { HealedBreak(p, lid, rid, m, q); } else { OtherBreak(p, lid, rid, m, q, b); }
    }
  }

  /** A late arrival takes the leg of a single-leg break into a match and closes the break. */
  lemma HealLinked(p: Proj, lid: Id, rid: Id, m: Match, at: Time)
    requires Linked(p) && LatePair(p, lid, rid, m)
    ensures Linked(Close(MarkMatched(p, m), p.legs[rid].breakId, LATE_REASON, SYSTEM_ACTOR, at)) && m.id !in p.matches
  {
    hide RefsListed, LegsPlaced, MatchesLinked, BreaksLinked, DeriveId;
    var q := Close(MarkMatched(p, m), p.legs[rid].breakId, LATE_REASON, SYSTEM_ACTOR, at);
    FreshMatchId(p, m);
    RefsKept(p, q);
    HealShape(p, lid, rid, m, at);
    HealedLegs(p, lid, rid, m, q);
    HealedMatches(p, lid, rid, m, q);
    HealedBreaks(p, lid, rid, m, q);
  }
}
