/** Legs, matches, breaks, events and the tunable rules of the reconciliation domain. */
module Domain {
  import opened Sequences

  type Id = string

  /** Clock readings; `ZERO_TIME` is the unset instant. */
  type Time = nat
  const ZERO_TIME: Time := 0

  const BATCH_REF := "batch_ref"
  const SYSTEM_ACTOR := "system"

  datatype Direction = Debit | Credit

  /** `Fresh` is the empty status of a leg the engine has not placed yet. */
  datatype LegStatus = Fresh | Open | Matched | Broken

  datatype WindowKey = WindowKey(currency: string, counterparty: string)

  datatype Leg = Leg(
    id: Id,
    source: string,
    txnRef: string,
    amount: int,
    currency: string,
    valueDate: int,
    direction: Direction,
    counterparty: string,
    attrs: map<string, string>,
    ingestedAt: Time,
    status: LegStatus,
    matchId: Id,
    breakId: Id)
  {
    function Key(): WindowKey { WindowKey(currency, counterparty) }

    /** The batch_ref attribute, or the empty string. */
    function Batch(): string { if BATCH_REF in attrs then attrs[BATCH_REF] else "" }

    /** The batch key of a leg acting as the "one" side of a settlement. */
    function SettlementKey(): string { if Batch() != "" then Batch() else txnRef }

    /** The leg without the fields the engine derives. */
    function Unplaced(): Leg { this.(status := Fresh, matchId := "", breakId := "") }
  }

  datatype Tier = TierExact | TierTolerant | TierManyToOne

  datatype RuleId = T1Exact | T2Tolerant | T2AmountDate | T2Late | T3Subset

  /** Confidence is in thousandths. */
  datatype Match = Match(
    id: Id,
    legIds: seq<Id>,
    tier: Tier,
    rule: RuleId,
    confidence: int,
    residual: int,
    currency: string,
    matchedAt: Time)

  datatype BreakStatus = BreakOpen | BreakResolved

  datatype Trigger = RefConflict | DuplicateRef | WindowExpired

  datatype Break = Break(
    id: Id,
    legIds: seq<Id>,
    currency: string,
    counterparty: string,
    category: string,
    confidence: int,
    classifierId: string,
    trigger: Trigger,
    status: BreakStatus,
    openedAt: Time,
    resolvedAt: Option<Time>,
    reason: string,
    actor: string)

  datatype ClassifyInput = ClassifyInput(legs: seq<Leg>, related: seq<Leg>, trigger: Trigger, rules: Rules)

  datatype Classification = Classification(category: string, confidence: int, classifierId: string, evidence: string)

  /** A pure break classifier. */
  type Classifier = ClassifyInput -> Classification

  datatype Config = Config(rules: Rules, classify: Classifier)

  /** Payloads of the append-only log; `matchId` of a resolution is empty for a manual one. */
  datatype Payload =
    | LegIngested(leg: Leg)
    | LegDuplicate(leg: Leg)
    | LegExpired(legId: Id, forced: bool)
    | MatchCreated(match_: Match)
    | BreakOpened(brk: Break)
    | BreakResolvedBy(breakId: Id, reason: string, actor: string, at: Time, matchId: Id)
    | WindowClosed(expired: nat, olderThan: int)
    | ReplayStarted(from: nat, through: nat)

  datatype Event = Event(seqNo: nat, at: Time, payload: Payload)

  function Abs(x: int): (r: int)
    ensures r >= 0 && (r == x || r == -x)
  {
    if x < 0 then -x else x
  }

  datatype Rules = Rules(
    toleranceBps: int,
    toleranceAbs: int,
    windowDays: int,
    t3MaxCandidates: int,
    t3MaxSubset: int,
    t3RequireBatchHint: bool)
  {
    predicate Valid() {
      && 0 <= toleranceBps <= 10_000
      && 0 <= toleranceAbs
      && 0 <= windowDays <= 365
      && 2 <= t3MaxCandidates <= 64
      && 2 <= t3MaxSubset <= 12
    }

    /** The allowed deviation: the larger of the rounded relative and the absolute tolerance. */
    function Tolerance(amount: int): int {
      var rel := (Abs(amount) * toleranceBps + 5_000) / 10_000;
      if rel > toleranceAbs then rel else toleranceAbs
    }

    predicate WithinTolerance(a: int, b: int) {
      Abs(a - b) <= Tolerance(a)
    }

    predicate WithinDateWindow(a: int, b: int) {
      Abs(a - b) <= windowDays
    }
  }

  const DEFAULT_RULES := Rules(10, 2, 2, 24, 6, true)

  lemma QuotientBounds(num: int, d: int, lo: int, hi: int)
    requires d > 0 && lo * d <= num < (hi + 1) * d
    ensures lo <= num / d <= hi
  {
    var q := num / d;
    assert q * d <= num < (q + 1) * d;
  }

  /** Maps a residual to a confidence between 800 and 950 thousandths, rounding half up. */
  function TolerantConfidence(residual: int, tolerance: int): (c: int)
    ensures 800 <= c <= 950
    ensures residual == 0 ==> c == 950
    ensures 0 < tolerance <= Abs(residual) ==> c == 800
    ensures 0 < tolerance ==>
              var r := if Abs(residual) > tolerance then tolerance else Abs(residual);
              -tolerance < 2 * tolerance * c - 2 * (950 * tolerance - 150 * r) <= tolerance
  {
    if tolerance <= 0 then 950
    else
      var r := if Abs(residual) > tolerance then tolerance else Abs(residual);
      var num := 2 * (950 * tolerance - 150 * r) + tolerance;
      QuotientBounds(num, 2 * tolerance, if r == 0 then 950 else 800, if r == tolerance then 800 else 950);
      num / (2 * tolerance)
  }

  /** The relative part is `amount * bps / 10_000` rounded to the nearest integer, halves away from zero. */
  lemma ToleranceRounds(rules: Rules, amount: int, rel: int)
    requires rules.Valid()
    requires 10_000 * rel - 5_000 <= Abs(amount) * rules.toleranceBps < 10_000 * rel + 5_000
    ensures rules.Tolerance(amount) == if rel > rules.toleranceAbs then rel else rules.toleranceAbs
    ensures rules.WithinTolerance(amount, amount)
    ensures rel <= Abs(amount)
  {
    QuotientBounds(Abs(amount) * rules.toleranceBps + 5_000, 10_000, rel, rel);
    assert Abs(amount) * rules.toleranceBps <= Abs(amount) * 10_000;
  }
}
