/**
 Deterministic identifiers: the canonical byte strings that are hashed into leg, match and
 break ids. The hash itself is idealised as an injective digest without NUL and colon.
 */
module Identity {
  import opened Sequences
  import opened Ordering
  import opened Domain
  import opened Calendar

  const NUL: char := '\0'
  const COLON: char := ':'

  ghost predicate NulFree(s: string) {
    NUL !in s
  }

  ghost predicate AllNulFree(ws: seq<string>) {
    forall w :: w in ws ==> NulFree(w)
  }

  // ---------------------------------------------------------------- field framing

  /** Every field followed by NUL. */
  function Frame(ws: seq<string>): string {
    if ws == [] then "" else ws[0] + [NUL] + Frame(ws[1..])
  }

  /** A separator that occurs in neither head pins the split. */
  lemma {:induction false} SplitAtFirst(c: char, x: string, r: string, y: string, t: string)
    requires c !in x && c !in y && x + [c] + r == y + [c] + t
    ensures x == y && r == t
  {
    var s := x + [c] + r;
    assert s[0] == (if x == "" then c else x[0]) == (if y == "" then c else y[0]);
    if x != "" && y != "" {
      assert s[1..] == x[1..] + [c] + r == y[1..] + [c] + t;
      SplitAtFirst(c, x[1..], r, y[1..], t);
      assert x == [x[0]] + x[1..] && y == [y[0]] + y[1..];
    } else {
      assert r == s[1..] == t;
    }
  }

  /** A separator that occurs in neither tail pins the split. */
  lemma {:induction false} SplitAtLast(c: char, x: string, r: string, y: string, t: string)
    requires c !in r && c !in t && x + [c] + r == y + [c] + t
    ensures x == y && r == t
  {
    var s := x + [c] + r;
    var n := |s| - 1;
    assert s[n] == (if r == "" then c else r[|r| - 1]) == (if t == "" then c else t[|t| - 1]);
    if r != "" && t != "" {
      assert s[..n] == x + [c] + r[..|r| - 1] == y + [c] + t[..|t| - 1];
      SplitAtLast(c, x, r[..|r| - 1], y, t[..|t| - 1]);
      assert r == r[..|r| - 1] + [r[|r| - 1]] && t == t[..|t| - 1] + [t[|t| - 1]];
    } else {
      assert x == s[..n] == y;
    }
  }

  lemma {:induction false} FrameInjective(a: seq<string>, b: seq<string>)
    requires AllNulFree(a) && AllNulFree(b) && Frame(a) == Frame(b)
    ensures a == b
  {
    if a != [] && b != [] {
      assert NulFree(a[0]) && NulFree(b[0]);
      SplitAtFirst(NUL, a[0], Frame(a[1..]), b[0], Frame(b[1..]));
      FrameInjective(a[1..], b[1..]);
      assert a == [a[0]] + a[1..] && b == [b[0]] + b[1..];
    }
  }

  lemma {:induction false} FrameAppend(a: seq<string>, b: seq<string>)
    ensures Frame(a + b) == Frame(a) + Frame(b)
  {
    if a == [] {
      assert a + b == b;
    } else {
      FrameAppend(a[1..], b);
      assert (a + b)[1..] == a[1..] + b;
    }
  }

  // ---------------------------------------------------------------- leg content

  function DirectionName(d: Direction): string {
    if d.Debit? then "debit" else "credit"
  }

  ghost function SortedKeys(attrs: map<string, string>): seq<string> {
    Canon(attrs.Keys, StrLess)
  }

  /** key, value, key, value, ... */
  function Pairs(keys: seq<string>, attrs: map<string, string>): seq<string>
    requires forall k :: k in keys ==> k in attrs
  {
    if keys == [] then []
    else
      var k := keys[|keys| - 1];
      Pairs(keys[..|keys| - 1], attrs) + [k, attrs[k]]
  }

  function HeadFields(l: Leg): seq<string> {
    [l.source, l.txnRef, FormatInt(l.amount), l.currency, DateText(l.valueDate), DirectionName(l.direction),
        l.counterparty]
  }

  lemma KeysCovered(attrs: map<string, string>)
    ensures forall k :: k in SortedKeys(attrs) <==> k in attrs
  {
    CanonMembers(attrs.Keys, StrLess);
  }

  /** The business fields in hashing order, attributes by ascending key. */
  ghost function ContentFields(l: Leg): seq<string> {
    KeysCovered(l.attrs);
    HeadFields(l) + Pairs(SortedKeys(l.attrs), l.attrs)
  }

  /** What is hashed of a leg with one attribute, in this order, and how its id is put together. */
  lemma HashedFields(l: Leg, k: string, v: string)
    requires l.attrs == map[k := v]
    ensures ContentFields(l) ==
            [l.source, l.txnRef, FormatInt(l.amount), l.currency, DateText(l.valueDate),
             if l.direction == Debit then "debit" else "credit", l.counterparty, k, v]
    ensures IdOf(l) == l.source + ":" + l.txnRef + ":" + Digest(Frame(ContentFields(l)))
  {
    hide FormatInt, DateText, Digest, Frame;
    KeysCovered(l.attrs);
    OneKey(l.attrs, k);
    assert [k][..0] == [];
    assert Pairs([k], l.attrs) == [k, v];
  }

  lemma OneKey(attrs: map<string, string>, k: string)
    requires attrs.Keys == {k}
    ensures SortedKeys(attrs) == [k]
  {
    CanonMembers(attrs.Keys, StrLess);
    assert SortedKeys(attrs)[0] in SortedKeys(attrs);
  }

  /** Two legs that agree on every business field. */
  predicate SameContent(a: Leg, b: Leg) {
    && a.source == b.source && a.txnRef == b.txnRef && a.amount == b.amount && a.currency == b.currency
    && a.valueDate == b.valueDate && a.direction == b.direction && a.counterparty == b.counterparty
    && a.attrs == b.attrs
  }

  /** No business string of the leg contains NUL. */
  ghost predicate CleanText(l: Leg) {
    && NulFree(l.source) && NulFree(l.txnRef) && NulFree(l.currency) && NulFree(l.counterparty)
    && forall k :: k in l.attrs ==> NulFree(k) && NulFree(l.attrs[k])
  }

  lemma {:induction false} PairsNulFree(keys: seq<string>, attrs: map<string, string>)
    requires forall k :: k in keys ==> k in attrs && NulFree(k) && NulFree(attrs[k])
    ensures AllNulFree(Pairs(keys, attrs))
  {
    if keys != [] { PairsNulFree(keys[..|keys| - 1], attrs); }
  }

  lemma {:induction false} PairsInjective(k1: seq<string>, a1: map<string, string>, k2: seq<string>,
      a2: map<string, string>)
    requires forall k :: k in k1 ==> k in a1
    requires forall k :: k in k2 ==> k in a2
    requires Pairs(k1, a1) == Pairs(k2, a2)
    ensures k1 == k2 && forall k :: k in k1 ==> a1[k] == a2[k]
  {
    assert |Pairs(k1, a1)| == 0 <==> k1 == [];
    assert |Pairs(k2, a2)| == 0 <==> k2 == [];
    if k1 != [] && k2 != [] {
      var n1, n2 := |k1| - 1, |k2| - 1;
      var p1, p2 := Pairs(k1[..n1], a1), Pairs(k2[..n2], a2);
      var p := Pairs(k1, a1);
      assert p[|p| - 2] == k1[n1] == k2[n2] && p[|p| - 1] == a1[k1[n1]] == a2[k2[n2]];
      assert p1 == p[..|p| - 2] == p2;
      PairsInjective(k1[..n1], a1, k2[..n2], a2);
      assert k1 == k1[..n1] + [k1[n1]] && k2 == k2[..n2] + [k2[n2]];
    }
  }

  /** The hashed byte string determines the business content. */
  lemma ContentInjective(a: Leg, b: Leg)
    requires CleanText(a) && CleanText(b)
    requires Frame(ContentFields(a)) == Frame(ContentFields(b))
    ensures SameContent(a, b)
  {
    KeysCovered(a.attrs);
    KeysCovered(b.attrs);
    var fa, fb := ContentFields(a), ContentFields(b);
    FieldsNulFree(a);
    FieldsNulFree(b);
    FrameInjective(fa, fb);
    assert HeadFields(a) == fa[..7] == fb[..7] == HeadFields(b);
    assert Pairs(SortedKeys(a.attrs), a.attrs) == fa[7..] == fb[7..] == Pairs(SortedKeys(b.attrs), b.attrs);
    PairsInjective(SortedKeys(a.attrs), a.attrs, SortedKeys(b.attrs), b.attrs);
    var ha, hb := HeadFields(a), HeadFields(b);
    assert ha[0] == hb[0] && ha[1] == hb[1] && ha[2] == hb[2] && ha[3] == hb[3] && ha[4] == hb[4] && ha[5] == hb[5]
           && ha[6] == hb[6];
    FormatIntInjective(a.amount, b.amount);
    DateTextInjective(a.valueDate, b.valueDate);
    assert |DirectionName(Debit)| != |DirectionName(Credit)|;
  }

  lemma FieldsNulFree(l: Leg)
    requires CleanText(l)
    ensures AllNulFree(ContentFields(l))
  {
    KeysCovered(l.attrs);
    PairsNulFree(SortedKeys(l.attrs), l.attrs);
    PlainText(l.amount);
    PlainText(l.valueDate);
  }

  // ---------------------------------------------------------------- digest and ids

  /** Stands for the hash: injective, and free of NUL and colon like a hex string. */
  function Digest(s: string): string {
    if s == "" then ""
    else (if s[0] == NUL then "0" else if s[0] == COLON then "2" else "1" + [s[0]]) + Digest(s[1..])
  }

  lemma {:induction false} DigestClean(s: string)
    ensures NUL !in Digest(s) && COLON !in Digest(s)
  {
    if s != "" { DigestClean(s[1..]); }
  }

  lemma {:induction false} DigestInjective(s: string, t: string)
    requires Digest(s) == Digest(t)
    ensures s == t
  {
    if s != "" && t != "" {
      assert Digest(s)[0] == Digest(t)[0];
      var k := if s[0] == NUL || s[0] == COLON then 1 else 2;
      assert Digest(s)[k..] == Digest(s[1..]) && Digest(t)[k..] == Digest(t[1..]);
      assert k == 2 ==> Digest(s)[1] == s[0] && Digest(t)[1] == t[0];
      DigestInjective(s[1..], t[1..]);
      assert s == [s[0]] + s[1..] && t == [t[0]] + t[1..];
    }
  }

  /** The idempotency key of a leg: source, txn_ref and content digest, colon-separated. */
  ghost function IdOf(l: Leg): Id {
    l.source + [COLON] + l.txnRef + [COLON] + Digest(Frame(ContentFields(l)))
  }

  /** Equal ids mean equal business content. */
  lemma IdInjective(a: Leg, b: Leg)
    requires CleanText(a) && CleanText(b) && IdOf(a) == IdOf(b)
    ensures SameContent(a, b)
  {
    var da, db := Digest(Frame(ContentFields(a))), Digest(Frame(ContentFields(b)));
    DigestClean(Frame(ContentFields(a)));
    DigestClean(Frame(ContentFields(b)));
    SplitAtLast(COLON, a.source + [COLON] + a.txnRef, da, b.source + [COLON] + b.txnRef, db);
    DigestInjective(Frame(ContentFields(a)), Frame(ContentFields(b)));
    ContentInjective(a, b);
  }

  /** Ids ignore ingestion metadata and engine state. */
  lemma IdOfContent(a: Leg, b: Leg)
    requires SameContent(a, b)
    ensures IdOf(a) == IdOf(b)
  {
  }

  lemma IdNulFree(l: Leg)
    requires CleanText(l)
    ensures NulFree(IdOf(l)) && IdOf(l) != ""
  {
    DigestClean(Frame(ContentFields(l)));
  }

  /** Lists the attribute keys in ascending order; the map may be walked in any order. */
  method ListKeys(attrs: map<string, string>) returns (keys: seq<string>)
    ensures keys == SortedKeys(attrs)
  {
    keys := [];
    var todo := attrs.Keys;
    while todo != {}
      invariant todo <= attrs.Keys
      invariant NoDup(keys)
      invariant forall k :: k in keys <==> k in attrs.Keys && k !in todo
      decreases |todo|
    {
      var k :| k in todo;
      keys := keys + [k];
      todo := todo - {k};
    }
    StrWeakOrder();
    StringsTotal(keys);
    assert SetOf(keys) == attrs.Keys;
    CanonUnique(keys, attrs.Keys, StrLess);
    keys := Sort(keys, StrLess);
  }

  lemma FramePair(k: string, v: string)
    ensures Frame([k, v]) == k + [NUL] + v + [NUL]
  {
    assert [k, v][1..] == [v];
    assert Frame([v]) == v + [NUL] + Frame([]);
  }

  /** Feeds the fields to the hash one by one. */
  method ComputeId(l: Leg) returns (id: Id)
    ensures id == IdOf(l)
  {
    hide DateText, Digest, FormatInt, SortedKeys;
    var keys := ListKeys(l.attrs);
    KeysCovered(l.attrs);
    var head := Frame(HeadFields(l));
    var h := head;
    for i := 0 to |keys|
      invariant h == head + Frame(Pairs(keys[..i], l.attrs))
    {
      var k := keys[i];
      h := h + (k + [NUL] + l.attrs[k] + [NUL]);
      assert keys[..i + 1][..i] == keys[..i];
      FrameAppend(Pairs(keys[..i], l.attrs), [k, l.attrs[k]]);
      FramePair(k, l.attrs[k]);
    }
    assert keys[..|keys|] == keys;
    FrameAppend(HeadFields(l), Pairs(keys, l.attrs));
    id := l.source + [COLON] + l.txnRef + [COLON] + Digest(h);
  }

  function Join(ws: seq<string>): string {
    if ws == [] then "" else if |ws| == 1 then ws[0] else ws[0] + [NUL] + Join(ws[1..])
  }

  lemma {:induction false} JoinFrames(ws: seq<string>)
    requires ws != []
    ensures Join(ws) + [NUL] == Frame(ws)
  {
    if |ws| > 1 {
      JoinFrames(ws[1..]);
    } else {
      assert Frame(ws[1..]) == "";
    }
  }

  /** The id of a match or break: a digest of its sorted leg ids. */
  function DeriveId(prefix: string, legIds: seq<Id>): Id {
    prefix + "_" + Digest(Join(Sort(legIds, StrLess)))
  }

  lemma DeriveIdNonEmpty(prefix: string, legIds: seq<Id>)
    ensures DeriveId(prefix, legIds) != ""
  {
  }

  lemma StringsTotal(ws: seq<string>)
    ensures TotalOn(ws, StrLess)
  {
    forall x, y | x in ws && y in ws && x != y ensures StrLess(x, y) || StrLess(y, x) { StrTrichotomy(x, y); }
  }

  /** The derived id does not depend on the order of the legs. */
  lemma DeriveIdIgnoresOrder(prefix: string, a: seq<Id>, b: seq<Id>)
    requires multiset(a) == multiset(b)
    ensures DeriveId(prefix, a) == DeriveId(prefix, b)
  {
    StrWeakOrder();
    StringsTotal(a);
    SortIgnoresOrder(a, b, StrLess);
  }

  /** The derived id determines the legs. */
  lemma DeriveIdInjective(prefix: string, a: seq<Id>, b: seq<Id>)
    requires a != [] && b != [] && AllNulFree(a) && AllNulFree(b)
    requires DeriveId(prefix, a) == DeriveId(prefix, b)
    ensures multiset(a) == multiset(b)
    ensures forall x :: x in a <==> x in b
  {
    var sa, sb := Sort(a, StrLess), Sort(b, StrLess);
    SortPermutes(a, StrLess);
    SortPermutes(b, StrLess);
    var da, db := Digest(Join(sa)), Digest(Join(sb));
    assert da == DeriveId(prefix, a)[|prefix| + 1..];
    assert db == DeriveId(prefix, b)[|prefix| + 1..];
    DigestInjective(Join(sa), Join(sb));
    JoinFrames(sa);
    JoinFrames(sb);
    FrameInjective(sa, sb);
    assert forall x :: x in a <==> x in multiset(a);
    assert forall x :: x in b <==> x in multiset(b);
  }

  lemma SortPair(x: string, y: string)
    requires StrLess(x, y)
    ensures Sort([x, y], StrLess) == [x, y]
  {
    StrTrichotomy(x, y);
    assert [x, y][1..] == [y];
    assert [y][1..] == [];
    assert Sort([y], StrLess) == [y];
  }

  // ---------------------------------------------------------------- text with NUL

  function NulCount(s: string): nat {
    if s == "" then 0 else (if s[0] == NUL then 1 else 0) + NulCount(s[1..])
  }

  lemma {:induction false} NulCountAppend(a: string, b: string)
    ensures NulCount(a + b) == NulCount(a) + NulCount(b)
  {
    if a == "" {
      assert a + b == b;
    } else {
      NulCountAppend(a[1..], b);
      assert (a + b)[1..] == a[1..] + b;
    }
  }

  lemma {:induction false} NulCountZero(s: string)
    ensures NulCount(s) == 0 <==> NulFree(s)
  {
    if s != "" {
      NulCountZero(s[1..]);
      assert s == [s[0]] + s[1..];
    }
  }

  /** A frame has at least one NUL per field, and exactly one when no field contains NUL. */
  lemma {:induction false} FrameNuls(ws: seq<string>)
    ensures NulCount(Frame(ws)) >= |ws|
    ensures NulCount(Frame(ws)) == |ws| <==> AllNulFree(ws)
  {
    if ws != [] {
      FrameNuls(ws[1..]);
      NulCountAppend(ws[0] + [NUL], Frame(ws[1..]));
      NulCountAppend(ws[0], [NUL]);
      assert [NUL][1..] == "" && NulCount([NUL]) == 1;
      NulCountZero(ws[0]);
      assert ws == [ws[0]] + ws[1..];
    }
  }

  lemma {:induction false} PairsLength(keys: seq<string>, attrs: map<string, string>)
    requires forall k :: k in keys ==> k in attrs
    ensures |Pairs(keys, attrs)| == 2 * |keys|
  {
    if keys != [] { PairsLength(keys[..|keys| - 1], attrs); }
  }

  lemma NoKeys(attrs: map<string, string>)
    ensures attrs == map[] <==> SortedKeys(attrs) == []
  {
    KeysCovered(attrs);
    if attrs != map[] {
      assert attrs.Keys != {};
      var k :| k in attrs.Keys;
      assert k in SortedKeys(attrs);
    }
    assert forall i :: 0 <= i < |SortedKeys(attrs)| ==> SortedKeys(attrs)[i] in attrs;
  }

  /** What equal ids have in common: the text before the digest and the hashed bytes. */
  lemma SameIdParts(a: Leg, b: Leg)
    requires IdOf(a) == IdOf(b)
    ensures a.source + [COLON] + a.txnRef == b.source + [COLON] + b.txnRef
    ensures Frame(ContentFields(a)) == Frame(ContentFields(b))
  {
    hide ContentFields;
    var da, db := Digest(Frame(ContentFields(a))), Digest(Frame(ContentFields(b)));
    DigestClean(Frame(ContentFields(a)));
    DigestClean(Frame(ContentFields(b)));
    SplitAtLast(COLON, a.source + [COLON] + a.txnRef, da, b.source + [COLON] + b.txnRef, db);
    DigestInjective(Frame(ContentFields(a)), Frame(ContentFields(b)));
  }

  /** Without attributes there is no room to regroup: only NUL-free legs of the same content have the id. */
  lemma IdUniqueWithoutAttrs(l: Leg, b: Leg)
    requires CleanText(l) && l.attrs == map[] && IdOf(b) == IdOf(l)
    ensures SameContent(b, l)
  {
    hide DateText, FormatInt, IdOf;
    SameIdParts(l, b);
    NoKeys(l.attrs);
    KeysCovered(l.attrs);
    KeysCovered(b.attrs);
    FieldsNulFree(l);
    PairsLength(SortedKeys(l.attrs), l.attrs);
    PairsLength(SortedKeys(b.attrs), b.attrs);
    FrameNuls(ContentFields(l));
    FrameNuls(ContentFields(b));
    NoKeys(b.attrs);
    var f := ContentFields(b);
    assert |f| == 7 && b.attrs == map[];
    assert NulFree(f[0]) && NulFree(f[1]) && NulFree(f[3]) && NulFree(f[6]);
    IdInjective(b, l);
  }

  /** The attributes of `l` folded into its counterparty. */
  ghost function Regrouped(l: Leg): Leg {
    KeysCovered(l.attrs);
    l.(counterparty := Join([l.counterparty] + Pairs(SortedKeys(l.attrs), l.attrs)), attrs := map[])
  }

  /** With attributes there is another leg with the same hashed bytes and the same id. */
  lemma RegroupedSameId(l: Leg)
    requires l.attrs != map[]
    ensures IdOf(Regrouped(l)) == IdOf(l) && !SameContent(Regrouped(l), l)
  {
    hide DateText, FormatInt, Digest, ContentFields;
    RegroupedFields(l);
    KeysCovered(l.attrs);
    var ws := [l.counterparty] + Pairs(SortedKeys(l.attrs), l.attrs);
    var head := HeadFields(l)[..6];
    FrameAppend(head, [Join(ws)]);
    FrameAppend(head, ws);
    FrameRegroups(ws, []);
    assert ws + [] == ws && [Join(ws)] + [] == [Join(ws)];
    assert Frame(ContentFields(Regrouped(l))) == Frame(ContentFields(l));
  }

  lemma RegroupedFields(l: Leg)
    ensures var ws := (KeysCovered(l.attrs); [l.counterparty] + Pairs(SortedKeys(l.attrs), l.attrs));
            && ContentFields(Regrouped(l)) == HeadFields(l)[..6] + [Join(ws)]
            && ContentFields(l) == HeadFields(l)[..6] + ws
  {
    hide DateText, FormatInt, Digest, Join;
    KeysCovered(l.attrs);
    KeysCovered(map[]);
    NoKeys(map[]);
    assert Pairs([], map[]) == [];
  }

  /** The id of a NUL-free leg stands for its content alone exactly when the leg has no attributes. */
  lemma IdUniqueIff(l: Leg)
    requires CleanText(l)
    ensures (forall b :: IdOf(b) == IdOf(l) ==> SameContent(b, l)) <==> l.attrs == map[]
  {
    hide IdOf, CleanText;
    if l.attrs == map[] {
      forall b | IdOf(b) == IdOf(l) ensures SameContent(b, l) { IdUniqueWithoutAttrs(l, b); }
    } else {
      RegroupedSameId(l);
    }
  }

  // ---------------------------------------------------------------- two pairs of legs with one derived id

  lemma {:induction false} JoinLast(ws: seq<string>, x: string)
    requires ws != []
    ensures Join(ws + [x]) == Join(ws) + [NUL] + x
  {
    if |ws| == 1 {
      assert ws + [x] == [ws[0], x] && [ws[0], x][1..] == [x];
    } else {
      JoinLast(ws[1..], x);
      assert (ws + [x])[1..] == ws[1..] + [x];
    }
  }

  /** Joining the first fields into one does not change the frame. */
  lemma FrameRegroups(ws: seq<string>, rest: seq<string>)
    requires ws != []
    ensures Frame(ws + rest) == Frame([Join(ws)] + rest)
  {
    FrameAppend(ws, rest);
    FrameAppend([Join(ws)], rest);
    JoinFrames(ws);
    assert [Join(ws)][1..] == [] && Frame([Join(ws)]) == Join(ws) + [NUL] + Frame([]);
  }

  const DAY := 1

  function Shared(): seq<string> { ["p", "B", FormatInt(5), "EUR", DateText(DAY), "debit", "C"] }

  function Plain(source: string, txnRef: string, counterparty: string, attrs: map<string, string>): Leg {
    Leg("", source, txnRef, 5, "EUR", DAY, Debit, counterparty, attrs, ZERO_TIME, Fresh, "", "")
  }

  ghost function DigestOf(l: Leg): string { Digest(Frame(ContentFields(l))) }

  ghost function Short(): Leg { Plain("a", "r", "C", map[]) }

  ghost function Long(): Leg {
    Plain("a", "r" + [COLON] + DigestOf(Short()) + [NUL] + (Join(Shared()) + [NUL] + "A"), "C", map[])
  }

  ghost function LongKey(): string { "A" + [COLON] + DigestOf(Long()) }

  ghost function Spread(): Leg {
    Plain("p", "B", "C", map[LongKey() := "p", "B" := FormatInt(5), "EUR" := DateText(DAY), "debit" := "Z"])
  }

  ghost function Packed(): Leg { Plain(Join(Shared() + [LongKey(), "p"]), "B", "Z", map[]) }

  lemma SortedFixed(q: seq<string>)
    requires Sorted(q, StrLess)
    ensures Sort(q, StrLess) == q
  {
    StrWeakOrder();
    StringsTotal(q);
    SortSorted(q, StrLess);
    SortPermutes(q, StrLess);
    StringsTotal(Sort(q, StrLess));
    SortedUnique(Sort(q, StrLess), q, StrLess);
  }

  lemma FirstDecides(x: string, y: string)
    requires x != "" && y != "" && x[0] < y[0]
    ensures StrLess(x, y) && !StrLess(y, x)
  {
  }

  lemma FourSorted(a: string, b: string, c: string, d: string)
    requires a != "" && b != "" && c != "" && d != "" && a[0] < b[0] < c[0] < d[0]
    ensures Sorted([a, b, c, d], StrLess) && NoDup([a, b, c, d])
  {
    hide StrLess;
    FirstDecides(a, b);
    FirstDecides(a, c);
    FirstDecides(a, d);
    FirstDecides(b, c);
    FirstDecides(b, d);
    FirstDecides(c, d);
  }

  /** Keys with ascending first letters are listed in that order. */
  lemma FourKeys(a: string, b: string, c: string, d: string, attrs: map<string, string>)
    requires a != "" && b != "" && c != "" && d != "" && a[0] < b[0] < c[0] < d[0]
    requires attrs.Keys == {a, b, c, d}
    ensures SortedKeys(attrs) == [a, b, c, d]
  {
    hide StrLess, Sorted, NoDup, Sort, Canon, WeakOrder, TotalOn;
    var q := [a, b, c, d];
    FourSorted(a, b, c, d);
    StrWeakOrder();
    StringsTotal(q);
    SortedFixed(q);
    assert SetOf(q) == attrs.Keys;
    CanonUnique(q, attrs.Keys, StrLess);
  }

  lemma PairsFour(a: string, b: string, c: string, d: string, attrs: map<string, string>)
    requires a in attrs && b in attrs && c in attrs && d in attrs
    ensures Pairs([a, b, c, d], attrs) == [a, attrs[a], b, attrs[b], c, attrs[c], d, attrs[d]]
  {
    assert [a, b, c, d][..3] == [a, b, c] && [a, b, c][..2] == [a, b] && [a, b][..1] == [a] && [a][..0] == [];
    assert Pairs([], attrs) == [];
    assert Pairs([a], attrs) == [a, attrs[a]];
    assert Pairs([a, b], attrs) == [a, attrs[a], b, attrs[b]];
    assert Pairs([a, b, c], attrs) == [a, attrs[a], b, attrs[b], c, attrs[c]];
  }

  lemma SpreadFields()
    ensures ContentFields(Spread()) ==
            Shared() + [LongKey(), "p", "B", FormatInt(5), "EUR", DateText(DAY), "debit", "Z"]
  {
    hide DateText, FormatInt, Digest, SortedKeys, DigestOf, Long;
    var b := Spread();
    var key := LongKey();
    assert key[0] == 'A';
    assert b.attrs.Keys == {key, "B", "EUR", "debit"};
    FourKeys(key, "B", "EUR", "debit", b.attrs);
    PairsFour(key, "B", "EUR", "debit", b.attrs);
    KeysCovered(b.attrs);
  }

  lemma PackedFields()
    ensures ContentFields(Packed()) ==
            [Join(Shared() + [LongKey(), "p"]), "B", FormatInt(5), "EUR", DateText(DAY), "debit", "Z"]
  {
    hide DateText, FormatInt, Digest, SortedKeys, DigestOf, Long, Join;
    NoKeys(map[]);
    KeysCovered(map[]);
  }

  /** One hashed text, grouped in two ways. */
  lemma SpreadIsPacked()
    ensures DigestOf(Spread()) == DigestOf(Packed())
  {
    hide DateText, FormatInt, Digest, ContentFields, LongKey, Frame, Join, Shared;
    SpreadFields();
    PackedFields();
    var ws := Shared() + [LongKey(), "p"];
    var rest := ["B", FormatInt(5), "EUR", DateText(DAY), "debit", "Z"];
    FrameRegroups(ws, rest);
    assert ws + rest == Shared() + [LongKey(), "p", "B", FormatInt(5), "EUR", DateText(DAY), "debit", "Z"];
    assert [Join(ws)] + rest == [Join(ws), "B", FormatInt(5), "EUR", DateText(DAY), "debit", "Z"];
  }

  lemma LongText(j: string, dc: string, da: string)
    ensures "a" + [COLON] + ("r" + [COLON] + dc + [NUL] + (j + [NUL] + "A")) + [COLON] + da ==
            ("a" + [COLON] + "r" + [COLON] + dc) + [NUL] + (j + [NUL] + ("A" + [COLON] + da))
  {
    var u := j + [NUL] + "A";
    assert u + [COLON] + da == j + [NUL] + ("A" + [COLON] + da);
    assert "a" + [COLON] + ("r" + [COLON] + dc + [NUL] + u) == ("a" + [COLON] + "r" + [COLON] + dc) + [NUL] + u;
    var c := "a" + [COLON] + "r" + [COLON] + dc;
    assert (c + [NUL] + u) + [COLON] + da == c + [NUL] + (u + [COLON] + da);
  }

  /** The longer id continues the shorter one, and what it adds continues into the packed id. */
  lemma IdsShift()
    ensures var x := Join(Shared()) + [NUL] + LongKey();
            IdOf(Long()) == IdOf(Short()) + [NUL] + x && IdOf(Packed()) == x + [NUL] + IdOf(Spread())
  {
    hide DateText, FormatInt, Digest, ContentFields, Frame, Join, Shared;
    var j := Join(Shared());
    var x := j + [NUL] + LongKey();
    LongText(j, DigestOf(Short()), DigestOf(Long()));
    SpreadIsPacked();
    SharedNotEmpty();
    JoinLast(Shared(), LongKey());
    JoinLast(Shared() + [LongKey()], "p");
    assert Shared() + [LongKey()] + ["p"] == Shared() + [LongKey(), "p"];
    PackedText(x, DigestOf(Spread()));
  }

  lemma SharedNotEmpty()
    ensures Shared() != []
  {
  }

  lemma PackedText(x: string, db: string)
    ensures (x + [NUL] + "p") + [COLON] + "B" + [COLON] + db == x + [NUL] + ("p" + [COLON] + "B" + [COLON] + db)
  {
  }

  lemma JoinTwo(a: string, b: string)
    ensures Join([a, b]) == a + [NUL] + b
  {
    assert [a, b][1..] == [b];
  }

  /** Two different pairs of legs with one derived id. */
  lemma DeriveIdCollides(prefix: string)
    ensures DeriveId(prefix, [IdOf(Long()), IdOf(Spread())]) == DeriveId(prefix, [IdOf(Short()), IdOf(Packed())])
    ensures IdOf(Long()) != IdOf(Short()) && IdOf(Long()) != IdOf(Packed())
  {
    FirstLetters();
    hide IdOf, Long, Short, Spread, Packed, LongKey, Digest, Join, Sort, StrLess, Shared, DigestOf;
    var a, b, c, d := IdOf(Long()), IdOf(Spread()), IdOf(Short()), IdOf(Packed());
    var x := Join(Shared()) + [NUL] + LongKey();
    IdsShift();
    FirstDecides(a, b);
    FirstDecides(c, d);
    SortPair(a, b);
    SortPair(c, d);
    JoinTwo(a, b);
    JoinTwo(c, d);
    assert (c + [NUL] + x) + [NUL] + b == c + [NUL] + (x + [NUL] + b);
    assert |a| > |c|;
  }

  lemma FirstLetters()
    ensures var a, b, c, d := IdOf(Long()), IdOf(Spread()), IdOf(Short()), IdOf(Packed());
            a != "" && b != "" && c != "" && d != "" && a[0] == c[0] == 'a' && b[0] == d[0] == 'p'
  {
    hide DateText, FormatInt, Digest, ContentFields, Frame, LongKey, DigestOf;
    var ws := Shared() + [LongKey(), "p"];
    assert ws[0] == "p" && Join(ws) == ws[0] + [NUL] + Join(ws[1..]);
  }
}
