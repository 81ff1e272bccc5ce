/** Values shared by both worker snapshots: the payment, the record posted downstream,
    the text of a ledger member and the sorted-set store the ledger lives in. */
module Payments {

  datatype Option<T> = None | Some(value: T)

  /** The three ways a forward (one POST to the downstream processor) can end. */
  datatype Outcome = Success2xx | NonSuccess | Threw

  // ---------------------------------------------------------------------------
  // Correlation ids: a Guid rendered with its default "D" format
  // (32 lower-case hex digits in groups 8-4-4-4-12 separated by hyphens).

  predicate IsHexDigit(c: char) {
    '0' <= c <= '9' || 'a' <= c <= 'f'
  }

  predicate IsHyphenPosition(i: int) {
    i == 8 || i == 13 || i == 18 || i == 23
  }

  predicate IsGuidText(s: string) {
    |s| == 36 &&
    forall i :: 0 <= i < 36 ==> if IsHyphenPosition(i) then s[i] == '-' else IsHexDigit(s[i])
  }

  type Guid = s: string | IsGuidText(s) witness "00000000-0000-0000-0000-000000000000"

  /** A payment as it travels through the queues; never changed once created.
      The amount is an integer number of minor units (cents). */
  datatype Payment = Payment(correlationId: Guid, amount: int)

  /** The body posted to the downstream processor; requestedAt is the instant
      (milliseconds since the epoch) at which the forward began. */
  datatype PaymentRecord = PaymentRecord(correlationId: Guid, amount: int, requestedAt: int)

  /** The record posted for `p` by a forward that began at `now`. */
  function RecordFor(p: Payment, now: int): (r: PaymentRecord)
    ensures r.correlationId == p.correlationId && r.amount == p.amount
    ensures r.requestedAt == now
  {
    PaymentRecord(p.correlationId, p.amount, now)
  }

  // ---------------------------------------------------------------------------
  // The amount's text: the decimal numeral of the integer amount.

  predicate IsDigit(c: char) {
    '0' <= c <= '9'
  }

  predicate AllDigits(s: string) {
    forall i :: 0 <= i < |s| ==> IsDigit(s[i])
  }

  function DigitChar(d: int): (c: char)
    requires 0 <= d < 10
    ensures IsDigit(c) && c as int - '0' as int == d
  {
    ('0' as int + d) as char
  }

  /** Decimal numeral of a natural number, most significant digit first. */
  function NatText(n: nat): (s: string)
    ensures |s| >= 1 && AllDigits(s)
    decreases n
  {
    if n < 10 then [DigitChar(n)] else NatText(n / 10) + [DigitChar(n % 10)]
  }

  function AmountText(a: int): (s: string)
    ensures |s| >= 1
    ensures forall i :: 0 <= i < |s| ==> IsDigit(s[i]) || s[i] == '-'
  {
    if a < 0 then "-" + NatText(-a) else NatText(a)
  }

  /** Value of a numeral, the inverse of NatText. */
  function ParseNat(s: string): nat
    requires AllDigits(s)
    decreases |s|
  {
    if s == [] then 0
    else ParseNat(s[..|s| - 1]) * 10 + (s[|s| - 1] as int - '0' as int)
  }

  function ParseAmount(s: string): Option<int> {
    if |s| > 1 && s[0] == '-' && AllDigits(s[1..]) then Some(0 - ParseNat(s[1..]) as int)
    else if |s| > 0 && AllDigits(s) then Some(ParseNat(s))
    else None
  }

  lemma {:induction false} NatTextRoundTrip(n: nat)
    ensures ParseNat(NatText(n)) == n
    decreases n
  {
    var s := NatText(n);
    if n >= 10 {
      assert s[..|s| - 1] == NatText(n / 10);
      NatTextRoundTrip(n / 10);
    }
  }

  lemma AmountTextRoundTrip(a: int)
    ensures ParseAmount(AmountText(a)) == Some(a)
  {
    var s := AmountText(a);
    if a < 0 {
      assert s[1..] == NatText(-a);
      NatTextRoundTrip(-a);
    } else {
      NatTextRoundTrip(a);
    }
  }

  // ---------------------------------------------------------------------------
  // The ledger: Redis sorted sets, member -> score, one per key.

  /** Key of the sorted set both snapshots write successful payments to. */
  const LedgerKey: string := "payments:default"

  type Store = map<string, map<string, int>>

  /** The member "{CorrelationId}:{Amount}" a successful payment is stored under. */
  function LedgerMember(p: Payment): string {
    p.correlationId + ":" + AmountText(p.amount)
  }

  /** Recovers the payment from a ledger member; the inverse of LedgerMember. */
  function ParseMember(s: string): Option<Payment> {
    if |s| > 37 && IsGuidText(s[..36]) && s[36] == ':' then
      match ParseAmount(s[37..])
      case Some(a) => Some(Payment(s[..36], a))
      case None => None
    else None
  }

  lemma MemberRoundTrip(p: Payment)
    ensures ParseMember(LedgerMember(p)) == Some(p)
  {
    var s := LedgerMember(p);
    assert s[..36] == p.correlationId;
    assert s[37..] == AmountText(p.amount);
    AmountTextRoundTrip(p.amount);
  }

  /** Distinct payments are stored under distinct members, so one payment's
      ledger write never overwrites another payment's entry. */
  lemma LedgerMemberInjective(p: Payment, q: Payment)
    ensures LedgerMember(p) == LedgerMember(q) <==> p == q
  {
    if LedgerMember(p) == LedgerMember(q) {
      MemberRoundTrip(p);
      MemberRoundTrip(q);
    }
  }

  /** The sorted set stored under LedgerKey (an absent key reads as empty). */
  function Ledger(store: Store): map<string, int> {
    if LedgerKey in store then store[LedgerKey] else map[]
  }

  /** ZADD of `member` with `score` under `key`: adds the member or, when it is
      already there, replaces its score. */
  function SortedSetAdd(store: Store, key: string, member: string, score: int): Store {
    var members := if key in store then store[key] else map[];
    store[key := members[member := score]]
  }

  /** The ledger write for payment `p` whose forward began at `at`. */
  function Record(store: Store, p: Payment, at: int): Store {
    SortedSetAdd(store, LedgerKey, LedgerMember(p), at)
  }

  /** A ledger write adds exactly the payment's member, scored at the instant the
      forward began; every other payment's entry and every other key stay as they were. */
  lemma RecordAddsExactlyOne(store: Store, p: Payment, at: int)
    ensures LedgerMember(p) in Ledger(Record(store, p, at))
    ensures Ledger(Record(store, p, at))[LedgerMember(p)] == at
    ensures |Ledger(Record(store, p, at))| ==
            |Ledger(store)| + (if LedgerMember(p) in Ledger(store) then 0 else 1)
    ensures forall q :: q != p ==>
              (LedgerMember(q) in Ledger(Record(store, p, at)) <==> LedgerMember(q) in Ledger(store))
    ensures forall q :: q != p && LedgerMember(q) in Ledger(store) ==>
              Ledger(Record(store, p, at))[LedgerMember(q)] == Ledger(store)[LedgerMember(q)]
    ensures forall k :: k in store && k != LedgerKey ==>
              k in Record(store, p, at) && Record(store, p, at)[k] == store[k]
  {
    var m := LedgerMember(p);
    var before := Ledger(store);
    var after := Ledger(Record(store, p, at));
    assert after == before[m := at];
    if m in before {
      assert after.Keys == before.Keys;
    } else {
      assert after.Keys == before.Keys + {m};
    }
    forall q | q != p
      ensures LedgerMember(q) != m
    {
      LedgerMemberInjective(p, q);
    }
  }

  /** A ledger write adds no key but the ledger's own. */
  lemma RecordKeys(store: Store, p: Payment, at: int)
    ensures Record(store, p, at).Keys == store.Keys + {LedgerKey}
  {
  }
}
