/** The idempotency keys of the financial ledger.

    Every ledger row is inserted under a text key built with a format string.  `LedgerKey` is the
    structured form of such a key and `Render` is the text that reaches the unique index. */
module LedgerKeys {
  import opened Common

  datatype LedgerKey =
    | WebhookKey(externalTx: string)
    | DebitKey(rental: int)
    | HoldKey(rental: int)
    | ReleaseKey(rental: int)
    | AutoReleaseKey(rental: int)
    | ForfeitKey(rental: int)
    | PrincipalRefundKey(rental: int)
    | DepositRefundKey(rental: int)
    | AdjustmentKey(clientKey: string)

  const DIGITS := "0123456789"

  /** The verb `%d` for natural numbers. */
  function Decimal(n: nat): (s: string)
    ensures |s| > 0
  {
    if n < 10 then [DIGITS[n]] else Decimal(n / 10) + [DIGITS[n % 10]]
  }

  /** The verb `%d` for `int64`. */
  function DecimalInt(n: int): string {
    if n < 0 then "-" + Decimal(-n) else Decimal(n)
  }

  predicate IsDigit(c: char) {
    '0' <= c <= '9'
  }

  predicate AllDigits(s: string) {
    forall i :: 0 <= i < |s| ==> IsDigit(s[i])
  }

  /** The number a string of digits denotes. */
  function Value(s: string): nat
    requires AllDigits(s)
  {
    if |s| == 0 then 0
    else
      assert IsDigit(s[|s| - 1]);
      assert forall i :: 0 <= i < |s| - 1 ==> s[..|s| - 1][i] == s[i];
      Value(s[..|s| - 1]) * 10 + (s[|s| - 1] as int - '0' as int)
  }

  lemma DigitsAreDigits(d: nat)
    requires d < 10
    ensures IsDigit(DIGITS[d]) && DIGITS[d] as int - '0' as int == d
  {
  }

  /** Printing then reading a number gives the number back. */
  lemma {:induction false} DecimalRoundTrip(n: nat)
    ensures AllDigits(Decimal(n)) && Value(Decimal(n)) == n
  {
    DigitsAreDigits(n % 10);
    if n < 10 {
      assert Decimal(n)[..0] == "";
      assert Value("") == 0;
    } else {
      DecimalRoundTrip(n / 10);
      var s := Decimal(n);
      assert s[..|s| - 1] == Decimal(n / 10);
    }
  }

  lemma DecimalInjective(m: int, n: int)
    requires DecimalInt(m) == DecimalInt(n)
    ensures m == n
  {
    DecimalRoundTrip(if m < 0 then -m else m);
    DecimalRoundTrip(if n < 0 then -n else n);
    assert m < 0 ==> DecimalInt(m)[0] == '-' && DecimalInt(m)[1..] == Decimal(-m);
    assert n < 0 ==> DecimalInt(n)[0] == '-' && DecimalInt(n)[1..] == Decimal(-n);
    assert m >= 0 ==> IsDigit(DecimalInt(m)[0]);
    assert n >= 0 ==> IsDigit(DecimalInt(n)[0]);
  }

  /** The constant part of the format string of each kind of key. */
  function Prefix(k: LedgerKey): string {
    match k
    case WebhookKey(_) => "payment:webhook:internal:"
    case DebitKey(_) => "balance:debit:rental:"
    case HoldKey(_) => "deposit:hold:rental:"
    case ReleaseKey(_) => "deposit:release:rental:"
    case AutoReleaseKey(_) => "deposit:auto-release:rental:"
    case ForfeitKey(_) => "deposit:forfeit:rental:"
    case PrincipalRefundKey(_) => "refund:wallet:principal:full:rental:"
    case DepositRefundKey(_) => "refund:wallet:deposit:full:rental:"
    case AdjustmentKey(_) => "admin:balance-adjustment:"
  }

  /** The variable part: a rental id, or a text chosen by the payment provider or the client. */
  function Suffix(k: LedgerKey): string {
    match k
    case WebhookKey(tx) => tx
    case AdjustmentKey(c) => c
    case DebitKey(r) => DecimalInt(r)
    case HoldKey(r) => DecimalInt(r)
    case ReleaseKey(r) => DecimalInt(r)
    case AutoReleaseKey(r) => DecimalInt(r)
    case ForfeitKey(r) => DecimalInt(r)
    case PrincipalRefundKey(r) => DecimalInt(r)
    case DepositRefundKey(r) => DecimalInt(r)
  }

  function Render(k: LedgerKey): string {
    Prefix(k) + Suffix(k)
  }

  ghost function Kind(k: LedgerKey): nat {
    match k
    case WebhookKey(_) => 0
    case DebitKey(_) => 1
    case HoldKey(_) => 2
    case ReleaseKey(_) => 3
    case AutoReleaseKey(_) => 4
    case ForfeitKey(_) => 5
    case PrincipalRefundKey(_) => 6
    case DepositRefundKey(_) => 7
    case AdjustmentKey(_) => 8
  }

  /** Three characters of a rendered key tell which format string produced it. */
  ghost function Signature(s: string): nat
    requires |s| > 14
  {
    if s[0] == 'p' then 0
    else if s[0] == 'b' then 1
    else if s[0] == 'a' then 8
    else if s[0] == 'd' then
      (if s[8] == 'h' then 2 else if s[8] == 'r' then 3 else if s[8] == 'a' then 4 else 5)
    else (if s[14] == 'p' then 6 else 7)
  }

  lemma PrefixSignature(k: LedgerKey)
    ensures |Prefix(k)| > 14 && Signature(Prefix(k)) == Kind(k)
  {
    match k
    case WebhookKey(_) => assert Prefix(k)[0] == 'p';
    case DebitKey(_) => assert Prefix(k)[0] == 'b';
    case HoldKey(_) => assert Prefix(k)[0] == 'd' && Prefix(k)[8] == 'h';
    case ReleaseKey(_) => assert Prefix(k)[0] == 'd' && Prefix(k)[8] == 'r';
    case AutoReleaseKey(_) => assert Prefix(k)[0] == 'd' && Prefix(k)[8] == 'a';
    case ForfeitKey(_) => assert Prefix(k)[0] == 'd' && Prefix(k)[8] == 'f';
    case PrincipalRefundKey(_) => assert Prefix(k)[0] == 'r' && Prefix(k)[14] == 'p';
    case DepositRefundKey(_) => assert Prefix(k)[0] == 'r' && Prefix(k)[14] == 'd';
    case AdjustmentKey(_) => assert Prefix(k)[0] == 'a';
  }

  lemma SignatureOfKey(k: LedgerKey)
    ensures |Render(k)| > 14 && Signature(Render(k)) == Kind(k)
  {
    PrefixSignature(k);
    forall i | 0 <= i < |Prefix(k)|
      ensures Render(k)[i] == Prefix(k)[i]
    {
    }
  }

  /** The key builders are injective and pairwise disjoint, over all rental ids, all provider
      transaction ids and all client keys: two rows meet in the unique index of the ledger only if
      they were written for the same event. */
  lemma RenderInjective(a: LedgerKey, b: LedgerKey)
    requires Render(a) == Render(b)
    ensures a == b
  {
    SignatureOfKey(a);
    SignatureOfKey(b);
    assert Kind(a) == Kind(b);
    assert Prefix(a) == Prefix(b);
    assert Suffix(a) == Render(a)[|Prefix(a)|..] == Render(b)[|Prefix(b)|..] == Suffix(b);
    if !a.WebhookKey? && !a.AdjustmentKey? {
      DecimalInjective(a.rental, b.rental);
    }
  }

  const EVIDENCE_PREFIX := "SECURITY_EVENT:"

  /** `parseDepositEvidenceReference`: the id of the security event a forfeit is based on. */
  function ParseEvidence(reference: string): Option<int> {
    if !(EVIDENCE_PREFIX <= reference) || |reference| > 255 then None
    else ParsePositiveInt64(reference[|EVIDENCE_PREFIX|..])
  }

  /** `strconv.ParseInt(raw, 10, 64)` restricted to positive results. */
  function ParsePositiveInt64(raw: string): Option<int> {
    var digits := if "+" <= raw then raw[1..] else raw;
    if digits == "" || !AllDigits(digits) || !(0 < Value(digits) <= MAX_INT64) then None
    else Some(Value(digits))
  }

  lemma {:induction false} DecimalLength(n: nat, k: nat)
    requires n < Pow10(k + 1)
    ensures |Decimal(n)| <= k + 1
  {
    assert Pow10(1) == 10;
    if n >= 10 {
      DecimalLength(n / 10, k - 1);
    }
  }

  ghost function Pow10(k: nat): nat {
    if k == 0 then 1 else 10 * Pow10(k - 1)
  }

  /** A reference names event `id` when it is the prefix followed by the id; every positive
      `int64` id can be referenced. */
  lemma EvidenceRoundTrip(id: int)
    requires 0 < id <= MAX_INT64
    ensures ParseEvidence(EVIDENCE_PREFIX + Decimal(id)) == Some(id)
  {
    DecimalRoundTrip(id);
    assert Pow10(5) == 100_000;
    assert Pow10(10) == 10_000_000_000;
    assert Pow10(15) == 1_000_000_000_000_000;
    assert Pow10(19) == 10_000_000_000_000_000_000;
    DecimalLength(id, 18);
    var reference := EVIDENCE_PREFIX + Decimal(id);
    assert reference[|EVIDENCE_PREFIX|..] == Decimal(id);
    assert IsDigit(Decimal(id)[0]);
  }

  function Zeros(k: nat): string {
    if k == 0 then "" else Zeros(k - 1) + "0"
  }

  /** Digits denote a positive number exactly if they are its decimal form, after any number of zeros. */
  lemma {:induction false} ZerosThenDecimal(s: string) returns (k: nat)
    requires AllDigits(s)
    ensures s == Zeros(k) + (if Value(s) > 0 then Decimal(Value(s)) else "")
  {
    if |s| == 0 {
      return 0;
    }
    var front, last := s[..|s| - 1], s[|s| - 1];
    assert IsDigit(last);
    var d := last as int - '0' as int;
    DigitsAreDigits(d);
    assert DIGITS[d] == last;
    assert s == front + [last];
    k := ZerosThenDecimal(front);
    if Value(front) == 0 && d == 0 {
      k := k + 1;
    } else if Value(front) > 0 {
      assert Value(s) / 10 == Value(front) && Value(s) % 10 == d;
      assert s == Zeros(k) + (Decimal(Value(front)) + [last]);
    }
  }

  lemma PositiveIsDecimal(raw: string) returns (sign: string, k: nat)
    requires ParsePositiveInt64(raw).Some?
    ensures sign == "" || sign == "+"
    ensures var id := ParsePositiveInt64(raw).value;
            0 < id <= MAX_INT64 && raw == sign + (Zeros(k) + Decimal(id))
  {
    sign := if "+" <= raw then "+" else "";
    k := ZerosThenDecimal(raw[|sign|..]);
    assert raw == sign + raw[|sign|..];
  }

  /** A reference names an event only in the ways Go reads a number: its decimal form, which may follow
      zeros and a plus sign. */
  lemma EvidenceIsDecimal(reference: string) returns (sign: string, k: nat)
    requires ParseEvidence(reference).Some?
    ensures sign == "" || sign == "+"
    ensures var id := ParseEvidence(reference).value;
            0 < id <= MAX_INT64 && |reference| <= 255 && reference == EVIDENCE_PREFIX + (sign + (Zeros(k) + Decimal(id)))
  {
    var raw := reference[|EVIDENCE_PREFIX|..];
    sign, k := PositiveIsDecimal(raw);
    assert reference == EVIDENCE_PREFIX + raw;
  }
}
