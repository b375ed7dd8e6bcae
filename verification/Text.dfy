/** Decimal text: canonical revision numerals, and the `owner:number` names behind idempotency keys. */
module Text {
  import opened Results

  const I64_MAX: int := 0x7fff_ffff_ffff_ffff
  const I64_MIN: int := -0x8000_0000_0000_0000
  const I32_MAX: int := 0x7fff_ffff

  function Digit(d: int): char
    requires 0 <= d < 10
  {
    '0' + d as char
  }

  predicate IsDigit(c: char) {
    '0' <= c <= '9'
  }

  function DecimalNat(n: nat): string {
    if n < 10 then [Digit(n)] else DecimalNat(n / 10) + [Digit(n % 10)]
  }

  /** Rust's `to_string` on an integer. */
  function Decimal(n: int): string {
    if n < 0 then "-" + DecimalNat(-n) else DecimalNat(n)
  }

  /** The number a run of decimal digits denotes; leading zeros are allowed. */
  function DigitsValue(s: string): Option<nat> {
    if s == "" then Some(0)
    else if !IsDigit(s[|s| - 1]) then None
    else match DigitsValue(s[..|s| - 1])
      case None => None
      case Some(high) => Some(10 * high + (s[|s| - 1] - '0') as int)
  }

  function InI64(n: int): Option<int> {
    if I64_MIN <= n <= I64_MAX then Some(n) else None
  }

  /** Rust's `str::parse::<i64>`: an optional sign, at least one digit, no overflow. */
  function ParseI64(s: string): Option<int> {
    var negative := s != "" && s[0] == '-';
    var digits := if s != "" && (s[0] == '-' || s[0] == '+') then s[1..] else s;
    if digits == "" then None
    else match DigitsValue(digits)
      case None => None
      case Some(n) => var value: int := n; InI64(if negative then -value else value)
  }

  function ParseRevision(s: string): Result<int> {
    match ParseI64(s)
    case None => Err(InvalidRequest)
    case Some(n) => if n > 0 && Decimal(n) == s then Ok(n) else Err(InvalidRequest)
  }

  lemma {:induction false} DigitsOfDecimal(n: nat)
    ensures DecimalNat(n) != "" && IsDigit(DecimalNat(n)[0])
    ensures DigitsValue(DecimalNat(n)) == Some(n)
    ensures forall i :: 0 <= i < |DecimalNat(n)| ==> IsDigit(DecimalNat(n)[i])
  {
    if n < 10 {
      assert DigitsValue("") == Some(0);
      assert [Digit(n)][..0] == "";
    } else {
      DigitsOfDecimal(n / 10);
      var s := DecimalNat(n);
      assert s[..|s| - 1] == DecimalNat(n / 10);
    }
  }

  /** `parse_revision` accepts exactly the canonical numerals of the positive 64-bit integers. */
  lemma RevisionTextIsCanonical(s: string, n: int)
    ensures ParseRevision(s) == Ok(n) <==> 0 < n <= I64_MAX && s == Decimal(n)
  {
    if 0 < n {
      DigitsOfDecimal(n);
    }
  }

  /** The name hashed into an idempotency key: `rule_id:nanos` and `execution_id:index`. */
  function Joined(owner: string, n: int): string {
    owner + ":" + Decimal(n)
  }

  lemma DecimalHasNoColon(n: int)
    ensures ':' !in Decimal(n)
  {
    DigitsOfDecimal(if n < 0 then -n else n);
  }

  lemma DecimalInjective(m: int, n: int)
    requires Decimal(m) == Decimal(n)
    ensures m == n
  {
    DigitsOfDecimal(if m < 0 then -m else m);
    DigitsOfDecimal(if n < 0 then -n else n);
    if m < 0 && n < 0 {
      assert Decimal(m)[1..] == DecimalNat(-m) && Decimal(n)[1..] == DecimalNat(-n);
    }
  }

  /** The owner may itself contain colons and digits: the last colon decides. */
  lemma JoinedInjective(a: string, m: int, b: string, n: int)
    ensures Joined(a, m) == Joined(b, n) <==> a == b && m == n
  {
    if Joined(a, m) == Joined(b, n) {
      JoinedOwner(a, m, b, n);
      JoinedOwner(b, n, a, m);
      assert Joined(a, m)[|a| + 1..] == Decimal(m);
      assert Joined(b, n)[|b| + 1..] == Decimal(n);
      DecimalInjective(m, n);
      assert Joined(a, m)[..|a|] == a && Joined(b, n)[..|b|] == b;
    }
  }

  lemma JoinedOwner(a: string, m: int, b: string, n: int)
    requires Joined(a, m) == Joined(b, n)
    ensures |a| >= |b|
  {
    if |a| < |b| {
      var i := |b| - |a| - 1;
      assert Joined(b, n)[|b|] == ':';
      assert Joined(a, m)[|a| + 1 + i] == Decimal(m)[i];
      DecimalHasNoColon(m);
    }
  }
}
