/** The two conversions of Go's `strconv` package the core relies on:
    `ParseInt(s, 10, 64)` (which is also what `Atoi` does on a 64-bit target)
    and `Itoa`. */
module StrConv {
  import opened Wrappers
  import opened GoInt

  predicate IsDigit(c: char) { '0' <= c <= '9' }

  predicate AllDigits(s: string) { forall i :: 0 <= i < |s| ==> IsDigit(s[i]) }

  function DigitValue(c: char): (d: nat)
    requires IsDigit(c)
    ensures d < 10
  {
    (c as int) - ('0' as int)
  }

  function DigitChar(d: nat): (c: char)
    requires d < 10
    ensures IsDigit(c) && DigitValue(c) == d
  {
    (('0' as int) + d) as char
  }

  /** The number a non-empty run of decimal digits denotes. */
  function DigitsValue(s: string): nat
    requires AllDigits(s)
    decreases |s|
  {
    if s == [] then 0 else DigitsValue(s[..|s| - 1]) * 10 + DigitValue(s[|s| - 1])
  }

  /** `strconv.ParseInt(s, 10, 64)`: an optional sign, then at least one
      decimal digit and nothing else (no underscores in base 10), and the
      value must fit in 64 bits; anything else is a syntax or range error,
      here `None`. */
  function ParseInt64(s: string): (r: Option<Int64>)
    ensures r.Some? ==> s != "" && |s| >= 1
    ensures r.Some? ==> AllDigits(if s[0] == '+' || s[0] == '-' then s[1..] else s)
    ensures r.Some? && s[0] == '-' ==> r.value <= 0
    ensures r.Some? && s[0] != '-' ==> r.value >= 0
    ensures r.Some? ==> r.value == if s[0] == '-' then 0 - DigitsValue(s[1..])
                                   else if s[0] == '+' then DigitsValue(s[1..]) else DigitsValue(s)
  {
    if s == "" then None
    else
      var body := if s[0] == '+' || s[0] == '-' then s[1..] else s;
      if body == "" || !AllDigits(body) then None
      else
        var magnitude := DigitsValue(body);
        if s[0] == '-' then
          (if magnitude <= -MinInt64 then Some(0 - magnitude) else None)
        else
          (if magnitude <= MaxInt64 then Some(magnitude) else None)
  }

  const MinInt32 := -0x8000_0000
  const MaxInt32 := 0x7FFF_FFFF

  /** `strconv.ParseInt(s, 10, 32)`: the same syntax, a 32-bit range. */
  function ParseInt32(s: string): (r: Option<int>)
    ensures r.Some? ==> MinInt32 <= r.value <= MaxInt32
    ensures r.Some? <==> ParseInt64(s).Some? && MinInt32 <= ParseInt64(s).value <= MaxInt32
    ensures r.Some? ==> r.value == ParseInt64(s).value
  {
    match ParseInt64(s)
    case Some(n) => if MinInt32 <= n <= MaxInt32 then Some(n as int) else None
    case None => None
  }

  /** A run of `k` digits denotes less than `10^k`. */
  lemma {:induction false} DigitsValueBound(s: string)
    requires AllDigits(s)
    ensures DigitsValue(s) < Pow10(|s|)
    decreases |s|
  {
    if s != [] {
      DigitsValueBound(s[..|s| - 1]);
    }
  }

  function Pow10(k: nat): (p: nat)
    ensures p >= 1
  {
    if k == 0 then 1 else 10 * Pow10(k - 1)
  }

  /** A short run of plain digits always parses, to the number it denotes:
      no sign, no syntax error, no range error. */
  lemma ShortDigitRunParses(s: string)
    requires 1 <= |s| <= 9 && AllDigits(s)
    ensures ParseInt32(s) == Some(DigitsValue(s))
  {
    DigitsValueBound(s);
    Pow10Monotone(|s|, 9);
    assert Pow10(9) == 1_000_000_000;
  }

  /** Every run of digits, leading zeros included, is accepted by
      `ParseInt(s, 10, 64)` exactly when the number it spells is in range:
      bare or after `+` as that number, after `-` as its negation, which may
      reach one further than the positive side. */
  lemma DigitRunParses(s: string)
    requires s != "" && AllDigits(s)
    ensures ParseInt64(s) == if DigitsValue(s) <= MaxInt64 then Some(DigitsValue(s)) else None
    ensures ParseInt64("+" + s) == ParseInt64(s)
    ensures ParseInt64("-" + s) == if DigitsValue(s) <= -MinInt64 then Some(0 - DigitsValue(s)) else None
  {
    assert IsDigit(s[0]);
    assert ("+" + s)[0] == '+' && ("+" + s)[1..] == s;
    assert ("-" + s)[0] == '-' && ("-" + s)[1..] == s;
  }

  /** The negative edge: `-9223372036854775808` parses to MinInt64, while
      the same digits without the minus sign are out of range. */
  lemma MinInt64Edge(s: string)
    requires s != "" && AllDigits(s) && DigitsValue(s) == -MinInt64
    ensures ParseInt64("-" + s) == Some(MinInt64)
    ensures ParseInt64(s) == None && ParseInt64("+" + s) == None
  {
    DigitRunParses(s);
  }

  lemma {:induction false} Pow10Monotone(j: nat, k: nat)
    requires j <= k
    ensures Pow10(j) <= Pow10(k)
    decreases k
  {
    if j < k {
      Pow10Monotone(j, k - 1);
    }
  }

  /** The shortest decimal numeral of `n`. */
  function FormatNat(n: nat): (s: string)
    ensures |s| >= 1 && AllDigits(s)
    ensures |s| > 1 ==> s[0] != '0'
    decreases n
  {
    if n < 10 then [DigitChar(n)] else FormatNat(n / 10) + [DigitChar(n % 10)]
  }

  /** `strconv.Itoa`: a minus sign for negative values, then the digits. */
  function FormatInt(n: int): (s: string)
    ensures |s| >= 1
    ensures n < 0 <==> s[0] == '-'
    ensures forall i :: 0 <= i < |s| ==> IsDigit(s[i]) || (i == 0 && s[i] == '-')
  {
    if n < 0 then "-" + FormatNat(-n) else FormatNat(n)
  }

  lemma {:induction false} FormatNatValue(n: nat)
    ensures DigitsValue(FormatNat(n)) == n
    decreases n
  {
    if n >= 10 {
      var s := FormatNat(n);
      assert s[..|s| - 1] == FormatNat(n / 10);
      FormatNatValue(n / 10);
    }
  }

  /** Parsing what `Itoa` printed gives back the number: the two conversions
      are inverse on the whole 64-bit range. */
  lemma ParseFormatRoundTrip(n: Int64)
    ensures ParseInt64(FormatInt(n)) == Some(n)
  {
    var s := FormatInt(n);
    if n < 0 {
      var m: nat := -(n as int);
      assert s[1..] == FormatNat(m);
      FormatNatValue(m);
    } else {
      FormatNatValue(n);
    }
  }
}
