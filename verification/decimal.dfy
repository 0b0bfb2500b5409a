/** Decimal text of unsigned integers, as Rust's standard library produces
    and reads it: `Display` for `u8`/`u32`/`u64` and `str::parse::<uN>()`.
    Machine widths are the subset types below; a parse whose value does not
    fit fails with `PosOverflow`. */
module Decimal {
  import opened Wrappers
  import opened Errors
  import opened Chars

  const U8_LIMIT: nat := 0x100
  const U32_LIMIT: nat := 0x1_0000_0000
  const U64_LIMIT: nat := 0x1_0000_0000_0000_0000

  type U8 = n: nat | n < U8_LIMIT
  type U32 = n: nat | n < U32_LIMIT
  type U64 = n: nat | n < U64_LIMIT
  type I32 = n: int | -0x8000_0000 <= n < 0x8000_0000

  function DigitValue(c: char): nat
    requires IsAsciiDigit(c)
  {
    c as int - '0' as int
  }

  function DigitChar(d: nat): (c: char)
    requires d < 10
    ensures IsAsciiDigit(c) && DigitValue(c) == d
  {
    ('0' as int + d) as char
  }

  /** The value of a digit string, most significant digit first. */
  function Value(s: string): nat
    requires AllDigits(s)
    decreases |s|
  {
    if |s| == 0 then 0
    else
      assert s[|s| - 1] in s;
      Value(s[..|s| - 1]) * 10 + DigitValue(s[|s| - 1])
  }

  function Pow10(k: nat): (p: nat)
    ensures p >= 1
  {
    if k == 0 then 1 else 10 * Pow10(k - 1)
  }

  /** `n.to_string()`: the shortest decimal text of `n`. */
  function Show(n: nat): (s: string)
    ensures |s| >= 1 && AllDigits(s)
    decreases n
  {
    if n < 10 then [DigitChar(n)] else Show(n / 10) + [DigitChar(n % 10)]
  }

  /** The decimal text of `10^k` is a '1' followed by `k` zeros. */
  lemma {:induction false} Pow10Text(k: nat)
    ensures |Show(Pow10(k))| == k + 1 && Show(Pow10(k))[0] == '1'
    ensures forall i | 1 <= i <= k :: Show(Pow10(k))[i] == '0'
    decreases k
  {
    if k > 0 {
      var q := Pow10(k - 1);
      Pow10Text(k - 1);
      assert (10 * q) / 10 == q && (10 * q) % 10 == 0;
      assert Show(10 * q) == Show(q) + ['0'];
    }
  }

  /** The text `Show` writes has no redundant leading zero. */
  lemma {:induction false} ShowCanonical(n: nat)
    ensures Show(n)[0] == '0' <==> n == 0
    decreases n
  {
    if n >= 10 {
      ShowCanonical(n / 10);
    }
  }

  lemma {:induction false} ValueShow(n: nat)
    ensures Value(Show(n)) == n
    decreases n
  {
    if n >= 10 {
      ValueShow(n / 10);
      var s := Show(n);
      assert s[..|s| - 1] == Show(n / 10);
    }
  }

  /** Prepending a digit adds its positional weight. */
  lemma {:induction false} ValueCons(c: char, t: string)
    requires IsAsciiDigit(c) && AllDigits(t)
    ensures AllDigits([c] + t)
    ensures Value([c] + t) == DigitValue(c) * Pow10(|t|) + Value(t)
    decreases |t|
  {
    var s := [c] + t;
    assert AllDigits(s);
    if |t| > 0 {
      var t' := t[..|t| - 1];
      assert t[|t| - 1] in t;
      assert s[..|s| - 1] == [c] + t';
      ValueCons(c, t');
      calc {
        Value(s);
        Value([c] + t') * 10 + DigitValue(t[|t| - 1]);
        (DigitValue(c) * Pow10(|t'|) + Value(t')) * 10 + DigitValue(t[|t| - 1]);
        { assert (DigitValue(c) * Pow10(|t'|)) * 10 == DigitValue(c) * (10 * Pow10(|t'|)); }
        DigitValue(c) * Pow10(|t|) + (Value(t') * 10 + DigitValue(t[|t| - 1]));
      }
    }
  }

  /** The left-to-right accumulation of `from_str_radix`: a non-digit fails
      with `InvalidDigit`; a running value that reaches `limit` fails with
      `PosOverflow`, whichever comes first. */
  function Accumulate(digits: string, acc: nat, limit: nat): (r: Result<nat, IntErrorKind>)
    ensures acc < limit && r.Ok? ==> r.value < limit
    decreases |digits|
  {
    if |digits| == 0 then Ok(acc)
    else if !IsAsciiDigit(digits[0]) then Err(InvalidDigit)
    else
      var next := acc * 10 + DigitValue(digits[0]);
      if next >= limit then Err(PosOverflow) else Accumulate(digits[1..], next, limit)
  }

  /** `str::parse::<uN>()` where `limit` is 2^N: an empty text fails with
      `Empty`; a lone sign fails with `InvalidDigit`; one leading '+' is
      accepted; '-' is never accepted by an unsigned type. */
  function ParseUnsigned(s: string, limit: nat): (r: Result<nat, IntErrorKind>)
    ensures limit > 0 && r.Ok? ==> r.value < limit
  {
    if |s| == 0 then Err(Empty)
    else if (s[0] == '+' || s[0] == '-') && |s| == 1 then Err(InvalidDigit)
    else Accumulate(if s[0] == '+' then s[1..] else s, 0, limit)
  }

  /** The digits a text accepted by `ParseUnsigned` carries. */
  function UnsignedDigits(s: string): string
  {
    if |s| > 0 && s[0] == '+' then s[1..] else s
  }

  /** The unsigned-integer text form: an optional '+' then one or more
      ASCII digits. */
  predicate IsUnsignedText(s: string) {
    |UnsignedDigits(s)| > 0 && AllDigits(UnsignedDigits(s))
  }

  /** The value of `digits` read after an already accumulated `acc`. */
  function Combine(acc: nat, digits: string): nat
    requires AllDigits(digits)
  {
    acc * Pow10(|digits|) + Value(digits)
  }

  lemma Shift(a: nat, d: nat, p: nat, v: nat)
    ensures a * (10 * p) + (d * p + v) == (a * 10 + d) * p + v
  {
    calc {
      (a * 10 + d) * p + v;
      (a * 10) * p + d * p + v;
      a * (10 * p) + (d * p + v);
    }
  }

  lemma NoSmaller(a: nat, p: nat, v: nat)
    requires p >= 1
    ensures a <= a * p + v
  {
    assert a * 1 <= a * p;
  }

  /** One step of the accumulation in positional terms. */
  lemma CombineCons(acc: nat, c: char, t: string)
    requires IsAsciiDigit(c) && AllDigits(t)
    ensures AllDigits([c] + t)
    ensures Combine(acc, [c] + t) == Combine(acc * 10 + DigitValue(c), t)
    ensures acc * 10 + DigitValue(c) <= Combine(acc * 10 + DigitValue(c), t)
  {
    ValueCons(c, t);
    assert Pow10(|[c] + t|) == 10 * Pow10(|t|);
    Shift(acc, DigitValue(c), Pow10(|t|), Value(t));
    NoSmaller(acc * 10 + DigitValue(c), Pow10(|t|), Value(t));
  }

  lemma {:induction false} AccumulateSpec(digits: string, acc: nat, limit: nat)
    requires acc < limit
    ensures Accumulate(digits, acc, limit).Ok? <==>
      AllDigits(digits) && Combine(acc, digits) < limit
    ensures Accumulate(digits, acc, limit).Ok? ==>
      Accumulate(digits, acc, limit).value == Combine(acc, digits)
    decreases |digits|
  {
    if |digits| > 0 {
      var c := digits[0];
      var t := digits[1..];
      assert digits == [c] + t;
      if !IsAsciiDigit(c) {
        assert c in digits;
      } else {
        var next := acc * 10 + DigitValue(c);
        if AllDigits(t) {
          CombineCons(acc, c, t);
        } else {
          var x :| x in t && !IsAsciiDigit(x);
          assert x in digits;
        }
        if next < limit {
          AccumulateSpec(t, next, limit);
        }
      }
    }
  }

  /** `parse::<uN>()` succeeds exactly on the unsigned-integer text form with
      a value below 2^N, and then yields that value. */
  lemma ParseUnsignedSpec(s: string, limit: nat)
    requires limit > 0
    ensures ParseUnsigned(s, limit).Ok? <==>
      IsUnsignedText(s) && Value(UnsignedDigits(s)) < limit
    ensures ParseUnsigned(s, limit).Ok? ==>
      ParseUnsigned(s, limit).value == Value(UnsignedDigits(s))
  {
    if |s| > 0 && !((s[0] == '+' || s[0] == '-') && |s| == 1) {
      AccumulateSpec(UnsignedDigits(s), 0, limit);
      if AllDigits(UnsignedDigits(s)) {
        assert Combine(0, UnsignedDigits(s)) == Value(UnsignedDigits(s));
      }
    } else if |s| == 1 {
      assert s[0] in s;
    }
  }

  /** Parsing the decimal text of any value that fits gives it back. */
  lemma ParseShow(n: nat, limit: nat)
    requires n < limit
    ensures ParseUnsigned(Show(n), limit) == Ok(n)
  {
    var s := Show(n);
    assert s[0] in s;
    ParseUnsignedSpec(s, limit);
    ValueShow(n);
  }

  /** Distinct values have distinct decimal texts. */
  lemma ShowInjective(m: nat, n: nat)
    requires Show(m) == Show(n)
    ensures m == n
  {
    ValueShow(m);
    ValueShow(n);
  }
}
