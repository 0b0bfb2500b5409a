/** The scalar value types of the MPD model and their text codecs: each
    `FromStr` is a `Parse…` function, each `Display` a `Show…` function. */
module Types {
  import opened Wrappers
  import opened Errors
  import opened Chars
  import opened Strings
  import opened Decimal
  import Utf8

  // ---------------------------------------------------------------------
  // StringNoWhitespace

  datatype StringNoWhitespace = StringNoWhitespace(value: string)

  const DefaultStringNoWhitespace := StringNoWhitespace("")

  /** The inline pattern `^[^\r\n\t \p{Z}]*$`, scanned left to right. */
  function ScanNoWhitespace(s: string): (b: bool)
    ensures b <==> forall c | c in s :: IsNoWhitespaceChar(c)
    decreases |s|
  {
    if |s| == 0 then true
    else
      assert s == [s[0]] + s[1..];
      IsNoWhitespaceChar(s[0]) && ScanNoWhitespace(s[1..])
  }

  /** `StringNoWhitespace::from_str`: any text without CR, LF, tab, space or
      Unicode separator is accepted and kept verbatim, the empty text
      included; anything else is `UnmatchedPattern`. */
  function ParseStringNoWhitespace(s: string): (r: Result<StringNoWhitespace, MpdError>)
    ensures r.Ok? <==> forall c | c in s :: IsNoWhitespaceChar(c)
    ensures r.Ok? ==> ShowStringNoWhitespace(r.value) == s
    ensures r.Err? ==> r.error == UnmatchedPattern
  {
    if !ScanNoWhitespace(s) then Err(UnmatchedPattern) else Ok(StringNoWhitespace(s))
  }

  function ShowStringNoWhitespace(v: StringNoWhitespace): string
  {
    v.value
  }

  /** Every accepted text round-trips through `Display` and back. */
  lemma StringNoWhitespaceRoundTrip(s: string)
    requires ParseStringNoWhitespace(s).Ok?
    ensures ParseStringNoWhitespace(ShowStringNoWhitespace(ParseStringNoWhitespace(s).value))
         == ParseStringNoWhitespace(s)
  {
  }

  // ---------------------------------------------------------------------
  // FourCC

  type Bytes4 = s: seq<Utf8.Byte> | |s| == 4 witness [0, 0, 0, 0]

  datatype FourCC = FourCC(value: Bytes4)

  const DefaultFourCC := FourCC([0, 0, 0, 0])

  /** `FourCC::from_str`: the UTF-8 bytes of the text, which must be exactly
      four; otherwise `UnmatchedPattern`. */
  function ParseFourCC(s: string): (r: Result<FourCC, MpdError>)
    ensures r.Ok? <==> |Utf8.Encode(s)| == 4
    ensures r.Ok? ==> r.value.value == Utf8.Encode(s) && ShowFourCC(r.value) == s
    ensures r.Err? ==> r.error == UnmatchedPattern
  {
    var bytes := Utf8.Encode(s);
    if |bytes| == 4 then
      Utf8.DecodeEncode(s);
      Ok(FourCC(bytes))
    else Err(UnmatchedPattern)
  }

  /** `Display`: `String::from_utf8_lossy` of the four bytes. */
  function ShowFourCC(f: FourCC): string
  {
    Utf8.DecodeLossy(f.value)
  }

  /** `From<u32>`: the big-endian bytes of the number. */
  function FourCCFromU32(n: U32): FourCC
  {
    assert n / 0x100_0000 < 0x100;
    FourCC([n / 0x100_0000, (n / 0x1_0000) % 0x100, (n / 0x100) % 0x100, n % 0x100])
  }

  /** `From<FourCC> for u32`: the bytes read big-endian. */
  function FourCCToU32(f: FourCC): U32
  {
    var b: seq<int> := f.value;
    b[0] * 0x100_0000 + b[1] * 0x1_0000 + b[2] * 0x100 + b[3]
  }

  lemma FourCCU32RoundTrip(n: U32)
    ensures FourCCToU32(FourCCFromU32(n)) == n
  {
    assert n == (n / 0x100) * 0x100 + n % 0x100;
    assert n / 0x100 == (n / 0x1_0000) * 0x100 + (n / 0x100) % 0x100;
    assert n / 0x1_0000 == (n / 0x100_0000) * 0x100 + (n / 0x1_0000) % 0x100;
  }

  lemma U32FourCCRoundTrip(f: FourCC)
    ensures FourCCFromU32(FourCCToU32(f)) == f
  {
    var n := FourCCToU32(f);
    var b: seq<int> := f.value;
    assert n / 0x100 == b[0] * 0x1_0000 + b[1] * 0x100 + b[2];
    assert n / 0x1_0000 == b[0] * 0x100 + b[1];
    assert n / 0x100_0000 == b[0];
    assert FourCCFromU32(n).value == b;
  }

  /** The text of a parsed FourCC parses back to the same FourCC. */
  lemma FourCCTextRoundTrip(s: string)
    requires ParseFourCC(s).Ok?
    ensures ParseFourCC(ShowFourCC(ParseFourCC(s).value)) == ParseFourCC(s)
  {
  }

  /** Four ASCII characters always make a FourCC. */
  lemma FourCCAscii(s: string)
    requires |s| == 4 && forall c | c in s :: c as int < 0x80
    ensures ParseFourCC(s).Ok?
  {
    Utf8.EncodeAscii(s);
  }

  lemma FourCCExample()
    ensures ParseFourCC("TSET") == Ok(FourCCFromU32(0x54534554))
  {
    TsetBytes();
  }

  lemma TsetBytes()
    ensures Utf8.Encode("TSET") == [0x54, 0x53, 0x45, 0x54]
  {
    assert "TSET"[1..] == "SET" && "SET"[1..] == "ET" && "ET"[1..] == "T" && "T"[1..] == "";
  }

  // ---------------------------------------------------------------------
  // WhitespaceSeparatedList<T>

  function MapSeq<T, U>(xs: seq<T>, f: T -> U): (ys: seq<U>)
    ensures |ys| == |xs| && forall i | 0 <= i < |xs| :: ys[i] == f(xs[i])
  {
    if |xs| == 0 then [] else [f(xs[0])] + MapSeq(xs[1..], f)
  }

  /** `Display`: each item's text, joined with one space. */
  function ShowList<T>(items: seq<T>, show: T -> string): string
  {
    Join(MapSeq(items, show), " ")
  }

  /** Parses each word; the first failure fails the whole list. */
  function ParseWords<T, E>(words: seq<string>, parse: string -> Result<T, E>): (r: Result<seq<T>, MpdError>)
    ensures r.Ok? <==> forall i | 0 <= i < |words| :: parse(words[i]).Ok?
    ensures r.Ok? ==> (|r.value| == |words| &&
      forall i | 0 <= i < |words| :: parse(words[i]) == Ok(r.value[i]))
    ensures r.Err? ==> r.error == UnmatchedPattern
  {
    if |words| == 0 then Ok([])
    else
      match parse(words[0])
      case Err(_) => Err(UnmatchedPattern)
      case Ok(x) =>
        match ParseWords(words[1..], parse)
        case Err(e) => Err(e)
        case Ok(xs) => Ok([x] + xs)
  }

  /** `FromStr`: splits on runs of white space and parses every word with the
      item parser; any item failure is `UnmatchedPattern`. */
  function ParseList<T, E>(s: string, parse: string -> Result<T, E>): Result<seq<T>, MpdError>
  {
    ParseWords(SplitWhitespace(s), parse)
  }

  lemma ListEmpty<T, E>(parse: string -> Result<T, E>, show: T -> string)
    ensures ParseList("", parse) == Ok([])
    ensures ShowList([], show) == ""
  {
  }

  /** Parsing the text of a list gives the list back when every item's text
      is non-empty, free of white space and parses back to the item. */
  lemma ListRoundTrip<T, E>(items: seq<T>, parse: string -> Result<T, E>, show: T -> string)
    requires forall x | x in items :: |show(x)| > 0 && NoWhitespace(show(x)) && parse(show(x)) == Ok(x)
    ensures ParseList(ShowList(items, show), parse) == Ok(items)
  {
    var words := MapSeq(items, show);
    forall w | w in words
      ensures |w| > 0 && NoWhitespace(w)
    {
      var i :| 0 <= i < |words| && words[i] == w;
      assert items[i] in items;
    }
    SplitWhitespaceJoin(words);
    var r := ParseWords(words, parse);
    assert forall i | 0 <= i < |items| :: parse(words[i]) == Ok(items[i]) by {
      forall i | 0 <= i < |items| ensures parse(words[i]) == Ok(items[i]) {
        assert items[i] in items;
      }
    }
    assert r.value == items;
  }

  /** `String::from_str`, the item parser of `StringVector`: never fails. */
  function ParseString(s: string): Result<string, MpdError>
  {
    Ok(s)
  }

  function ShowString(s: string): string
  {
    s
  }

  /** `u32::from_str`, the item parser of `UIntVector`. */
  function ParseU32(s: string): (r: Result<U32, IntErrorKind>)
    ensures r == ParseUnsigned(s, U32_LIMIT)
  {
    match ParseUnsigned(s, U32_LIMIT)
    case Err(k) => Err(k)
    case Ok(n) => Ok(n)
  }

  function ShowU32(n: U32): string
  {
    Show(n)
  }

  /** A `StringVector` text such as "Hello World !" parses to its words and
      formats back to the same text. */
  lemma StringVectorExample()
    ensures ParseList("Hello World !", ParseString) == Ok(["Hello", "World", "!"])
    ensures ShowList(["Hello", "World", "!"], ShowString) == "Hello World !"
  {
    var items := ["Hello", "World", "!"];
    assert ShowList(items, ShowString) == "Hello World !" by {
      assert MapSeq(items, ShowString) == items;
    }
    ListRoundTrip(items, ParseString, ShowString);
  }

  /** Any list of `u32` round-trips through its text. */
  lemma UIntVectorRoundTrip(items: seq<U32>)
    ensures ParseList(ShowList(items, ShowU32), ParseU32) == Ok(items)
  {
    forall x | x in items
      ensures |ShowU32(x)| > 0 && NoWhitespace(ShowU32(x)) && ParseU32(ShowU32(x)) == Ok(x)
    {
      ParseShow(x, U32_LIMIT);
    }
    ListRoundTrip(items, ParseU32, ShowU32);
  }

  // ---------------------------------------------------------------------
  // AspectRatio

  datatype AspectRatio = AspectRatio(horizontal: U64, vertical: U64)

  const DefaultAspectRatio := AspectRatio(0, 0)

  predicate Divides(d: nat, n: nat) {
    d > 0 && n % d == 0
  }

  /** Euclid's greatest common divisor; `Gcd(a, 0) == a`. */
  function Gcd(a: nat, b: nat): nat
    decreases b
  {
    if b == 0 then a else Gcd(b, a % b)
  }

  lemma MulAtLeast(d: int, x: int)
    requires d > 0 && x >= 1
    ensures d * x >= d
  {
    assert d * x == d * (x - 1) + d;
    assert d * (x - 1) >= 0;
  }

  /** Euclidean division is unique: a quotient and remainder that rebuild
      `n` are `n / d` and `n % d`. */
  lemma ModUnique(n: int, d: int, q: int, r: int)
    requires d > 0 && 0 <= r < d && n == d * q + r
    ensures n / d == q && n % d == r
  {
    var q0 := n / d;
    var r0 := n % d;
    assert n == d * q0 + r0;
    assert d * (q - q0) == r0 - r;
    if q - q0 >= 1 {
      MulAtLeast(d, q - q0);
    } else if q0 - q >= 1 {
      MulAtLeast(d, q0 - q);
    }
  }

  lemma DividesMultiple(d: nat, k: nat)
    requires d > 0
    ensures Divides(d, d * k) && (d * k) / d == k
  {
    ModUnique(d * k, d, k, 0);
  }

  lemma DividesWitness(d: nat, n: nat)
    requires Divides(d, n)
    ensures n == d * (n / d)
  {
  }

  lemma DividesSum(d: nat, x: nat, y: nat)
    requires Divides(d, x) && Divides(d, y)
    ensures Divides(d, x + y)
  {
    DividesWitness(d, x);
    DividesWitness(d, y);
    assert x + y == d * (x / d + y / d);
    DividesMultiple(d, x / d + y / d);
  }

  lemma DividesDifference(d: nat, x: nat, y: nat)
    requires y <= x && Divides(d, x) && Divides(d, y)
    ensures Divides(d, x - y)
  {
    var kx, ky := x / d, y / d;
    DividesWitness(d, x);
    DividesWitness(d, y);
    assert x - y == d * (kx - ky);
    assert kx - ky >= 0 by {
      if kx - ky < 0 {
        MulAtLeast(d, ky - kx);
      }
    }
    DividesMultiple(d, kx - ky);
  }

  lemma DividesScaled(d: nat, b: nat, q: nat)
    requires Divides(d, b)
    ensures Divides(d, b * q)
  {
    DividesWitness(d, b);
    assert b * q == d * ((b / d) * q);
    DividesMultiple(d, (b / d) * q);
  }

  /** A divisor of `b` divides `a` exactly when it divides `a % b`. */
  lemma DividesRemainder(a: nat, b: nat, d: nat)
    requires b > 0 && Divides(d, b)
    ensures Divides(d, a) <==> Divides(d, a % b)
  {
    var q, r := a / b, a % b;
    assert a == b * q + r;
    DividesScaled(d, b, q);
    if Divides(d, r) {
      DividesSum(d, b * q, r);
    }
    if Divides(d, a) {
      DividesDifference(d, a, b * q);
    }
  }

  /** `Gcd(a, b)` is a positive common divisor of `a` and `b`. */
  lemma {:induction false} GcdDivides(a: nat, b: nat)
    requires a > 0 || b > 0
    ensures Gcd(a, b) > 0 && Divides(Gcd(a, b), a) && Divides(Gcd(a, b), b)
    decreases b
  {
    if b == 0 {
      DividesMultiple(a, 1);
      DividesMultiple(a, 0);
    } else {
      GcdDivides(b, a % b);
      DividesRemainder(a, b, Gcd(a, b));
    }
  }

  /** Every common divisor of `a` and `b` divides `Gcd(a, b)`. */
  lemma {:induction false} GcdGreatest(a: nat, b: nat, d: nat)
    requires Divides(d, a) && Divides(d, b)
    ensures Divides(d, Gcd(a, b))
    decreases b
  {
    if b > 0 {
      DividesRemainder(a, b, d);
      GcdGreatest(b, a % b, d);
    }
  }

  lemma DivisorBound(d: nat, n: nat)
    requires n > 0 && Divides(d, n)
    ensures d <= n
  {
    DividesWitness(d, n);
    MulAtLeast(d, n / d);
  }

  lemma Regroup(g: int, d: int, x: int)
    ensures g * (d * x) == (d * g) * x
  {
  }

  /** Divisibility composes: `g | n` and `d | n / g` give `d * g | n`. */
  lemma DividesCompose(g: nat, d: nat, n: nat)
    requires Divides(g, n) && Divides(d, n / g)
    ensures Divides(d * g, n)
  {
    var q := n / g;
    var x := q / d;
    DividesWitness(g, n);
    DividesWitness(d, q);
    assert n == g * (d * x);
    Regroup(g, d, x);
    DividesMultiple(d * g, x);
  }

  lemma UnitFactor(d: nat, g: nat)
    requires d > 0 && g > 0 && d * g <= g
    ensures d == 1
  {
    if d >= 2 {
      MulAtLeast(g, d - 1);
    }
  }

  /** Only 1 divides both parts of a pair divided by its gcd. */
  lemma ReducedDivisor(h: nat, v: nat, g: nat, d: nat)
    requires g == Gcd(h, v) && g > 0
    requires Divides(g, h) && Divides(g, v)
    requires Divides(d, h / g) && Divides(d, v / g)
    ensures d == 1
  {
    DividesCompose(g, d, h);
    DividesCompose(g, d, v);
    GcdGreatest(h, v, d * g);
    DivisorBound(d * g, g);
    UnitFactor(d, g);
  }

  /** `AspectRatio::from((h, v))`: both parts divided by their greatest
      common divisor, so the stored ratio is in lowest terms and scales back
      to `(h, v)`. `(0, 0)` is excluded because its gcd is 0 and the
      division panics. */
  function AspectRatioFrom(h: U64, v: U64): (r: AspectRatio)
    requires h != 0 || v != 0
    ensures r.horizontal * Gcd(h, v) == h && r.vertical * Gcd(h, v) == v
    ensures forall d: nat | Divides(d, r.horizontal) && Divides(d, r.vertical) :: d == 1
  {
    GcdDivides(h, v);
    var g := Gcd(h, v);
    DividesWitness(g, h);
    DividesWitness(g, v);
    DivisorBound(g, if h > 0 then h else v);
    var r := AspectRatio(h / g, v / g);
    assert forall d: nat | Divides(d, r.horizontal) && Divides(d, r.vertical) :: d == 1 by {
      forall d: nat | Divides(d, r.horizontal) && Divides(d, r.vertical)
        ensures d == 1
      {
        ReducedDivisor(h, v, g, d);
      }
    }
    r
  }

  /** `Display`: "h:v". */
  function ShowAspectRatio(r: AspectRatio): string
  {
    Show(r.horizontal) + ":" + Show(r.vertical)
  }

  /** `AspectRatio::from_str`: exactly two ':'-separated parts, each a `u64`;
      the parts are stored as written, without reduction. */
  function ParseAspectRatio(s: string): (r: Result<AspectRatio, MpdError>)
    ensures r.Ok? <==> (|Split(s, ':')| == 2
      && ParseUnsigned(Split(s, ':')[0], U64_LIMIT).Ok?
      && ParseUnsigned(Split(s, ':')[1], U64_LIMIT).Ok?)
    ensures r.Ok? ==> (ParseUnsigned(Split(s, ':')[0], U64_LIMIT) == Ok(r.value.horizontal as nat)
      && ParseUnsigned(Split(s, ':')[1], U64_LIMIT) == Ok(r.value.vertical as nat))
    ensures |Split(s, ':')| != 2 ==> r == Err(InvalidData("Aspect ratio format `_:_`"))
    ensures |Split(s, ':')| == 2 && ParseUnsigned(Split(s, ':')[0], U64_LIMIT).Err?
      ==> r == Err(ParseError(ParseUnsigned(Split(s, ':')[0], U64_LIMIT).error))
    ensures |Split(s, ':')| == 2 && ParseUnsigned(Split(s, ':')[0], U64_LIMIT).Ok?
      && ParseUnsigned(Split(s, ':')[1], U64_LIMIT).Err?
      ==> r == Err(ParseError(ParseUnsigned(Split(s, ':')[1], U64_LIMIT).error))
  {
    var parts := Split(s, ':');
    if |parts| != 2 then Err(InvalidData("Aspect ratio format `_:_`"))
    else
      match ParseU64(parts[0])
      case Err(k) => Err(ParseError(k))
      case Ok(h) =>
        match ParseU64(parts[1])
        case Err(k) => Err(ParseError(k))
        case Ok(v) => Ok(AspectRatio(h, v))
  }

  /** `u64::from_str`. */
  function ParseU64(s: string): (r: Result<U64, IntErrorKind>)
    ensures r == ParseUnsigned(s, U64_LIMIT)
  {
    match ParseUnsigned(s, U64_LIMIT)
    case Err(k) => Err(k)
    case Ok(n) => Ok(n)
  }

  lemma AspectRatioRoundTrip(r: AspectRatio)
    ensures ParseAspectRatio(ShowAspectRatio(r)) == Ok(r)
  {
    var a := Show(r.horizontal);
    var b := Show(r.vertical);
    assert ':' !in a;
    assert ':' !in b;
    SplitAt(a, ':', b);
    assert ShowAspectRatio(r) == a + [':'] + b;
    ParseShow(r.horizontal, U64_LIMIT);
    ParseShow(r.vertical, U64_LIMIT);
  }

  /** Parsing "16:9" and reducing (1920, 1080) agree. */
  lemma AspectRatioExample()
    ensures ParseAspectRatio("16:9") == Ok(AspectRatioFrom(1920, 1080))
    ensures ShowAspectRatio(AspectRatioFrom(1920, 1080)) == "16:9"
  {
    assert Gcd(1920, 1080) == 120;
    assert ShowAspectRatio(AspectRatio(16, 9)) == "16:9";
    AspectRatioRoundTrip(AspectRatio(16, 9));
  }

  /** Parsing does not reduce: "1920:1080" keeps both numbers, where
      `From<(u64, u64)>` would give 16:9. */
  lemma AspectRatioParseKeepsTerms()
    ensures ParseAspectRatio("1920:1080") == Ok(AspectRatio(1920, 1080))
    ensures AspectRatioFrom(1920, 1080) == AspectRatio(16, 9)
  {
    assert Gcd(1920, 1080) == 120;
    AspectRatioText1920();
    AspectRatioRoundTrip(AspectRatio(1920, 1080));
  }

  lemma AspectRatioText1920()
    ensures ShowAspectRatio(AspectRatio(1920, 1080)) == "1920:1080"
  {
    assert Show(1920) == "1920";
    assert Show(1080) == "1080";
  }

  /** A missing second number is a parse failure of the empty part. */
  lemma AspectRatioRejectsMissingPart()
    ensures ParseAspectRatio("16:") == Err(ParseError(Empty))
  {
    assert "16:" == Show(16) + [':'] + "";
    SplitAt(Show(16), ':', "");
  }

  // ---------------------------------------------------------------------
  // FrameRate

  datatype FrameRate = FrameRate(frame: U64, denom: Option<U64>)

  const DefaultFrameRate := FrameRate(0, None)

  /** The pattern `^[0-9]+(/[1-9][0-9]*)?$`. */
  predicate IsFrameRateText(s: string) {
    var parts := Split(s, '/');
    && |parts[0]| > 0 && AllDigits(parts[0])
    && (|parts| == 1 || (|parts| == 2 && |parts[1]| > 0 && AllDigits(parts[1]) && parts[1][0] != '0'))
  }

  /** `FrameRate::from_str`: the pattern, then `u64` parses of the frame
      count and of the denominator when present. */
  function ParseFrameRate(s: string): (r: Result<FrameRate, MpdError>)
    ensures !IsFrameRateText(s) ==> r == Err(UnmatchedPattern)
    ensures r.Ok? <==> (IsFrameRateText(s) && ParseUnsigned(Split(s, '/')[0], U64_LIMIT).Ok?
      && (|Split(s, '/')| == 2 ==> ParseUnsigned(Split(s, '/')[1], U64_LIMIT).Ok?))
    ensures r.Ok? ==> ParseUnsigned(Split(s, '/')[0], U64_LIMIT) == Ok(r.value.frame as nat)
    ensures r.Ok? ==> (r.value.denom.Some? <==> |Split(s, '/')| == 2)
    ensures r.Ok? && r.value.denom.Some? ==> ParseUnsigned(Split(s, '/')[1], U64_LIMIT) == Ok(r.value.denom.value as nat)
    ensures r.Ok? ==> r.value.denom.None? || r.value.denom.value >= 1
  {
    if !IsFrameRateText(s) then Err(UnmatchedPattern)
    else
      var parts := Split(s, '/');
      match ParseU64(parts[0])
      case Err(k) => Err(ParseError(k))
      case Ok(frame) =>
        if |parts| < 2 then Ok(FrameRate(frame, None))
        else
          match ParseU64(parts[1])
          case Err(k) => Err(ParseError(k))
          case Ok(d) =>
            assert parts[1][0] in parts[1];
            LeadingNonZero(parts[1]);
            ParseUnsignedSpec(parts[1], U64_LIMIT);
            Ok(FrameRate(frame, Some(d)))
  }

  /** A digit string that does not start with '0' has a value of at least 1. */
  lemma LeadingNonZero(s: string)
    requires |s| > 0 && AllDigits(s) && s[0] != '0'
    ensures Value(s) >= 1
  {
    assert s[0] in s;
    assert AllDigits(s[1..]) by {
      forall c | c in s[1..] ensures IsAsciiDigit(c) { assert c in s; }
    }
    ValueCons(s[0], s[1..]);
    assert [s[0]] + s[1..] == s;
  }

  /** `Display`: "f/d", with an absent denominator written as 1. */
  function ShowFrameRate(r: FrameRate): string
  {
    Show(r.frame) + "/" + Show(r.denom.GetOr(1))
  }

  /** Parsing the text of a frame rate gives it back, except that an absent
      denominator comes back as 1; a zero denominator is the one value whose
      text the pattern refuses. */
  lemma FrameRateRoundTrip(r: FrameRate)
    requires r.denom != Some(0)
    ensures ParseFrameRate(ShowFrameRate(r)) == Ok(FrameRate(r.frame, Some(r.denom.GetOr(1))))
  {
    var d := r.denom.GetOr(1);
    var a := Show(r.frame);
    var b := Show(d);
    assert '/' !in a;
    assert '/' !in b;
    SplitAt(a, '/', b);
    assert ShowFrameRate(r) == a + ['/'] + b;
    ShowCanonical(d);
    ParseShow(r.frame, U64_LIMIT);
    ParseShow(d, U64_LIMIT);
  }

  /** "30" parses to a frame rate without denominator, which formats as
      "30/1". */
  lemma FrameRateDefaultDenominator()
    ensures ParseFrameRate("30") == Ok(FrameRate(30, None))
    ensures ShowFrameRate(FrameRate(30, None)) == "30/1"
  {
    assert "30" == Show(30);
    assert '/' !in Show(30);
    ParseShow(30, U64_LIMIT);
  }

  // ---------------------------------------------------------------------
  // StreamAccessPoint

  datatype StreamAccessPoint = Type1 | Type2 | Type3 | Type4 | Type5 | Type6

  const DefaultStreamAccessPoint := Type1

  /** The `#[repr(u8)]` discriminant. */
  function SapValue(p: StreamAccessPoint): U8
  {
    match p
    case Type1 => 1
    case Type2 => 2
    case Type3 => 3
    case Type4 => 4
    case Type5 => 5
    case Type6 => 6
  }

  /** `TryFrom<u8>`: exactly 1 to 6 name a SAP type. */
  function SapTryFrom(n: U8): (r: Result<StreamAccessPoint, MpdError>)
    ensures r.Ok? <==> 1 <= n <= 6
    ensures r.Ok? ==> SapValue(r.value) == n
    ensures r.Err? ==> r.error == InvalidData("SAP values must be 1 to 6")
  {
    match n
    case 1 => Ok(Type1)
    case 2 => Ok(Type2)
    case 3 => Ok(Type3)
    case 4 => Ok(Type4)
    case 5 => Ok(Type5)
    case 6 => Ok(Type6)
    case _ => Err(InvalidData("SAP values must be 1 to 6"))
  }

  function ShowSap(p: StreamAccessPoint): string
  {
    Show(SapValue(p))
  }

  /** `StreamAccessPoint::from_str`: a `u8` parse, then `try_from`. */
  function ParseSap(s: string): (r: Result<StreamAccessPoint, MpdError>)
    ensures ParseUnsigned(s, U8_LIMIT).Err? ==> r == Err(ParseError(ParseUnsigned(s, U8_LIMIT).error))
    ensures r.Ok? <==> ParseUnsigned(s, U8_LIMIT).Ok? && 1 <= ParseUnsigned(s, U8_LIMIT).value <= 6
    ensures r.Ok? ==> ParseUnsigned(s, U8_LIMIT) == Ok(SapValue(r.value) as nat)
    ensures ParseUnsigned(s, U8_LIMIT).Ok? && !(1 <= ParseUnsigned(s, U8_LIMIT).value <= 6)
      ==> r == Err(InvalidData("SAP values must be 1 to 6"))
  {
    match ParseUnsigned(s, U8_LIMIT)
    case Err(k) => Err(ParseError(k))
    case Ok(n) => SapTryFrom(n)
  }

  lemma SapRoundTrip(p: StreamAccessPoint)
    ensures ParseSap(ShowSap(p)) == Ok(p)
  {
    ParseShow(SapValue(p), U8_LIMIT);
  }

  /** A leading '+' and leading zeros are accepted by the `u8` parse; a
      `u8` outside 1..=6 gets the range message. */
  lemma SapExamples()
    ensures ParseSap("+3") == Ok(Type3) && ParseSap("03") == Ok(Type3)
    ensures ParseSap("0") == Err(InvalidData("SAP values must be 1 to 6"))
    ensures ParseSap("7") == Err(InvalidData("SAP values must be 1 to 6"))
  {
    assert "+3"[1..] == "3" && "03"[1..] == "3" && "3"[1..] == [];
    assert "0"[1..] == [] && "7"[1..] == [];
  }

  /** Distinct SAP types have distinct texts. */
  lemma SapShowInjective(p: StreamAccessPoint, q: StreamAccessPoint)
    requires ShowSap(p) == ShowSap(q)
    ensures p == q
  {
    SapRoundTrip(p);
    SapRoundTrip(q);
  }

  // ---------------------------------------------------------------------
  // SingleRFC7233Range

  datatype SingleRFC7233Range = SingleRFC7233Range(start: Option<U64>, end: Option<U64>)

  const DefaultRange := SingleRFC7233Range(None, None)

  /** The declarative reading of `^([0-9]*)(-([0-9]*))?$`: `s` is the
      digits `g1` (group 1), followed, when group 3 takes part in the
      match, by '-' and the digits of group 3. */
  predicate IsRangeText(s: string, g1: string, g3: Option<string>) {
    && AllDigits(g1)
    && (match g3
        case None => s == g1
        case Some(t) => AllDigits(t) && s == g1 + "-" + t)
  }

  ghost predicate MatchesRange(s: string) {
    exists g1, g3 :: IsRangeText(s, g1, g3)
  }

  /** A match is pinned down by the first '-' of the text. */
  lemma RangeTextShape(s: string, g1: string, g3: Option<string>)
    requires IsRangeText(s, g1, g3)
    ensures g3.None? <==> '-' !in s
    ensures g3.None? ==> g1 == s
    ensures g3.Some? ==> IndexOf(s, '-') == |g1| && s[..|g1|] == g1 && s[|g1| + 1..] == g3.value
  {
    if g3.Some? {
      assert s[|g1|] == '-';
      assert s[..|g1|] == g1;
      assert '-' !in g1;
    } else {
      assert '-' !in g1;
    }
  }

  /** The only captures a text can have. */
  lemma RangeTextUnique(s: string, g1: string, g3: Option<string>, h1: string, h3: Option<string>)
    requires IsRangeText(s, g1, g3) && IsRangeText(s, h1, h3)
    ensures g1 == h1 && g3 == h3
  {
    RangeTextShape(s, g1, g3);
    RangeTextShape(s, h1, h3);
  }

  /** The regular-expression captures, found by looking for the first '-':
      `None` when the text does not match. */
  function RangeCaptures(s: string): (m: Option<(string, Option<string>)>)
    ensures m.Some? <==> MatchesRange(s)
    ensures m.Some? ==> IsRangeText(s, m.value.0, m.value.1)
  {
    RangeMatchParts(s);
    if '-' !in s then
      if AllDigits(s) then
        assert IsRangeText(s, s, None);
        Some((s, None))
      else None
    else
      var i := IndexOf(s, '-');
      var left := s[..i];
      var right := s[i + 1..];
      assert s == left + "-" + right;
      if AllDigits(left) && AllDigits(right) then
        assert IsRangeText(s, left, Some(right));
        Some((left, Some(right)))
      else None
  }

  lemma RangeMatchParts(s: string)
    ensures MatchesRange(s) && '-' !in s ==> AllDigits(s)
    ensures MatchesRange(s) && '-' in s ==>
      AllDigits(s[..IndexOf(s, '-')]) && AllDigits(s[IndexOf(s, '-') + 1..])
  {
    if MatchesRange(s) {
      var g1, g3 :| IsRangeText(s, g1, g3);
      RangeTextShape(s, g1, g3);
    }
  }

  /** One capture to a bound: empty means absent, and a number that does not
      fit a `u64` is silently absent too (`parse().ok()`). */
  function CaptureBound(g: string): (b: Option<U64>)
    requires AllDigits(g)
    ensures b.Some? <==> |g| > 0 && ParseUnsigned(g, U64_LIMIT).Ok?
    ensures b.Some? ==> ParseUnsigned(g, U64_LIMIT) == Ok(b.value as nat)
  {
    if |g| == 0 then None else ParseU64(g).ToOption()
  }

  /** The range a match with captures `g1` and `g3` denotes. */
  function RangeOf(g1: string, g3: Option<string>): SingleRFC7233Range
    requires AllDigits(g1) && (g3.Some? ==> AllDigits(g3.value))
  {
    SingleRFC7233Range(CaptureBound(g1), if g3.None? then None else CaptureBound(g3.value))
  }

  /** `SingleRFC7233Range::from_str`: text outside the pattern is
      `UnmatchedPattern`; a match denotes the range of its captures, and no
      ordering between the bounds is checked. */
  function ParseRange(s: string): (r: Result<SingleRFC7233Range, MpdError>)
    ensures r.Ok? <==> MatchesRange(s)
    ensures r.Err? ==> r.error == UnmatchedPattern
    ensures forall g1, g3 | IsRangeText(s, g1, g3) :: r == Ok(RangeOf(g1, g3))
  {
    match RangeCaptures(s)
    case None => Err(UnmatchedPattern)
    case Some((g1, g3)) =>
      assert forall h1, h3 | IsRangeText(s, h1, h3) :: h1 == g1 && h3 == g3 by {
        forall h1, h3 | IsRangeText(s, h1, h3) ensures h1 == g1 && h3 == g3 {
          RangeTextUnique(s, g1, g3, h1, h3);
        }
      }
      Ok(RangeOf(g1, g3))
  }

  function ShowBound(b: Option<U64>): string
  {
    match b
    case None => ""
    case Some(n) => Show(n)
  }

  /** `Display`: empty when both bounds are absent, otherwise "start-end"
      with an absent side written as nothing. */
  function ShowRange(r: SingleRFC7233Range): (s: string)
    ensures s == "" <==> r.start.None? && r.end.None?
  {
    var startText := ShowBound(r.start);
    var endText := ShowBound(r.end);
    if r.end.Some? || |startText| > 0 then startText + "-" + endText else ""
  }

  lemma CaptureBoundShow(b: Option<U64>)
    ensures AllDigits(ShowBound(b)) && CaptureBound(ShowBound(b)) == b
  {
    if b.Some? {
      ParseShow(b.value, U64_LIMIT);
    }
  }

  /** Every range, ordered or not, round-trips through its text. */
  lemma RangeRoundTrip(r: SingleRFC7233Range)
    ensures ParseRange(ShowRange(r)) == Ok(r)
  {
    var s := ShowRange(r);
    var a := ShowBound(r.start);
    var b := ShowBound(r.end);
    CaptureBoundShow(r.start);
    CaptureBoundShow(r.end);
    if s == "" {
      assert IsRangeText(s, "", None);
    } else {
      assert IsRangeText(s, a, Some(b));
    }
  }

  lemma RangeExampleBoth()
    ensures ParseRange("100-200") == Ok(SingleRFC7233Range(Some(100), Some(200)))
  {
    assert ShowRange(SingleRFC7233Range(Some(100), Some(200))) == "100-200";
    RangeRoundTrip(SingleRFC7233Range(Some(100), Some(200)));
  }

  lemma RangeExampleOpenEnd()
    ensures ParseRange("100-") == Ok(SingleRFC7233Range(Some(100), None))
  {
    assert ShowRange(SingleRFC7233Range(Some(100), None)) == "100-";
    RangeRoundTrip(SingleRFC7233Range(Some(100), None));
  }

  lemma RangeExampleSuffix()
    ensures ParseRange("-200") == Ok(SingleRFC7233Range(None, Some(200)))
  {
    assert ShowRange(SingleRFC7233Range(None, Some(200))) == "-200";
    RangeRoundTrip(SingleRFC7233Range(None, Some(200)));
  }

  lemma RangeExampleEmpty()
    ensures ParseRange("") == Ok(SingleRFC7233Range(None, None))
  {
    RangeRoundTrip(SingleRFC7233Range(None, None));
  }

  /** A start after the end is accepted as written. */
  lemma RangeExampleReversed()
    ensures ParseRange("500-499") == Ok(SingleRFC7233Range(Some(500), Some(499)))
  {
    assert ShowRange(SingleRFC7233Range(Some(500), Some(499))) == "500-499";
    RangeRoundTrip(SingleRFC7233Range(Some(500), Some(499)));
  }

  lemma RangeRejectsLetters()
    ensures ParseRange("abc-xyz") == Err(UnmatchedPattern)
  {
    var s := "abc-xyz";
    RangeMatchParts(s);
    assert s[3] == '-';
    var i := IndexOf(s, '-');
    assert i == 3;
    assert s[..i][0] == 'a';
  }
}
