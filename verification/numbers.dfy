/**
 * The three JavaScript number conversions the form relies on, on exact integers and
 * decimals: `Number(s)` (used by the validators), `parseInt(s)` (used to build request
 * bodies) and `n.toString()` for integers (used to copy a stored coordinate into the form).
 */
module Numbers {
  import opened Wrappers
  import opened Strings

  function DigitValue(c: char): nat
    requires IsDigit(c)
  {
    c as int - '0' as int
  }

  function DigitChar(d: nat): (c: char)
    requires d < 10
    ensures IsDigit(c) && DigitValue(c) == d
  {
    ('0' as int + d) as char
  }

  /** The value of a run of decimal digits, most significant first. */
  function DigitsValue(s: string): nat
    requires AllDigits(s)
  {
    if s == [] then 0 else 10 * DigitsValue(s[..|s| - 1]) + DigitValue(s[|s| - 1])
  }

  function Pow10(k: nat): (r: nat)
    ensures 1 <= r
  {
    if k == 0 then 1 else 10 * Pow10(k - 1)
  }

  lemma {:induction false} DigitsValueAppend(a: string, b: string)
    requires AllDigits(a) && AllDigits(b)
    ensures AllDigits(a + b)
    ensures DigitsValue(a + b) == DigitsValue(a) * Pow10(|b|) + DigitsValue(b)
  {
    if b == [] {
      assert a + b == a;
    } else {
      var b' := b[..|b| - 1];
      DigitsValueAppend(a, b');
      assert (a + b)[..|a + b| - 1] == a + b';
      var x, p, y, d := DigitsValue(a), Pow10(|b'|), DigitsValue(b'), DigitValue(b[|b| - 1]);
      assert DigitsValue(a + b) == 10 * (x * p + y) + d;
      ShiftDigit(x, p, y, d);
    }
  }

  lemma ShiftDigit(x: int, p: int, y: int, d: int)
    ensures 10 * (x * p + y) + d == x * (10 * p) + (10 * y + d)
  {
  }

  lemma {:induction false} DigitsValueBound(s: string)
    requires AllDigits(s)
    ensures DigitsValue(s) < Pow10(|s|)
  {
    if s != [] {
      DigitsValueBound(s[..|s| - 1]);
    }
  }

  /** The longest prefix of `s` made of digits. */
  function DigitPrefix(s: string): (r: string)
    ensures |r| <= |s| && r == s[..|r|] && AllDigits(r)
    ensures |r| < |s| ==> !IsDigit(s[|r|])
  {
    if s != [] && IsDigit(s[0]) then [s[0]] + DigitPrefix(s[1..]) else []
  }

  lemma DigitPrefixOfDigits(s: string)
    requires AllDigits(s)
    ensures DigitPrefix(s) == s
  {
  }

  function Signed(negative: bool, n: nat): int {
    if negative then -(n as int) else n as int
  }

  /** The decimal text of a natural number, without leading zeros. */
  function NatToDigits(n: nat): (r: string)
    ensures r != [] && AllDigits(r)
    ensures DigitsValue(r) == n
    ensures r[0] == '0' ==> r == "0"
  {
    if n < 10 then [DigitChar(n)]
    else
      var r := NatToDigits(n / 10) + [DigitChar(n % 10)];
      assert r[..|r| - 1] == NatToDigits(n / 10);
      r
  }

  /** `n.toString()` for an integer `n`. */
  function IntToString(n: int): string {
    if n < 0 then "-" + NatToDigits(-n) else NatToDigits(n)
  }

  /**
   * `parseInt(s)` in base 10: leading whitespace is skipped, one sign is read, then the
   * longest run of digits; with no digit the result is NaN, written None here.
   */
  function ParseInt(s: string): Option<int> {
    ReadInteger(TrimStart(s))
  }

  /** parseInt after the leading whitespace: one sign, then the longest run of digits. */
  function ReadInteger(t: string): Option<int> {
    var digits := DigitPrefix(Unsigned(t));
    if digits == [] then None else Some(Signed(Negative(t), DigitsValue(digits)))
  }

  /** The text after one leading sign, if there is one. */
  function Unsigned(t: string): string {
    if t != [] && (t[0] == '-' || t[0] == '+') then t[1..] else t
  }

  predicate Negative(t: string) {
    t != [] && t[0] == '-'
  }

  /** An exact decimal number: `units / 10^scale`. */
  datatype Decimal = Decimal(units: int, scale: nat)

  function Value(d: Decimal): real {
    d.units as real / Pow10(d.scale) as real
  }

  predicate IsWhole(v: real) {
    v.Floor as real == v
  }

  /**
   * `Number(s)` on decimal literals: after trimming, the empty string is 0; otherwise an
   * optional sign followed by `d+`, `d+.d*` or `.d+`; anything else is NaN, written None.
   */
  function ToNumber(s: string): Option<Decimal> {
    var t := Trim(s);
    if t == [] then Some(Decimal(0, 0))
    else match ReadMagnitude(Unsigned(t))
      case None => None
      case Some(m) => Some(Decimal(Signed(Negative(t), m.units as nat), m.scale))
  }

  /** The unsigned part `d+`, `d+.d*` or `.d+`, as a non-negative decimal. */
  function ReadMagnitude(body: string): (r: Option<Decimal>)
    ensures r.Some? ==> r.value.units >= 0
  {
    var whole := DigitPrefix(body);
    var rest := body[|whole|..];
    if rest == [] then
      if whole == [] then None else Some(Decimal(DigitsValue(whole), 0))
    else if rest[0] != '.' || !AllDigits(rest[1..]) || (whole == [] && |rest| == 1) then None
    else
      DigitsValueAppend(whole, rest[1..]);
      Some(Decimal(DigitsValue(whole + rest[1..]), |rest| - 1))
  }

  /** A text with no surrounding whitespace and no sign is read by Number as its magnitude. */
  lemma ToNumberOfBareText(s: string)
    requires s != [] && Trim(s) == s && Unsigned(s) == s && !Negative(s)
    ensures ToNumber(s) == ReadMagnitude(s)
  {
    match ReadMagnitude(s)
    case None =>
    case Some(m) =>
      assert Signed(false, m.units as nat) == m.units;
  }

  lemma NonNegativeValue(d: Decimal)
    requires d.units >= 0
    ensures Value(d) >= 0.0
  {
    var p := Pow10(d.scale) as real;
    assert p > 0.0;
    assert Value(d) == d.units as real / p;
  }

  // The three comparisons the validators make, stated on the exact value.

  lemma PositiveIff(d: Decimal)
    ensures d.units > 0 <==> Value(d) > 0.0
  {
    var p := Pow10(d.scale) as real;
    assert Value(d) * p == d.units as real;
  }

  lemma ExceedsIff(d: Decimal, bound: int)
    ensures d.units > bound * Pow10(d.scale) <==> Value(d) > bound as real
  {
    var p := Pow10(d.scale) as real;
    assert Value(d) * p == d.units as real;
    assert (bound * Pow10(d.scale)) as real == bound as real * p;
    if d.units > bound * Pow10(d.scale) {
      assert Value(d) * p > bound as real * p;
    } else {
      assert Value(d) * p <= bound as real * p;
    }
  }

  lemma WholeIff(d: Decimal)
    ensures d.units % Pow10(d.scale) == 0 <==> IsWhole(Value(d))
  {
    var u, p := d.units, Pow10(d.scale);
    if u % p == 0 {
      var q := u / p;
      assert u == q * p;
      CastProduct(q, p);
      QuotientOfProduct(q as real, p as real);
      assert Value(d) == q as real;
    } else if IsWhole(Value(d)) {
      var k := Value(d).Floor;
      ProductOfQuotient(u as real, p as real);
      assert k as real * p as real == u as real;
      CastProduct(k, p);
      assert u == k * p;
      MultipleMod(k, p);
      assert false;
    }
  }

  lemma CastProduct(a: int, b: int)
    ensures (a * b) as real == a as real * b as real
  {
  }

  lemma QuotientOfProduct(a: real, b: real)
    requires b > 0.0
    ensures (a * b) / b == a
  {
  }

  lemma ProductOfQuotient(a: real, b: real)
    requires b > 0.0
    ensures (a / b) * b == a
  {
  }

  lemma MultipleMod(k: int, p: int)
    requires p > 0
    ensures (k * p) % p == 0
  {
    var q, r := (k * p) / p, (k * p) % p;
    var m := k - q;
    assert m * p == r by {
      assert k * p == q * p + r;
    }
    assert m == 0 by {
      if m > 0 {
        ProductAtLeast(m, p);
      } else if m < 0 {
        ProductAtLeast(-m, p);
      }
    }
  }

  lemma ProductAtLeast(m: int, p: int)
    requires m >= 1 && p >= 1
    ensures m * p >= p
  {
  }

  // Round trips between the text of an integer and the two parsers.

  lemma ParseIntOfIntToString(n: int)
    ensures ParseInt(IntToString(n)) == Some(n)
  {
    var s := IntToString(n);
    var digits := NatToDigits(if n < 0 then -n else n);
    DigitPrefixOfDigits(digits);
    assert TrimStart(s) == s;
    if n < 0 {
      assert s[1..] == digits;
    } else {
      assert s == digits && IsDigit(s[0]);
    }
  }

  lemma MagnitudeOfDigits(digits: string)
    requires digits != [] && AllDigits(digits)
    ensures ReadMagnitude(digits) == Some(Decimal(DigitsValue(digits), 0))
  {
    DigitPrefixOfDigits(digits);
    assert digits[|digits|..] == [];
  }

  /** The text of an integer has no surrounding whitespace. */
  lemma IntToStringTrimmed(n: int)
    ensures Trim(IntToString(n)) == IntToString(n)
  {
    var s := IntToString(n);
    var d := NatToDigits(if n < 0 then -n else n);
    assert s[|s| - 1] == d[|d| - 1] && IsDigit(d[|d| - 1]);
    assert s[0] == '-' || s[0] == d[0];
    BareText(s);
  }

  lemma ToNumberOfIntToString(n: int)
    ensures ToNumber(IntToString(n)) == Some(Decimal(n, 0))
  {
    var s := IntToString(n);
    var digits := NatToDigits(if n < 0 then -n else n);
    MagnitudeOfDigits(digits);
    IntToStringTrimmed(n);
    assert Unsigned(s) == digits;
    assert Signed(Negative(s), DigitsValue(digits)) == n;
  }

  // What parseInt sends for a text the validators read with Number.

  /** Text after the digit run does not change the run when it cannot extend it. */
  lemma {:induction false} DigitPrefixExtend(a: string, b: string)
    requires |DigitPrefix(a)| < |a| || b == [] || !IsDigit(b[0])
    ensures DigitPrefix(a + b) == DigitPrefix(a)
  {
    if a == [] {
      assert a + b == b;
    } else if IsDigit(a[0]) {
      assert (a + b)[1..] == a[1..] + b;
      DigitPrefixExtend(a[1..], b);
    }
  }

  lemma FloorOfFraction(w: int, f: int, p: int)
    requires 0 <= f < p
    ensures ((w * p + f) as real / p as real).Floor == w
  {
    var r := (w * p + f) as real / p as real;
    CastProduct(w, p);
    assert r == w as real + f as real / p as real;
    assert f as real / p as real < 1.0;
  }

  /** Trailing text that cannot extend the digit run is not read. */
  lemma ReadIntegerExtend(t: string, w: string)
    requires t != [] && (w == [] || !IsDigit(w[0]))
    ensures ReadInteger(t + w) == ReadInteger(t)
  {
    assert (t + w)[0] == t[0];
    assert Unsigned(t + w) == Unsigned(t) + w by {
      if t[0] == '-' || t[0] == '+' {
        assert (t + w)[1..] == t[1..] + w;
      }
    }
    DigitPrefixExtend(Unsigned(t), w);
  }

  /** parseInt ignores trailing whitespace, so it reads the trimmed text the same way. */
  lemma ParseIntOfTrim(s: string)
    ensures ParseInt(s) == ParseInt(Trim(s))
  {
    var u := TrimStart(s);
    TrimmedParts(u);
    ReadIntegerOfTrimEnd(u);
  }

  /** Trailing whitespace does not change what parseInt reads. */
  lemma ReadIntegerOfTrimEnd(u: string)
    requires u != [] ==> !IsWhitespace(u[0])
    ensures ReadInteger(u) == ReadInteger(TrimEnd(u))
  {
    var t := TrimEnd(u);
    var w := u[|t|..];
    TrimmedParts(u);
    if t != [] {
      assert w == [] || !IsDigit(w[0]);
      ReadIntegerExtend(t, w);
      assert ReadInteger(t + w) == ReadInteger(t);
    }
  }

  /** After trimStart, the text is what trimEnd keeps, which trimStart leaves alone, then whitespace. */
  lemma TrimmedParts(u: string)
    requires u != [] ==> !IsWhitespace(u[0])
    ensures u == TrimEnd(u) + u[|TrimEnd(u)|..]
    ensures TrimStart(TrimEnd(u)) == TrimEnd(u)
    ensures TrimEnd(u) == [] ==> u == []
    ensures u[|TrimEnd(u)|..] == [] || IsWhitespace(u[|TrimEnd(u)|..][0])
  {
    var t := TrimEnd(u);
    var w := u[|t|..];
    assert IsBlank(w);
    if t == [] {
      assert w == u;
    } else {
      assert t[0] == u[0];
    }
  }

  /** A magnitude of at least 1 has a non-empty digit run before any point, and that run is its floor. */
  lemma MagnitudeFloor(body: string, m: Decimal)
    requires ReadMagnitude(body) == Some(m) && Value(m) >= 1.0
    ensures DigitPrefix(body) != [] && Value(m).Floor == DigitsValue(DigitPrefix(body))
  {
    var whole := DigitPrefix(body);
    var rest := body[|whole|..];
    if rest == [] {
      assert m == Decimal(DigitsValue(whole), 0);
    } else {
      var frac := rest[1..];
      assert m == Decimal(DigitsValue(whole + frac), |frac|);
      FractionFloor(whole, frac);
    }
  }

  lemma FractionFloor(whole: string, frac: string)
    requires AllDigits(whole) && AllDigits(frac)
    ensures AllDigits(whole + frac)
    ensures Value(Decimal(DigitsValue(whole + frac), |frac|)).Floor == DigitsValue(whole)
  {
    DigitsValueAppend(whole, frac);
    DigitsValueBound(frac);
    FloorOfFraction(DigitsValue(whole), DigitsValue(frac), Pow10(|frac|));
  }

  /**
   * For a text Number reads as at least 1, parseInt reads the floor of that value:
   * the same number when it is whole, the integer part when it has a fraction.
   */
  lemma ParseIntIsFloorOfNumber(s: string, d: Decimal)
    requires ToNumber(s) == Some(d) && Value(d) >= 1.0
    ensures ParseInt(s) == Some(Value(d).Floor)
  {
    var t := Trim(s);
    ParseIntOfTrim(s);
    PositiveIff(d);
    assert t != [];
    assert TrimStart(t) == t;
    var m := ReadMagnitude(Unsigned(t)).value;
    assert d == Decimal(Signed(Negative(t), m.units as nat), m.scale);
    assert !Negative(t);
    assert d == m;
    MagnitudeFloor(Unsigned(t), m);
  }

  // Three fractional texts, read by both parsers.

  /** Number reads "2.5" as 25 tenths; parseInt stops at the point. */
  lemma TwoPointFive()
    ensures ToNumber("2.5") == Some(Decimal(25, 1)) && ParseInt("2.5") == Some(2)
  {
    var s := "2.5";
    assert !IsWhitespace(s[0]) && !IsWhitespace(s[2]) && IsDigit(s[0]) && !IsDigit(s[1]);
    assert TrimStart(s) == s;
    assert Trim(s) == s;
    assert Unsigned(s) == s;
    assert DigitPrefix(s) == "2" by {
      assert DigitPrefix(s[1..]) == [];
    }
    assert DigitsValue("2") == 2;
    assert ReadMagnitude(s) == Some(Decimal(25, 1)) by {
      assert s[1..] == ".5" && ".5"[1..] == "5" && AllDigits("5");
      assert "2" + "5" == "25";
      assert DigitsValue("25") == 25 by {
        assert "25"[..1] == "2";
      }
    }
  }

  /** Number reads "0.5" as 5 tenths; parseInt reads 0. */
  lemma ZeroPointFive()
    ensures ToNumber("0.5") == Some(Decimal(5, 1)) && ParseInt("0.5") == Some(0)
  {
    var s := "0.5";
    assert !IsWhitespace(s[0]) && !IsWhitespace(s[2]) && IsDigit(s[0]) && !IsDigit(s[1]);
    assert TrimStart(s) == s;
    assert Trim(s) == s;
    assert Unsigned(s) == s;
    assert DigitPrefix(s) == "0" by {
      assert DigitPrefix(s[1..]) == [];
    }
    assert DigitsValue("0") == 0;
    assert ReadMagnitude(s) == Some(Decimal(5, 1)) by {
      assert s[1..] == ".5" && ".5"[1..] == "5" && AllDigits("5");
      assert "0" + "5" == "05";
      assert DigitsValue("05") == 5 by {
        assert "05"[..1] == "0";
      }
    }
  }

  /** Number reads ".5" as 5 tenths; parseInt finds no digit and gives NaN. */
  lemma PointFive()
    ensures ToNumber(".5") == Some(Decimal(5, 1)) && ParseInt(".5") == None
  {
    var s := ".5";
    BareText(s);
    assert Unsigned(s) == s;
    PointFiveMagnitude(s);
    assert DigitPrefix(s) == [];
  }

  lemma PointFiveMagnitude(s: string)
    requires s == ".5"
    ensures ReadMagnitude(s) == Some(Decimal(5, 1))
  {
    assert DigitPrefix(s) == [];
    assert s[0..] == s && s[1..] == "5" && AllDigits("5");
    assert [] + "5" == "5";
    assert DigitsValue("5") == 5;
  }
}
