/** exchange/order.go: which prices and sizes may be sent, and as what text. A decimal is a coefficient and a
    power of ten; the text is the one its String method prints. */
module Price {
  import opened Assets
  import opened Wrappers

  datatype Decimal = Decimal(coef: int, exp: int)

  datatype FormatError = InvalidPrice | InvalidSize

  function Pow10(n: nat): (p: nat)
    ensures p > 0
  {
    if n == 0 then 1 else 10 * Pow10(n - 1)
  }

  // n * 10^k
  function Shift(n: int, k: nat): (m: int)
    ensures (n > 0 <==> m > 0) && (n == 0 <==> m == 0)
  {
    if k == 0 then n else 10 * Shift(n, k - 1)
  }

  // The same number, whatever the exponents.
  predicate Equal(a: Decimal, b: Decimal) {
    if a.exp >= b.exp then Shift(a.coef, a.exp - b.exp) == b.coef
    else a.coef == Shift(b.coef, b.exp - a.exp)
  }

  // Quotients of big integers drop the fraction.
  function Quotient(n: int, d: int): int
    requires d > 0
  {
    if n >= 0 then n / d else -(-n / d)
  }

  // A negative precision changes nothing.
  function Truncate(d: Decimal, precision: int): Decimal {
    if precision >= 0 && -precision > d.exp then Decimal(Quotient(d.coef, Pow10(-precision - d.exp)), -precision) else d
  }

  // ---------- Text ----------

  function Digit(n: nat): char
    requires n < 10
  {
    (n + '0' as nat) as char
  }

  function Digits(n: nat): (text: string)
    ensures text != [] && (n > 0 ==> text[0] != '0') && IsDigits(text)
  {
    if n < 10 then [Digit(n)] else Digits(n / 10) + [Digit(n % 10)]
  }

  predicate IsDigits(text: string) {
    forall i | 0 <= i < |text| :: '0' <= text[i] <= '9'
  }

  function TrimLeft(text: string): string {
    if text != [] && text[0] == '0' then TrimLeft(text[1..]) else text
  }

  function TrimRight(text: string): string {
    if text != [] && text[|text| - 1] == '0' then TrimRight(text[..|text| - 1]) else text
  }

  function Trim(text: string): string {
    TrimRight(TrimLeft(text))
  }

  function Zeros(n: nat): (text: string)
    ensures |text| == n && forall i | 0 <= i < n :: text[i] == '0'
  {
    seq(n, i => '0')
  }

  // The digits in front of the point and behind it, for a negative exponent.
  function IntegerPart(d: Decimal): string
    requires d.coef >= 0 && d.exp < 0
  {
    var text := Digits(d.coef);
    if |text| > -d.exp then text[..|text| + d.exp] else "0"
  }

  function FractionPart(d: Decimal): string
    requires d.coef >= 0 && d.exp < 0
  {
    var text := Digits(d.coef);
    if |text| > -d.exp then text[|text| + d.exp..] else Zeros(-d.exp - |text|) + text
  }

  function WithPoint(integer: string, fraction: string): string {
    integer + if fraction != [] then "." + fraction else []
  }

  // String of a decimal that is not negative.
  function Print(d: Decimal): string
    requires d.coef >= 0
  {
    if d.exp >= 0 then Digits(Shift(d.coef, d.exp)) else WithPoint(IntegerPart(d), TrimRight(FractionPart(d)))
  }

  function StripPoint(text: string): string {
    if text == [] then [] else (if text[0] == '.' then [] else [text[0]]) + StripPoint(text[1..])
  }

  // ---------- The two formatters ----------

  function MaxDecimals(kind: AssetKind, szDecimals: int): int {
    if kind == Spot || kind == Outcome then 8 - szDecimals else 6 - szDecimals
  }

  function FormatPrice(value: Decimal, kind: AssetKind, szDecimals: int): Result<string, FormatError> {
    if value.coef <= 0 then Err(InvalidPrice)
    else if !Equal(Truncate(value, MaxDecimals(kind, szDecimals)), value) then Err(InvalidPrice)
    else if Equal(value, Truncate(value, 0)) then Ok(Print(value))
    else if |Trim(TrimLeft(StripPoint(Print(value))))| > 5 then Err(InvalidPrice)
    else Ok(Print(value))
  }

  function FormatSize(value: Decimal, szDecimals: int): Result<string, FormatError> {
    if value.coef <= 0 || !Equal(Truncate(value, szDecimals), value) then Err(InvalidSize) else Ok(Print(value))
  }

  // ---------- What the digits of the text count ----------

  // The coefficient without its trailing zeros, and how many there are.
  function Core(n: nat): (core: nat)
    requires n > 0
    ensures 0 < core <= n && core % 10 != 0
  {
    if n % 10 != 0 then n else Core(n / 10)
  }

  function TrailingZeros(n: nat): nat
    requires n > 0
  {
    if n % 10 != 0 then 0 else 1 + TrailingZeros(n / 10)
  }

  lemma {:induction false} CoreTimesZeros(n: nat)
    requires n > 0
    ensures n == Shift(Core(n), TrailingZeros(n))
  {
    if n % 10 == 0 {
      CoreTimesZeros(n / 10);
    }
  }

  lemma CoreTenfold(n: nat, tenfold: nat)
    requires n > 0 && tenfold == 10 * n
    ensures Core(tenfold) == Core(n)
  {
    assert tenfold % 10 == 0 && tenfold / 10 == n;
  }

  lemma {:induction false} CoreOfShifted(n: nat, k: nat)
    requires n > 0
    ensures Core(Shift(n, k)) == Core(n)
  {
    if k > 0 {
      CoreOfShifted(n, k - 1);
      CoreTenfold(Shift(n, k - 1), Shift(n, k));
    }
  }

  lemma {:induction false} DigitsLength(n: nat, k: nat)
    requires k > 0
    ensures |Digits(n)| <= k <==> n < Pow10(k)
  {
    if n >= 10 {
      if k > 1 {
        DigitsLength(n / 10, k - 1);
      }
    }
  }

  // Trimming the digits trims the number.
  lemma {:induction false} TrimmedDigits(n: nat)
    requires n > 0
    ensures TrimRight(Digits(n)) == Digits(Core(n))
  {
    if n % 10 == 0 {
      TrimmedDigits(n / 10);
      assert Digits(n)[..|Digits(n)| - 1] == Digits(n / 10);
    }
  }

  lemma {:induction false} TrimRightOfTrimmed(a: string, b: string)
    ensures TrimRight(a + TrimRight(b)) == TrimRight(a + b)
  {
    if b != [] && b[|b| - 1] == '0' {
      TrimRightOfTrimmed(a, b[..|b| - 1]);
      assert (a + b)[..|a + b| - 1] == a + b[..|b| - 1];
    }
  }

  // Text that starts with another digit than zero survives behind any prefix.
  lemma {:induction false} TrimRightKeepsPrefix(a: string, b: string)
    requires b != [] && b[0] != '0'
    ensures TrimRight(a + b) == a + TrimRight(b)
    ensures TrimRight(b) != [] && TrimRight(b)[0] == b[0]
  {
    if b[|b| - 1] == '0' {
      var shorter := b[..|b| - 1];
      TrimRightKeepsPrefix(a, shorter);
      assert (a + b)[..|a + b| - 1] == a + shorter;
    }
  }

  lemma {:induction false} TrimLeftDropsZeros(n: nat, text: string)
    requires text != [] ==> text[0] != '0'
    ensures TrimLeft(Zeros(n) + text) == text
  {
    if n == 0 {
      assert Zeros(n) + text == text;
    } else {
      TrimLeftDropsZeros(n - 1, text);
      assert (Zeros(n) + text)[1..] == Zeros(n - 1) + text;
    }
  }

  lemma {:induction false} StripOfDigits(a: string, b: string)
    requires IsDigits(a)
    ensures StripPoint(a + b) == a + StripPoint(b)
  {
    if a == [] {
      assert a + b == b;
    } else {
      StripOfDigits(a[1..], b);
      assert (a + b)[1..] == a[1..] + b;
    }
  }

  lemma StripOnePoint(fraction: string)
    requires IsDigits(fraction)
    ensures StripPoint("." + fraction) == fraction
  {
    StripOfDigits(fraction, []);
    assert fraction + [] == fraction && ("." + fraction)[1..] == fraction;
  }

  lemma StripWithPoint(integer: string, fraction: string)
    requires IsDigits(integer) && IsDigits(fraction)
    ensures StripPoint(WithPoint(integer, fraction)) == integer + fraction
  {
    if fraction != [] {
      StripOnePoint(fraction);
    }
    StripOfDigits(integer, if fraction != [] then "." + fraction else []);
  }

  lemma {:induction false} TrimRightIsPrefix(text: string)
    ensures TrimRight(text) <= text
  {
    if text != [] && text[|text| - 1] == '0' {
      TrimRightIsPrefix(text[..|text| - 1]);
    }
  }

  lemma PartsAreDigits(d: Decimal)
    requires d.coef >= 0 && d.exp < 0
    ensures IsDigits(IntegerPart(d)) && IsDigits(TrimRight(FractionPart(d)))
  {
    TrimRightIsPrefix(FractionPart(d));
  }

  lemma CountedBeforePoint(d: Decimal)
    requires d.coef > 0 && d.exp < 0 && |Digits(d.coef)| > -d.exp
    ensures Trim(TrimLeft(IntegerPart(d) + TrimRight(FractionPart(d)))) == TrimRight(Digits(d.coef))
  {
    var integer, fraction := IntegerPart(d), FractionPart(d);
    assert integer + fraction == Digits(d.coef);
    TrimRightOfTrimmed(integer, fraction);
  }

  // Zeros in front of the point and behind it go, and so do those at the end.
  lemma CountedBehindPoint(n: nat, text: string)
    requires text != [] && text[0] != '0'
    ensures Trim(TrimLeft("0" + TrimRight(Zeros(n) + text))) == TrimRight(text)
  {
    var trimmed := TrimRight(text);
    TrimRightKeepsPrefix(Zeros(n), text);
    assert "0" + (Zeros(n) + trimmed) == Zeros(n + 1) + trimmed;
    TrimLeftDropsZeros(n + 1, trimmed);
    TrimmedTwice(text);
  }

  lemma {:induction false} TrimmedTwice(text: string)
    ensures TrimRight(TrimRight(text)) == TrimRight(text)
  {
    if text != [] && text[|text| - 1] == '0' {
      TrimmedTwice(text[..|text| - 1]);
    }
  }

  // The digits that formatPrice counts are those of the coefficient without trailing zeros.
  lemma CountedDigits(d: Decimal)
    requires d.coef > 0 && d.exp < 0
    ensures Trim(TrimLeft(StripPoint(Print(d)))) == Digits(Core(d.coef))
  {
    PartsAreDigits(d);
    StripWithPoint(IntegerPart(d), TrimRight(FractionPart(d)));
    TrimmedDigits(d.coef);
    if |Digits(d.coef)| > -d.exp {
      CountedBeforePoint(d);
    } else {
      CountedBehindPoint(-d.exp - |Digits(d.coef)|, Digits(d.coef));
    }
  }

  // ---------- Significant figures and decimals ----------

  // m * 10^e with m below 10^figures.
  ghost predicate HasFigures(d: Decimal, figures: nat) {
    exists m: nat, e: int :: IsShort(d, m, e, figures)
  }

  predicate IsShort(d: Decimal, m: nat, e: int, figures: nat) {
    m < Pow10(figures) && Equal(d, Decimal(m, e))
  }

  // n / 10^decimals for some n.
  ghost predicate HasDecimals(d: Decimal, decimals: nat) {
    exists n: int :: IsOver(d, n, decimals)
  }

  predicate IsOver(d: Decimal, n: int, decimals: nat) {
    Equal(d, Decimal(n, 0 - decimals))
  }

  lemma FiguresAreDigits(d: Decimal, figures: nat)
    requires d.coef > 0 && figures > 0
    ensures HasFigures(d, figures) <==> |Digits(Core(d.coef))| <= figures
  {
    DigitsLength(Core(d.coef), figures);
    if Core(d.coef) < Pow10(figures) {
      CoreTimesZeros(d.coef);
      assert IsShort(d, Core(d.coef), d.exp + TrailingZeros(d.coef), figures);
    }
    if HasFigures(d, figures) {
      var m: nat, e: int :| IsShort(d, m, e, figures);
      SameCore(d, Decimal(m, e));
    }
  }

  lemma SameCore(a: Decimal, b: Decimal)
    requires a.coef > 0 && Equal(a, b)
    ensures b.coef > 0 && Core(a.coef) == Core(b.coef)
  {
    if a.exp >= b.exp {
      CoreOfShifted(a.coef, a.exp - b.exp);
    } else {
      CoreOfShifted(b.coef, b.exp - a.exp);
    }
  }

  lemma {:induction false} ShiftIsTimes(n: int, k: nat)
    ensures Shift(n, k) == n * Pow10(k)
  {
    if k > 0 {
      ShiftIsTimes(n, k - 1);
      Reassociate(n, 10, Pow10(k - 1));
    }
  }

  lemma Reassociate(a: int, b: int, c: int)
    ensures a * (b * c) == b * (a * c)
  {}

  lemma NotPositive(n: int, p: nat)
    requires n <= 0 && p > 0
    ensures n * p <= 0
  {}

  lemma Multiple(k: int, p: nat, r: nat)
    requires k * p == r && r < p
    ensures k == 0
  {
    if k <= -1 {
      NotPositive(k + 1, p);
    }
  }

  lemma QuotientOfMultiple(c: nat, n: int, p: nat)
    requires p > 0 && c == n * p
    ensures c / p == n
  {
    var q, r := c / p, c % p;
    assert c == q * p + r;
    assert (n - q) * p == r;
    Multiple(n - q, p, r);
  }

  // Cutting off decimals leaves the value alone exactly when there are none to cut off.
  lemma TruncateKeeps(d: Decimal, precision: nat)
    requires d.coef > 0
    ensures Equal(Truncate(d, precision), d) <==> HasDecimals(d, precision)
    ensures Equal(d, Truncate(d, precision)) <==> HasDecimals(d, precision)
  {
    if 0 - precision > d.exp {
      var k := 0 - precision - d.exp;
      var q := d.coef / Pow10(k);
      if n :| IsOver(d, n, precision) {
        ShiftIsTimes(n, k);
        QuotientOfMultiple(d.coef, n, Pow10(k));
      }
      if d.coef == Shift(q, k) {
        assert IsOver(d, q, precision);
      }
    } else {
      assert IsOver(d, Shift(d.coef, d.exp + precision), precision);
    }
  }

  // ---------- What the text says ----------

  function NumberOf(text: string): nat
    requires IsDigits(text)
  {
    if text == [] then 0 else 10 * NumberOf(text[..|text| - 1]) + (text[|text| - 1] as nat - '0' as nat)
  }

  // The text up to the point, and the text after it.
  function BeforePoint(text: string): (before: string)
    ensures before <= text
  {
    if text == [] || text[0] == '.' then [] else [text[0]] + BeforePoint(text[1..])
  }

  function AfterPoint(text: string): string {
    var n := |BeforePoint(text)|;
    if n < |text| then text[n + 1..] else []
  }

  function Read(text: string): Option<Decimal> {
    var digits := BeforePoint(text) + AfterPoint(text);
    if IsDigits(digits) then Some(Decimal(NumberOf(digits), -|AfterPoint(text)|)) else None
  }

  lemma {:induction false} NumberOfDigits(n: nat)
    ensures NumberOf(Digits(n)) == n
  {
    if n >= 10 {
      NumberOfDigits(n / 10);
      assert Digits(n)[..|Digits(n)| - 1] == Digits(n / 10);
    }
  }

  lemma {:induction false} LeadingZeros(n: nat, text: string)
    requires IsDigits(text)
    ensures NumberOf(Zeros(n) + text) == NumberOf(text)
  {
    if text != [] {
      LeadingZeros(n, text[..|text| - 1]);
      assert (Zeros(n) + text)[..n + |text| - 1] == Zeros(n) + text[..|text| - 1];
    } else if n > 0 {
      LeadingZeros(n - 1, []);
      assert (Zeros(n) + [])[..n - 1] == Zeros(n - 1) + [];
    }
  }

  lemma {:induction false} TrailingZerosScale(a: string, b: string)
    requires IsDigits(a) && IsDigits(b)
    ensures |TrimRight(b)| <= |b| && IsDigits(TrimRight(b))
    ensures NumberOf(a + b) == Shift(NumberOf(a + TrimRight(b)), |b| - |TrimRight(b)|)
  {
    if b != [] && b[|b| - 1] == '0' {
      var shorter := b[..|b| - 1];
      TrailingZerosScale(a, shorter);
      assert (a + b)[..|a + b| - 1] == a + shorter;
    }
  }

  lemma {:induction false} ReadParts(integer: string, fraction: string)
    requires IsDigits(integer)
    ensures BeforePoint(WithPoint(integer, fraction)) == integer
    ensures AfterPoint(WithPoint(integer, fraction)) == fraction
  {
    if integer != [] {
      ReadParts(integer[1..], fraction);
      assert WithPoint(integer, fraction)[1..] == WithPoint(integer[1..], fraction);
    }
  }

  lemma DigitsBehindPoint(d: Decimal)
    requires d.coef >= 0 && d.exp < 0 && |Digits(d.coef)| <= -d.exp
    ensures IntegerPart(d) + FractionPart(d) == Zeros(1 - d.exp - |Digits(d.coef)|) + Digits(d.coef)
  {}

  lemma AllDigits(d: Decimal)
    requires d.coef >= 0 && d.exp < 0
    ensures IsDigits(IntegerPart(d)) && IsDigits(FractionPart(d)) && |FractionPart(d)| == -d.exp
    ensures NumberOf(IntegerPart(d) + FractionPart(d)) == d.coef
  {
    var text := Digits(d.coef);
    NumberOfDigits(d.coef);
    if |text| > -d.exp {
      assert IntegerPart(d) + FractionPart(d) == text;
    } else {
      LeadingZeros(1 - d.exp - |text|, text);
      DigitsBehindPoint(d);
    }
  }

  lemma IntegerDenotes(d: Decimal)
    requires d.coef >= 0 && d.exp >= 0
    ensures Read(Print(d)) == Some(Decimal(Shift(d.coef, d.exp), 0))
  {
    var text := Digits(Shift(d.coef, d.exp));
    NumberOfDigits(Shift(d.coef, d.exp));
    ReadParts(text, []);
    assert WithPoint(text, []) == text && text + [] == text;
  }

  lemma FractionDenotes(d: Decimal)
    requires d.coef >= 0 && d.exp < 0
    ensures Read(Print(d)).Some?
    ensures var read := Read(Print(d)).value;
            read.exp >= d.exp && Shift(read.coef, read.exp - d.exp) == d.coef
  {
    var integer, fraction := IntegerPart(d), FractionPart(d);
    AllDigits(d);
    TrailingZerosScale(integer, fraction);
    ReadParts(integer, TrimRight(fraction));
  }

  predicate Denotes(text: string, d: Decimal) {
    Read(text).Some? && Equal(Read(text).value, d)
  }

  // The text denotes the value it was printed from.
  lemma PrintedTextDenotes(d: Decimal)
    requires d.coef >= 0
    ensures Denotes(Print(d), d)
  {
    if d.exp >= 0 {
      IntegerDenotes(d);
    } else {
      FractionDenotes(d);
    }
  }

  lemma StepOfInteger(coef: nat, exp: nat)
    ensures Print(Decimal(10 * coef, exp)) == Print(Decimal(coef, exp + 1))
  {
    ShiftTenfold(coef, exp);
  }

  lemma {:induction false} ShiftTenfold(coef: int, k: nat)
    ensures Shift(10 * coef, k) == Shift(coef, k + 1)
  {
    if k > 0 {
      ShiftTenfold(coef, k - 1);
    }
  }

  lemma StepAtPoint(coef: nat)
    requires coef > 0
    ensures Print(Decimal(10 * coef, -1)) == Print(Decimal(coef, 0))
  {
    var a := Decimal(10 * coef, -1);
    assert Digits(10 * coef) == Digits(coef) + "0";
    assert IntegerPart(a) == Digits(coef) && FractionPart(a) == "0";
    assert TrimRight("0") == [];
  }

  lemma StepOfFraction(coef: nat, exp: int)
    requires coef > 0 && exp < -1
    ensures Print(Decimal(10 * coef, exp)) == Print(Decimal(coef, exp + 1))
  {
    PartsStep(coef, exp);
    ZeroAtTheEnd(Decimal(10 * coef, exp), Decimal(coef, exp + 1));
  }

  lemma PartsStep(coef: nat, exp: int)
    requires coef > 0 && exp < -1
    ensures IntegerPart(Decimal(10 * coef, exp)) == IntegerPart(Decimal(coef, exp + 1))
    ensures FractionPart(Decimal(10 * coef, exp)) == FractionPart(Decimal(coef, exp + 1)) + "0"
  {
    assert Digits(10 * coef) == Digits(coef) + "0";
  }

  lemma ZeroAtTheEnd(a: Decimal, b: Decimal)
    requires a.coef > 0 && b.coef > 0 && a.exp < 0 && b.exp < 0
    requires IntegerPart(a) == IntegerPart(b) && FractionPart(a) == FractionPart(b) + "0"
    ensures Print(a) == Print(b)
  {
    assert FractionPart(a)[..|FractionPart(a)| - 1] == FractionPart(b);
  }

  function Tenfold(d: Decimal): Decimal {
    Decimal(10 * d.coef, d.exp - 1)
  }

  // Moving a zero between the coefficient and the exponent does not show.
  lemma PrintStep(d: Decimal)
    requires d.coef > 0
    ensures Print(Tenfold(d)) == Print(d)
  {
    var exp := d.exp - 1;
    if exp >= 0 {
      StepOfInteger(d.coef, exp);
    } else if exp == -1 {
      StepAtPoint(d.coef);
    } else {
      StepOfFraction(d.coef, exp);
    }
  }

  function Scaled(d: Decimal, k: nat): Decimal {
    Decimal(Shift(d.coef, k), d.exp - k)
  }

  lemma OneMore(d: Decimal, e: Decimal, text: string)
    requires d.coef > 0 && Print(d) == text && e == Tenfold(d)
    ensures Print(e) == text
  {
    PrintStep(d);
  }

  lemma ScaledStep(d: Decimal, k: nat)
    ensures if k == 0 then Scaled(d, k) == d else Scaled(d, k) == Tenfold(Scaled(d, k - 1))
  {}

  lemma {:induction false} PrintSteps(d: Decimal, k: nat, e: Decimal, text: string)
    requires d.coef > 0 && Print(d) == text && e == Scaled(d, k)
    ensures Print(e) == text
    decreases k
  {
    ScaledStep(d, k);
    if k > 0 {
      var f := Scaled(d, k - 1);
      PrintSteps(d, k - 1, f, text);
      OneMore(f, e, text);
    }
  }

  lemma {:induction false} ShiftTwice(n: int, a: nat, b: nat)
    ensures Shift(Shift(n, a), b) == Shift(n, a + b)
  {
    if b > 0 {
      ShiftTwice(n, a, b - 1);
    }
  }

  lemma {:induction false} ShiftInjective(a: int, b: int, k: nat)
    ensures Shift(a, k) == Shift(b, k) <==> a == b
  {
    if k > 0 {
      ShiftInjective(a, b, k - 1);
    }
  }

  // Equality may be judged at any exponent below both.
  lemma EqualAt(a: Decimal, b: Decimal, k: nat)
    requires a.exp >= b.exp
    ensures Equal(a, b) <==> Shift(a.coef, a.exp - b.exp + k) == Shift(b.coef, k)
  {
    ShiftTwice(a.coef, a.exp - b.exp, k);
    ShiftInjective(Shift(a.coef, a.exp - b.exp), b.coef, k);
  }

  lemma EqualIsSymmetric(a: Decimal, b: Decimal)
    ensures Equal(a, b) <==> Equal(b, a)
  {
  }

  lemma EqualThrough(c: Decimal, a: Decimal, b: Decimal)
    requires Equal(c, a) && Equal(c, b)
    ensures Equal(a, b)
  {
    if a.exp < b.exp {
      EqualThroughLarger(c, b, a);
      EqualIsSymmetric(a, b);
    } else {
      EqualThroughLarger(c, a, b);
    }
  }

  lemma EqualThroughLarger(c: Decimal, a: Decimal, b: Decimal)
    requires Equal(c, a) && Equal(c, b) && a.exp >= b.exp
    ensures Equal(a, b)
  {
    EqualIsSymmetric(c, a);
    EqualIsSymmetric(c, b);
    if c.exp >= a.exp {
      EqualAt(c, a, a.exp - b.exp);
    } else if c.exp >= b.exp {
      EqualAt(a, c, c.exp - b.exp);
    } else {
      EqualAt(a, b, b.exp - c.exp);
    }
  }

  lemma EqualIsScaled(a: Decimal, b: Decimal)
    requires Equal(a, b) && a.exp >= b.exp
    ensures b == Scaled(a, a.exp - b.exp)
  {}

  lemma PrintLower(a: Decimal, b: Decimal, text: string)
    requires a.coef > 0 && Equal(a, b) && a.exp >= b.exp && Print(a) == text
    ensures Print(b) == text
  {
    EqualIsScaled(a, b);
    PrintSteps(a, a.exp - b.exp, b, text);
  }

  lemma DenotesOneValue(text: string, a: Decimal, b: Decimal)
    requires Denotes(text, a) && Denotes(text, b)
    ensures Equal(a, b)
  {
    EqualThrough(Read(text).value, a, b);
  }

  lemma AlikeIsEqual(a: Decimal, b: Decimal, text: string)
    requires a.coef > 0 && b.coef > 0 && Print(a) == text && Print(b) == text
    ensures Equal(a, b)
  {
    PrintedTextDenotes(a);
    PrintedTextDenotes(b);
    DenotesOneValue(text, a, b);
  }

  // Equal prices are signed as the same text, however they were written, and unequal ones never are.
  lemma TextIsCanonical(a: Decimal, b: Decimal)
    requires a.coef > 0 && b.coef > 0
    ensures Equal(a, b) <==> Print(a) == Print(b)
  {
    if Equal(a, b) {
      if a.exp >= b.exp {
        PrintLower(a, b, Print(a));
      } else {
        EqualIsSymmetric(a, b);
        PrintLower(b, a, Print(b));
      }
    }
    if Print(a) == Print(b) {
      AlikeIsEqual(a, b, Print(a));
    }
  }

  // ---------- When a price is accepted ----------

  lemma KeepsDecimals(value: Decimal, max: int)
    requires value.coef > 0
    ensures Equal(Truncate(value, max), value) <==> (max >= 0 ==> HasDecimals(value, max))
  {
    if max >= 0 {
      TruncateKeeps(value, max);
    }
  }

  lemma IsWholeOrShort(value: Decimal)
    requires value.coef > 0
    ensures Equal(value, Truncate(value, 0)) || |Trim(TrimLeft(StripPoint(Print(value))))| <= 5 <==>
            HasDecimals(value, 0) || HasFigures(value, 5)
  {
    TruncateKeeps(value, 0);
    if value.exp < 0 {
      CountedDigits(value);
      FiguresAreDigits(value, 5);
    }
  }

  lemma AcceptedText(value: Decimal, kind: AssetKind, szDecimals: int, r: Result<string, FormatError>)
    requires value.coef > 0 && r == FormatPrice(value, kind, szDecimals)
    ensures r.Ok? <==>
              && Equal(Truncate(value, MaxDecimals(kind, szDecimals)), value)
              && (Equal(value, Truncate(value, 0)) || |Trim(TrimLeft(StripPoint(Print(value))))| <= 5)
    ensures r.Ok? ==> r.value == Print(value)
  {}

  lemma AcceptedWhen(value: Decimal, kind: AssetKind, szDecimals: int, max: int, r: Result<string, FormatError>)
    requires value.coef > 0 && r == FormatPrice(value, kind, szDecimals) && max == MaxDecimals(kind, szDecimals)
    ensures r.Ok? <==> (max >= 0 ==> HasDecimals(value, max)) && (HasDecimals(value, 0) || HasFigures(value, 5))
    ensures r.Ok? ==> r.value == Print(value) && Denotes(r.value, value)
  {
    AcceptedText(value, kind, szDecimals, r);
    KeepsDecimals(value, max);
    IsWholeOrShort(value);
    PrintedTextDenotes(value);
  }

  // A price is accepted exactly when it is positive, keeps to the decimals of its asset (if the asset
  // leaves any limit), and is an integer or has at most five significant figures. The text sent denotes it.
  lemma PriceAccepted(value: Decimal, kind: AssetKind, szDecimals: int)
    ensures FormatPrice(value, kind, szDecimals).Ok? <==>
              && value.coef > 0
              && var max := (if kind == Spot || kind == Outcome then 8 else 6) - szDecimals;
                 && (max >= 0 ==> HasDecimals(value, max))
                 && (HasDecimals(value, 0) || HasFigures(value, 5))
    ensures FormatPrice(value, kind, szDecimals).Ok? ==>
              && Denotes(FormatPrice(value, kind, szDecimals).value, value)
              && FormatPrice(value, kind, szDecimals).value == Print(value)
  {
    if value.coef > 0 {
      AcceptedWhen(value, kind, szDecimals, MaxDecimals(kind, szDecimals), FormatPrice(value, kind, szDecimals));
    }
  }

  lemma SizeAccepted(value: Decimal, szDecimals: int)
    ensures FormatSize(value, szDecimals).Ok? <==>
              value.coef > 0 && (szDecimals >= 0 ==> HasDecimals(value, szDecimals))
    ensures FormatSize(value, szDecimals).Ok? ==>
              Denotes(FormatSize(value, szDecimals).value, value) && FormatSize(value, szDecimals).value == Print(value)
  {
    if value.coef > 0 {
      PrintedTextDenotes(value);
      if szDecimals >= 0 {
        TruncateKeeps(value, szDecimals);
      }
    }
  }

  // With more size decimals than price decimals there is no limit left: a perpetual with seven of them takes a
  // price of 10^-20, which one with six does not.
  lemma NoDecimalLimit()
    ensures MaxDecimals(Perp, 7) < 0 && FormatPrice(Decimal(1, -20), Perp, 7).Ok?
    ensures FormatPrice(Decimal(1, -20), Perp, 6).Err?
  {
    var price := Decimal(1, -20);
    PriceAccepted(price, Perp, 7);
    assert Pow10(5) > 1;
    assert Equal(price, Decimal(1, -20));
    assert IsShort(price, 1, -20, 5);
    PriceAccepted(price, Perp, 6);
    if n :| IsOver(price, n, 0) {
      LargerShift(n);
    }
  }

  lemma LargerShift(n: int)
    ensures Shift(n, 20) != 1
  {
    assert Shift(n, 20) == 10 * Shift(n, 19);
  }
}
