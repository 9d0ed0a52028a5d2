/** Exact decimals, their fixed notation, and printing by a step. A decimal is a whole number of units of
    10^-34, the finest digit that is ever printed. */
module Decimals {
  import opened Domain

  type Decimal = int

  const MAX_PLACES: nat := 34

  function Pow10(k: nat): (power: nat)
    ensures power > 0
  {
    if k == 0 then 1 else 10 * Pow10(k - 1)
  }

  /** Units in one step of the given decimal place. */
  function Place(places: nat): nat
    requires places <= MAX_PLACES
  {
    Pow10(MAX_PLACES - places)
  }

  // ---- Text ----

  const DIGITS := "0123456789"

  function DigitChar(d: nat): char
    requires d < 10
  {
    DIGITS[d]
  }

  function DigitValue(c: char): Option<nat> {
    if '0' <= c <= '9' then Some((c - '0') as nat) else None
  }

  lemma DigitsReadBack(d: nat)
    requires d < 10
    ensures DigitValue(DigitChar(d)) == Some(d)
    ensures DigitChar(d) != '.' && DigitChar(d) != '-' && (DigitChar(d) == '0' <==> d == 0)
  {
    if d == 0 {} else if d == 1 {} else if d == 2 {} else if d == 3 {} else if d == 4 {}
    else if d == 5 {} else if d == 6 {} else if d == 7 {} else if d == 8 {} else {}
  }

  /** The number n written with its last d digits behind a point. */
  function FixedText(n: nat, d: nat): string
    decreases d, n
  {
    if d == 0 then (if n < 10 then [DigitChar(n)] else FixedText(n / 10, 0) + [DigitChar(n % 10)])
    else if d == 1 then FixedText(n / 10, 0) + "." + [DigitChar(n % 10)]
    else FixedText(n / 10, d - 1) + [DigitChar(n % 10)]
  }

  function SignedText(n: int, d: nat): string {
    if n < 0 then "-" + FixedText(-n, d) else FixedText(n, d)
  }

  function Last(text: string): char
    requires text != ""
  {
    text[|text| - 1]
  }

  function Init(text: string): string
    requires text != ""
  {
    text[..|text| - 1]
  }

  function StripZeros(text: string): string {
    if |text| > 1 && Last(text) == '0' then StripZeros(Init(text)) else text
  }

  function DropPoint(text: string): string {
    if text != "" && Last(text) == '.' then Init(text) else text
  }

  /** The text without trailing zeros, without a trailing point, and without a sign on zero. */
  function Trimmed(text: string): string {
    var short := DropPoint(StripZeros(text));
    if short == "-0" then "0" else short
  }

  method TrimTrailingZeros(text: string) returns (trimmed: string)
    ensures trimmed == Trimmed(text)
  {
    trimmed := text;
    while |trimmed| > 1 && Last(trimmed) == '0'
      invariant StripZeros(trimmed) == StripZeros(text)
      decreases |trimmed|
    {
      trimmed := Init(trimmed);
    }
    if trimmed != "" && Last(trimmed) == '.' {
      trimmed := Init(trimmed);
    }
    if trimmed == "-0" {
      trimmed := "0";
    }
  }

  /** The digits read so far, and how many of them stand behind the point. */
  datatype Scan = Scan(value: nat, fraction: Option<nat>)

  /** Reads unsigned fixed notation: digits, at most one point, a digit before it. */
  function ScanText(text: string): Option<Scan> {
    if text == "" then None
    else
      var c := Last(text);
      if |text| == 1 then (if DigitValue(c).Some? then Some(Scan(DigitValue(c).value, None)) else None)
      else
        var before := ScanText(Init(text));
        if before.None? then None
        else if c == '.' then (if before.value.fraction.None? then Some(before.value.(fraction := Some(0))) else None)
        else if DigitValue(c).None? then None
        else
          var value := 10 * before.value.value + DigitValue(c).value;
          Some(Scan(value, if before.value.fraction.Some? then Some(before.value.fraction.value + 1) else None))
  }

  function ParseUnsigned(text: string): Option<Decimal> {
    match ScanText(text)
    case None => None
    case Some(scan) =>
      var places := if scan.fraction.Some? then scan.fraction.value else 0;
      if places > MAX_PLACES then None else Some(scan.value * Place(places))
  }

  /** Reading fixed notation back; anything else is refused. */
  function ParseDecimal(text: string): Option<Decimal> {
    if text != "" && text[0] == '-' then
      (match ParseUnsigned(text[1..]) case Some(v) => Some(-v) case None => None)
    else ParseUnsigned(text)
  }

  // ---- Printing ----

  /** The nearest whole number of the given place; a tie goes to the even one. */
  function Rounded(v: Decimal, places: nat): int
    requires places <= MAX_PLACES
  {
    var unit := Place(places);
    var q := v / unit;
    var r := v % unit;
    if 2 * r < unit || (2 * r == unit && q % 2 == 0) then q else q + 1
  }

  function Clamp(decimals: int): nat {
    if decimals < 0 then 0 else if decimals > MAX_PLACES then MAX_PLACES else decimals
  }

  function FormatDecimal(v: Decimal, decimals: int): string {
    Trimmed(SignedText(Rounded(v, Clamp(decimals)), Clamp(decimals)))
  }

  function PositionOf(text: string, c: char): Option<nat> {
    if text == "" then None
    else if text[0] == c then Some(0)
    else match PositionOf(text[1..], c) { case Some(i) => Some(i + 1) case None => None }
  }

  function DecimalsFromStep(step: Decimal): int {
    if step <= 0 then 0
    else
      var text := FormatDecimal(step, MAX_PLACES);
      match PositionOf(text, '.')
      case None => 0
      case Some(dot) => |text| - dot - 1
  }

  function FormatByStep(v: Decimal, step: Decimal): string {
    if step <= 0 then FormatDecimal(v, MAX_PLACES) else FormatDecimal(v, DecimalsFromStep(step))
  }

  function Distance(a: int, b: int): nat {
    if a < b then b - a else a - b
  }

  /** No number of whole places is nearer to the value than the rounded one, and of two that are equally near
      it is the even one. */
  lemma RoundedIsNearest(v: Decimal, places: nat, n: int)
    requires places <= MAX_PLACES
    ensures var unit, rounded := Place(places), Rounded(v, places);
      && Distance(v, rounded * unit) <= Distance(v, n * unit)
      && (n != rounded && Distance(v, rounded * unit) == Distance(v, n * unit) ==> rounded % 2 == 0 && n % 2 != 0)
  {
    PlacesArePositive();
    hide Place;
    NearestOfUnit(v, Place(places), n);
  }

  lemma NearestOfUnit(v: int, unit: int, n: int)
    requires unit > 0
    ensures var q, r := v / unit, v % unit;
      var rounded := if 2 * r < unit || (2 * r == unit && q % 2 == 0) then q else q + 1;
      && Distance(v, rounded * unit) <= Distance(v, n * unit)
      && (n != rounded && Distance(v, rounded * unit) == Distance(v, n * unit) ==> rounded % 2 == 0 && n % 2 != 0)
  {
    var q, r := v / unit, v % unit;
    assert v == q * unit + r && (q + 1) * unit == q * unit + unit;
    if n < q {
      FactorBound(q - n, unit);
      assert (q - n) * unit == q * unit - n * unit;
    } else if n > q + 1 {
      FactorBound(n - q - 1, unit);
      assert (n - q - 1) * unit == n * unit - q * unit - unit;
    }
  }

  // ---- Reading back fixed notation ----

  lemma ScanningOne(before: string, c: char)
    requires before != ""
    ensures ScanText(before + [c]) ==
      (var scan := ScanText(before);
       if scan.None? then None
       else if c == '.' then (if scan.value.fraction.None? then Some(scan.value.(fraction := Some(0))) else None)
       else if DigitValue(c).None? then None
       else Some(Scan(10 * scan.value.value + DigitValue(c).value,
                      if scan.value.fraction.Some? then Some(scan.value.fraction.value + 1) else None)))
  {
    assert Init(before + [c]) == before;
  }

  /** What stands before the last digit. */
  function BeforeLast(n: nat, d: nat): string {
    if d == 0 then FixedText(n / 10, 0)
    else if d == 1 then FixedText(n / 10, 0) + "."
    else FixedText(n / 10, d - 1)
  }

  lemma FixedTextEnds(n: nat, d: nat)
    ensures FixedText(n, d) == if d == 0 && n < 10 then [DigitChar(n)] else BeforeLast(n, d) + [DigitChar(n % 10)]
  {
  }

  lemma DigitReadsBack(n: nat)
    requires n < 10
    ensures ScanText([DigitChar(n)]) == Some(Scan(n, None))
  {
    DigitsReadBack(n);
  }

  lemma {:induction false} FixedTextReadsBack(n: nat, d: nat)
    ensures ScanText(FixedText(n, d)) == Some(Scan(n, if d == 0 then None else Some(d)))
    ensures FixedText(n, d) != "" && DigitValue(FixedText(n, d)[0]).Some?
    decreases d, n
  {
    hide FixedText, ScanText, DigitChar, DigitValue;
    DigitsReadBack(n % 10);
    FixedTextEnds(n, d);
    if d == 0 && n < 10 {
      DigitReadsBack(n);
    } else if d == 1 {
      FixedTextReadsBack(n / 10, 0);
      ScanningOne(FixedText(n / 10, 0), '.');
      ScanningOne(FixedText(n / 10, 0) + ".", DigitChar(n % 10));
    } else {
      FixedTextReadsBack(n / 10, if d == 0 then 0 else d - 1);
      ScanningOne(BeforeLast(n, d), DigitChar(n % 10));
    }
  }

  lemma FixedTextParses(n: nat, d: nat)
    requires d <= MAX_PLACES
    ensures ParseUnsigned(FixedText(n, d)) == Some(n * Place(d))
    ensures FixedText(n, d) != "" && FixedText(n, d)[0] != '-'
  {
    FixedTextReadsBack(n, d);
    hide FixedText, ScanText, Pow10;
  }

  lemma SignedTextParses(n: int, d: nat)
    requires d <= MAX_PLACES
    ensures ParseDecimal(SignedText(n, d)) == Some(n * Place(d))
  {
    hide FixedText, ParseUnsigned, Place, Pow10;
    if n < 0 {
      FixedTextParses(-n, d);
      assert SignedText(n, d)[1..] == FixedText(-n, d);
      MinusTimes(n, Place(d));
    } else {
      FixedTextParses(n, d);
    }
  }

  lemma MinusTimes(n: int, p: int)
    ensures -((-n) * p) == n * p
  {
  }

  // ---- What trimming leaves ----

  /** Trailing zeros behind the point go, the digits before it stay. */
  function Reduced(n: nat, d: nat): (nat, nat) {
    if d == 0 || n % 10 != 0 then (n, d) else Reduced(n / 10, d - 1)
  }

  lemma {:induction false} ReducedKeepsValue(n: nat, d: nat)
    requires d <= MAX_PLACES
    ensures Reduced(n, d).1 <= d && Reduced(n, d).0 * Place(Reduced(n, d).1) == n * Place(d)
    decreases d
  {
    if d > 0 && n % 10 == 0 {
      ReducedKeepsValue(n / 10, d - 1);
      PlaceBefore(d);
      Associates(n / 10, 10, Place(d));
    }
    hide Place;
  }

  lemma PlaceBefore(d: nat)
    requires 0 < d <= MAX_PLACES
    ensures Place(d - 1) == 10 * Place(d)
  {
  }

  /** What a whole number keeps when its trailing zeros are stripped although no point is printed. */
  function StrippedWhole(n: nat): nat {
    if n >= 10 && n % 10 == 0 then StrippedWhole(n / 10) else n
  }

  lemma {:induction false} StrippedWholeIsSmaller(n: nat)
    ensures StrippedWhole(n) <= n && (n > 0 ==> StrippedWhole(n) > 0)
    ensures StrippedWhole(n) == n <==> n == 0 || n % 10 != 0
  {
    if n >= 10 && n % 10 == 0 {
      StrippedWholeIsSmaller(n / 10);
    }
  }

  /** The number and its places as they are printed after trimming. */
  function Kept(n: nat, d: nat): (nat, nat) {
    if d == 0 then (StrippedWhole(n), 0) else Reduced(n, d)
  }

  lemma StrippingOne(before: string, c: char)
    requires before != ""
    ensures StripZeros(before + [c]) == if c == '0' then StripZeros(before) else before + [c]
  {
    assert Init(before + [c]) == before;
  }

  lemma BeforeLastIsText(n: nat, d: nat)
    ensures BeforeLast(n, d) != ""
  {
    hide ScanText, FixedText, DigitValue;
    FixedTextReadsBack(n / 10, if d == 0 then 0 else d - 1);
  }

  lemma {:induction false} StrippingWhole(n: nat)
    ensures StripZeros(FixedText(n, 0)) == FixedText(StrippedWhole(n), 0)
    ensures n > 0 ==> Last(StripZeros(FixedText(n, 0))) != '0'
    ensures StripZeros(FixedText(n, 0)) != "" && Last(StripZeros(FixedText(n, 0))) != '.'
  {
    hide ScanText, FixedText, DigitChar;
    DigitsReadBack(n % 10);
    FixedTextEnds(n, 0);
    if n >= 10 {
      BeforeLastIsText(n, 0);
      StrippingOne(BeforeLast(n, 0), DigitChar(n % 10));
      if n % 10 == 0 {
        StrippingWhole(n / 10);
      }
    }
  }

  lemma {:induction false} StrippingFixed(n: nat, d: nat)
    requires d > 0
    ensures var (m, e) := Reduced(n, d);
      && StripZeros(FixedText(n, d)) == (if e == 0 then FixedText(m, 0) + "." else FixedText(m, e))
      && Last(StripZeros(FixedText(n, d))) != '0'
      && (e > 0 ==> Last(FixedText(m, e)) != '.')
    decreases d
  {
    hide ScanText, FixedText, StripZeros, DigitChar;
    DigitsReadBack(n % 10);
    FixedTextEnds(n, d);
    BeforeLastIsText(n, d);
    StrippingOne(BeforeLast(n, d), DigitChar(n % 10));
    if n % 10 == 0 {
      if d == 1 {
        FixedTextReadsBack(n / 10, 0);
        StrippingOne(FixedText(n / 10, 0), '.');
      } else {
        StrippingFixed(n / 10, d - 1);
      }
    }
  }

  lemma TrimmingUnsigned(n: nat, d: nat)
    ensures var (m, e) := Kept(n, d);
      && DropPoint(StripZeros(FixedText(n, d))) == FixedText(m, e)
      && StripZeros(FixedText(n, d)) != ""
      && (n > 0 || d > 0 ==> Last(StripZeros(FixedText(n, d))) != '0')
  {
    var (m, e) := Kept(n, d);
    if d == 0 {
      StrippingWhole(n);
    } else {
      StrippingFixed(n, d);
      assert Init(FixedText(m, 0) + ".") == FixedText(m, 0);
      FixedTextReadsBack(m, e);
    }
    hide StripZeros, FixedText, Reduced, StrippedWhole, ScanText;
  }

  /** A sign in front is left alone. */
  lemma {:induction false} StrippingSkipsSign(text: string)
    requires |text| > 0 && StripZeros(text) != "" && Last(StripZeros(text)) != '0'
    ensures StripZeros("-" + text) == "-" + StripZeros(text)
    decreases |text|
  {
    if |text| > 1 && Last(text) == '0' {
      assert Init("-" + text) == "-" + Init(text);
      StrippingSkipsSign(Init(text));
    }
  }

  lemma KeptIsPositive(n: nat, d: nat)
    requires n > 0
    ensures Kept(n, d).0 > 0
  {
    if d == 0 {
      StrippedWholeIsSmaller(n);
    } else {
      ReducedIsPositive(n, d);
    }
  }

  lemma {:induction false} ReducedIsPositive(n: nat, d: nat)
    requires n > 0
    ensures Reduced(n, d).0 > 0
    decreases d
  {
    if d > 0 && n % 10 == 0 {
      ReducedIsPositive(n / 10, d - 1);
    }
  }

  function Magnitude(n: int): nat {
    if n < 0 then -n else n
  }

  function WithSignOf(n: int, m: int): int {
    if n < 0 then -m else m
  }

  /** Trimming the printed number prints the kept number. */
  lemma TrimmingSigned(n: int, d: nat)
    ensures var (m, e) := Kept(Magnitude(n), d);
      Trimmed(SignedText(n, d)) == SignedText(WithSignOf(n, m), e)
  {
    var (m, e) := Kept(Magnitude(n), d);
    TrimmingUnsigned(Magnitude(n), d);
    DigitFirst(m, e);
    DigitFirst(Magnitude(n), d);
    hide StripZeros, FixedText, Kept, DropPoint;
    if n < 0 {
      KeptIsPositive(-n, d);
      TrimmingNegative(FixedText(-n, d), FixedText(m, e));
    }
  }

  lemma DigitFirst(n: nat, d: nat)
    ensures FixedText(n, d) != "" && FixedText(n, d)[0] != '-'
    ensures n > 0 ==> FixedText(n, d) != "0"
  {
    FixedTextReadsBack(n, d);
    assert ScanText("0") == Some(Scan(0, None));
    hide FixedText;
  }

  lemma TrimmingNegative(text: string, short: string)
    requires text != "" && StripZeros(text) != "" && Last(StripZeros(text)) != '0'
    requires DropPoint(StripZeros(text)) == short && short != ""
    ensures DropPoint(StripZeros("-" + text)) == "-" + short
    ensures short != "0" ==> "-" + short != "-0"
  {
    StrippingSkipsSign(text);
    var stripped := StripZeros(text);
    assert Last("-" + stripped) == Last(stripped) && Init("-" + stripped) == "-" + Init(stripped);
    assert ("-" + short)[1..] == short && "-0"[1..] == "0";
  }

  // ---- The number of places of a step ----

  lemma {:induction false} PositionAppend(text: string, c: char, suffix: string)
    ensures PositionOf(text + suffix, c)
         == if PositionOf(text, c).Some? then PositionOf(text, c)
            else if PositionOf(suffix, c).Some? then Some(|text| + PositionOf(suffix, c).value)
            else None
  {
    if text == "" {
      assert text + suffix == suffix;
    } else {
      assert (text + suffix)[1..] == text[1..] + suffix;
      PositionAppend(text[1..], c, suffix);
    }
  }

  lemma {:induction false} PointPosition(n: nat, d: nat)
    ensures d == 0 ==> PositionOf(FixedText(n, d), '.') == None
    ensures d > 0 ==> PositionOf(FixedText(n, d), '.') == Some(|FixedText(n, d)| - d - 1) && |FixedText(n, d)| > d
    decreases d, n
  {
    DigitsReadBack(n % 10);
    var digit := [DigitChar(n % 10)];
    assert PositionOf(digit[1..], '.') == None && PositionOf(digit, '.') == None;
    if d == 0 {
      if n >= 10 {
        PointPosition(n / 10, 0);
        PositionAppend(FixedText(n / 10, 0), '.', digit);
      }
    } else if d == 1 {
      PointPosition(n / 10, 0);
      var whole := FixedText(n / 10, 0);
      assert PositionOf(".", '.') == Some(0);
      PositionAppend(whole, '.', ".");
      PositionAppend(whole + ".", '.', digit);
    } else {
      PointPosition(n / 10, d - 1);
      PositionAppend(FixedText(n / 10, d - 1), '.', digit);
    }
  }

  lemma FactorBound(a: int, p: int)
    requires p > 0
    ensures a >= 1 ==> a * p >= p
    ensures a <= -1 ==> a * p <= -p
  {
  }

  lemma WholeMultiple(q: int, p: int)
    requires p > 0
    ensures (q * p) % p == 0 && (q * p) / p == q
  {
    var v := q * p;
    FactorBound(q - v / p, p);
    assert (q - v / p) * p == v % p;
  }

  lemma RoundedIsExact(q: int, d: nat)
    requires d <= MAX_PLACES
    ensures Rounded(q * Place(d), d) == q
  {
    WholeMultiple(q, Place(d));
  }

  /** The places of a step are the fewest that write it exactly. */
  lemma DecimalsOfStep(step: Decimal)
    requires step > 0
    ensures var (m, e) := Reduced(step, MAX_PLACES);
      && DecimalsFromStep(step) == e <= MAX_PLACES
      && step == m * Place(e) && m > 0
      && (e > 0 ==> m % 10 != 0)
  {
    var (m, e) := Reduced(step, MAX_PLACES);
    assert Place(MAX_PLACES) == 1;
    RoundedIsExact(step, MAX_PLACES);
    TrimmingSigned(step, MAX_PLACES);
    PointPosition(m, e);
    ReducedKeepsValue(step, MAX_PLACES);
    ReducedIsPositive(step, MAX_PLACES);
    ReducedHasNoTrailingZero(step, MAX_PLACES);
    hide FixedText, Trimmed, Rounded, Reduced, PositionOf;
  }

  lemma {:induction false} ReducedHasNoTrailingZero(n: nat, d: nat)
    ensures Reduced(n, d).1 > 0 ==> Reduced(n, d).0 % 10 != 0
    decreases d
  {
    if d > 0 && n % 10 == 0 {
      ReducedHasNoTrailingZero(n / 10, d - 1);
    }
  }

  // ---- Printing and reading back ----

  lemma PrintedParses(n: int, d: nat)
    requires d <= MAX_PLACES
    ensures var (m, e) := Kept(Magnitude(n), d);
      e <= MAX_PLACES && ParseDecimal(Trimmed(SignedText(n, d))) == Some(WithSignOf(n, m) * Place(e))
  {
    var (m, e) := Kept(Magnitude(n), d);
    TrimmingSigned(n, d);
    ReducedKeepsValue(Magnitude(n), d);
    SignedTextParses(WithSignOf(n, m), e);
    hide Trimmed, SignedText, ParseDecimal, Place, Reduced;
  }

  /** Printing a number of whole places and reading it back gives the number again exactly if a point is
      printed, the number is 0, or its last digit is not 0: without a point, trimming takes zeros of the
      whole number. */
  lemma PrintedReadsBack(n: int, d: nat)
    requires d <= MAX_PLACES
    ensures ParseDecimal(Trimmed(SignedText(n, d))).Some?
    ensures ParseDecimal(Trimmed(SignedText(n, d))) == Some(n * Place(d)) <==> d > 0 || n % 10 != 0 || n == 0
  {
    PrintedParses(n, d);
    var a := Magnitude(n);
    var (m, e) := Kept(a, d);
    if d > 0 {
      ReducedKeepsValue(a, d);
      SignsFollow(n, m * Place(e), a * Place(d), m, Place(e), Place(d));
    } else {
      StrippedWholeIsSmaller(a);
      LastDigitOfNegative(n);
      SameFactor(WithSignOf(n, m), n, Place(0));
    }
    hide Trimmed, SignedText, ParseDecimal, Place, Reduced, StrippedWhole;
  }

  lemma SignsFollow(n: int, kept: int, all: int, m: nat, p: int, q: int)
    requires kept == m * p && all == Magnitude(n) * q && kept == all
    ensures WithSignOf(n, m) * p == n * q
  {
    MinusTimes(m, p);
    MinusTimes(n, q);
  }

  lemma LastDigitOfNegative(n: int)
    ensures n % 10 == 0 <==> Magnitude(n) % 10 == 0
  {
  }

  lemma SameFactor(a: int, b: int, p: int)
    requires p > 0
    ensures a * p == b * p <==> a == b
  {
    if a * p == b * p {
      WholeMultiple(a, p);
      WholeMultiple(b, p);
    }
  }

  /** A coarser place is a whole number of tens of a finer one. */
  lemma {:induction false} PlaceSplits(places: nat)
    requires 0 < places <= MAX_PLACES
    ensures Place(0) == 10 * Pow10(places - 1) * Place(places)
    decreases places
  {
    PlaceBefore(places);
    if places > 1 {
      PlaceSplits(places - 1);
      Associates(10 * Pow10(places - 2), 10, Place(places));
    }
    hide Place;
  }

  /** A step shows decimals exactly if it is not a whole number. */
  lemma WholeStepHasNoDecimals(step: Decimal)
    requires step > 0
    ensures DecimalsFromStep(step) > 0 <==> step % Place(0) != 0
  {
    hide *;
    var (m, e) := Reduced(step, MAX_PLACES);
    DecimalsOfStep(step);
    PlacesArePositive();
    if e == 0 {
      WholeMultiple(m, Place(0));
    } else {
      PlaceSplits(e);
      NotAMultiple(step, m, Pow10(e - 1), Place(e), Place(0));
    }
  }

  lemma PlacesArePositive()
    ensures forall places: nat :: places <= MAX_PLACES ==> Place(places) > 0
  {
  }

  lemma NotAMultiple(step: int, m: int, a: int, p: int, whole: int)
    requires p > 0 && whole > 0 && step == m * p && whole == 10 * a * p && m % 10 != 0
    ensures step % whole != 0
  {
    if step % whole == 0 {
      var k := step / whole;
      assert k * whole == m * p;
      Associates(k, 10 * a, p);
      SameFactor(k * (10 * a), m, p);
      Associates(k, a, 10);
      WholeMultiple(k * a, 10);
    }
  }

  /** Every multiple of a step survives being printed by that step and read back exactly if the step is not
      a whole number, or the multiple is 0, or its last whole digit is not 0. */
  lemma FormatByStepReadsBack(v: Decimal, step: Decimal)
    requires step > 0 && v % step == 0
    ensures ParseDecimal(FormatByStep(v, step)) == Some(v)
            <==> step % Place(0) != 0 || v == 0 || (v / Place(0)) % 10 != 0
  {
    DecimalsOfStep(step);
    WholeStepHasNoDecimals(step);
    var (m, e) := Reduced(step, MAX_PLACES);
    var n := (v / step) * m;
    MultipleOfStep(v, step, m, Place(e));
    hide Trimmed, SignedText, ParseDecimal, Rounded, Reduced, DecimalsFromStep, Place;
    FormatsWhole(v, n, e);
    PrintedReadsBack(n, e);
    WholeMultiple(n, Place(e));
    SameFactor(n, 0, Place(e));
  }

  lemma FormatsWhole(v: Decimal, n: int, places: nat)
    requires places <= MAX_PLACES && v == n * Place(places)
    ensures FormatDecimal(v, places) == Trimmed(SignedText(n, places))
  {
    RoundedIsExact(n, places);
    hide Trimmed, SignedText, Rounded, Place;
  }

  lemma MultipleOfStep(v: int, step: int, m: int, p: int)
    requires step > 0 && v % step == 0 && step == m * p && p > 0
    ensures v == ((v / step) * m) * p
  {
    assert v == (v / step) * step;
    Associates(v / step, m, p);
  }

  lemma Associates(a: int, b: int, c: int)
    ensures a * (b * c) == (a * b) * c
  {
  }

  /** So with a fractional step the printed text always means the value that was printed. */
  lemma FractionalStepsReadBack(v: Decimal, step: Decimal)
    requires step > 0 && v % step == 0 && step % Place(0) != 0
    ensures ParseDecimal(FormatByStep(v, step)) == Some(v)
  {
    hide FormatByStep, ParseDecimal, Place;
    FormatByStepReadsBack(v, step);
  }

  /** Without a usable step the full text is printed, and it always reads back. */
  lemma UnsteppedReadsBack(v: Decimal, step: Decimal)
    requires step <= 0
    ensures ParseDecimal(FormatByStep(v, step)) == Some(v)
  {
    assert Place(MAX_PLACES) == 1;
    RoundedIsExact(v, MAX_PLACES);
    PrintedReadsBack(v, MAX_PLACES);
    hide Trimmed, SignedText, ParseDecimal, Rounded, Place;
  }

  /** One hundred by a step of one is printed as "1". */
  lemma WholeStepLosesZeros()
    ensures FormatByStep(100 * Place(0), Place(0)) == "1"
    ensures ParseDecimal(FormatByStep(100 * Place(0), Place(0))) == Some(Place(0))
  {
    DecimalsOfStep(Place(0));
    OneReduces();
    FormatsWhole(100 * Place(0), 100, 0);
    hide Reduced, DecimalsFromStep, Place, FormatDecimal;
    HundredPrintsOne();
    SignedTextParses(1, 0);
  }

  lemma HundredPrintsOne()
    ensures Trimmed(SignedText(100, 0)) == "1" == SignedText(1, 0)
  {
    TrimmingSigned(100, 0);
    assert StrippedWhole(10) == 1;
  }

  lemma OneReduces()
    ensures Reduced(Place(0), MAX_PLACES) == (1, 0)
  {
    PowerReduces(MAX_PLACES);
  }

  lemma {:induction false} PowerReduces(k: nat)
    ensures Reduced(Pow10(k), k) == (1, 0)
  {
    if k > 0 {
      PowerReduces(k - 1);
    }
  }
}
