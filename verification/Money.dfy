/** Exact conversion between decimal text and an asset's base units. */
module Money {
  import opened Prelude
  import opened Decimal

  // ----- text helpers -----

  function TrimStart(s: string): string {
    if s != "" && IsSpace(s[0]) then TrimStart(s[1..]) else s
  }

  function TrimEnd(s: string): string {
    if s != "" && IsSpace(s[|s| - 1]) then TrimEnd(s[..|s| - 1]) else s
  }

  function WithoutCommas(s: string): string {
    if s == "" then "" else (if s[0] == ',' then "" else [s[0]]) + WithoutCommas(s[1..])
  }

  /** The first decimal point, or the length when there is none. */
  function PointAt(s: string): (i: nat)
    ensures i <= |s| && (i < |s| ==> s[i] == '.')
  {
    if s == "" || s[0] == '.' then 0 else 1 + PointAt(s[1..])
  }

  function PadEnd(s: string, n: nat): (r: string)
    ensures AllDigits(s) ==> AllDigits(r)
    ensures |s| <= n ==> |r| == n
  {
    if |s| >= n then s else s + Zeros(n - |s|)
  }

  function PadStart(s: string, n: nat): (r: string)
    ensures AllDigits(s) ==> AllDigits(r)
    ensures |s| <= n ==> |r| == n
  {
    if |s| >= n then s else Zeros(n - |s|) + s
  }

  function TrimZeros(s: string): (r: string)
    ensures AllDigits(s) ==> AllDigits(r)
    ensures |r| <= |s|
  {
    if s != "" && s[|s| - 1] == '0' then TrimZeros(s[..|s| - 1]) else s
  }

  // ----- reading -----

  /** A sign, whole digits and fraction digits; never more places than the asset has. */
  function ParseDigits(negative: bool, whole: string, point: bool, fraction: string, decimals: nat): Option<int> {
    if whole == "" || !AllDigits(whole) || !AllDigits(fraction) || (point && fraction == "") then None
    else if |fraction| > decimals then None
    else
      ConcatDigits(whole, PadEnd(fraction, decimals));
      var units := Value(whole + PadEnd(fraction, decimals));
      Some(if negative then 0 - units else units)
  }

  function ParseBody(negative: bool, body: string, decimals: nat): Option<int> {
    var i := PointAt(body);
    ParseDigits(negative, body[..i], i < |body|, if i < |body| then body[i + 1..] else "", decimals)
  }

  /** Digits, at most one point with digits on both sides, and an optional sign. */
  function ParseRaw(raw: string, decimals: nat): Option<int> {
    var negative := raw != "" && raw[0] == '-';
    ParseBody(negative, if negative then raw[1..] else raw, decimals)
  }

  lemma ConcatDigits(a: string, b: string)
    ensures AllDigits(a) && AllDigits(b) ==> AllDigits(a + b)
  {
  }

  function ParseAmount(input: string, decimals: nat): Option<int> {
    ParseRaw(WithoutCommas(TrimEnd(TrimStart(input))), decimals)
  }

  // ----- printing -----

  function FractionDigits(rest: nat, decimals: nat, trim: bool, minDigits: nat): string {
    var padded := PadStart(Numeral(rest), decimals);
    PadEnd(if trim then TrimZeros(padded) else padded, minDigits)
  }

  function Join(whole: string, fraction: string): string {
    if fraction == "" then whole else whole + "." + fraction
  }

  function Signed(negative: bool, body: string): string {
    if negative then "-" + body else body
  }

  function Magnitude(units: int): nat {
    if units < 0 then 0 - units else units
  }

  /** Quotient and remainder. */
  function Divide(n: nat, p: nat): (r: (nat, nat))
    requires p >= 1
    ensures r.0 * p + r.1 == n && r.1 < p
  {
    (n / p, n % p)
  }

  function WholePart(units: int, decimals: nat): nat {
    Divide(Magnitude(units), Pow10(decimals)).0
  }

  function RestPart(units: int, decimals: nat): (r: nat)
    ensures r < Pow10(decimals)
  {
    Divide(Magnitude(units), Pow10(decimals)).1
  }

  function FormatSpec(units: int, decimals: nat, trim: bool, minDigits: nat): string {
    Signed(units < 0, Join(Numeral(WholePart(units, decimals)), FractionDigits(RestPart(units, decimals), decimals, trim, minDigits)))
  }

  /** Printing, with the loop that pads the fraction. */
  method FormatAmount(units: int, decimals: nat, trim: bool, minDigits: nat) returns (s: string)
    ensures s == FormatSpec(units, decimals, trim, minDigits)
  {
    hide Divide, Numeral, TrimZeros, PadStart;
    var negative := units < 0;
    var size: nat := if negative then 0 - units else units;
    var parts := Divide(size, Pow10(decimals));
    var whole, fraction := Numeral(parts.0), PadStart(Numeral(parts.1), decimals);
    if trim { fraction := TrimZeros(fraction); }
    fraction := PadFraction(fraction, minDigits);
    var body := if |fraction| > 0 then whole + "." + fraction else whole;
    s := if negative then "-" + body else body;
  }

  method PadFraction(fraction: string, minDigits: nat) returns (padded: string)
    ensures padded == PadEnd(fraction, minDigits)
  {
    padded := fraction;
    var n := 0;
    while |padded| < minDigits
      invariant padded == fraction + Zeros(n) && |padded| == |fraction| + n
      invariant |fraction| <= minDigits ==> |padded| <= minDigits
      invariant |fraction| >= minDigits ==> n == 0
      decreases minDigits - |padded|
    {
      assert fraction + Zeros(n) + "0" == fraction + Zeros(n + 1);
      padded := padded + "0";
      n := n + 1;
    }
    assert fraction + Zeros(0) == fraction;
  }

  /** A comma before every third digit from the right. */
  function Grouped(digits: string): string {
    if |digits| <= 3 then digits else Grouped(digits[..|digits| - 3]) + "," + digits[|digits| - 3..]
  }

  /** The printed form with its whole part grouped. */
  function FormatWithSeparators(units: int, decimals: nat, trim: bool, minDigits: nat): string {
    var s := FormatSpec(units, decimals, trim, minDigits);
    var negative := s != "" && s[0] == '-';
    var body := if negative then s[1..] else s;
    var i := PointAt(body);
    Signed(negative, Join(Grouped(body[..i]), if i < |body| then body[i + 1..] else ""))
  }

  // ----- printing and reading undo each other -----

  lemma {:induction false} PointAfterDigits(whole: string, rest: string)
    requires AllDigits(whole) && (rest == "" || rest[0] == '.')
    ensures PointAt(whole + rest) == |whole|
  {
    if whole == "" {
      assert whole + rest == rest;
    } else {
      PointAfterDigits(whole[1..], rest);
      assert (whole + rest)[1..] == whole[1..] + rest;
    }
  }

  lemma BodyParts(negative: bool, whole: string, fraction: string, decimals: nat)
    requires AllDigits(whole)
    ensures ParseBody(negative, Join(whole, fraction), decimals) == ParseDigits(negative, whole, fraction != "", fraction, decimals)
  {
    hide ParseDigits, AllDigits, PointAt;
    var tail := if fraction == "" then "" else "." + fraction;
    var body := Join(whole, fraction);
    assert body == whole + tail;
    PointAfterDigits(whole, tail);
    assert body[..|whole|] == whole;
    assert fraction != "" ==> body[|whole| + 1..] == fraction;
  }

  lemma RawBody(negative: bool, body: string, decimals: nat)
    requires body != "" && body[0] != '-'
    ensures ParseRaw(Signed(negative, body), decimals) == ParseBody(negative, body, decimals)
  {
    hide ParseBody;
    var raw := Signed(negative, body);
    assert negative ==> raw[1..] == body;
  }

  lemma StartsWithDigit(whole: string, fraction: string)
    requires AllDigits(whole) && whole != ""
    ensures Join(whole, fraction) != "" && Join(whole, fraction)[0] != '-'
  {
    assert IsDigit(whole[0]) && Join(whole, fraction)[0] == whole[0];
  }

  /** Reading a sign, whole digits and fraction digits. */
  lemma ParseParts(negative: bool, whole: string, fraction: string, decimals: nat)
    requires AllDigits(whole) && AllDigits(fraction) && whole != ""
    ensures AllDigits(whole + PadEnd(fraction, decimals))
    ensures
      ParseRaw(Signed(negative, Join(whole, fraction)), decimals)
      == if |fraction| > decimals then None
         else
           var units := Value(whole + PadEnd(fraction, decimals));
           Some(if negative then 0 - units else units)
  {
    hide ParseRaw, ParseBody, Signed, Join, Value;
    ConcatDigits(whole, PadEnd(fraction, decimals));
    StartsWithDigit(whole, fraction);
    RawBody(negative, Join(whole, fraction), decimals);
    BodyParts(negative, whole, fraction, decimals);
  }

  lemma {:induction false} TrimmedIsPrefix(s: string)
    requires AllDigits(s)
    ensures PadEnd(TrimZeros(s), |s|) == s
  {
    if s != "" && s[|s| - 1] == '0' {
      var n := |s| - 1;
      TrimmedIsPrefix(s[..n]);
      var t := TrimZeros(s[..n]);
      assert s == s[..n] + "0";
      assert Zeros(|s| - |t|) == Zeros(n - |t|) + "0";
    }
  }

  lemma ZerosSplit(m: nat, n: nat)
    ensures Zeros(m) + Zeros(n) == Zeros(m + n)
  {
    if n > 0 {
      ZerosSplit(m, n - 1);
      assert Zeros(m) + Zeros(n) == Zeros(m) + Zeros(n - 1) + "0";
    }
  }

  /** Padding twice is padding to the longer length. */
  lemma PadTwice(s: string, m: nat, n: nat)
    requires m <= n && |s| <= n
    ensures PadEnd(PadEnd(s, m), n) == PadEnd(s, n)
  {
    if |s| < m {
      ZerosSplit(m - |s|, n - m);
      assert s + Zeros(m - |s|) + Zeros(n - m) == s + (Zeros(m - |s|) + Zeros(n - m));
    }
  }

  lemma PaddedValue(rest: nat, decimals: nat)
    requires decimals >= 1 && rest < Pow10(decimals)
    ensures
      var p := PadStart(Numeral(rest), decimals);
      |p| == decimals && AllDigits(p) && Value(p) == rest
  {
    hide Pow10, Value, Numeral, Zeros;
    NumeralLength(rest, decimals);
    NumeralValue(rest);
    LeadingZeros(decimals - |Numeral(rest)|, Numeral(rest));
    assert Zeros(0) + Numeral(rest) == Numeral(rest);
  }

  lemma LeadingZeros(n: nat, digits: string)
    requires AllDigits(digits)
    ensures AllDigits(Zeros(n) + digits) && Value(Zeros(n) + digits) == Value(digits)
  {
    hide Value, Pow10;
    ValueConcat(Zeros(n), digits);
    ZerosValue(n);
  }

  /** Restored to full width, the printed fraction is the padded remainder. */
  lemma FractionRestores(rest: nat, decimals: nat, trim: bool, minDigits: nat)
    requires decimals >= 1 && rest < Pow10(decimals) && minDigits <= decimals
    ensures
      var f := FractionDigits(rest, decimals, trim, minDigits);
      AllDigits(f) && |f| <= decimals && PadEnd(f, decimals) == PadStart(Numeral(rest), decimals)
  {
    PaddedValue(rest, decimals);
    var padded := PadStart(Numeral(rest), decimals);
    TrimmedIsPrefix(padded);
    PadTwice(if trim then TrimZeros(padded) else padded, minDigits, decimals);
  }

  lemma FractionDigitsAreDigits(rest: nat, decimals: nat, trim: bool, minDigits: nat)
    ensures AllDigits(FractionDigits(rest, decimals, trim, minDigits))
    ensures |FractionDigits(rest, decimals, trim, minDigits)| >= minDigits
  {
  }

  /** What reading makes of a sign and a magnitude. */
  function SignedValue(negative: bool, size: nat): int {
    if negative then 0 - size else size
  }

  lemma SignAndMagnitude(units: int)
    ensures SignedValue(units < 0, Magnitude(units)) == units
  {
  }

  /** Reading the parts a form was printed from. */
  lemma ParsePrinted(units: int, decimals: nat, whole: string, fraction: string)
    requires AllDigits(whole) && AllDigits(fraction) && whole != ""
    ensures AllDigits(whole + PadEnd(fraction, decimals))
    ensures
      ParseRaw(Signed(units < 0, Join(whole, fraction)), decimals)
      == if |fraction| > decimals then None else Some(SignedValue(units < 0, Value(whole + PadEnd(fraction, decimals))))
  {
    hide ParseRaw, PadEnd, Value, Signed, Join, AllDigits;
    ParseParts(units < 0, whole, fraction, decimals);
  }

  /** Reading a printed form, before trimming and comma removal, exactly. */
  lemma RawRoundTrip(units: int, decimals: nat, trim: bool, minDigits: nat)
    ensures
      ParseRaw(FormatSpec(units, decimals, trim, minDigits), decimals)
      == if minDigits <= decimals && (decimals >= 1 || trim) then Some(units) else None
  {
    hide ParseRaw, Signed, Join, Numeral, Value, FractionDigits, PadEnd, WholePart, RestPart, Pow10, SignedValue, Magnitude;
    var whole, fraction := Numeral(WholePart(units, decimals)), FractionDigits(RestPart(units, decimals), decimals, trim, minDigits);
    FractionDigitsAreDigits(RestPart(units, decimals), decimals, trim, minDigits);
    ParsePrinted(units, decimals, whole, fraction);
    SignAndMagnitude(units);
    if minDigits <= decimals && decimals >= 1 {
      DigitsCarryValue(units, decimals, trim, minDigits);
    } else if decimals == 0 {
      NoPlaces(units, trim, minDigits);
    }
  }

  /** With places to write them in, whole and restored fraction digits denote the magnitude. */
  lemma DigitsCarryValue(units: int, decimals: nat, trim: bool, minDigits: nat)
    requires minDigits <= decimals && decimals >= 1
    ensures
      var whole, fraction := Numeral(WholePart(units, decimals)), FractionDigits(RestPart(units, decimals), decimals, trim, minDigits);
      |fraction| <= decimals && AllDigits(whole + PadEnd(fraction, decimals))
      && Value(whole + PadEnd(fraction, decimals)) == Magnitude(units)
  {
    hide Numeral, Value, FractionDigits, PadEnd, PadStart, Pow10, Divide;
    var whole, rest := WholePart(units, decimals), RestPart(units, decimals);
    var fraction := FractionDigits(rest, decimals, trim, minDigits);
    FractionRestores(rest, decimals, trim, minDigits);
    PaddedValue(rest, decimals);
    NumeralValue(whole);
    ValueConcat(Numeral(whole), PadStart(Numeral(rest), decimals));
    WholeAndRest(units, decimals);
  }

  lemma WholeAndRest(units: int, decimals: nat)
    ensures WholePart(units, decimals) * Pow10(decimals) + RestPart(units, decimals) == Magnitude(units)
  {
  }

  /** With no decimal place there is a fraction to print unless zeros are trimmed and none is asked for. */
  lemma NoPlaces(units: int, trim: bool, minDigits: nat)
    ensures
      var whole, fraction := Numeral(WholePart(units, 0)), FractionDigits(RestPart(units, 0), 0, trim, minDigits);
      if trim && minDigits == 0
      then fraction == "" && AllDigits(whole + PadEnd(fraction, 0)) && Value(whole + PadEnd(fraction, 0)) == Magnitude(units)
      else |fraction| > 0
  {
    WholeAndRest(units, 0);
    NumeralValue(WholePart(units, 0));
    hide Divide, WholePart, RestPart;
    var whole := Numeral(WholePart(units, 0));
    assert RestPart(units, 0) == 0 && WholePart(units, 0) == Magnitude(units);
    ZeroDigit();
    assert whole + PadEnd("", 0) == whole;
  }

  lemma ZeroDigit()
    ensures Numeral(0) == "0" && PadStart("0", 0) == "0" && TrimZeros("0") == ""
  {
  }

  /** Text made only of digits, a sign, a point: nothing to trim and no comma to remove. */
  predicate Plain(s: string) {
    forall i :: 0 <= i < |s| ==> IsDigit(s[i]) || s[i] == '-' || s[i] == '.'
  }

  lemma {:induction false} PlainIsKept(s: string)
    requires Plain(s)
    ensures WithoutCommas(s) == s && TrimStart(s) == s && TrimEnd(s) == s
  {
    if s != "" {
      PlainIsKept(s[1..]);
      assert s == [s[0]] + s[1..];
    }
  }

  lemma FormatIsPlain(units: int, decimals: nat, trim: bool, minDigits: nat)
    ensures Plain(FormatSpec(units, decimals, trim, minDigits))
  {
    FractionDigitsAreDigits(RestPart(units, decimals), decimals, trim, minDigits);
    hide FractionDigits, Numeral;
  }

  /**
   * Reading back what was printed gives the same units exactly when the printed fraction can be read at all: at least
   * one decimal place, or trimming, and no more minimum digits than decimals. Otherwise reading refuses it.
   */
  lemma PrintThenRead(units: int, decimals: nat, trim: bool, minDigits: nat)
    ensures
      ParseAmount(FormatSpec(units, decimals, trim, minDigits), decimals)
      == if minDigits <= decimals && (decimals >= 1 || trim) then Some(units) else None
  {
    FormatIsPlain(units, decimals, trim, minDigits);
    PlainIsKept(FormatSpec(units, decimals, trim, minDigits));
    RawRoundTrip(units, decimals, trim, minDigits);
  }

  // ----- grouping -----

  lemma {:induction false} CommasConcat(a: string, b: string)
    ensures WithoutCommas(a + b) == WithoutCommas(a) + WithoutCommas(b)
  {
    if a == "" {
      assert a + b == b;
    } else {
      CommasConcat(a[1..], b);
      assert (a + b)[1..] == a[1..] + b;
      var head := if a[0] == ',' then "" else [a[0]];
      assert WithoutCommas(a + b) == head + WithoutCommas(a[1..] + b);
      hide WithoutCommas;
      assert head + (WithoutCommas(a[1..]) + WithoutCommas(b)) == (head + WithoutCommas(a[1..])) + WithoutCommas(b);
    }
  }

  predicate DigitsAndCommas(s: string) {
    forall i :: 0 <= i < |s| ==> IsDigit(s[i]) || s[i] == ','
  }

  lemma {:induction false} GroupedShape(digits: string)
    requires AllDigits(digits)
    ensures DigitsAndCommas(Grouped(digits))
    ensures digits != "" ==> Grouped(digits) != "" && Grouped(digits)[0] == digits[0]
    ensures digits != "" ==> IsDigit(Grouped(digits)[|Grouped(digits)| - 1])
  {
    if |digits| > 3 {
      GroupedShape(digits[..|digits| - 3]);
    }
  }

  lemma OneCommaOut(front: string, back: string)
    ensures WithoutCommas(front + "," + back) == WithoutCommas(front) + WithoutCommas(back)
  {
    assert WithoutCommas(",") == "";
    hide WithoutCommas;
    CommasConcat(front + ",", back);
    CommasConcat(front, ",");
    assert WithoutCommas(front) + "" == WithoutCommas(front);
  }

  lemma {:induction false} GroupedUngroups(digits: string)
    requires AllDigits(digits)
    ensures WithoutCommas(Grouped(digits)) == digits
  {
    hide WithoutCommas;
    if |digits| <= 3 {
      PlainIsKept(digits);
    } else {
      var n := |digits| - 3;
      GroupedUngroups(digits[..n]);
      PlainIsKept(digits[n..]);
      OneCommaOut(Grouped(digits[..n]), digits[n..]);
      assert digits[..n] + digits[n..] == digits;
    }
  }

  lemma NothingToTrim(s: string)
    requires s != "" && !IsSpace(s[0]) && !IsSpace(s[|s| - 1])
    ensures TrimEnd(TrimStart(s)) == s
  {
  }

  /** Removing the commas of the grouped form gives the plain form, sign, point and all. */
  lemma SeparatorsAreOnlyCommas(negative: bool, whole: string, fraction: string)
    requires AllDigits(whole) && AllDigits(fraction) && whole != ""
    ensures
      var g := Signed(negative, Join(Grouped(whole), fraction));
      TrimEnd(TrimStart(g)) == g && WithoutCommas(g) == Signed(negative, Join(whole, fraction))
  {
    GroupedText(negative, whole, fraction);
    UngroupedText(negative, whole, fraction);
  }

  /** The grouped form has nothing to trim. */
  lemma GroupedText(negative: bool, whole: string, fraction: string)
    requires AllDigits(whole) && AllDigits(fraction) && whole != ""
    ensures var g := Signed(negative, Join(Grouped(whole), fraction)); TrimEnd(TrimStart(g)) == g
  {
    GroupedShape(whole);
    Assemble(negative, Grouped(whole), fraction);
    var head, tail := SignText(negative), PointText(fraction);
    assert head != "" ==> head[0] == '-';
    EndsOf(head, Grouped(whole), tail);
    hide Grouped, Signed, Join, SignText, PointText, TrimStart, TrimEnd, IsSpace;
    NothingToTrim(head + (Grouped(whole) + tail));
  }

  lemma UngroupedText(negative: bool, whole: string, fraction: string)
    requires AllDigits(whole) && AllDigits(fraction)
    ensures WithoutCommas(Signed(negative, Join(Grouped(whole), fraction))) == Signed(negative, Join(whole, fraction))
  {
    var head, tail := SignText(negative), PointText(fraction);
    GroupedUngroups(whole);
    Assemble(negative, whole, fraction);
    Assemble(negative, Grouped(whole), fraction);
    PlainIsKept(head);
    PlainIsKept(tail);
    hide Grouped, Signed, Join, WithoutCommas, SignText, PointText, AllDigits, Plain;
    CommasConcat(head, Grouped(whole) + tail);
    CommasConcat(Grouped(whole), tail);
  }

  lemma EndsOf(head: string, middle: string, tail: string)
    requires middle != "" && !IsSpace(middle[0]) && !IsSpace(middle[|middle| - 1])
    requires (head == "" || !IsSpace(head[0])) && (tail == "" || !IsSpace(tail[|tail| - 1]))
    ensures var s := head + (middle + tail); s != "" && !IsSpace(s[0]) && !IsSpace(s[|s| - 1])
  {
    hide IsSpace;
  }

  function SignText(negative: bool): (s: string)
    ensures Plain(s)
  {
    if negative then "-" else ""
  }

  function PointText(fraction: string): (s: string)
    ensures AllDigits(fraction) ==> Plain(s) && (s != "" ==> !IsSpace(s[|s| - 1]))
  {
    if fraction == "" then "" else "." + fraction
  }

  lemma Assemble(negative: bool, whole: string, fraction: string)
    ensures Signed(negative, Join(whole, fraction)) == SignText(negative) + (whole + PointText(fraction))
  {
  }

  /** The grouped form reads back as the same units under exactly the same condition. */
  lemma GroupThenRead(units: int, decimals: nat, trim: bool, minDigits: nat)
    ensures
      ParseAmount(FormatWithSeparators(units, decimals, trim, minDigits), decimals)
      == if minDigits <= decimals && (decimals >= 1 || trim) then Some(units) else None
  {
    hide FractionDigits, Numeral, Grouped, ParseRaw, Signed, Join, WithoutCommas, TrimStart, TrimEnd, PointAt, AllDigits, WholePart, RestPart;
    var whole, fraction := Numeral(WholePart(units, decimals)), FractionDigits(RestPart(units, decimals), decimals, trim, minDigits);
    FractionDigitsAreDigits(RestPart(units, decimals), decimals, trim, minDigits);
    GroupedForm(units < 0, whole, fraction);
    SeparatorsAreOnlyCommas(units < 0, whole, fraction);
    RawRoundTrip(units, decimals, trim, minDigits);
  }

  /** Taking a printed form apart at its sign and point finds the whole and the fraction again. */
  lemma GroupedForm(negative: bool, whole: string, fraction: string)
    requires AllDigits(whole) && AllDigits(fraction) && whole != ""
    ensures
      var s := Signed(negative, Join(whole, fraction));
      var body := if s != "" && s[0] == '-' then s[1..] else s;
      var i := PointAt(body);
      && s != "" && (s[0] == '-' <==> negative) && body[..i] == whole && (if i < |body| then body[i + 1..] else "") == fraction
  {
    var tail := if fraction == "" then "" else "." + fraction;
    var body := Join(whole, fraction);
    assert body == whole + tail;
    PointAfterDigits(whole, tail);
    assert body[..|whole|] == whole && (fraction != "" ==> body[|whole| + 1..] == fraction);
    var s := Signed(negative, body);
    assert negative ==> s[1..] == body;
    assert IsDigit(whole[0]) && body[0] == whole[0];
  }

  // ----- hours -----

  /** Whole hours implied by an amount at a rate, or none. */
  function HoursForAmount(amount: int, rate: int): Option<int> {
    if rate <= 0 then None else if amount % rate == 0 then Some(amount / rate) else None
  }

  /** The hours offered are exactly those the contract's `hours x rate == amount` accepts. */
  lemma HoursExactly(amount: int, rate: int, hours: int)
    requires rate > 0
    ensures HoursForAmount(amount, rate) == Some(hours) <==> hours * rate == amount
  {
    if hours * rate == amount {
      DivideExactly(hours, rate);
    } else if amount % rate == 0 {
      assert amount == rate * (amount / rate);
    }
  }

  lemma DivideExactly(hours: int, rate: int)
    requires rate > 0
    ensures (hours * rate) % rate == 0 && (hours * rate) / rate == hours
  {
    var quotient, rest := (hours * rate) / rate, (hours * rate) % rate;
    var apart := hours - quotient;
    assert hours * rate == rate * quotient + rest;
    assert apart * rate == hours * rate - rate * quotient;
    assert apart >= 1 ==> apart * rate >= rate;
    assert apart <= -1 ==> apart * rate < 0;
  }

  // ----- the printed form itself -----

  lemma {:induction false} TrimmedEnds(s: string)
    ensures TrimZeros(s) == "" || TrimZeros(s)[|TrimZeros(s)| - 1] != '0'
  {
    if s != "" && s[|s| - 1] == '0' {
      TrimmedEnds(s[..|s| - 1]);
    }
  }

  lemma RestoredValue(f: string, decimals: nat)
    requires AllDigits(f) && |f| <= decimals
    ensures AllDigits(PadEnd(f, decimals)) && Value(PadEnd(f, decimals)) == Value(f) * Pow10(decimals - |f|)
  {
    hide Value, Pow10;
    var n := decimals - |f|;
    ValueConcat(f, Zeros(n));
    ZerosValue(n);
    assert Zeros(0) == "" && f + "" == f;
    NoPower();
  }

  lemma NoPower()
    ensures Pow10(0) == 1
  {
  }

  /**
   * The fraction printed: digits that denote the remainder at their own scale, never fewer than asked for; trimmed, not one
   * more than needed; untrimmed, every decimal place.
   */
  lemma FractionExactly(rest: nat, decimals: nat, trim: bool, minDigits: nat)
    requires decimals >= 1 && rest < Pow10(decimals) && minDigits <= decimals
    ensures
      var f := FractionDigits(rest, decimals, trim, minDigits);
      && AllDigits(f) && minDigits <= |f| <= decimals && Value(f) * Pow10(decimals - |f|) == rest
      && (trim && |f| > minDigits ==> f[|f| - 1] != '0')
      && (!trim ==> |f| == decimals)
  {
    var f, padded := FractionDigits(rest, decimals, trim, minDigits), PadStart(Numeral(rest), decimals);
    FractionRestores(rest, decimals, trim, minDigits);
    PaddedValue(rest, decimals);
    TrimmedEnds(padded);
    hide Value, Pow10, Numeral, PadStart, TrimZeros, Zeros;
    RestoredValue(f, decimals);
  }

  /** What is printed: a sign exactly when negative, the whole units, and the fraction after a point if there is one to print. */
  lemma PrintedExactly(units: int, decimals: nat, trim: bool, minDigits: nat)
    ensures
      var whole, rest := WholePart(units, decimals), RestPart(units, decimals);
      var f := FractionDigits(rest, decimals, trim, minDigits);
      && whole * Pow10(decimals) + rest == Magnitude(units) && rest < Pow10(decimals)
      && Value(Numeral(whole)) == whole
      && FormatSpec(units, decimals, trim, minDigits)
         == (if units < 0 then "-" else "") + (Numeral(whole) + (if f == "" then "" else "." + f))
  {
    NumeralValue(WholePart(units, decimals));
    WholeAndRest(units, decimals);
    hide Numeral, FractionDigits, Value, WholePart, RestPart, Pow10;
    var whole, f := Numeral(WholePart(units, decimals)), FractionDigits(RestPart(units, decimals), decimals, trim, minDigits);
    Pieces(units < 0, whole, f);
  }

  lemma Pieces(negative: bool, whole: string, f: string)
    ensures Signed(negative, Join(whole, f)) == (if negative then "-" else "") + (whole + (if f == "" then "" else "." + f))
  {
    assert whole + "" == whole && "" + Join(whole, f) == Join(whole, f);
    assert whole + "." + f == whole + ("." + f);
  }

  lemma {:induction false} GroupedLength(digits: string)
    requires digits != ""
    ensures |Grouped(digits)| == |digits| + (|digits| - 1) / 3
  {
    if |digits| > 3 {
      GroupedLength(digits[..|digits| - 3]);
    }
  }

  lemma GroupedTail(digits: string, j: nat)
    requires |digits| > 3 && j < 4
    ensures
      var g := Grouped(digits);
      |g| >= 4 && g[|g| - 1 - j] == if j == 3 then ',' else digits[|digits| - 1 - j]
  {
  }

  lemma GroupedFront(digits: string, j: nat)
    requires |digits| > 3 && 4 <= j < |Grouped(digits)|
    ensures
      var g, front := Grouped(digits), Grouped(digits[..|digits| - 3]);
      |g| == |front| + 4 && g[|g| - 1 - j] == front[|front| - 1 - (j - 4)]
  {
  }

  lemma GroupedShort(digits: string)
    requires |digits| <= 3
    ensures Grouped(digits) == digits
  {
  }

  lemma Fours(j: nat)
    ensures j < 4 ==> j / 4 == 0 && j % 4 == j
    ensures j >= 4 ==> (j - 4) / 4 == j / 4 - 1 && (j - 4) % 4 == j % 4
  {
  }

  /** From the right: three digits, a comma, three digits, and so on, the digits in their order. */
  lemma {:induction false} GroupedExactly(digits: string, j: nat)
    requires digits != "" && j < |Grouped(digits)|
    ensures |Grouped(digits)| == |digits| + (|digits| - 1) / 3
    ensures
      var g, k := Grouped(digits), j - j / 4;
      if j % 4 == 3 then g[|g| - 1 - j] == ',' else k < |digits| && g[|g| - 1 - j] == digits[|digits| - 1 - k]
  {
    hide Grouped;
    GroupedLength(digits);
    Fours(j);
    if |digits| <= 3 {
      GroupedShort(digits);
    } else if j >= 4 {
      GroupedFront(digits, j);
      GroupedExactly(digits[..|digits| - 3], j - 4);
    } else {
      GroupedTail(digits, j);
    }
  }

  // ----- everything that can be read -----

  /** A sign or none, digits, and a point with digits after it or neither: no more of them than the asset has places. */
  ghost predicate Written(raw: string, negative: bool, whole: string, fraction: string, decimals: nat) {
    && whole != "" && AllDigits(whole) && AllDigits(fraction) && |fraction| <= decimals
    && raw == Signed(negative, Join(whole, fraction))
  }

  /** What such a form denotes, to the asset's scale. */
  function Denoted(negative: bool, whole: string, fraction: string, decimals: nat): int
    requires AllDigits(whole) && AllDigits(fraction) && |fraction| <= decimals
  {
    SignedValue(negative, Value(whole) * Pow10(decimals) + Value(fraction) * Pow10(decimals - |fraction|))
  }

  lemma WrittenIsRead(raw: string, negative: bool, whole: string, fraction: string, decimals: nat)
    requires Written(raw, negative, whole, fraction, decimals)
    ensures ParseRaw(raw, decimals) == Some(Denoted(negative, whole, fraction, decimals))
  {
    hide ParseRaw, Value, Pow10, PadEnd, Signed, Join, AllDigits;
    ParseParts(negative, whole, fraction, decimals);
    DigitsDenote(whole, fraction, decimals);
  }

  lemma SpliceAt(s: string, i: nat)
    requires i < |s|
    ensures s == s[..i] + ([s[i]] + s[i + 1..])
  {
  }

  lemma WholeText(s: string)
    ensures s[..|s|] == s
  {
  }

  /** Text splits at its point, or has none. */
  lemma SplitsAtPoint(body: string)
    ensures PointAt(body) < |body| ==> body == body[..PointAt(body)] + ("." + body[PointAt(body) + 1..])
    ensures PointAt(body) == |body| ==> body == body[..PointAt(body)]
  {
    var i := PointAt(body);
    hide *;
    WholeText(body);
    if i < |body| {
      SpliceAt(body, i);
      assert [body[i]] == ".";
    }
  }

  lemma SplitsAtSign(raw: string)
    requires raw != "" && raw[0] == '-'
    ensures raw == "-" + raw[1..]
  {
  }

  lemma DigitsRead(negative: bool, whole: string, point: bool, fraction: string, decimals: nat)
    requires ParseDigits(negative, whole, point, fraction, decimals).Some?
    ensures whole != "" && AllDigits(whole) && AllDigits(fraction) && |fraction| <= decimals && (point ==> fraction != "")
  {
    hide Value, PadEnd, AllDigits;
  }

  lemma ReadIsWritten(raw: string, decimals: nat) returns (negative: bool, whole: string, fraction: string)
    requires ParseRaw(raw, decimals).Some?
    ensures Written(raw, negative, whole, fraction, decimals)
  {
    hide Value, PadEnd, PointAt, ParseDigits, AllDigits;
    negative := raw != "" && raw[0] == '-';
    var body := if negative then raw[1..] else raw;
    var i := PointAt(body);
    whole, fraction := body[..i], if i < |body| then body[i + 1..] else "";
    DigitsRead(negative, whole, i < |body|, fraction, decimals);
    hide ParseRaw, ParseBody;
    SplitsAtPoint(body);
    if negative {
      SplitsAtSign(raw);
    }
    Pieces(negative, whole, fraction);
    WholeBody(negative, raw, body, whole, fraction);
  }

  lemma WholeBody(negative: bool, raw: string, body: string, whole: string, fraction: string)
    requires raw == (if negative then "-" + body else body) && body == (if fraction == "" then whole else whole + ("." + fraction))
    ensures raw == Signed(negative, Join(whole, fraction))
  {
    assert whole + ("." + fraction) == whole + "." + fraction;
  }

  /** Text is read if and only if it is such a form, and then as what its digits denote. */
  lemma ReadExactly(raw: string, decimals: nat, units: int)
    ensures
      ParseRaw(raw, decimals) == Some(units)
      <==> exists negative, whole, fraction :: Written(raw, negative, whole, fraction, decimals) && units == Denoted(negative, whole, fraction, decimals)
  {
    hide ParseRaw, Written, Denoted;
    if ParseRaw(raw, decimals) == Some(units) {
      var negative, whole, fraction := ReadIsWritten(raw, decimals);
      WrittenIsRead(raw, negative, whole, fraction, decimals);
      WrittenDigits(raw, negative, whole, fraction, decimals);
    }
    forall negative, whole, fraction | Written(raw, negative, whole, fraction, decimals)
      ensures AllDigits(whole) && AllDigits(fraction) && |fraction| <= decimals && ParseRaw(raw, decimals) == Some(Denoted(negative, whole, fraction, decimals))
    {
      WrittenIsRead(raw, negative, whole, fraction, decimals);
      WrittenDigits(raw, negative, whole, fraction, decimals);
    }
  }

  lemma WrittenDigits(raw: string, negative: bool, whole: string, fraction: string, decimals: nat)
    requires Written(raw, negative, whole, fraction, decimals)
    ensures AllDigits(whole) && AllDigits(fraction) && |fraction| <= decimals
  {
  }

  lemma DigitsDenote(whole: string, fraction: string, decimals: nat)
    requires AllDigits(whole) && AllDigits(fraction) && |fraction| <= decimals
    ensures AllDigits(whole + PadEnd(fraction, decimals))
    ensures
      Value(whole + PadEnd(fraction, decimals)) == Value(whole) * Pow10(decimals) + Value(fraction) * Pow10(decimals - |fraction|)
  {
    RestoredValue(fraction, decimals);
    hide Value, Pow10, PadEnd;
    ValueConcat(whole, PadEnd(fraction, decimals));
  }

  lemma {:induction false} LeadingSpaces(pad: string, s: string)
    requires (forall i :: 0 <= i < |pad| ==> IsSpace(pad[i])) && (s == "" || !IsSpace(s[0]))
    ensures TrimStart(pad + s) == s
    decreases |pad|
  {
    if pad == "" {
      assert pad + s == s;
    } else {
      LeadingSpaces(pad[1..], s);
      assert (pad + s)[1..] == pad[1..] + s;
    }
  }

  lemma {:induction false} TrailingSpaces(s: string, pad: string)
    requires (forall i :: 0 <= i < |pad| ==> IsSpace(pad[i])) && (s == "" || !IsSpace(s[|s| - 1]))
    ensures TrimEnd(s + pad) == s
    decreases |pad|
  {
    if pad == "" {
      assert s + pad == s;
    } else {
      var n := |pad| - 1;
      TrailingSpaces(s, pad[..n]);
      assert (s + pad)[..|s + pad| - 1] == s + pad[..n];
    }
  }

  /** White space around what is typed, and commas anywhere in it, do not matter. */
  lemma TypedLooselyIsRead(before: string, front: string, back: string, after: string, decimals: nat)
    requires (forall i :: 0 <= i < |before| ==> IsSpace(before[i])) && forall i :: 0 <= i < |after| ==> IsSpace(after[i])
    requires front != "" && back != "" && !IsSpace(front[0]) && !IsSpace(back[|back| - 1])
    ensures ParseAmount(before + (front + "," + back + after), decimals) == ParseRaw(WithoutCommas(front + back), decimals)
  {
    var typed := front + "," + back;
    LeadingSpaces(before, typed + after);
    TrailingSpaces(typed, after);
    hide TrimStart, TrimEnd, ParseRaw;
    OneCommaOut(front, back);
    CommasConcat(front, back);
  }
}
