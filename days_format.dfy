/**
 * `formatDaysRemaining`: a count of remaining days rendered as years (年),
 * months (ヶ月) and days (日), with 365-day years and 30-day months.
 */
module DaysFormat {
  import opened Js
  import opened Text

  const YearUnit: string := "年"
  const MonthUnit: string := "ヶ月"
  const DayUnit: string := "日"

  /** A day count split into whole years, whole months and leftover days. */
  datatype Span = Span(years: nat, months: nat, days: nat)

  /**
   * `years = floor(days / 365)`, then the remainder split into 30-day months
   * and leftover days; the three parts add back up to the input.
   */
  function Decompose(days: int): (r: Span)
    requires days > 0
    ensures r.years * 365 + r.months * 30 + r.days == days
    ensures r.months <= 12 && r.days < 30
    ensures r.months * 30 + r.days < 365
  {
    var remaining := days % 365;
    Span(days / 365, remaining / 30, remaining % 30)
  }

  /** Distinct positive day counts have distinct splits. */
  lemma DecomposeInjective(a: int, b: int)
    requires a > 0 && b > 0
    requires Decompose(a) == Decompose(b)
    ensures a == b
  {
  }

  /**
   * A split is the split of its own total exactly when its months and days
   * stay below a year: those are the splits `Decompose` produces.
   */
  lemma {:induction false} DecomposeCanonical(y: nat, m: nat, d: nat)
    requires y * 365 + m * 30 + d > 0
    ensures Decompose(y * 365 + m * 30 + d) == Span(y, m, d) <==> m * 30 + d < 365 && d < 30
  {
    var total := y * 365 + m * 30 + d;
    if m * 30 + d < 365 && d < 30 {
      assert total / 365 == y && total % 365 == m * 30 + d;
      assert (m * 30 + d) / 30 == m && (m * 30 + d) % 30 == d;
    }
  }

  /** One rendered component: `${n}` and its unit, or nothing when `n` is 0. */
  function Part(n: nat, unit: string): string {
    if n > 0 then NatToString(n) + unit else ""
  }

  /**
   * The rendering: empty for a non-positive count, otherwise the non-zero
   * components in year, month, day order.
   */
  function Rendered(days: int): string {
    if days <= 0 then ""
    else
      var sp := Decompose(days);
      Part(sp.years, YearUnit) + Part(sp.months, MonthUnit) + Part(sp.days, DayUnit)
  }

  /** `parts.join('')`. */
  function Join(parts: seq<string>): string {
    if parts == [] then "" else Join(parts[..|parts| - 1]) + parts[|parts| - 1]
  }

  /**
   * The source's procedure: the split, three conditional pushes onto `parts`,
   * the join, and the `'0日'` fallback for an empty join, which the proof
   * shows is never taken.
   */
  method FormatDaysRemaining(days: int) returns (s: string)
    ensures s == Rendered(days)
  {
    if days <= 0 {
      return "";
    }
    var years := days / 365;
    var remaining := days % 365;
    var months := remaining / 30;
    var leftDays := remaining % 30;
    assert Decompose(days) == Span(years, months, leftDays);
    s := JoinParts(years, months, leftDays);
    if s == "" {
      RenderedEmptyIff(days);
      assert false;
      s := "0日";
    }
  }

  /** The pushes and the join: each non-zero component, with its unit, in order. */
  method JoinParts(years: nat, months: nat, leftDays: nat) returns (s: string)
    ensures s == Part(years, YearUnit) + Part(months, MonthUnit) + Part(leftDays, DayUnit)
  {
    var parts: seq<string> := [];
    if years > 0 {
      parts := Pushed(parts, NatToString(years) + YearUnit);
    }
    assert Join(parts) == Part(years, YearUnit);
    if months > 0 {
      parts := Pushed(parts, NatToString(months) + MonthUnit);
    }
    assert Join(parts) == Part(years, YearUnit) + Part(months, MonthUnit);
    if leftDays > 0 {
      parts := Pushed(parts, NatToString(leftDays) + DayUnit);
    }
    s := Join(parts);
  }

  /** `parts.push(x)`, as a value: the join grows by `x`. */
  function Pushed(parts: seq<string>, x: string): (r: seq<string>)
    ensures Join(r) == Join(parts) + x
  {
    assert (parts + [x])[..|parts|] == parts;
    parts + [x]
  }

  /** Non-positive counts render as the empty string, and only they do. */
  lemma RenderedEmptyIff(days: int)
    ensures Rendered(days) == "" <==> days <= 0
  {
    if days > 0 {
      var sp := Decompose(days);
      if sp.years > 0 {
        assert |Part(sp.years, YearUnit)| > 0;
      } else if sp.months > 0 {
        assert |Part(sp.months, MonthUnit)| > 0;
      } else {
        assert |Part(sp.days, DayUnit)| > 0;
      }
    }
  }

  // ------------------------------------------------------------- reading back

  /** Adds `n` to a decoded total, keeping a failure. */
  function AddTo(total: Option<int>, n: int): Option<int> {
    match total
    case None => None
    case Some(t) => Some(t + n)
  }

  /**
   * Reads a rendering back into a day count: a sequence of decimal numbers,
   * each followed by 年 (365 days), ヶ月 (30 days) or 日 (1 day).
   */
  function Decode(s: string): Option<int>
    decreases |s|
  {
    if s == [] then Some(0)
    else
      var k := LeadingDigits(s);
      if k == 0 then None
      else
        var n := DigitsValue(s[..k]);
        var rest := s[k..];
        if StartsWith(rest, YearUnit) then AddTo(Decode(rest[|YearUnit|..]), n * 365)
        else if StartsWith(rest, MonthUnit) then AddTo(Decode(rest[|MonthUnit|..]), n * 30)
        else if StartsWith(rest, DayUnit) then AddTo(Decode(rest[|DayUnit|..]), n)
        else None
  }

  /** Reading one rendered component adds its weight in days. */
  lemma DecodePart(n: nat, unit: string, weight: int, tail: string)
    requires (unit == YearUnit && weight == 365) || (unit == MonthUnit && weight == 30) || (unit == DayUnit && weight == 1)
    ensures Decode(Part(n, unit) + tail) == AddTo(Decode(tail), n * weight)
  {
    if n == 0 {
      assert Part(n, unit) + tail == tail;
      match Decode(tail)
      case None =>
      case Some(t) =>
    } else {
      DecodeNumber(n, unit, weight, tail);
    }
  }

  /** One number followed by its unit: the digits are read back, then the unit selects the weight. */
  lemma DecodeNumber(n: nat, unit: string, weight: int, tail: string)
    requires n > 0
    requires (unit == YearUnit && weight == 365) || (unit == MonthUnit && weight == 30) || (unit == DayUnit && weight == 1)
    ensures Decode(NatToString(n) + unit + tail) == AddTo(Decode(tail), n * weight)
  {
    var digits := NatToString(n);
    var rest := unit + tail;
    var s := digits + unit + tail;
    assert s == digits + rest;
    assert LeadingDigits(s) == |digits| by {
      assert rest[0] == unit[0];
      LeadingDigitsOf(digits, rest);
    }
    assert s[..|digits|] == digits && s[|digits|..] == rest;
    DigitsRoundTrip(n);
    assert rest[|unit|..] == tail;
    assert StartsWith(rest, unit);
    if unit == MonthUnit {
      PrefixesExclusive(rest, YearUnit, MonthUnit, 0);
    } else if unit == DayUnit {
      PrefixesExclusive(rest, YearUnit, DayUnit, 0);
      PrefixesExclusive(rest, MonthUnit, DayUnit, 0);
    }
  }

  /** Reading three rendered components back gives their weighted sum. */
  lemma DecodeParts(y: nat, m: nat, d: nat)
    ensures Decode(Part(y, YearUnit) + (Part(m, MonthUnit) + Part(d, DayUnit))) == Some(y * 365 + m * 30 + d)
  {
    DecodeMonthsDays(m, d);
    DecodePart(y, YearUnit, 365, Part(m, MonthUnit) + Part(d, DayUnit));
  }

  lemma DecodeMonthsDays(m: nat, d: nat)
    ensures Decode(Part(m, MonthUnit) + Part(d, DayUnit)) == Some(m * 30 + d)
  {
    DecodeDays(d);
    DecodePart(m, MonthUnit, 30, Part(d, DayUnit));
  }

  lemma DecodeDays(d: nat)
    ensures Decode(Part(d, DayUnit)) == Some(d)
  {
    DecodePart(d, DayUnit, 1, "");
    assert Part(d, DayUnit) + "" == Part(d, DayUnit);
  }

  /** Reading a rendering back gives the day count: rendering loses nothing. */
  lemma DecodeRendered(days: int)
    requires days > 0
    ensures Decode(Rendered(days)) == Some(days)
  {
    var sp := Decompose(days);
    DecodeParts(sp.years, sp.months, sp.days);
    Associative(Part(sp.years, YearUnit), Part(sp.months, MonthUnit), Part(sp.days, DayUnit));
  }

  lemma Associative(a: string, b: string, c: string)
    ensures a + b + c == a + (b + c)
  {
  }

  /** Distinct positive counts render differently. */
  lemma RenderedInjective(a: int, b: int)
    requires a > 0 && b > 0 && Rendered(a) == Rendered(b)
    ensures a == b
  {
    DecodeRendered(a);
    DecodeRendered(b);
  }

  // --------------------------------------------------------- which units show

  lemma UnitsNotDigits(s: string)
    requires AllDigits(s)
    ensures '年' !in s && 'ヶ' !in s && '日' !in s
  {
  }

  /** A unit appears in the rendering exactly when its component is non-zero. */
  lemma ShownIffNonZero(days: int)
    requires days > 0
    ensures '年' in Rendered(days) <==> Decompose(days).years > 0
    ensures 'ヶ' in Rendered(days) <==> Decompose(days).months > 0
    ensures '日' in Rendered(days) <==> Decompose(days).days > 0
  {
    var sp := Decompose(days);
    UnitsNotDigits(NatToString(sp.years));
    UnitsNotDigits(NatToString(sp.months));
    UnitsNotDigits(NatToString(sp.days));
    var a := Part(sp.years, YearUnit);
    var b := Part(sp.months, MonthUnit);
    var c := Part(sp.days, DayUnit);
    assert forall ch :: ch in a + b + c <==> ch in a || ch in b || ch in c;
  }

  /** The documented examples, and the unit and non-positive edges. */
  lemma DocumentedExamples()
    ensures Rendered(280) == "9ヶ月10日"
    ensures Rendered(45) == "1ヶ月15日"
    ensures Rendered(400) == "1年1ヶ月5日"
    ensures Rendered(10) == "10日"
    ensures Rendered(365) == "1年" && Rendered(30) == "1ヶ月"
    ensures Rendered(0) == "" && Rendered(-10) == ""
  {
    SmallNumerals();
    assert Decompose(280) == Span(0, 9, 10);
    assert Decompose(45) == Span(0, 1, 15);
    assert Decompose(400) == Span(1, 1, 5);
    assert Decompose(10) == Span(0, 0, 10);
    assert Decompose(365) == Span(1, 0, 0);
    assert Decompose(30) == Span(0, 1, 0);
  }

  /** The decimal renderings the examples use. */
  lemma SmallNumerals()
    ensures NatToString(1) == "1" && NatToString(5) == "5" && NatToString(9) == "9"
    ensures NatToString(10) == "10" && NatToString(15) == "15"
  {
    assert NatToString(1) == "1";
  }
}
