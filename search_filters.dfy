/** The pure helpers of the search form (components/search-filters.tsx): the
    property-type checkbox toggle, the year and month options and the
    composition of the `dateFrom`/`dateTo` strings ("YYYY-MM") from the
    month and year selects. */
module SearchFilters {
  import opened Wrappers
  import opened Text

  /* ---------- property-type toggle ---------- */

  /** `list.filter(t => t !== type)`. */
  function Removed(xs: seq<string>, t: string): (r: seq<string>)
    ensures t !in r
    ensures forall x :: x in r <==> x in xs && x != t
    ensures |r| <= |xs|
  {
    if xs == [] then []
    else (if xs[0] == t then [] else [xs[0]]) + Removed(xs[1..], t)
  }

  /** Filtering distributes over concatenation, so the kept elements stay in
      their original relative order. */
  lemma {:induction false} RemovedAppend(a: seq<string>, b: seq<string>, t: string)
    ensures Removed(a + b, t) == Removed(a, t) + Removed(b, t)
  {
    if a == [] {
      assert a + b == b;
    } else {
      assert (a + b)[1..] == a[1..] + b;
      RemovedAppend(a[1..], b, t);
    }
  }

  /** Filtering out a type that is not there changes nothing. */
  lemma {:induction false} RemovedAbsent(xs: seq<string>, t: string)
    requires t !in xs
    ensures Removed(xs, t) == xs
  {
    if xs != [] {
      RemovedAbsent(xs[1..], t);
    }
  }

  /** `handlePropertyTypeChange(type, checked)`: the list the form reports,
      `undefined` when it comes out empty. */
  function TogglePropertyType(current: Option<seq<string>>, t: string, checked: bool): (r: Option<seq<string>>)
    ensures checked ==> r == Some(current.GetOr([]) + [t])
    ensures !checked ==> (r.None? <==> Removed(current.GetOr([]), t) == [])
    ensures !checked && r.Some? ==> r.value == Removed(current.GetOr([]), t) && t !in r.value
  {
    var list := current.GetOr([]);
    var updated := if checked then list + [t] else Removed(list, t);
    if |updated| > 0 then Some(updated) else None
  }

  /** Unchecking yields `undefined` exactly when every selected type was the
      one unchecked. */
  lemma UncheckEmptiesIff(current: seq<string>, t: string)
    ensures TogglePropertyType(Some(current), t, false).None? <==> forall x :: x in current ==> x == t
  {
    if Removed(current, t) != [] {
      assert Removed(current, t)[0] in Removed(current, t);
    }
  }

  /** Checking a type that is not selected and unchecking it again gives back
      the list as it was. */
  lemma CheckThenUncheck(current: seq<string>, t: string)
    requires t !in current && current != []
    ensures TogglePropertyType(TogglePropertyType(Some(current), t, true), t, false) == Some(current)
  {
    RemovedAppend(current, [t], t);
    RemovedAbsent(current, t);
    assert Removed([t], t) == [];
    assert current + [] == current;
  }

  /* ---------- years and months ---------- */

  /** `Array.from({ length: currentYear - 2007 }, (_, i) => 2008 + i)`; a
      negative length gives the empty list. */
  function Years(currentYear: int): (ys: seq<int>)
    ensures |ys| == if currentYear >= 2008 then currentYear - 2007 else 0
    ensures forall i :: 0 <= i < |ys| ==> ys[i] == 2008 + i
  {
    if currentYear >= 2008 then seq(currentYear - 2007, i requires 0 <= i => 2008 + i) else []
  }

  /** The years offered are exactly 2008 to the current year, ascending. */
  lemma YearsRange(currentYear: int)
    ensures forall y :: y in Years(currentYear) <==> 2008 <= y <= currentYear
    ensures forall i, j :: 0 <= i < j < |Years(currentYear)| ==> Years(currentYear)[i] < Years(currentYear)[j]
  {
    var ys := Years(currentYear);
    forall y | 2008 <= y <= currentYear
      ensures y in ys
    {
      assert ys[y - 2008] == y;
    }
  }

  const MONTHS: seq<string> := ["January", "February", "March", "April", "May", "June",
    "July", "August", "September", "October", "November", "December"]

  /** `String(index + 1).padStart(2, '0')`: the value of the `index`-th month
      option. */
  function MonthValue(index: nat): string {
    PadStart(DecimalString(index + 1), 2, '0')
  }

  /** Every month option value is two digits and reads back as the month's
      number, 1 to 12, so the twelve values are distinct. */
  lemma MonthValueDigits(index: nat)
    requires index < |MONTHS|
    ensures |MonthValue(index)| == 2 && AllDigits(MonthValue(index))
    ensures ParseDecimal(MonthValue(index)) == index + 1
  {
    var d := DecimalString(index + 1);
    DecimalRoundTrip(index + 1);
    if index + 1 < 10 {
      assert MonthValue(index) == ['0'] + d;
      assert MonthValue(index)[..1] == ['0'];
    }
  }

  lemma MonthValuesDistinct(i: nat, j: nat)
    requires i < j < |MONTHS|
    ensures MonthValue(i) != MonthValue(j)
  {
    MonthValueDigits(i);
    MonthValueDigits(j);
  }

  /* ---------- dateFrom / dateTo ---------- */

  /** `date?.split('-')[i] || fallback`. */
  function Part(date: Option<string>, i: nat, fallback: string): string {
    if date.None? then fallback
    else
      var parts := SplitOn(date.value, '-');
      if i < |parts| && parts[i] != "" then parts[i] else fallback
  }

  /** The month select changed: keep the year (or its default), drop the date
      when the month is cleared. */
  function MonthChanged(date: Option<string>, month: string, defaultYear: string): Option<string> {
    if month != "" then Some(Part(date, 0, defaultYear) + "-" + month) else None
  }

  /** The year select changed: keep the month (or its default). */
  function YearChanged(date: Option<string>, year: string, defaultMonth: string): string {
    year + "-" + Part(date, 1, defaultMonth)
  }

  const FROM_DEFAULT_YEAR: string := "2008"
  const FROM_DEFAULT_MONTH: string := "01"
  const TO_DEFAULT_MONTH: string := "12"

  function DateFromMonthChanged(dateFrom: Option<string>, month: string): Option<string> {
    MonthChanged(dateFrom, month, FROM_DEFAULT_YEAR)
  }

  function DateFromYearChanged(dateFrom: Option<string>, year: string): string {
    YearChanged(dateFrom, year, FROM_DEFAULT_MONTH)
  }

  /** `String(currentYear)` is the default year of `dateTo`. */
  function DateToMonthChanged(dateTo: Option<string>, month: string, currentYear: nat): Option<string> {
    MonthChanged(dateTo, month, DecimalString(currentYear))
  }

  function DateToYearChanged(dateTo: Option<string>, year: string): string {
    YearChanged(dateTo, year, TO_DEFAULT_MONTH)
  }

  /** No part read from a date contains the separator. */
  lemma PartLacksDash(date: Option<string>, i: nat, fallback: string)
    requires '-' !in fallback
    ensures '-' !in Part(date, i, fallback)
  {
    if date.Some? {
      SplitPiecesLackSeparator(date.value, '-');
      var parts := SplitOn(date.value, '-');
      if i < |parts| && parts[i] != "" {
        assert parts[i] in parts;
      }
    }
  }

  /** Choosing a month keeps the year the date had (or the default year) and
      the month select then reads back the chosen month. An empty month
      clears the date. */
  lemma MonthChangeKeepsYear(date: Option<string>, month: string, defaultYear: string)
    requires '-' !in month && '-' !in defaultYear && defaultYear != ""
    ensures month == "" ==> MonthChanged(date, month, defaultYear).None?
    ensures month != "" ==>
      MonthChanged(date, month, defaultYear).Some?
      && Part(MonthChanged(date, month, defaultYear), 0, defaultYear) == Part(date, 0, defaultYear)
      && Part(MonthChanged(date, month, defaultYear), 1, "") == month
  {
    if month != "" {
      var year := Part(date, 0, defaultYear);
      PartLacksDash(date, 0, defaultYear);
      SplitPair(year, month, '-');
      assert year + "-" + month == year + ['-'] + month;
    }
  }

  /** Choosing a year keeps the month the date had (or the default month) and
      the year select then reads back the chosen year. */
  lemma YearChangeKeepsMonth(date: Option<string>, year: string, defaultMonth: string)
    requires year != "" && '-' !in year && '-' !in defaultMonth && defaultMonth != ""
    ensures Part(Some(YearChanged(date, year, defaultMonth)), 0, "") == year
    ensures Part(Some(YearChanged(date, year, defaultMonth)), 1, defaultMonth) == Part(date, 1, defaultMonth)
  {
    var month := Part(date, 1, defaultMonth);
    PartLacksDash(date, 1, defaultMonth);
    SplitPair(year, month, '-');
    assert year + "-" + month == year + ['-'] + month;
  }

  /** With no date yet, a From month lands in 2008 and a From year in
      January; a To month lands in the current year and a To year in
      December. */
  lemma DateDefaults(month: string, year: string, currentYear: nat)
    requires month != ""
    ensures DateFromMonthChanged(None, month) == Some("2008-" + month)
    ensures DateFromYearChanged(None, year) == year + "-01"
    ensures DateToMonthChanged(None, month, currentYear) == Some(DecimalString(currentYear) + "-" + month)
    ensures DateToYearChanged(None, year) == year + "-12"
  {
    assert FROM_DEFAULT_YEAR + "-" + month == "2008-" + month;
    assert year + "-" + FROM_DEFAULT_MONTH == year + "-01";
    assert year + "-" + TO_DEFAULT_MONTH == year + "-12";
  }
}
