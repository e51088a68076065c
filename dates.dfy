/**
 * Reporting quarters and date windows. The quarter mapping is written twice
 * in the source (the admin panel and the opinion list); it is defined once here.
 * Dates and timestamps are ISO-8601 strings and compare as strings do.
 */
module Dates {

  import opened Wrappers
  import opened Strings

  const Quarters: seq<string> := ["Q1", "Q2", "Q3", "Q4"]

  /** The quarter of a month numbered 1 to 12; anything outside 1..9 falls to Q4. */
  function QuarterOfMonth(month: int): (q: string)
    ensures q in Quarters
    ensures q == "Q1" <==> 1 <= month <= 3
    ensures q == "Q2" <==> 4 <= month <= 6
    ensures q == "Q3" <==> 7 <= month <= 9
  {
    if 1 <= month <= 3 then "Q1"
    else if 4 <= month <= 6 then "Q2"
    else if 7 <= month <= 9 then "Q3"
    else "Q4"
  }

  /** A closed range of calendar days, `start` and `end` as YYYY-MM-DD. */
  datatype DateRange = DateRange(start: string, end: string)

  /** The month-and-day parts ("-MM-DD") of a quarter's first and last day; any other value means the whole year. */
  function QuarterDays(quarter: string): DateRange
  {
    if quarter == "Q1" then DateRange("-01-01", "-03-31")
    else if quarter == "Q2" then DateRange("-04-01", "-06-30")
    else if quarter == "Q3" then DateRange("-07-01", "-09-30")
    else if quarter == "Q4" then DateRange("-10-01", "-12-31")
    else DateRange("-01-01", "-12-31")
  }

  /** `getQuarterDateRange(year, quarter)`: both ends are days of `year`, the first no later than the last. */
  function QuarterDateRange(year: nat, quarter: string): (r: DateRange)
    ensures StartsWith(r.start, NatToString(year) + "-") && StartsWith(r.end, NatToString(year) + "-")
    ensures |r.start| == |r.end| == |NatToString(year)| + 6
    ensures LexLe(r.start, r.end)
  {
    var y := NatToString(year);
    var d := QuarterDays(quarter);
    var r := DateRange(y + d.start, y + d.end);
    assert r.start[..|y| + 1] == y + "-" && r.end[..|y| + 1] == y + "-";
    LexLtAt(d.start, d.end, if d.start[1] == d.end[1] then 2 else 1);
    LexLeCommonPrefix(y, d.start, d.end);
    r
  }

  /** The last instant a window ending on day `d` still admits: `d + 'T23:59:59'`. */
  function EndOfDay(d: string): string
  {
    d + "T23:59:59"
  }

  /** A timestamp lies in a window when `start <= ts <= end + 'T23:59:59'`. */
  predicate InRange(ts: string, r: DateRange)
  {
    LexLe(r.start, ts) && LexLe(ts, EndOfDay(r.end))
  }

  /** The year's first day opens every quarter window. */
  lemma QuarterOpensWithinYear(quarter: string)
    ensures LexLe("-01-01", QuarterDays(quarter).start)
  {
    LexLeRefl("-01-01");
    if quarter == "Q2" {
      LexLtAt("-01-01", "-04-01", 2);
    } else if quarter == "Q3" {
      LexLtAt("-01-01", "-07-01", 2);
    } else if quarter == "Q4" {
      LexLtAt("-01-01", "-10-01", 1);
    }
  }

  /** The last instant of the year's last day closes every quarter window. */
  lemma QuarterClosesWithinYear(quarter: string)
    ensures LexLe(QuarterDays(quarter).end + "T23:59:59", "-12-31T23:59:59")
  {
    var last := "-12-31T23:59:59";
    var e := QuarterDays(quarter).end + "T23:59:59";
    if quarter == "Q1" {
      assert e == "-03-31T23:59:59";
      LexLtAt(e, last, 1);
    } else if quarter == "Q2" {
      assert e == "-06-30T23:59:59";
      LexLtAt(e, last, 1);
    } else if quarter == "Q3" {
      assert e == "-09-30T23:59:59";
      LexLtAt(e, last, 1);
    } else {
      assert e == last;
      LexLeRefl(last);
    }
  }

  /** Prefixing the same year keeps a window that opens and closes within the year's days inside that year. */
  lemma {:induction false} DaysWithinYear(y: string, d: DateRange, ts: string)
    requires LexLe("-01-01", d.start) && LexLe(d.end + "T23:59:59", "-12-31T23:59:59")
    requires InRange(ts, DateRange(y + d.start, y + d.end))
    ensures InRange(ts, DateRange(y + "-01-01", y + "-12-31"))
  {
    LexLeCommonPrefix(y, "-01-01", d.start);
    LexLeTrans(y + "-01-01", y + d.start, ts);
    assert EndOfDay(y + d.end) == y + (d.end + "T23:59:59");
    assert EndOfDay(y + "-12-31") == y + "-12-31T23:59:59";
    LexLeCommonPrefix(y, d.end + "T23:59:59", "-12-31T23:59:59");
    LexLeTrans(ts, EndOfDay(y + d.end), EndOfDay(y + "-12-31"));
  }

  /** Every quarter's window lies inside the full-year window of the same year. */
  lemma {:induction false} QuarterWithinYear(year: nat, quarter: string, ts: string)
    requires InRange(ts, QuarterDateRange(year, quarter))
    ensures InRange(ts, QuarterDateRange(year, "all"))
  {
    QuarterOpensWithinYear(quarter);
    QuarterClosesWithinYear(quarter);
    assert QuarterDays("all") == DateRange("-01-01", "-12-31");
    DaysWithinYear(NatToString(year), QuarterDays(quarter), ts);
  }

  /** A later quarter starts after the last instant an earlier quarter admits. */
  lemma QuarterDaysOrdered(i: nat, j: nat)
    requires i < j < 4
    ensures !LexLe(QuarterDays(Quarters[j]).start, QuarterDays(Quarters[i]).end + "T23:59:59")
  {
    LexLtAt(QuarterDays(Quarters[i]).end + "T23:59:59", QuarterDays(Quarters[j]).start, if j == 3 then 1 else 2);
  }

  /** No timestamp lies in the windows of two different quarters of the same year. */
  lemma {:induction false} QuartersDisjoint(year: nat, i: nat, j: nat, ts: string)
    requires i < j < 4
    requires InRange(ts, QuarterDateRange(year, Quarters[i]))
    ensures !InRange(ts, QuarterDateRange(year, Quarters[j]))
  {
    var y := NatToString(year);
    var a, b := QuarterDays(Quarters[i]), QuarterDays(Quarters[j]);
    assert EndOfDay(QuarterDateRange(year, Quarters[i]).end) == y + (a.end + "T23:59:59");
    QuarterDaysOrdered(i, j);
    LexLeCommonPrefix(y, b.start, a.end + "T23:59:59");
    if LexLe(QuarterDateRange(year, Quarters[j]).start, ts) {
      LexLeTrans(QuarterDateRange(year, Quarters[j]).start, ts, EndOfDay(QuarterDateRange(year, Quarters[i]).end));
      assert false;
    }
  }

  /** A month number 1..12 as the two digits of a date. */
  function MonthDigits(month: int): (mm: string)
    requires 1 <= month <= 12
    ensures |mm| == 2 && '0' <= mm[0] <= '1' && '0' <= mm[1] <= '9'
  {
    [DigitChar(month / 10), DigitChar(month % 10)]
  }

  /** The last day of a month as two digits (29 for February). */
  function LastDay(month: int): string
  {
    if month == 2 then "29" else if month in {4, 6, 9, 11} then "30" else "31"
  }

  /** The day `dd` of a month, without its year: "-MM-DD". */
  function MonthDay(month: int, dd: string): string
    requires 1 <= month <= 12
  {
    "-" + MonthDigits(month) + "-" + dd
  }

  /** Every day of a month lies in the window of the quarter the month belongs to, so the quarter a submission
    * records and the quarter window the lists search agree. */
  lemma {:induction false} MonthInItsQuarter(year: nat, month: int, dd: string)
    requires 1 <= month <= 12
    requires |dd| == 2 && LexLe("01", dd) && LexLe(dd, LastDay(month))
    ensures InRange(NatToString(year) + MonthDay(month, dd), QuarterDateRange(year, QuarterOfMonth(month)))
  {
    var y := NatToString(year);
    var d := QuarterDays(QuarterOfMonth(month));
    var md := MonthDay(month, dd);
    assert QuarterDateRange(year, QuarterOfMonth(month)).start == y + d.start;
    assert EndOfDay(QuarterDateRange(year, QuarterOfMonth(month)).end) == y + (d.end + "T23:59:59");
    MonthDayAfterStart(month, dd);
    MonthDayBeforeEnd(month, dd);
    LexLeCommonPrefix(y, d.start, md);
    LexLeCommonPrefix(y, md, d.end + "T23:59:59");
  }

  /** A day of a month is no earlier than the first day of its quarter. */
  lemma {:induction false} MonthDayAfterStart(month: int, dd: string)
    requires 1 <= month <= 12
    requires |dd| == 2 && LexLe("01", dd)
    ensures LexLe(QuarterDays(QuarterOfMonth(month)).start, MonthDay(month, dd))
  {
    var s := QuarterDays(QuarterOfMonth(month)).start;
    var p := "-" + MonthDigits(month) + "-";
    var md := MonthDay(month, dd);
    assert md == p + dd;
    if month in {1, 4, 7, 10} {
      assert s == p + "01";
      LexLeCommonPrefix(p, "01", dd);
    } else {
      LexLtAt(s, md, if s[1] == md[1] then 2 else 1);
    }
  }

  /** A day of a month is no later than the last instant of its quarter. */
  lemma {:induction false} MonthDayBeforeEnd(month: int, dd: string)
    requires 1 <= month <= 12
    requires |dd| == 2 && LexLe(dd, LastDay(month))
    ensures LexLe(MonthDay(month, dd), QuarterDays(QuarterOfMonth(month)).end + "T23:59:59")
  {
    var e := QuarterDays(QuarterOfMonth(month)).end + "T23:59:59";
    var p := "-" + MonthDigits(month) + "-";
    var md := MonthDay(month, dd);
    assert md == p + dd;
    if month in {3, 6, 9, 12} {
      assert e == p + (LastDay(month) + "T23:59:59");
      LexLePrefix(LastDay(month), "T23:59:59");
      LexLeTrans(dd, LastDay(month), LastDay(month) + "T23:59:59");
      LexLeCommonPrefix(p, dd, LastDay(month) + "T23:59:59");
    } else {
      LexLtAt(md, e, if md[1] == e[1] then 2 else 1);
    }
  }

  /** `formatDate`: '' stays '', an unparseable string is returned unchanged, otherwise the YYYY-MM-DD part
    * of its ISO rendering. `toIso` stands for `new Date(s).toISOString()` (None when the date is invalid). */
  function FormatDate(s: string, toIso: string -> Option<string>): (r: string)
    ensures s == "" ==> r == ""
    ensures s != "" && toIso(s).None? ==> r == s
    ensures s != "" && toIso(s).Some? ==> !Contains(r, "T") && Contains(toIso(s).value, r)
    ensures s != "" && toIso(s).Some? ==>
              |r| <= |toIso(s).value| && r == toIso(s).value[..|r|] &&
              (|r| == |toIso(s).value| || toIso(s).value[|r|] == 'T')
  {
    if s == "" then ""
    else match toIso(s)
      case None => s
      case Some(iso) =>
        var r := SplitOn(iso, "T")[0];
        DatePartOfIso(iso);
        r
  }

  /** The part of a string before its first 'T' has no 'T' and is the prefix of it that ends where the
    * string does or at a 'T'. */
  lemma DatePartOfIso(iso: string)
    ensures !Contains(SplitOn(iso, "T")[0], "T")
    ensures Contains(iso, SplitOn(iso, "T")[0])
    ensures |SplitOn(iso, "T")[0]| <= |iso| && SplitOn(iso, "T")[0] == iso[..|SplitOn(iso, "T")[0]|]
    ensures |SplitOn(iso, "T")[0]| == |iso| || iso[|SplitOn(iso, "T")[0]|] == 'T'
  {
    var r := SplitOn(iso, "T")[0];
    match IndexOf(iso, "T")
    case None =>
      assert r == iso;
      ContainsIff(iso, "T");
      if k :| OccursAt(iso, "T", k) {
        IndexOfLeftmost(iso, "T", k);
        assert false;
      }
      assert iso == [] + iso + [];
      ContainsInfix([], iso, []);
    case Some(i) =>
      assert r == iso[..i];
      assert iso[i..i + 1] == "T";
      assert iso[i] == iso[i..i + 1][0];
      ContainsIff(r, "T");
      if k :| OccursAt(r, "T", k) {
        assert OccursAt(iso, "T", k);
        IndexOfLeftmost(iso, "T", k);
        assert false;
      }
      assert iso == [] + r + iso[i..];
      ContainsInfix([], r, iso[i..]);
  }
}
