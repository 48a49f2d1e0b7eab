/**
 * Settlement dates (`SettlementDateClass` in JPMTechTest.cpp): parsing
 * "<day> <Mon> <year>", moving the date past the weekend of the trade's currency,
 * and rendering it for the report.
 */
module SettlementDates {
  import opened Wrappers
  import opened Calendar
  import opened Text

  /** Why a date string yields no date: too few spaces (`substr` past the end throws),
      or fields that are not a calendar date (the date library throws). */
  datatype DateError = MissingSeparator | InvalidDate

  /** The month spellings the parser is meant to recognise, January first. */
  const MonthAbbreviations: seq<string> :=
    ["Jan", "Feb", "Mar", "Apr", "May", "Jun", "Jul", "Aug", "Sep", "Oct", "Nov", "Dec"]

  /** The month names the formatter writes, January first: July and September are spelt out longer. */
  const DisplayMonthNames: seq<string> :=
    ["Jan", "Feb", "Mar", "Apr", "May", "Jun", "July", "Aug", "Sept", "Oct", "Nov", "Dec"]

  /** Month number of a month string; anything that is not one of Jan .. Nov gives 12. */
  function MonthToInt(monthStr: string): (m: int)
    ensures 1 <= m <= 12
    ensures m < 12 ==> monthStr == MonthAbbreviations[m - 1]
    ensures m == 12 <==> forall i :: 0 <= i < 11 ==> monthStr != MonthAbbreviations[i]
  {
    if monthStr == "Jan" then 1
    else if monthStr == "Feb" then 2
    else if monthStr == "Mar" then 3
    else if monthStr == "Apr" then 4
    else if monthStr == "May" then 5
    else if monthStr == "Jun" then 6
    else if monthStr == "Jul" then 7
    else if monthStr == "Aug" then 8
    else if monthStr == "Sep" then 9
    else if monthStr == "Oct" then 10
    else if monthStr == "Nov" then 11
    else 12
  }

  /**
   * The date written in s, before any weekend adjustment: the day is the text
   * before the first space, the month the text between the first and second
   * spaces, the year the text from the second space on (each number read by
   * `atoi` and narrowed to `unsigned short`).
   */
  function ParseFields(s: string): (r: Result<Date, DateError>)
    ensures r.Success? ==> ValidDate(r.value)
  {
    match Find(s, ' ', 0)
    case None => Failure(MissingSeparator)
    case Some(p) =>
      match Find(s, ' ', p + 1)
      case None => Failure(MissingSeparator)
      case Some(q) =>
        var d := Date(ToUShort(Atoi(s[q..])), MonthToInt(s[p + 1..q]), ToUShort(Atoi(s[..p])));
        if ValidDate(d) then Success(d) else Failure(InvalidDate)
  }

  /** Parsing gives up for want of a separator exactly when the string has fewer than two spaces. */
  lemma {:induction false} MissingSeparatorIffFewerThanTwoSpaces(s: string)
    ensures ParseFields(s) == Failure(MissingSeparator) <==>
              !exists i, j :: 0 <= i < j < |s| && s[i] == ' ' && s[j] == ' '
  {
  }

  /** The weekend of a currency: Friday and Saturday for AED and SAR, Saturday and Sunday otherwise. */
  predicate IsWeekendDay(currency: string, weekday: int) {
    if currency == "AED" || currency == "SAR" then weekday == 5 || weekday == 6
    else weekday == 6 || weekday == 0
  }

  /** The number of days from weekday `weekday` to the first business day of `currency`, searching from n days ahead. */
  function DaysToBusinessDay(currency: string, weekday: int, n: nat): nat
    decreases 7 - n
  {
    if n >= 7 || !IsWeekendDay(currency, (weekday + n) % 7) then n
    else DaysToBusinessDay(currency, weekday, n + 1)
  }

  /**
   * The weekend rule as a table of jumps: for AED and SAR a Friday moves two days
   * and a Saturday one; for every other currency a Saturday moves two days and a
   * Sunday one; every other day stays.
   */
  lemma {:induction false} BusinessDayJump(currency: string, w: int)
    requires 0 <= w < 7
    ensures DaysToBusinessDay(currency, w, 0) ==
      if currency == "AED" || currency == "SAR" then (if w == 5 then 2 else if w == 6 then 1 else 0)
      else (if w == 6 then 2 else if w == 0 then 1 else 0)
  {
    if IsWeekendDay(currency, w) {
      if IsWeekendDay(currency, (w + 1) % 7) {
        assert !IsWeekendDay(currency, (w + 2) % 7);
        assert DaysToBusinessDay(currency, w, 2) == 2;
      } else {
        assert DaysToBusinessDay(currency, w, 1) == 1;
      }
    }
  }

  /** The first business day of `currency` on or after d. */
  function NextBusinessDay(d: Date, currency: string): (r: Date)
    requires ValidDate(d)
    ensures ValidDate(r) && DayNumber(d) <= DayNumber(r) <= DayNumber(d) + 2
    ensures !IsWeekendDay(currency, DayOfWeek(r))
  {
    var n := DaysToBusinessDay(currency, DayOfWeek(d), 0);
    BusinessDayJump(currency, DayOfWeek(d));
    AddDaysWeekday(d, n);
    AddDays(d, n)
  }

  /** The date a settlement string stands for once moved past the currency's weekend. */
  function AdjustedDate(s: string, currency: string): (r: Result<Date, DateError>)
    ensures r.Success? ==> ValidDate(r.value)
    ensures r.Success? <==> ParseFields(s).Success?
  {
    match ParseFields(s)
    case Failure(e) => Failure(e)
    case Success(d) => Success(NextBusinessDay(d, currency))
  }

  /** The report's rendering of a date: day without leading zero, display month name, year. */
  function Format(d: Date): (r: string)
    requires 1 <= d.month <= 12 && d.day >= 0
    ensures |r| >= 7
  {
    NatToString(d.day) + " " + DisplayMonthNames[d.month - 1] + " " + NatToString(ToUShort(d.year))
  }

  /**
   * The adjusted date is the first business day of the currency on or after the
   * parsed one: it is not a weekend day, it is at most two days later, every day
   * it skips is a weekend day, and a business day is left where it is.
   */
  lemma {:induction false} NextBusinessDayIsFirstBusinessDay(d: Date, currency: string)
    requires ValidDate(d)
    ensures var r := NextBusinessDay(d, currency);
      && ValidDate(r)
      && DayNumber(d) <= DayNumber(r) <= DayNumber(d) + 2
      && !IsWeekendDay(currency, DayOfWeek(r))
      && (forall k: nat :: k < DayNumber(r) - DayNumber(d) ==> IsWeekendDay(currency, DayOfWeek(AddDays(d, k))))
      && (!IsWeekendDay(currency, DayOfWeek(d)) ==> r == d)
  {
    var w := DayOfWeek(d);
    var n := DaysToBusinessDay(currency, w, 0);
    BusinessDayJump(currency, w);
    AddDaysWeekday(d, n);
    forall k: nat | k < n
      ensures IsWeekendDay(currency, DayOfWeek(AddDays(d, k)))
    {
      AddDaysWeekday(d, k);
    }
  }



  /** A string "<a> <m> <b>" whose a and m hold no space is split at the two spaces shown. */
  lemma {:induction false} ParseFieldsOfParts(a: string, m: string, b: string)
    requires ' ' !in a && ' ' !in m
    ensures var d := Date(ToUShort(Atoi(" " + b)), MonthToInt(m), ToUShort(Atoi(a)));
      ParseFields(a + " " + m + " " + b) == if ValidDate(d) then Success(d) else Failure(InvalidDate)
  {
    var s := a + " " + m + " " + b;
    var p, q := |a|, |a| + 1 + |m|;
    assert s[p] == ' ' && s[q] == ' ';
    assert forall k :: 0 <= k < p ==> s[k] == a[k];
    assert forall k :: p < k < q ==> s[k] == m[k - p - 1];
    assert Find(s, ' ', 0) == Some(p);
    assert Find(s, ' ', p + 1) == Some(q);
    assert s[..p] == a;
    assert s[p + 1..q] == m;
    assert s[q..] == " " + b;
  }

  /** The parser's month number of each display name: itself, except 12 for "July" and "Sept". */
  lemma {:induction false} MonthOfDisplayName(m: int)
    requires 1 <= m <= 12
    ensures MonthToInt(DisplayMonthNames[m - 1]) == if m == 7 || m == 9 then 12 else m
  {
  }

  /**
   * Reading back a formatted date gives the same date for ten months; July and
   * September are written "July" and "Sept", which the parser does not know, so
   * they come back as December.
   */
  lemma {:induction false} FormatThenParse(d: Date)
    requires ValidDate(d) && d.year < 0x1_0000
    ensures ParseFields(Format(d)) ==
      Success(Date(d.year, if d.month == 7 || d.month == 9 then 12 else d.month, d.day))
  {
    var name := DisplayMonthNames[d.month - 1];
    var a, b := NatToString(d.day), NatToString(d.year);
    DisplayNameHasNoSpace(d.month);
    assert ' ' !in a by {
      assert forall i :: 0 <= i < |a| ==> IsDigit(a[i]);
    }
    ParseFieldsOfParts(a, name, b);
    AtoiNatToString([], d.day);
    AtoiNatToString(" ", d.year);
    assert [] + a == a;
    MonthOfDisplayName(d.month);
    assert Format(d) == a + " " + name + " " + b;
    DecemberHasEveryDay(d);
  }

  lemma {:induction false} DecemberHasEveryDay(d: Date)
    requires ValidDate(d)
    ensures ValidDate(Date(d.year, 12, d.day))
  {
  }

  lemma {:induction false} DisplayNameHasNoSpace(m: int)
    requires 1 <= m <= 12
    ensures ' ' !in DisplayMonthNames[m - 1]
  {
    var name := DisplayMonthNames[m - 1];
    assert name in DisplayMonthNames;
  }

  /** Every July or September date, formatted and read back, lands in December. */
  lemma {:induction false} FormatThenParseJulySeptember(d: Date)
    requires ValidDate(d) && d.year < 0x1_0000 && (d.month == 7 || d.month == 9)
    ensures ParseFields(Format(d)).Success?
    ensures ParseFields(Format(d)).value.month == 12
  {
    FormatThenParse(d);
  }

  /** A Saturday settlement in pounds, "4 Mar 2017", moves to Monday 6 March. */
  lemma {:induction false} SaturdayInPoundsMovesToMonday()
    ensures AdjustedDate("4 Mar 2017", "GBP") == Success(Date(2017, 3, 6))
  {
    ParsesFourthOfMarch();
    KnownWeekdays();
    BusinessDayJump("GBP", 6);
    assert AddDays(Date(2017, 3, 4), 1) == Date(2017, 3, 5);
    assert AddDays(Date(2017, 3, 4), 2) == Date(2017, 3, 6);
  }

  lemma {:induction false} ParsesFourthOfMarch()
    ensures ParseFields("4 Mar 2017") == Success(Date(2017, 3, 4))
  {
    ReadsFourAnd2017();
    assert "4" + " " + "Mar" + " " + "2017" == "4 Mar 2017";
    ParseFieldsOfParts("4", "Mar", "2017");
  }

  lemma {:induction false} ReadsFourAnd2017()
    ensures Atoi("4") == 4 && Atoi(" " + "2017") == 2017
  {
    assert NatToString(4) == "4" by {
      assert DigitChar(4) == '4';
    }
    assert NatToString(2017) == "2017" by {
      assert NatToString(201) == "201";
    }
    AtoiNatToString([], 4);
    assert [] + "4" == "4";
    AtoiNatToString(" ", 2017);
  }

  /** A Friday settlement in dirhams moves to the Sunday; in pounds it stays on the Friday. */
  lemma {:induction false} FridayByCurrency()
    ensures NextBusinessDay(Date(2017, 3, 3), "AED") == Date(2017, 3, 5)
    ensures NextBusinessDay(Date(2017, 3, 3), "GBP") == Date(2017, 3, 3)
  {
    KnownWeekdays();
    BusinessDayJump("AED", 5);
    BusinessDayJump("GBP", 5);
    assert AddDays(Date(2017, 3, 3), 1) == Date(2017, 3, 4);
    assert AddDays(Date(2017, 3, 3), 2) == Date(2017, 3, 5);
  }

  /** A settlement date string and its currency, holding the adjusted date. */
  class SettlementDateClass {
    const stringDate: string
    const currency: string
    var gregorianDate: Date

    /** The stored date is a calendar date: the source's constructor throws rather than hold any other. */
    ghost predicate Valid()
      reads this
    {
      ValidDate(gregorianDate)
    }

    /** Parses and adjusts the date at once; the source throws for a string that is not a date. */
    constructor (sDate: string, sCurrency: string)
      requires ParseFields(sDate).Success?
      ensures Valid()
      ensures stringDate == sDate && currency == sCurrency
      ensures Success(gregorianDate) == AdjustedDate(sDate, sCurrency)
    {
      stringDate := sDate;
      currency := sCurrency;
      gregorianDate := Date(1, 1, 1);
      new;
      var err := ParseDate();
    }

    /** Moves the date forward past the currency's weekend in one jump. */
    method CalcWorkingDay()
      requires Valid()
      modifies this
      ensures Valid()
      ensures gregorianDate == NextBusinessDay(old(gregorianDate), currency)
    {
      var dayNum := DayOfWeek(gregorianDate);
      var amountToAdd := 0;
      if currency == "AED" || currency == "SAR" {
        if dayNum == 5 {
          amountToAdd := amountToAdd + 2;
        } else if dayNum == 6 {
          amountToAdd := amountToAdd + 1;
        }
      } else {
        if dayNum == 6 {
          amountToAdd := amountToAdd + 2;
        } else if dayNum == 0 {
          amountToAdd := amountToAdd + 1;
        }
      }
      BusinessDayJump(currency, dayNum);
      gregorianDate := AddDays(gregorianDate, amountToAdd);
    }

    /**
     * Reads the date out of `stringDate` and adjusts it. On failure the
     * date is left as it was and the error is returned.
     */
    method ParseDate() returns (err: Option<DateError>)
      requires Valid()
      modifies this
      ensures Valid()
      ensures err.None? <==> ParseFields(stringDate).Success?
      ensures err.Some? ==> err.value == ParseFields(stringDate).error && gregorianDate == old(gregorianDate)
      ensures err.None? ==> Success(gregorianDate) == AdjustedDate(stringDate, currency)
    {
      var spacePos := Find(stringDate, ' ', 0);
      if spacePos.None? {
        return Some(MissingSeparator);
      }
      var day := ToUShort(Atoi(stringDate[..spacePos.value]));
      var nextSpace := Find(stringDate, ' ', spacePos.value + 1);
      if nextSpace.None? {
        return Some(MissingSeparator);
      }
      var month := MonthToInt(stringDate[spacePos.value + 1..nextSpace.value]);
      var year := ToUShort(Atoi(stringDate[nextSpace.value..]));
      var date := Date(year, month, day);
      if !ValidDate(date) {
        return Some(InvalidDate);
      }
      gregorianDate := date;
      CalcWorkingDay();
      err := None;
    }

    function GetDate(): (r: Date)
      requires Valid()
      reads this
      ensures ValidDate(r)
    {
      gregorianDate
    }

    /**
     * The date as "<day> <month name> <year>"; reading it back gives the same
     * date, except that July and September come back as December.
     */
    function FormatDate(): (r: string)
      requires Valid()
      reads this
      ensures var d := gregorianDate;
        d.year < 0x1_0000 ==>
          ParseFields(r) == Success(Date(d.year, if d.month == 7 || d.month == 9 then 12 else d.month, d.day))
    {
      var d := gregorianDate;
      if d.year < 0x1_0000 then
        FormatThenParse(d);
        Format(d)
      else
        Format(d)
    }
  }
}
