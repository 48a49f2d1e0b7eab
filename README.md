# JPMTechTest settlement report, modelled in Dafny

This project models the trade-settlement report in `JPMTechTest/JPMTechTest.cpp`. It covers three classes:

- **`SettlementDateClass`** reads a date string such as `"3 Mar 2017"`. It moves the date past the weekend of the trade's currency and formats the result. AED and SAR rest on Friday and Saturday; every other currency rests on Saturday and Sunday.
  - Modules `SettlementDates`, `Calendar` and `Text`.
  - `Calendar` stands in for the date library. It provides a proleptic Gregorian date, its day of the week with Sunday = 0, and adding whole days.
  - `Text` stands in for the C library pieces the code uses: `atoi`, `std::string::find`, `std::to_string`, the narrowing to `unsigned short`, and `std::string`'s `<=`.
- **`Transaction`** is a buy or sell order. Its constructor runs eight checks in a fixed order. It also yields a dollar price and a settlement date formatted for the report. Module `Transactions`.
  - Orders that exist are those that pass the checks: the subset type `ValidTransaction`.
- **`TransactionReport`** keeps buys in `outgoing` and sells in `incoming`, and prints one subtotal per settlement date. Modules `TransactionReports` and `Grouping`.
  - Each list takes a new order at its end when the last order's formatted date is `<=` the new one's, and at its front otherwise. The comparison is lexicographic on strings.
  - The report walks a list once. It adds up dollar prices while the formatted date repeats and prints a line when the date changes.

The list and report rules are written once, generically over the order type. They take the date rendering (`DateFunction`) and the price (`PriceFunction`) as parameters. The class `TransactionReport` passes `Transactions.SettlementDate` and `Transactions.DollarPrice`.

The report loop is proved against `Grouping.Runs`. `Runs` splits the list of (date, amount) entries into maximal runs of equal dates, with one subtotal per run. A fold, `Grouping.Scan`, mirrors the loop's variables. The loop invariant ties the two together.

The source throws exceptions in several places. Each becomes an error value, which stops the operation at the same point:

- `DateError.MissingSeparator`: a date string with fewer than two spaces. The code's `substr` at `npos` throws here.
- `DateError.InvalidDate`: fields that form no calendar date. The date library throws here.
- `ValidationError`: a failed constructor check, carrying its message.

Some behaviour follows the code exactly, including where it may look unintended:

- Any month string other than `Jan` .. `Nov` parses as December.
- The formatter writes `July` and `Sept`. Reading a formatted date back therefore turns July and September into December (`SettlementDates.FormatThenParse`).
- The insertion rule compares date strings lexicographically. Prepending can break the order (`TransactionReports.InsertPrependSortedIff`). So a list is not in general sorted, and one date can appear in several report lines.
- The price check reuses the exchange-rate check's message, misspelling included.

## Model

| member | source | states |
|---|---|---|
| SettlementDates.MonthToInt | JPMTechTest/JPMTechTest.cpp:33-83 | The result is 1 .. 12. A result below 12 means the string is that month's abbreviation. The result is 12 exactly when the string is none of Jan .. Nov. |
| SettlementDates.ParseFields | JPMTechTest/JPMTechTest.cpp:140-158 | The parser before the weekend adjustment. The day comes from the text before the first space, the month from between the spaces, and the year from the second space on. Whatever it returns successfully is a valid calendar date. |
| SettlementDates.MissingSeparatorIffFewerThanTwoSpaces | JPMTechTest/JPMTechTest.cpp:140-155 | Parsing fails for want of a separator exactly when the string holds fewer than two spaces. |
| SettlementDates.ParseFieldsOfParts | JPMTechTest/JPMTechTest.cpp:140-158 | Take a string "a m b" whose first two parts hold no space. The day is read from `a`, the month from `m` and the year from " b"; each number is read by `atoi` and narrowed to `unsigned short`. The result is that date if it exists in the calendar, else InvalidDate. |
| SettlementDates.AdjustedDate | JPMTechTest/JPMTechTest.cpp:134-161 | A settlement string yields an adjusted date exactly when its fields parse, and that date is a valid calendar date. |
| SettlementDates.BusinessDayJump | JPMTechTest/JPMTechTest.cpp:95-127 | The weekend rule as a table. AED/SAR: Friday moves 2 days, Saturday 1. Other currencies: Saturday moves 2 days, Sunday 1. Any other day stays. |
| SettlementDates.NextBusinessDay | JPMTechTest/JPMTechTest.cpp:88-129 | The weekend adjustment. It gives a valid date 0 to 2 days later that is not a weekend day of the currency. |
| SettlementDates.SaturdayInPoundsMovesToMonday | JPMTechTest/JPMTechTest.cpp:95-161 | "4 Mar 2017" in GBP, a Saturday, settles on Monday 6 March 2017. |
| SettlementDates.FridayByCurrency | JPMTechTest/JPMTechTest.cpp:95-127 | Friday 3 March 2017 moves to Sunday 5 March in AED and stays in GBP. |
| SettlementDates.NextBusinessDayIsFirstBusinessDay | JPMTechTest/JPMTechTest.cpp:85-129 | The adjusted date is the first business day of the currency on or after the given date. It is not a weekend day, it is at most two days later, and every skipped day is a weekend day. A business day stays unchanged. |
| SettlementDates.SettlementDateClass.CalcWorkingDay | JPMTechTest/JPMTechTest.cpp:88-129 | The stored date becomes the currency's first business day on or after the old one. |
| SettlementDates.SettlementDateClass.ParseDate | JPMTechTest/JPMTechTest.cpp:134-161 | Fails exactly when the fields do not parse, returning that error and leaving the date unchanged. Otherwise the stored date is the parsed date moved past the weekend. |
| SettlementDates.SettlementDateClass.constructor | JPMTechTest/JPMTechTest.cpp:164-170 | Keeps the string and currency, and holds the adjusted date of the string. |
| SettlementDates.SettlementDateClass.GetDate | JPMTechTest/JPMTechTest.cpp:172-175 | The stored date is always a calendar date. |
| SettlementDates.SettlementDateClass.FormatDate | JPMTechTest/JPMTechTest.cpp:177-188 | For any stored date with a year below 65536, reading the formatted date back gives that date, with July and September read as December. |
| SettlementDates.FormatThenParse | JPMTechTest/JPMTechTest.cpp:178-188 | Formatting a date and then parsing the text gives the same year and day. The month is the same, except July and September become 12. |
| SettlementDates.Format | JPMTechTest/JPMTechTest.cpp:187 | The day, display month name and year, separated by spaces, are never shorter than 7 characters together. What they spell is stated by FormatThenParse. |
| SettlementDates.MonthOfDisplayName | JPMTechTest/JPMTechTest.cpp:180-181 | The parser reads every display month name as its own month number, except "July" and "Sept", which give 12. |
| SettlementDates.FormatThenParseJulySeptember | JPMTechTest/JPMTechTest.cpp:180-187 | Every July or September date, formatted and read back, lands in December. |
| Text.Find | JPMTechTest/JPMTechTest.cpp:141-148 | Returns the first occurrence of the character at or after the start position. If there is none, the character does not occur there. |
| Text.AtoiNatToString | JPMTechTest/JPMTechTest.cpp:145-155 | `atoi` of the decimal rendering of a number, after any leading white space, is that number. |
| Text.AtoiNonNumeric | JPMTechTest/JPMTechTest.cpp:145-155 | `atoi` of text that does not start with a sign or a digit after its leading white space is 0. |
| Text.ToUShort | JPMTechTest/JPMTechTest.cpp:137-155 | Narrowing to `unsigned short` gives a value in 0 .. 65535 and leaves values already in that range unchanged. |
| Text.LexLeTotal | JPMTechTest/JPMTechTest.cpp:310 | Any two date strings are comparable by `<=`. |
| Text.LexLeTransitive | JPMTechTest/JPMTechTest.cpp:310 | The string `<=` is transitive. |
| Text.LexLeAntisymmetric | JPMTechTest/JPMTechTest.cpp:310 | Two strings each `<=` the other are equal. |
| Calendar.AddDays | JPMTechTest/JPMTechTest.cpp:109-127 | Adding n days gives a valid date exactly n days later. |
| Calendar.AddDaysWeekday | JPMTechTest/JPMTechTest.cpp:90-127 | n days later is n places further round the week. |
| Calendar.DayOfWeek | JPMTechTest/JPMTechTest.cpp:90-91 | The weekday number is 0 (Sunday) to 6 (Saturday). |
| Calendar.KnownWeekdays | JPMTechTest/JPMTechTest.cpp:90-91 | The weekday numbering agrees with the real calendar. 3 March 2017 is a Friday (5), 4 March a Saturday (6), 5 March a Sunday (0), and 1 January of year 1 a Monday (1). |
| Transactions.Validate | JPMTechTest/JPMTechTest.cpp:208-249 | No error exactly when every check passes. Otherwise the error names a failed check, with its message, and every check before it passed. |
| Transactions.WellFormedIffEveryCheckHolds | JPMTechTest/JPMTechTest.cpp:208-249 | An order is valid exactly when each of its eight field checks holds. |
| Transactions.NewTransaction | JPMTechTest/JPMTechTest.cpp:255-269 | The constructor succeeds exactly when the fields are valid, and the order then holds exactly those fields. On failure it reports Validate's first error. |
| Transactions.Equals | JPMTechTest/JPMTechTest.cpp:272-278 | The field-by-field comparison holds exactly when the orders are equal. |
| Transactions.SettlementDate | JPMTechTest/JPMTechTest.cpp:288-292 | Gives a non-empty date string exactly when the settlement string parses. |
| Transactions.DollarPrice | JPMTechTest/JPMTechTest.cpp:297-300 | Every valid order has a positive dollar price. |
| TransactionReports.InsertShape | JPMTechTest/JPMTechTest.cpp:308-330 | Insertion fails exactly when a needed date cannot be computed. On success the list gains exactly the new order, at the end or at the front. It goes at the end exactly when the list was empty or the last date is `<=` the new one. |
| TransactionReports.Insert | JPMTechTest/JPMTechTest.cpp:310-317 | The append-or-prepend rule. On success it gives the list with the order at the end or at the front. It fails only on a non-empty list whose last order or new order has no computable date. |
| TransactionReports.InsertError | JPMTechTest/JPMTechTest.cpp:310 | A failed insertion reports the last order's date error if it has one, else the new order's. |
| TransactionReports.InsertAppendKeepsSorted | JPMTechTest/JPMTechTest.cpp:310-312 | Appending to a sorted list keeps it sorted. |
| TransactionReports.InsertPrependSortedIff | JPMTechTest/JPMTechTest.cpp:314-317 | Prepending to a sorted list keeps it sorted exactly when the new date is also `<=` the head's. |
| TransactionReports.InsertKeepsUndatedAlone | JPMTechTest/JPMTechTest.cpp:308-330 | An order without a computable date only ever sits alone in a list. Inserting into a non-empty list leaves every order dated. |
| TransactionReports.InsertKeepsSide | JPMTechTest/JPMTechTest.cpp:333-344 | Inserting an order of the list's side keeps every order on that side, and an undated order alone. |
| TransactionReports.TransactionReport.constructor | JPMTechTest/JPMTechTest.cpp:303-307 | Both lists start empty. |
| TransactionReports.TransactionReport.AddOutgoing | JPMTechTest/JPMTechTest.cpp:308-318 | `outgoing` becomes the list Insert gives; on a date error it is unchanged and the error is returned. `incoming` is untouched. |
| TransactionReports.TransactionReport.AddIncoming | JPMTechTest/JPMTechTest.cpp:320-330 | `incoming` becomes the list Insert gives; on a date error it is unchanged and the error is returned. `outgoing` is untouched. |
| TransactionReports.TransactionReport.AddTransaction | JPMTechTest/JPMTechTest.cpp:333-344 | A buy goes to `outgoing` and anything else to `incoming`, each as Insert says. The other list is unchanged. Buys stay outgoing and sells incoming. |
| TransactionReports.GroupTotals | JPMTechTest/JPMTechTest.cpp:353-377 | With every date computable, the loop prints the totals of the maximal runs of equal dates, or one empty zero line for no orders. Otherwise it stops at the first undated order, with every total before it except the group still open. |
| TransactionReports.TransactionReport.GenOutgoingReport | JPMTechTest/JPMTechTest.cpp:353-377 | Gives one "Outgoing" line per run total, then an empty line. On a date error it gives the lines before the first undated order and the error. For a list built by AddTransaction, that error case prints nothing. |
| TransactionReports.TransactionReport.GenIncomingReport | JPMTechTest/JPMTechTest.cpp:380-404 | The same for `incoming`, with "Incoming" lines and no trailing empty line. |
| TransactionReports.TransactionReport.GenReport | JPMTechTest/JPMTechTest.cpp:346-350 | Succeeds exactly when both lists are fully dated, and then prints the buy report followed by the sell report. For a report built by AddTransaction: a date error in the buy report prints nothing; a date error in the sell report leaves only the complete buy report. |
| TransactionReports.SortedListGivesDistinctTotals | JPMTechTest/JPMTechTest.cpp:308-377 | When a list is sorted by date, its report has one line per distinct date. |
| TransactionReports.UndatedIsFirst | JPMTechTest/JPMTechTest.cpp:358-376 | In a list kept by AddTransaction, the first undated order heads the list, so nothing is printed before the error. |
| TransactionReports.FirstUndatedSpec | JPMTechTest/JPMTechTest.cpp:358-371 | Every order before the first undated index is dated, and the order at that index is not. |
| Grouping.ScanIsRuns | JPMTechTest/JPMTechTest.cpp:355-373 | With positive amounts, the loop's printed groups plus its open group are exactly the runs read so far. |
| Grouping.ReportStep | JPMTechTest/JPMTechTest.cpp:360-373 | One loop step keeps the printed groups plus the open group equal to the runs, with a positive open total. |
| Grouping.ScanPrintsTotals | JPMTechTest/JPMTechTest.cpp:355-376 | Everything the loop prints, including the final line, is the run totals. |
| Grouping.ScanPrintedSoFar | JPMTechTest/JPMTechTest.cpp:358-373 | What the loop has printed so far is every total except the last. |
| Grouping.RunsAdjacentDistinct | JPMTechTest/JPMTechTest.cpp:360-373 | Two consecutive report lines never carry the same date. |
| Grouping.RunsTotal | JPMTechTest/JPMTechTest.cpp:360-373 | The subtotals add up to the sum of all dollar prices. |
| Grouping.RunsSnoc | JPMTechTest/JPMTechTest.cpp:360-373 | One more entry either extends the last run, when its date repeats, or opens a new run. |
| Grouping.RunsOfSortedAreDistinct | JPMTechTest/JPMTechTest.cpp:360-373 | Over entries sorted by date, no two runs share a date. |

## Left out

- The program entry point with its sample orders, and the console: printing is modelled as the list of report lines, and the final key press is not modelled.
- Transactions.DollarPrice: the amounts are exact reals. So the rounding of `double` arithmetic and the printing of doubles are not modelled. Neither are NaN and infinity: a NaN rate or price passes the source's `<= 0.0` checks and gives a NaN dollar price, so "every valid order has a positive dollar price" holds for the model's reals only.
- Calendar.ValidDate: the date library accepts only a limited range of years and throws outside it. The model accepts every year from 1 on.
- Text.Atoi: `atoi` on a value outside the range of `int` is undefined behaviour in C. The model reads the digits as an unbounded number.
- SettlementDates.SettlementDateClass.constructor: requires a date that parses, because the source constructor throws otherwise. ParseDate and Transactions.SettlementDate model that failure as an error value.
- The exception types and the out-of-range messages of the date library are not modelled. They are represented by the two values of `DateError`.
- AddOutgoing and AddIncoming: C++ does not fix which of the two settlement dates in the comparison is computed first. The model computes the last order's date first, so when both fail, the last order's error is the one returned.
- The read-only accessors of `Transaction` are the fields of the datatype.
- Strings are modelled as sequences of characters, one per byte, as for ASCII input. `std::string::length` counts bytes, so for text encoded in several bytes per character the currency check (three characters in Transactions.Validate) differs from the source.
- SettlementDates.SettlementDateClass.FormatDate: the read-back is stated only for years below 65536, because the year is narrowed to `unsigned short` before it is written.
