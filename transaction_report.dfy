/**
 * The aggregation of orders (`TransactionReport` in JPMTechTest.cpp): buys go
 * to `outgoing`, sells to `incoming`, each list kept by the append-or-prepend
 * rule on formatted settlement dates, and a report of subtotals per date.
 */
module TransactionReports {
  import opened Wrappers
  import opened Text
  import opened SettlementDates
  import opened Transactions
  import opened Grouping

  /**
   * How an order's settlement date is rendered for the report. The class below
   * always passes `SettlementDate`; the list rules are stated for any such
   * function, since they depend only on the strings it returns.
   */
  type DateFunction<-T> = T -> Result<string, DateError>

  /** What an order is worth in the report; the class below passes `DollarPrice`. */
  type PriceFunction<-T> = T -> real

  predicate Dated<T>(t: T, date: DateFunction<T>) {
    date(t).Success?
  }

  predicate AllDated<T>(list: seq<T>, date: DateFunction<T>) {
    forall i :: 0 <= i < |list| ==> Dated(list[i], date)
  }

  function DateOf<T>(t: T, date: DateFunction<T>): string
    requires Dated(t, date)
  {
    date(t).value
  }

  /** The list ordered by `std::string`'s `<=` on formatted settlement dates. */
  predicate Sorted<T>(list: seq<T>, date: DateFunction<T>) {
    && AllDated(list, date)
    && forall i, j :: 0 <= i < j < |list| ==> LexLe(DateOf(list[i], date), DateOf(list[j], date))
  }

  /**
   * An order whose settlement date cannot be computed only ever sits alone in
   * a list: it gets in only when the list is empty, and every later insertion
   * fails on it.
   */
  predicate UndatedOnlyAlone<T>(list: seq<T>, date: DateFunction<T>) {
    forall i :: 0 <= i < |list| && !Dated(list[i], date) ==> |list| == 1
  }

  /**
   * AddOutgoing and AddIncoming as a function of the list before the call:
   * an empty list takes the order without looking at any date; otherwise the
   * order goes to the end when the last order's formatted date is `<=` its own,
   * and to the front when not. A date that cannot be computed aborts the call,
   * the last order's date being computed first.
   */
  function Insert<T>(list: seq<T>, t: T, date: DateFunction<T>)
    : (r: Result<seq<T>, DateError>)
    ensures r.Success? ==> r.value == list + [t] || r.value == [t] + list
    ensures r.Failure? ==> list != [] && (!Dated(list[|list| - 1], date) || !Dated(t, date))
  {
    if |list| == 0 then Success([t])
    else
      var back := date(list[|list| - 1]);
      var mine := date(t);
      if back.Failure? then Failure(back.error)
      else if mine.Failure? then Failure(mine.error)
      else if LexLe(back.value, mine.value) then Success(list + [t])
      else Success([t] + list)
  }

  /**
   * Insertion fails exactly when a date is needed and cannot be computed; when
   * it succeeds the list grows by the one order, at the end or at the front
   * (so the other orders keep their relative order), and at the end exactly
   * when the list was empty or its last date is `<=` the new one.
   */
  lemma {:induction false} InsertShape<T>(list: seq<T>, t: T, date: DateFunction<T>)
    ensures Insert(list, t, date).Success? <==> list == [] || (Dated(list[|list| - 1], date) && Dated(t, date))
    ensures Insert(list, t, date).Success? ==>
      var r := Insert(list, t, date).value;
      && |r| == |list| + 1
      && multiset(r) == multiset(list) + multiset{t}
      && (r == list + [t] || r == [t] + list)
      && (r == list + [t] <==> list == [] || LexLe(DateOf(list[|list| - 1], date), DateOf(t, date)))
  {
    if list == [] {
      assert [t] == list + [t];
    } else if Dated(list[|list| - 1], date) && Dated(t, date) {
      var r := Insert(list, t, date).value;
      if !LexLe(DateOf(list[|list| - 1], date), DateOf(t, date)) {
        assert r == [t] + list;
        if r == list + [t] {
          assert r[|r| - 1] == t == list[|list| - 1];
          LexLeReflexive(DateOf(t, date));
        }
      }
    }
  }

  /** The error of a failed insertion: the last order's date error if it has one, else the new order's. */
  lemma {:induction false} InsertError<T>(list: seq<T>, t: T, date: DateFunction<T>)
    requires Insert(list, t, date).Failure?
    ensures list != []
    ensures Insert(list, t, date).error ==
      if !Dated(list[|list| - 1], date) then date(list[|list| - 1]).error else date(t).error
  {
  }

  /** Appending to a sorted list an order dated no earlier than its tail keeps it sorted. */
  lemma {:induction false} InsertAppendKeepsSorted<T>(list: seq<T>, t: T, date: DateFunction<T>)
    requires Sorted(list, date) && Dated(t, date)
    requires list == [] || LexLe(DateOf(list[|list| - 1], date), DateOf(t, date))
    ensures Insert(list, t, date) == Success(list + [t])
    ensures Sorted(list + [t], date)
  {
    var r := list + [t];
    if list == [] {
      assert [t] == r;
    }
    forall i, j | 0 <= i < j < |r|
      ensures LexLe(DateOf(r[i], date), DateOf(r[j], date))
    {
      if j == |list| && i < |list| - 1 {
        LexLeTransitive(DateOf(list[i], date), DateOf(list[|list| - 1], date), DateOf(t, date));
      }
    }
  }

  /**
   * Putting an order at the front of a sorted list (the tail's date being
   * after its own) leaves the list sorted exactly when the order is also dated
   * no later than the head: the rule is not a sort.
   */
  lemma {:induction false} InsertPrependSortedIff<T>(list: seq<T>, t: T, date: DateFunction<T>)
    requires Sorted(list, date) && list != [] && Dated(t, date)
    requires !LexLe(DateOf(list[|list| - 1], date), DateOf(t, date))
    ensures Insert(list, t, date) == Success([t] + list)
    ensures Sorted([t] + list, date) <==> LexLe(DateOf(t, date), DateOf(list[0], date))
  {
    var r := [t] + list;
    if Sorted(r, date) {
      assert LexLe(DateOf(r[0], date), DateOf(r[1], date));
    }
    if LexLe(DateOf(t, date), DateOf(list[0], date)) {
      forall i, j | 0 <= i < j < |r|
        ensures LexLe(DateOf(r[i], date), DateOf(r[j], date))
      {
        if i == 0 && j > 1 {
          LexLeTransitive(DateOf(t, date), DateOf(list[0], date), DateOf(list[j - 1], date));
        }
      }
    }
  }

  /** Insertion keeps a lone undated order alone: it never lets a second order join it. */
  lemma {:induction false} InsertKeepsUndatedAlone<T>(list: seq<T>, t: T, date: DateFunction<T>)
    requires UndatedOnlyAlone(list, date) && Insert(list, t, date).Success?
    ensures UndatedOnlyAlone(Insert(list, t, date).value, date)
    ensures list != [] ==> AllDated(Insert(list, t, date).value, date)
  {
    InsertShape(list, t, date);
    if list != [] {
      var r := Insert(list, t, date).value;
      assert AllDated(list, date);
      assert forall i :: 0 <= i < |r| ==> r[i] == t || r[i] in list;
    }
  }

  /** The (date, amount) entry each order contributes to the report. */
  function Entries<T>(list: seq<T>, date: DateFunction<T>, price: PriceFunction<T>): seq<Entry>
    requires AllDated(list, date)
  {
    seq(|list|, i requires 0 <= i < |list| => Entry(DateOf(list[i], date), price(list[i])))
  }

  lemma {:induction false} EntriesSnoc<T>(list: seq<T>, t: T, date: DateFunction<T>, price: PriceFunction<T>)
    requires AllDated(list, date) && Dated(t, date)
    ensures AllDated(list + [t], date)
    ensures Entries(list + [t], date, price) == Entries(list, date, price) + [Entry(DateOf(t, date), price(t))]
  {
    assert forall i :: 0 <= i < |list| ==> (list + [t])[i] == list[i];
  }

  /** A sorted list gives entries in date order, so each date heads exactly one report line. */
  lemma {:induction false} SortedListGivesDistinctTotals<T>(list: seq<T>, date: DateFunction<T>, price: PriceFunction<T>)
    requires Sorted(list, date)
    ensures SortedDates(Entries(list, date, price))
    ensures forall i, j :: 0 <= i < j < |Runs(Entries(list, date, price))| ==>
      Runs(Entries(list, date, price))[i].date != Runs(Entries(list, date, price))[j].date
  {
    RunsOfSortedAreDistinct(Entries(list, date, price));
  }

  /** Index of the first order whose settlement date cannot be computed, or the length of the list. */
  function FirstUndated<T>(list: seq<T>, date: DateFunction<T>): (i: nat)
    ensures i <= |list|
  {
    if list == [] || !Dated(list[0], date) then 0 else 1 + FirstUndated(list[1..], date)
  }

  /** Every order before the first undated index is dated, and the one at that index, if any, is not. */
  lemma {:induction false} FirstUndatedSpec<T>(list: seq<T>, date: DateFunction<T>)
    ensures var i := FirstUndated(list, date);
      AllDated(list[..i], date) && (i < |list| ==> !Dated(list[i], date))
  {
    if list != [] && Dated(list[0], date) {
      var i := FirstUndated(list, date);
      FirstUndatedSpec(list[1..], date);
      assert list[..i] == [list[0]] + list[1..][..i - 1];
    }
  }

  /** The index of an undated order preceded only by dated ones is the first undated index. */
  lemma {:induction false} FirstUndatedIs<T>(list: seq<T>, date: DateFunction<T>, i: nat)
    requires i < |list| && AllDated(list[..i], date) && !Dated(list[i], date)
    ensures FirstUndated(list, date) == i
  {
    if i > 0 {
      assert list[..i][0] == list[0];
      assert list[1..][..i - 1] == list[..i][1..];
      FirstUndatedIs(list[1..], date, i - 1);
    }
  }

  /** The entries of orders whose prices are all positive have positive amounts. */
  lemma {:induction false} EntriesPositive<T>(list: seq<T>, date: DateFunction<T>, price: PriceFunction<T>)
    requires AllDated(list, date)
    requires forall i :: 0 <= i < |list| ==> price(list[i]) > 0.0
    ensures Positive(Entries(list, date, price))
  {
  }

  /**
   * What the report loop leaves when a date cannot be computed: the error is
   * that of the first undated order, and the groups printed are those of the
   * orders before it, less the group still open.
   */
  predicate StoppedAt<T>(trades: seq<T>, date: DateFunction<T>, price: PriceFunction<T>, groups: seq<Group>, e: DateError) {
    var k := FirstUndated(trades, date);
    && k < |trades|
    && date(trades[k]) == Failure(e)
    && AllDated(trades[..k], date)
    && groups == AllButLast(Totals(Entries(trades[..k], date, price)))
  }

  lemma {:induction false} StoppedHere<T>(trades: seq<T>, date: DateFunction<T>, price: PriceFunction<T>, i: nat, groups: seq<Group>)
    requires forall k :: 0 <= k < |trades| ==> price(trades[k]) > 0.0
    requires i < |trades| && AllDated(trades[..i], date) && date(trades[i]).Failure?
    requires groups == Scan(Entries(trades[..i], date, price)).printed
    ensures !AllDated(trades, date)
    ensures StoppedAt(trades, date, price, groups, date(trades[i]).error)
  {
    FirstUndatedIs(trades, date, i);
    EntriesPositive(trades[..i], date, price);
    ScanPrintedSoFar(Entries(trades[..i], date, price));
  }

  /**
   * The loop of GenOutgoingReport and GenIncomingReport: walk the list once,
   * adding each order's dollar price to a running total while the formatted date
   * repeats; on a new date, print the finished group (unless its total is 0,
   * which only the empty start has), then start a new one; print the last group
   * at the end. A date that cannot be computed stops the walk with the groups
   * printed so far.
   */
  method GroupTotals<T>(trades: seq<T>, date: DateFunction<T>, price: PriceFunction<T>)
    returns (groups: seq<Group>, err: Option<DateError>)
    requires forall i :: 0 <= i < |trades| ==> price(trades[i]) > 0.0
    ensures err.None? <==> AllDated(trades, date)
    ensures err.None? ==> groups == Totals(Entries(trades, date, price))
    ensures err.Some? ==> StoppedAt(trades, date, price, groups, err.value)
  {
    var currDate := "";
    var total := 0.0;
    groups := [];
    var i := 0;
    while i < |trades|
      invariant 0 <= i <= |trades|
      invariant AllDated(trades[..i], date)
      invariant ReportState(groups, currDate, total) == Scan(Entries(trades[..i], date, price))
    {
      var t := trades[i];
      var d := date(t);
      if d.Failure? {
        StoppedHere(trades, date, price, i, groups);
        return groups, Some(d.error);
      }
      ghost var p := Entries(trades[..i], date, price);
      var e := Entry(d.value, price(t));
      assert trades[..i + 1] == trades[..i] + [t];
      EntriesSnoc(trades[..i], t, date, price);
      assert (p + [e])[..|p|] == p;
      if d.value == currDate {
        total := total + price(t);
      } else {
        if total != 0.0 {
          groups := groups + [Group(currDate, total)];
        }
        currDate := d.value;
        total := price(t);
      }
      i := i + 1;
    }
    assert trades[..i] == trades;
    EntriesPositive(trades, date, price);
    ScanPrintsTotals(Entries(trades, date, price));
    groups := groups + [Group(currDate, total)];
    err := None;
  }

  /** One printed line of the report: "<direction> total for <date> = <total>", or an empty line. */
  datatype ReportLine = TotalLine(direction: string, date: string, total: real) | BlankLine

  function Lines(direction: string, groups: seq<Group>): seq<ReportLine>
  {
    seq(|groups|, i requires 0 <= i < |groups| => TotalLine(direction, groups[i].date, groups[i].total))
  }

  /**
   * What a list of the report keeps across an insertion: every order on the
   * same side of the market, and an undated order only when alone.
   */
  predicate SideList(list: seq<ValidTransaction>, side: char, date: DateFunction<ValidTransaction>) {
    && (forall i :: 0 <= i < |list| ==> list[i].buySell == side)
    && UndatedOnlyAlone(list, date)
  }

  /** Inserting an order of the list's side keeps the list a list of that side. */
  lemma {:induction false} InsertKeepsSide(list: seq<ValidTransaction>, t: ValidTransaction, side: char, date: DateFunction<ValidTransaction>)
    requires SideList(list, side, date) && t.buySell == side && Insert(list, t, date).Success?
    ensures SideList(Insert(list, t, date).value, side, date)
  {
    InsertKeepsUndatedAlone(list, t, date);
    InsertShape(list, t, date);
    var r := Insert(list, t, date).value;
    assert forall i :: 0 <= i < |r| ==> r[i] == t || r[i] in list;
  }

  class TransactionReport {
    var outgoing: seq<ValidTransaction>
    var incoming: seq<ValidTransaction>

    /** Buys are outgoing, sells incoming, and an undated order is only ever alone in its list. */
    ghost predicate Valid()
      reads this
    {
      SideList(outgoing, 'B', SettlementDate) && SideList(incoming, 'S', SettlementDate)
    }

    constructor ()
      ensures Valid() && outgoing == [] && incoming == []
    {
      outgoing := [];
      incoming := [];
    }

    method AddOutgoing(trans: ValidTransaction) returns (err: Option<DateError>)
      modifies this
      ensures incoming == old(incoming)
      ensures match Insert(old(outgoing), trans, SettlementDate)
        case Success(list) => err.None? && outgoing == list
        case Failure(e) => err == Some(e) && outgoing == old(outgoing)
    {
      if |outgoing| == 0 {
        outgoing := outgoing + [trans];
        return None;
      }
      var back := SettlementDate(outgoing[|outgoing| - 1]);
      if back.Failure? {
        return Some(back.error);
      }
      var date := SettlementDate(trans);
      if date.Failure? {
        return Some(date.error);
      }
      if LexLe(back.value, date.value) {
        outgoing := outgoing + [trans];
      } else {
        outgoing := [trans] + outgoing;
      }
      err := None;
    }

    method AddIncoming(trans: ValidTransaction) returns (err: Option<DateError>)
      modifies this
      ensures outgoing == old(outgoing)
      ensures match Insert(old(incoming), trans, SettlementDate)
        case Success(list) => err.None? && incoming == list
        case Failure(e) => err == Some(e) && incoming == old(incoming)
    {
      if |incoming| == 0 {
        incoming := incoming + [trans];
        return None;
      }
      var back := SettlementDate(incoming[|incoming| - 1]);
      if back.Failure? {
        return Some(back.error);
      }
      var date := SettlementDate(trans);
      if date.Failure? {
        return Some(date.error);
      }
      if LexLe(back.value, date.value) {
        incoming := incoming + [trans];
      } else {
        incoming := [trans] + incoming;
      }
      err := None;
    }

    /**
     * Routes a buy to `outgoing` and anything else to `incoming`; only that list
     * changes, and it changes as Insert says.
     */
    method AddTransaction(trans: ValidTransaction) returns (err: Option<DateError>)
      requires Valid()
      modifies this
      ensures Valid()
      ensures trans.buySell == 'B' ==> incoming == old(incoming)
      ensures trans.buySell == 'B' ==>
        match Insert(old(outgoing), trans, SettlementDate)
        case Success(list) => err.None? && outgoing == list
        case Failure(e) => err == Some(e) && outgoing == old(outgoing)
      ensures trans.buySell != 'B' ==> outgoing == old(outgoing)
      ensures trans.buySell != 'B' ==>
        match Insert(old(incoming), trans, SettlementDate)
        case Success(list) => err.None? && incoming == list
        case Failure(e) => err == Some(e) && incoming == old(incoming)
    {
      if trans.buySell == 'B' {
        ghost var before := outgoing;
        err := AddOutgoing(trans);
        if err.None? {
          InsertKeepsSide(before, trans, 'B', SettlementDate);
        }
      } else {
        ghost var before := incoming;
        err := AddIncoming(trans);
        if err.None? {
          InsertKeepsSide(before, trans, 'S', SettlementDate);
        }
      }
    }

    /**
     * The buy report: one line per group of equal formatted dates, then an empty
     * line; when a date cannot be computed, the lines printed before it and the
     * error, which for a valid report means no line at all.
     */
    method GenOutgoingReport() returns (lines: seq<ReportLine>, err: Option<DateError>)
      ensures err.None? <==> AllDated(outgoing, SettlementDate)
      ensures err.None? ==> lines == Lines("Outgoing", Totals(Entries(outgoing, SettlementDate, DollarPrice))) + [BlankLine]
      ensures err.Some? ==> AllDated(outgoing[..FirstUndated(outgoing, SettlementDate)], SettlementDate)
      ensures err.Some? ==>
        lines == Lines("Outgoing", AllButLast(Totals(Entries(outgoing[..FirstUndated(outgoing, SettlementDate)], SettlementDate, DollarPrice))))
      ensures Valid() && err.Some? ==> lines == []
    {
      var groups;
      groups, err := GroupTotals(outgoing, SettlementDate, DollarPrice);
      lines := Lines("Outgoing", groups);
      if err.None? {
        lines := lines + [BlankLine];
      } else {
        if Valid() {
          UndatedIsFirst(outgoing, SettlementDate, DollarPrice);
        }
      }
    }

    /** The sell report: as the buy report, without the trailing empty line. */
    method GenIncomingReport() returns (lines: seq<ReportLine>, err: Option<DateError>)
      ensures err.None? <==> AllDated(incoming, SettlementDate)
      ensures err.None? ==> lines == Lines("Incoming", Totals(Entries(incoming, SettlementDate, DollarPrice)))
      ensures err.Some? ==> AllDated(incoming[..FirstUndated(incoming, SettlementDate)], SettlementDate)
      ensures err.Some? ==>
        lines == Lines("Incoming", AllButLast(Totals(Entries(incoming[..FirstUndated(incoming, SettlementDate)], SettlementDate, DollarPrice))))
      ensures Valid() && err.Some? ==> lines == []
    {
      var groups;
      groups, err := GroupTotals(incoming, SettlementDate, DollarPrice);
      lines := Lines("Incoming", groups);
      if err.Some? && Valid() {
        UndatedIsFirst(incoming, SettlementDate, DollarPrice);
      }
    }

    /** Both reports, buys first; an error in the first stops before the second. */
    method GenReport() returns (lines: seq<ReportLine>, err: Option<DateError>)
      ensures err.None? <==> AllDated(outgoing, SettlementDate) && AllDated(incoming, SettlementDate)
      ensures err.None? ==>
        lines == Lines("Outgoing", Totals(Entries(outgoing, SettlementDate, DollarPrice))) + [BlankLine] + Lines("Incoming", Totals(Entries(incoming, SettlementDate, DollarPrice)))
      ensures Valid() && err.Some? && !AllDated(outgoing, SettlementDate) ==> lines == []
      ensures Valid() && err.Some? && AllDated(outgoing, SettlementDate) ==>
        lines == Lines("Outgoing", Totals(Entries(outgoing, SettlementDate, DollarPrice))) + [BlankLine]
    {
      lines, err := GenOutgoingReport();
      if err.None? {
        var more;
        more, err := GenIncomingReport();
        lines := lines + more;
      }
    }
  }

  /** In a list where an undated order is always alone, the first undated order heads the list. */
  lemma {:induction false} UndatedIsFirst<T>(list: seq<T>, date: DateFunction<T>, price: PriceFunction<T>)
    requires UndatedOnlyAlone(list, date) && !AllDated(list, date)
    ensures FirstUndated(list, date) == 0
    ensures AllButLast(Totals(Entries(list[..0], date, price))) == []
  {
    var i :| 0 <= i < |list| && !Dated(list[i], date);
    assert |list| == 1 && i == 0;
    FirstUndatedIs(list, date, 0);
    assert list[..0] == [];
  }
}
