/**
 * The specification of the report: a list of (date, amount) entries cut into
 * maximal runs of equal dates, one subtotal per run.
 */
module Grouping {
  import opened Text

  datatype Entry = Entry(date: string, amount: real)

  datatype Group = Group(date: string, total: real)

  function Sum(p: seq<Entry>): real {
    if p == [] then 0.0 else p[0].amount + Sum(p[1..])
  }

  /** Length of the leading run of entries that share the first entry's date. */
  function RunLength(p: seq<Entry>): (k: nat)
    requires p != []
    ensures 1 <= k <= |p|
    ensures forall i :: 0 <= i < k ==> p[i].date == p[0].date
    ensures k < |p| ==> p[k].date != p[0].date
  {
    if |p| == 1 || p[1].date != p[0].date then 1 else 1 + RunLength(p[1..])
  }

  /** One group per maximal run of equal dates, in order, carrying the run's sum. */
  function Runs(p: seq<Entry>): seq<Group>
    decreases |p|
  {
    if p == [] then []
    else
      var k := RunLength(p);
      [Group(p[0].date, Sum(p[..k]))] + Runs(p[k..])
  }

  /** The groups the report prints: the runs, or a single empty-labelled zero group when there is nothing. */
  function Totals(p: seq<Entry>): seq<Group> {
    if p == [] then [Group("", 0.0)] else Runs(p)
  }

  function AllButLast<T>(s: seq<T>): seq<T> {
    if s == [] then [] else s[..|s| - 1]
  }

  /** Entries in the order of `std::string`'s `<=` on their dates. */
  predicate SortedDates(p: seq<Entry>) {
    forall i, j :: 0 <= i < j < |p| ==> LexLe(p[i].date, p[j].date)
  }

  lemma {:induction false} RunLengthUnique(p: seq<Entry>, k: nat)
    requires 1 <= k <= |p|
    requires forall i :: 0 <= i < k ==> p[i].date == p[0].date
    requires k < |p| ==> p[k].date != p[0].date
    ensures RunLength(p) == k
  {
  }

  lemma {:induction false} SumAppend(p: seq<Entry>, q: seq<Entry>)
    ensures Sum(p + q) == Sum(p) + Sum(q)
  {
    if p != [] {
      assert (p + q)[1..] == p[1..] + q;
      SumAppend(p[1..], q);
    } else {
      assert p + q == q;
    }
  }

  /** Every run groups entries of one date and the next run starts on another. */
  lemma {:induction false} RunsAdjacentDistinct(p: seq<Entry>)
    ensures forall i :: 0 <= i < |Runs(p)| - 1 ==> Runs(p)[i].date != Runs(p)[i + 1].date
  {
    if p != [] {
      var k := RunLength(p);
      RunsAdjacentDistinct(p[k..]);
      if k < |p| {
        assert Runs(p[k..])[0].date == p[k].date;
      }
    }
  }

  /** The subtotals add up to the sum of all amounts. */
  lemma {:induction false} RunsTotal(p: seq<Entry>)
    ensures SumTotals(Runs(p)) == Sum(p)
  {
    if p != [] {
      var k := RunLength(p);
      RunsTotal(p[k..]);
      assert p == p[..k] + p[k..];
      SumAppend(p[..k], p[k..]);
    }
  }

  function SumTotals(g: seq<Group>): real {
    if g == [] then 0.0 else g[0].total + SumTotals(g[1..])
  }

  /** The groups once one more entry is read: the last group grows when the date repeats, else a new group opens. */
  function Extend(r: seq<Group>, e: Entry): seq<Group>
    requires r != []
  {
    var last := r[|r| - 1];
    if last.date == e.date then r[..|r| - 1] + [Group(e.date, last.total + e.amount)]
    else r + [Group(e.date, e.amount)]
  }

  /** Extend spelt out on a list whose last group is written separately. */
  lemma {:induction false} ExtendLast(r: seq<Group>, g: Group, e: Entry)
    ensures Extend(r + [g], e) ==
      if g.date == e.date then r + [Group(e.date, g.total + e.amount)] else r + [g, Group(e.date, e.amount)]
  {
    assert (r + [g])[..|r|] == r;
    assert (r + [g]) + [Group(e.date, e.amount)] == r + [g, Group(e.date, e.amount)];
  }

  /**
   * Adding one entry at the end either extends the last run (same date) or
   * opens a new one: the step the report loop takes per trade.
   */
  lemma {:induction false} RunsSnoc(p: seq<Entry>, e: Entry)
    requires p != []
    ensures Runs(p) != [] && Runs(p + [e]) == Extend(Runs(p), e)
  {
    var k := RunLength(p);
    if k < |p| {
      RunsSnoc(p[k..], e);
      RunsSnocLaterRun(p, e);
    } else if e.date == p[0].date {
      RunsSnocSameDate(p, e);
    } else {
      RunsSnocNewDate(p, e);
    }
  }

  /**
   * The variables of the report loop: the groups already printed, and the date
   * and running total of the group still open.
   */
  datatype ReportState = ReportState(printed: seq<Group>, currDate: string, total: real)

  /**
   * The loop body for one entry: a repeated date adds to the open group; a new
   * date prints the open group, unless its total is 0, and opens a new one.
   */
  function Step(s: ReportState, e: Entry): ReportState {
    if e.date == s.currDate then ReportState(s.printed, s.currDate, s.total + e.amount)
    else ReportState(if s.total != 0.0 then s.printed + [Group(s.currDate, s.total)] else s.printed, e.date, e.amount)
  }

  /** The loop's variables after reading p, starting from an empty date and a zero total. */
  function Scan(p: seq<Entry>): ReportState {
    if p == [] then ReportState([], "", 0.0) else Step(Scan(p[..|p| - 1]), p[|p| - 1])
  }

  /** Everything printed once the loop is over: the groups printed in it, then the open group. */
  function Close(s: ReportState): seq<Group> {
    s.printed + [Group(s.currDate, s.total)]
  }

  predicate Positive(p: seq<Entry>) {
    forall k :: 0 <= k < |p| ==> p[k].amount > 0.0
  }

  /** One step of the loop keeps the open group and the printed ones equal to the runs read so far. */
  lemma {:induction false} ReportStep(p: seq<Entry>, s: ReportState, e: Entry)
    requires p == [] ==> s == ReportState([], "", 0.0)
    requires p != [] ==> s.total > 0.0 && Close(s) == Runs(p)
    requires e.amount > 0.0
    ensures Step(s, e).total > 0.0 && Close(Step(s, e)) == Runs(p + [e])
  {
    if p == [] {
      SingleRun(e);
      assert p + [e] == [e];
    } else {
      RunsSnoc(p, e);
      ExtendLast(s.printed, Group(s.currDate, s.total), e);
    }
  }

  /** With positive amounts, the loop's state is always the runs read so far, the last one open. */
  lemma {:induction false} ScanIsRuns(p: seq<Entry>)
    requires Positive(p)
    ensures p == [] ==> Scan(p) == ReportState([], "", 0.0)
    ensures p != [] ==> Scan(p).total > 0.0 && Close(Scan(p)) == Runs(p)
  {
    if p != [] {
      var q, e := p[..|p| - 1], p[|p| - 1];
      assert q + [e] == p;
      assert Positive(q) by {
        assert forall k :: 0 <= k < |q| ==> q[k] == p[k];
      }
      assert Scan(p) == Step(Scan(q), e);
      ScanIsRuns(q);
      ReportStep(q, Scan(q), e);
    }
  }

  /** What the whole loop prints is the totals: one per run, or one empty zero group. */
  lemma {:induction false} ScanPrintsTotals(p: seq<Entry>)
    requires Positive(p)
    ensures Close(Scan(p)) == Totals(p)
  {
    ScanIsRuns(p);
  }

  /** What the loop has printed after reading p is every total of p but the last. */
  lemma {:induction false} ScanPrintedSoFar(p: seq<Entry>)
    requires Positive(p)
    ensures Scan(p).printed == AllButLast(Totals(p))
  {
    ScanIsRuns(p);
    var s := Scan(p);
    if p != [] {
      assert (s.printed + [Group(s.currDate, s.total)])[..|s.printed|] == s.printed;
    }
  }

  lemma {:induction false} RunsSnocLaterRun(p: seq<Entry>, e: Entry)
    requires p != [] && RunLength(p) < |p|
    requires Runs(p[RunLength(p)..]) != []
    requires Runs(p[RunLength(p)..] + [e]) == Extend(Runs(p[RunLength(p)..]), e)
    ensures Runs(p) != [] && Runs(p + [e]) == Extend(Runs(p), e)
  {
    var k := RunLength(p);
    var q := p + [e];
    RunLengthSnoc(p, e);
    SnocSlices(p, e, k);
    var head := Group(p[0].date, Sum(p[..k]));
    var rest := Runs(p[k..]);
    assert Runs(p) == [head] + rest;
    assert Runs(q) == [head] + Extend(rest, e);
    ExtendCons(head, rest, e);
  }

  lemma {:induction false} RunLengthSnoc(p: seq<Entry>, e: Entry)
    requires p != [] && RunLength(p) < |p|
    ensures RunLength(p + [e]) == RunLength(p)
  {
    var k := RunLength(p);
    var q := p + [e];
    assert forall i :: 0 <= i < k + 1 ==> q[i] == p[i];
    RunLengthUnique(q, k);
  }

  lemma {:induction false} SnocSlices<T>(p: seq<T>, e: T, k: nat)
    requires k <= |p|
    ensures (p + [e])[..k] == p[..k] && (p + [e])[k..] == p[k..] + [e]
  {
  }

  lemma {:induction false} ExtendCons(head: Group, r: seq<Group>, e: Entry)
    requires r != []
    ensures Extend([head] + r, e) == [head] + Extend(r, e)
  {
    assert ([head] + r)[..|r|] == [head] + r[..|r| - 1];
  }

  lemma {:induction false} RunsSnocSameDate(p: seq<Entry>, e: Entry)
    requires p != [] && RunLength(p) == |p| && e.date == p[0].date
    ensures Runs(p) != [] && Runs(p + [e]) == Extend(Runs(p), e)
  {
    var k := |p|;
    var q := p + [e];
    RunLengthUnique(q, k + 1);
    assert q[..k + 1] == p + [e] && q[k + 1..] == [];
    SumAppend(p, [e]);
    assert p[..k] == p && p[k..] == [];
    assert Sum([e]) == e.amount + Sum([]);
    assert Runs(p) == [Group(p[0].date, Sum(p))];
    assert Runs(q) == [Group(e.date, Sum(p) + e.amount)];
  }

  lemma {:induction false} RunsSnocNewDate(p: seq<Entry>, e: Entry)
    requires p != [] && RunLength(p) == |p| && e.date != p[0].date
    ensures Runs(p) != [] && Runs(p + [e]) == Extend(Runs(p), e)
  {
    var k := |p|;
    var q := p + [e];
    assert q[..k] == p;
    RunLengthUnique(q, k);
    assert q[k..] == [e];
    assert p[..k] == p && p[k..] == [];
    SingleRun(e);
    var head := Group(p[0].date, Sum(p));
    assert Runs(p) == [head];
    assert Runs(q) == [head] + [Group(e.date, e.amount)];
  }

  lemma {:induction false} SingleRun(e: Entry)
    ensures Runs([e]) == [Group(e.date, e.amount)]
  {
    assert [e][..1] == [e] && [e][1..] == [];
    assert Sum([e]) == e.amount + Sum([]);
  }

  /** Over sorted entries, no group's date comes before the first entry's. */
  lemma {:induction false} RunsOfSortedStartAtFirst(p: seq<Entry>)
    requires p != [] && SortedDates(p)
    ensures forall i :: 0 <= i < |Runs(p)| ==> LexLe(p[0].date, Runs(p)[i].date)
  {
    var k := RunLength(p);
    LexLeReflexive(p[0].date);
    if k < |p| {
      RunsOfSortedStartAtFirst(p[k..]);
      forall i | 0 < i < |Runs(p)|
        ensures LexLe(p[0].date, Runs(p)[i].date)
      {
        assert Runs(p)[i] == Runs(p[k..])[i - 1];
        assert p[k..][0] == p[k];
        LexLeTransitive(p[0].date, p[k].date, Runs(p)[i].date);
      }
    }
  }

  /**
   * Over sorted entries the group dates strictly increase, so each date has
   * exactly one group.
   */
  lemma {:induction false} RunsOfSortedAreDistinct(p: seq<Entry>)
    requires SortedDates(p)
    ensures forall i, j :: 0 <= i < j < |Runs(p)| ==> Runs(p)[i].date != Runs(p)[j].date
  {
    if p != [] {
      var k := RunLength(p);
      RunsOfSortedAreDistinct(p[k..]);
      if k < |p| {
        RunsOfSortedStartAtFirst(p[k..]);
        forall j | 0 < j < |Runs(p)|
          ensures Runs(p)[0].date != Runs(p)[j].date
        {
          var g := Runs(p[k..])[j - 1];
          assert Runs(p)[j] == g;
          assert p[k..][0] == p[k];
          assert LexLe(p[0].date, p[k].date);
          if g.date == p[0].date {
            LexLeAntisymmetric(p[0].date, p[k].date);
          }
        }
      }
    }
  }
}
