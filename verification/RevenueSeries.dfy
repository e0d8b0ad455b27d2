/**
  The daily series is computed here as the service does, by merging three
  grouped results into a map of days; its points add up to the dashboard's
  figures, and consecutive periods add up to their span.
 */
module RevenueSeries {
  import opened Options
  import opened RevenueModel

  // ---------------------------------------------------------------------------
  // Merging three grouped results
  // ---------------------------------------------------------------------------

  lemma {:induction false} SilentDay(entries: seq<Entry>, w: Window, d: Day)
    requires d !in DaysOf(entries, w)
    ensures SumOn(entries, w, d) == 0
  {
    if entries != [] {
      assert forall i :: 0 <= i < |entries| - 1 ==> entries[1..][i] == entries[i + 1];
      SilentDay(entries[1..], w, d);
    }
  }

  /** Days without a row of a source show that source's zeroes. */
  lemma NoLedgerRow(b: Books, w: Window, d: Day, p: Point)
    requires d !in DaysOf(LineEntries(b.ledger), w) && p.gross == p.net == p.transactions == 0
    ensures LedgerPart(b, w, d, p) == p
  {
    var lines := LineEntries(b.ledger);
    SilentDay(lines, w, d);
    SilentDay(Positive(lines), w, d);
    SilentDay(Ones(lines), w, d);
  }

  lemma NoSalesRow(b: Books, w: Window, d: Day, p: Point)
    requires d !in DaysOf(SaleEntries(b.cards), w) && p.codeSales == p.codeSaleCount == 0
    ensures SalesPart(b, w, d, p) == p
  {
    SilentDay(SaleEntries(b.cards), w, d);
    SilentDay(Ones(SaleEntries(b.cards)), w, d);
  }

  lemma NoTopUpRow(b: Books, w: Window, d: Day, p: Point)
    requires d !in DaysOf(TopUpEntries(b.topUps), w) && p.walletTopUps == p.walletTopUpCount == 0
    ensures TopUpPart(b, w, d, p) == p
  {
    SilentDay(TopUpEntries(b.topUps), w, d);
    SilentDay(Ones(TopUpEntries(b.topUps)), w, d);
  }

  function RowOf(days: map<Day, Point>, d: Day): Point {
    if d in days then days[d] else EMPTY
  }

  predicate Distinct(rows: seq<Day>) {
    forall i, j :: 0 <= i < j < |rows| ==> rows[i] != rows[j]
  }

  /** The days a grouped query has a row for, in some order. */
  method GroupDays(entries: seq<Entry>, w: Window) returns (rows: seq<Day>)
    ensures Distinct(rows) && forall d :: d in rows <==> d in DaysOf(entries, w)
  {
    var left := DaysOf(entries, w);
    rows := [];
    while left != {}
      invariant left <= DaysOf(entries, w) && Distinct(rows)
      invariant forall d :: d in DaysOf(entries, w) <==> d in rows || d in left
      invariant forall d :: d in left ==> d !in rows
      decreases |left|
    {
      Inhabited(left);
      var d :| d in left;
      left := left - {d};
      rows := rows + [d];
    }
  }

  method MergeLedger(b: Books, w: Window, rows: seq<Day>, before: map<Day, Point>) returns (days: map<Day, Point>)
    requires Distinct(rows)
    ensures forall d :: d in days <==> d in before || d in rows
    ensures forall d :: d in days ==>
              days[d] == if d in rows then LedgerPart(b, w, d, RowOf(before, d)) else RowOf(before, d)
  {
    hide LedgerPart;
    days := before;
    for i := 0 to |rows|
      invariant forall d :: d in days <==> d in before || d in rows[..i]
      invariant forall d :: d in days ==>
                  days[d] == if d in rows[..i] then LedgerPart(b, w, d, RowOf(before, d)) else RowOf(before, d)
    {
      days := days[rows[i] := LedgerPart(b, w, rows[i], RowOf(days, rows[i]))];
      assert rows[..i + 1] == rows[..i] + [rows[i]];
    }
    assert rows[..|rows|] == rows;
  }

  method MergeSales(b: Books, w: Window, rows: seq<Day>, before: map<Day, Point>) returns (days: map<Day, Point>)
    requires Distinct(rows)
    ensures forall d :: d in days <==> d in before || d in rows
    ensures forall d :: d in days ==>
              days[d] == if d in rows then SalesPart(b, w, d, RowOf(before, d)) else RowOf(before, d)
  {
    hide SalesPart;
    days := before;
    for i := 0 to |rows|
      invariant forall d :: d in days <==> d in before || d in rows[..i]
      invariant forall d :: d in days ==>
                  days[d] == if d in rows[..i] then SalesPart(b, w, d, RowOf(before, d)) else RowOf(before, d)
    {
      days := days[rows[i] := SalesPart(b, w, rows[i], RowOf(days, rows[i]))];
      assert rows[..i + 1] == rows[..i] + [rows[i]];
    }
    assert rows[..|rows|] == rows;
  }

  method MergeTopUps(b: Books, w: Window, rows: seq<Day>, before: map<Day, Point>) returns (days: map<Day, Point>)
    requires Distinct(rows)
    ensures forall d :: d in days <==> d in before || d in rows
    ensures forall d :: d in days ==>
              days[d] == if d in rows then TopUpPart(b, w, d, RowOf(before, d)) else RowOf(before, d)
  {
    hide TopUpPart;
    days := before;
    for i := 0 to |rows|
      invariant forall d :: d in days <==> d in before || d in rows[..i]
      invariant forall d :: d in days ==>
                  days[d] == if d in rows[..i] then TopUpPart(b, w, d, RowOf(before, d)) else RowOf(before, d)
    {
      days := days[rows[i] := TopUpPart(b, w, rows[i], RowOf(days, rows[i]))];
      assert rows[..i + 1] == rows[..i] + [rows[i]];
    }
    assert rows[..|rows|] == rows;
  }

  /** A day missing from a grouped result is as if that result had a row of zeroes for it. */
  lemma MergedRow(b: Books, w: Window, d: Day)
    ensures var row := if d in DaysOf(LineEntries(b.ledger), w) then LedgerPart(b, w, d, EMPTY) else EMPTY;
            var sold := if d in DaysOf(SaleEntries(b.cards), w) then SalesPart(b, w, d, row) else row;
            PointOn(b, w, d) == if d in DaysOf(TopUpEntries(b.topUps), w) then TopUpPart(b, w, d, sold) else sold
  {
    var row := LedgerPart(b, w, d, EMPTY);
    if d !in DaysOf(LineEntries(b.ledger), w) { NoLedgerRow(b, w, d, EMPTY); }
    if d !in DaysOf(SaleEntries(b.cards), w) { NoSalesRow(b, w, d, row); }
    if d !in DaysOf(TopUpEntries(b.topUps), w) { NoTopUpRow(b, w, d, SalesPart(b, w, d, row)); }
  }

  method SortDays(days: map<Day, Point>) returns (points: seq<DayPoint>)
    ensures Ascending(points)
    ensures forall d :: d in days <==> exists i :: 0 <= i < |points| && points[i].day == d
    ensures forall i :: 0 <= i < |points| ==> points[i].day in days && points[i].point == days[points[i].day]
  {
    points := [];
    var left := days.Keys;
    while left != {}
      invariant left <= days.Keys && Ascending(points)
      invariant forall d :: d in days ==> d in left || exists i :: 0 <= i < |points| && points[i].day == d
      invariant forall i :: 0 <= i < |points| ==> points[i].day in days && points[i].point == days[points[i].day]
      invariant forall i, d :: 0 <= i < |points| && d in left ==> points[i].day < d
      decreases |left|
    {
      var d := Least(left);
      left := left - {d};
      ghost var before := points;
      points := points + [DayPoint(d, days[d])];
      assert points[|before|].day == d;
      assert forall i :: 0 <= i < |before| ==> points[i] == before[i];
    }
  }

  lemma Inhabited(days: set<Day>)
    ensures days == {} || exists d :: d in days
  {
    if forall d :: d !in days { assert days == {}; }
  }

  method Least(days: set<Day>) returns (d: Day)
    requires days != {}
    ensures d in days && forall e :: e in days ==> d <= e
  {
    Inhabited(days);
    d :| d in days;
    var rest := days - {d};
    while rest != {}
      invariant d in days && rest <= days
      invariant forall e :: e in days && e !in rest ==> d <= e
      decreases |rest|
    {
      Inhabited(rest);
      var e :| e in rest;
      rest := rest - {e};
      if e < d { d := e; }
    }
  }

  /** `revenueSeries`. */
  method RevenueByDay(books: Books, w: Window, course: Option<CourseId>) returns (points: seq<DayPoint>)
    ensures IsSeries(Scope(books, course), w, points)
    ensures SumTotals(points) == TotalInPeriod(Scope(books, course), w)
    ensures forall c :: SumColumn(points, c) == Figure(Scope(books, course), w, c)
  {
    hide LedgerPart, SalesPart, TopUpPart, PointOn, DaysOf;
    var b := Scope(books, course);
    var ledger := GroupDays(LineEntries(b.ledger), w);
    var sales := GroupDays(SaleEntries(b.cards), w);
    var topUps := GroupDays(TopUpEntries(b.topUps), w);
    var days := MergeLedger(b, w, ledger, map[]);
    days := MergeSales(b, w, sales, days);
    days := MergeTopUps(b, w, topUps, days);
    forall d ensures d in days <==> d in ActiveDays(b, w) {}
    forall d | d in days ensures days[d] == PointOn(b, w, d) { MergedRow(b, w, d); }
    points := SortDays(days);
    SeriesMeetsDashboard(b, w, points);
  }

  // ---------------------------------------------------------------------------
  // A day's group counts each entry once
  // ---------------------------------------------------------------------------

  function SumDays(entries: seq<Entry>, w: Window, points: seq<DayPoint>): int {
    if points == [] then 0 else SumOn(entries, w, points[0].day) + SumDays(entries, w, points[1..])
  }

  predicate HasDay(points: seq<DayPoint>, d: Day) {
    exists i :: 0 <= i < |points| && points[i].day == d
  }

  lemma {:induction false} OneMoreEntry(e: Entry, rest: seq<Entry>, w: Window, points: seq<DayPoint>)
    requires Ascending(points)
    ensures SumDays([e] + rest, w, points)
            == SumDays(rest, w, points) + (if w.Has(e.at) && HasDay(points, DayOf(e.at)) then e.amount else 0)
  {
    if points != [] {
      OneMoreEntry(e, rest, w, points[1..]);
      assert ([e] + rest)[1..] == rest;
      assert HasDay(points, DayOf(e.at)) <==> points[0].day == DayOf(e.at) || HasDay(points[1..], DayOf(e.at)) by {
        if HasDay(points[1..], DayOf(e.at)) {
          var i :| 0 <= i < |points[1..]| && points[1..][i].day == DayOf(e.at);
          assert points[i + 1].day == DayOf(e.at);
        }
        if HasDay(points, DayOf(e.at)) && points[0].day != DayOf(e.at) {
          var i :| 0 <= i < |points| && points[i].day == DayOf(e.at);
          assert points[1..][i - 1].day == DayOf(e.at);
        }
      }
    }
  }

  lemma {:induction false} NoEntries(w: Window, points: seq<DayPoint>)
    ensures SumDays([], w, points) == 0
  {
    if points != [] { NoEntries(w, points[1..]); }
  }

  /** Distinct days that cover the entries split their sum. */
  lemma {:induction false} DaysSplitSum(entries: seq<Entry>, w: Window, points: seq<DayPoint>)
    requires Ascending(points)
    requires forall i :: 0 <= i < |entries| && w.Has(entries[i].at) ==> HasDay(points, DayOf(entries[i].at))
    ensures SumDays(entries, w, points) == SumIn(entries, w)
  {
    if entries == [] {
      NoEntries(w, points);
    } else {
      assert entries == [entries[0]] + entries[1..];
      DaysSplitSum(entries[1..], w, points);
      OneMoreEntry(entries[0], entries[1..], w, points);
    }
  }

  // ---------------------------------------------------------------------------
  // First redemption in the window
  // ---------------------------------------------------------------------------

  /** Dating a card by its earliest redemption is asking for one in the window and none before. */
  lemma FirstRedemption(card: Card, w: Window)
    requires card.Paid()
    ensures SoldIn(card, w) <==> card.redeemed != [] && w.Has(Min(card.redeemed))
  {
  }

  lemma {:induction false} SalesAgree(cards: seq<Card>, w: Window)
    ensures SumIn(SaleEntries(cards), w) == CodeSales(cards, w)
    ensures SumIn(Ones(SaleEntries(cards)), w) == CodeSaleCount(cards, w)
  {
    if cards != [] {
      var card, rest := cards[0], SaleEntries(cards[1..]);
      SalesAgree(cards[1..], w);
      if card.Paid() {
        FirstRedemption(card, w);
        if card.redeemed != [] {
          var e := Entry(Min(card.redeemed), card.price.value);
          assert SaleEntries(cards) == [e] + rest && ([e] + rest)[1..] == rest;
        }
      }
      assert !(card.Paid() && card.redeemed != []) ==> SaleEntries(cards) == rest;
    }
  }

  lemma {:induction false} LedgerAgrees(ledger: seq<Line>, w: Window)
    ensures SumIn(LineEntries(ledger), w) == Gross(ledger, w) + Refunds(ledger, w)
    ensures SumIn(Positive(LineEntries(ledger)), w) == Gross(ledger, w)
    ensures SumIn(Ones(LineEntries(ledger)), w) == LineCount(ledger, w)
  {
    if ledger != [] {
      LedgerAgrees(ledger[1..], w);
      assert LineEntries(ledger)[1..] == LineEntries(ledger[1..]);
    }
  }

  lemma {:induction false} TopUpsAgree(topUps: seq<TopUp>, w: Window)
    ensures SumIn(TopUpEntries(topUps), w) == TopUpSum(topUps, w)
    ensures SumIn(Ones(TopUpEntries(topUps)), w) == TopUpCount(topUps, w)
  {
    if topUps != [] {
      TopUpsAgree(topUps[1..], w);
      assert TopUpEntries(topUps)[1..] == TopUpEntries(topUps[1..]);
    }
  }

  // ---------------------------------------------------------------------------
  // Reconciliation
  // ---------------------------------------------------------------------------

  ghost predicate PointsRight(b: Books, w: Window, points: seq<DayPoint>) {
    forall i :: 0 <= i < |points| ==> points[i].point == PointOn(b, w, points[i].day)
  }

  /** The dated entries behind a column. */
  function ColumnEntries(b: Books, c: Column): seq<Entry> {
    match c
    case GROSS => Positive(LineEntries(b.ledger))
    case NET => LineEntries(b.ledger)
    case TRANSACTIONS => Ones(LineEntries(b.ledger))
    case CODE_SALES => SaleEntries(b.cards)
    case CODE_SALE_COUNT => Ones(SaleEntries(b.cards))
    case TOP_UPS => TopUpEntries(b.topUps)
    case TOP_UP_COUNT => Ones(TopUpEntries(b.topUps))
  }

  lemma {:induction false} ColumnByDay(b: Books, w: Window, points: seq<DayPoint>, c: Column)
    requires PointsRight(b, w, points)
    ensures SumColumn(points, c) == SumDays(ColumnEntries(b, c), w, points)
  {
    hide SumOn;
    if points != [] {
      assert forall i :: 0 <= i < |points| - 1 ==> points[1..][i] == points[i + 1];
      ColumnByDay(b, w, points[1..], c);
    }
  }

  lemma {:induction false} TotalsByColumn(points: seq<DayPoint>)
    ensures SumTotals(points) == SumColumn(points, CODE_SALES) + SumColumn(points, TOP_UPS) + SumColumn(points, NET)
  {
    if points != [] { TotalsByColumn(points[1..]); }
  }

  lemma ColumnIsActive(b: Books, w: Window, c: Column)
    ensures DaysOf(ColumnEntries(b, c), w) <= ActiveDays(b, w)
  {
  }

  /** Grouped or not, a column's entries are the period's figure. */
  lemma EntriesAreFigure(b: Books, w: Window, c: Column)
    ensures SumIn(ColumnEntries(b, c), w) == Figure(b, w, c)
  {
    LedgerAgrees(b.ledger, w);
    SalesAgree(b.cards, w);
    TopUpsAgree(b.topUps, w);
  }

  lemma Covered(entries: seq<Entry>, b: Books, w: Window, points: seq<DayPoint>)
    requires IsSeries(b, w, points) && DaysOf(entries, w) <= ActiveDays(b, w)
    ensures SumDays(entries, w, points) == SumIn(entries, w)
  {
    forall i | 0 <= i < |entries| && w.Has(entries[i].at) ensures HasDay(points, DayOf(entries[i].at)) {
      assert DayOf(entries[i].at) in DaysOf(entries, w);
    }
    DaysSplitSum(entries, w, points);
  }

  /** Over the same range each column adds up to its figure, and the totals to the dashboard's total. */
  lemma SeriesMeetsDashboard(b: Books, w: Window, points: seq<DayPoint>)
    requires IsSeries(b, w, points)
    ensures SumTotals(points) == TotalInPeriod(b, w)
    ensures forall c :: SumColumn(points, c) == Figure(b, w, c)
  {
    hide ColumnEntries, IsSeries, DaysOf, ActiveDays;
    forall c ensures SumColumn(points, c) == Figure(b, w, c) {
      SeriesIsRight(b, w, points);
      ColumnByDay(b, w, points, c);
      ColumnIsActive(b, w, c);
      Covered(ColumnEntries(b, c), b, w, points);
      EntriesAreFigure(b, w, c);
    }
    TotalsByColumn(points);
  }

  lemma SeriesIsRight(b: Books, w: Window, points: seq<DayPoint>)
    requires IsSeries(b, w, points)
    ensures PointsRight(b, w, points)
  {
  }

  /** The series counts refunds as transactions too: it meets the dashboard's number of payments only without any. */
  lemma {:induction false} TransactionsArePaymentsIff(ledger: seq<Line>, w: Window)
    ensures LineCount(ledger, w) >= PaymentCount(ledger, w)
    ensures LineCount(ledger, w) == PaymentCount(ledger, w) <==>
            forall i :: 0 <= i < |ledger| && w.Has(ledger[i].at) ==> ledger[i].amount > 0
  {
    if ledger != [] {
      TransactionsArePaymentsIff(ledger[1..], w);
      assert forall i :: 0 <= i < |ledger| - 1 ==> ledger[1..][i] == ledger[i + 1];
      assert (forall i :: 0 <= i < |ledger| && w.Has(ledger[i].at) ==> ledger[i].amount > 0) <==>
             (w.Has(ledger[0].at) ==> ledger[0].amount > 0)
             && forall i :: 0 <= i < |ledger[1..]| && w.Has(ledger[1..][i].at) ==> ledger[1..][i].amount > 0 by {
        assert ledger == [ledger[0]] + ledger[1..];
      }
    }
  }

  // ---------------------------------------------------------------------------
  // Consecutive periods
  // ---------------------------------------------------------------------------

  lemma {:induction false} SalesSplit(cards: seq<Card>, a: Ms, m: Ms, z: Ms)
    requires a <= m <= z
    ensures CodeSales(cards, Window(a, z - 1)) == CodeSales(cards, Window(a, m - 1)) + CodeSales(cards, Window(m, z - 1))
    ensures CodeSaleCount(cards, Window(a, z - 1))
            == CodeSaleCount(cards, Window(a, m - 1)) + CodeSaleCount(cards, Window(m, z - 1))
  {
    if cards != [] {
      SalesSplit(cards[1..], a, m, z);
      if cards[0].Paid() {
        FirstRedemption(cards[0], Window(a, z - 1));
        FirstRedemption(cards[0], Window(a, m - 1));
        FirstRedemption(cards[0], Window(m, z - 1));
      }
    }
  }

  lemma {:induction false} LedgerSplit(ledger: seq<Line>, a: Ms, m: Ms, z: Ms)
    requires a <= m <= z
    ensures Gross(ledger, Window(a, z - 1)) == Gross(ledger, Window(a, m - 1)) + Gross(ledger, Window(m, z - 1))
    ensures Refunds(ledger, Window(a, z - 1)) == Refunds(ledger, Window(a, m - 1)) + Refunds(ledger, Window(m, z - 1))
  {
    if ledger != [] { LedgerSplit(ledger[1..], a, m, z); }
  }

  lemma {:induction false} TopUpsSplit(topUps: seq<TopUp>, a: Ms, m: Ms, z: Ms)
    requires a <= m <= z
    ensures TopUpSum(topUps, Window(a, z - 1)) == TopUpSum(topUps, Window(a, m - 1)) + TopUpSum(topUps, Window(m, z - 1))
  {
    if topUps != [] { TopUpsSplit(topUps[1..], a, m, z); }
  }

  function SumPeriods(b: Books, cuts: seq<Ms>): int {
    if |cuts| < 2 then 0 else TotalInPeriod(b, Window(cuts[0], cuts[1] - 1)) + SumPeriods(b, cuts[1..])
  }

  /** However a span is cut into periods, their totals add up to the span's. */
  lemma {:induction false} PeriodsAddUp(b: Books, cuts: seq<Ms>)
    requires |cuts| >= 2 && forall i, j :: 0 <= i < j < |cuts| ==> cuts[i] <= cuts[j]
    ensures SumPeriods(b, cuts) == TotalInPeriod(b, Window(cuts[0], cuts[|cuts| - 1] - 1))
  {
    if |cuts| > 2 {
      var a, m, z := cuts[0], cuts[1], cuts[|cuts| - 1];
      PeriodsAddUp(b, cuts[1..]);
      SalesSplit(b.cards, a, m, z);
      LedgerSplit(b.ledger, a, m, z);
      TopUpsSplit(b.topUps, a, m, z);
    } else {
      assert SumPeriods(b, cuts[1..]) == 0;
    }
  }

  /** Two periods, one after the other, never both sell the same card. */
  lemma SoldOnce(card: Card, v: Window, w: Window)
    requires v.to < w.from
    ensures !(SoldIn(card, v) && SoldIn(card, w))
  {
  }

  /** A card is a sale of one of the periods exactly when it is a sale of their span. */
  lemma SoldSomewhere(card: Card, cuts: seq<Ms>)
    requires |cuts| >= 2 && forall i, j :: 0 <= i < j < |cuts| ==> cuts[i] <= cuts[j]
    ensures SoldIn(card, Window(cuts[0], cuts[|cuts| - 1] - 1)) <==>
            exists i :: 0 <= i < |cuts| - 1 && SoldIn(card, Period(cuts, i))
  {
    hide SoldIn;
    if card.Paid() {
      FirstRedemption(card, Window(cuts[0], cuts[|cuts| - 1] - 1));
      forall i | 0 <= i < |cuts| - 1
        ensures SoldIn(card, Period(cuts, i)) <==> card.redeemed != [] && Period(cuts, i).Has(Min(card.redeemed))
      {
        FirstRedemption(card, Period(cuts, i));
      }
      if card.redeemed != [] && cuts[0] <= Min(card.redeemed) < cuts[|cuts| - 1] {
        assert SoldIn(card, Period(cuts, PeriodOf(Min(card.redeemed), cuts)));
      }
    } else {
      OnlyPaidSell(card);
    }
  }

  lemma OnlyPaidSell(card: Card)
    requires !card.Paid()
    ensures forall w: Window :: !SoldIn(card, w)
  {
  }

  function Period(cuts: seq<Ms>, i: nat): Window
    requires i + 1 < |cuts|
  {
    Window(cuts[i], cuts[i + 1] - 1)
  }

  function PeriodOf(t: Ms, cuts: seq<Ms>): (i: nat)
    requires |cuts| >= 2 && cuts[0] <= t < cuts[|cuts| - 1]
    ensures i < |cuts| - 1 && cuts[i] <= t < cuts[i + 1]
  {
    if t < cuts[1] then 0 else 1 + PeriodOf(t, cuts[1..])
  }

  /** A window around every redemption counts each paid card that was ever redeemed. */
  lemma {:induction false} AllTimeSales(cards: seq<Card>, w: Window)
    requires forall i, k :: 0 <= i < |cards| && 0 <= k < |cards[i].redeemed| ==> w.Has(cards[i].redeemed[k])
    ensures CodeSales(cards, w) == CodeSalesAll(cards)
  {
    if cards != [] {
      AllTimeSales(cards[1..], w);
      if cards[0].redeemed != [] { assert w.Has(cards[0].redeemed[0]); }
    }
  }
}
