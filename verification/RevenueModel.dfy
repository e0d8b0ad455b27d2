/**
  Revenue twice over: the daily series, which dates each paid card by the
  earliest of its redemptions and groups by day, and the dashboard's period
  figures, which filter and add. Money is in whole piastres, time in
  milliseconds, and a day is a UTC day.
 */
module RevenueModel {
  import opened Options

  type Ms = int
  type Day = int
  type CourseId = nat

  const DAY_MS: Ms := 24 * 3600 * 1000

  function DayOf(t: Ms): Day {
    t / DAY_MS
  }

  /** A ledger line; a refund has a negative amount. */
  datatype Line = Line(course: CourseId, amount: int, at: Ms)

  /** A card with the moments of its redemptions, in no particular order. */
  datatype Card = Card(access: bool, price: Option<int>, course: Option<CourseId>, redeemed: seq<Ms>)
  {
    predicate Paid() {
      access && price.Some? && price.value > 0
    }
  }

  datatype TopUp = TopUp(amount: int, at: Ms)

  datatype Books = Books(ledger: seq<Line>, cards: seq<Card>, topUps: seq<TopUp>)

  /** Both ends belong to the window. */
  datatype Window = Window(from: Ms, to: Ms)
  {
    predicate Has(t: Ms) {
      from <= t <= to
    }
  }

  // ---------------------------------------------------------------------------
  // The dashboard: filters and sums
  // ---------------------------------------------------------------------------

  function Gross(ledger: seq<Line>, w: Window): int {
    if ledger == [] then 0
    else (if w.Has(ledger[0].at) && ledger[0].amount > 0 then ledger[0].amount else 0) + Gross(ledger[1..], w)
  }

  function Refunds(ledger: seq<Line>, w: Window): int {
    if ledger == [] then 0
    else (if w.Has(ledger[0].at) && ledger[0].amount < 0 then ledger[0].amount else 0) + Refunds(ledger[1..], w)
  }

  /** `transactionsInPeriod`: the payments, without the refunds. */
  function PaymentCount(ledger: seq<Line>, w: Window): nat {
    if ledger == [] then 0
    else (if w.Has(ledger[0].at) && ledger[0].amount > 0 then 1 else 0) + PaymentCount(ledger[1..], w)
  }

  /** All lines, as the series counts them. */
  function LineCount(ledger: seq<Line>, w: Window): nat {
    if ledger == [] then 0 else (if w.Has(ledger[0].at) then 1 else 0) + LineCount(ledger[1..], w)
  }

  /** One redemption in the window and none before it. */
  predicate SoldIn(card: Card, w: Window) {
    && card.Paid()
    && (exists i :: 0 <= i < |card.redeemed| && w.Has(card.redeemed[i]))
    && !(exists i :: 0 <= i < |card.redeemed| && card.redeemed[i] < w.from)
  }

  function CodeSales(cards: seq<Card>, w: Window): int {
    if cards == [] then 0
    else (if SoldIn(cards[0], w) then cards[0].price.value else 0) + CodeSales(cards[1..], w)
  }

  function CodeSaleCount(cards: seq<Card>, w: Window): nat {
    if cards == [] then 0
    else (if SoldIn(cards[0], w) then 1 else 0) + CodeSaleCount(cards[1..], w)
  }

  function TopUpSum(topUps: seq<TopUp>, w: Window): int {
    if topUps == [] then 0
    else (if w.Has(topUps[0].at) then topUps[0].amount else 0) + TopUpSum(topUps[1..], w)
  }

  function TopUpCount(topUps: seq<TopUp>, w: Window): nat {
    if topUps == [] then 0 else (if w.Has(topUps[0].at) then 1 else 0) + TopUpCount(topUps[1..], w)
  }

  function TotalInPeriod(books: Books, w: Window): int {
    CodeSales(books.cards, w) + TopUpSum(books.topUps, w) + (Gross(books.ledger, w) + Refunds(books.ledger, w))
  }

  function CodeSalesAll(cards: seq<Card>): int {
    if cards == [] then 0
    else (if cards[0].Paid() && cards[0].redeemed != [] then cards[0].price.value else 0) + CodeSalesAll(cards[1..])
  }

  // ---------------------------------------------------------------------------
  // The series: dated entries, grouped by day
  // ---------------------------------------------------------------------------

  datatype Entry = Entry(at: Ms, amount: int)

  /** `MIN` over a group. */
  function Min(ts: seq<Ms>): (m: Ms)
    requires ts != []
    ensures m in ts && forall i :: 0 <= i < |ts| ==> m <= ts[i]
  {
    if |ts| == 1 then ts[0]
    else
      var m := Min(ts[1..]);
      if ts[0] <= m then ts[0] else m
  }

  function LineEntries(ledger: seq<Line>): seq<Entry> {
    if ledger == [] then [] else [Entry(ledger[0].at, ledger[0].amount)] + LineEntries(ledger[1..])
  }

  /** One entry per paid and redeemed card, dated by its first redemption. */
  function SaleEntries(cards: seq<Card>): seq<Entry> {
    if cards == [] then []
    else (if cards[0].Paid() && cards[0].redeemed != [] then [Entry(Min(cards[0].redeemed), cards[0].price.value)] else [])
         + SaleEntries(cards[1..])
  }

  function TopUpEntries(topUps: seq<TopUp>): seq<Entry> {
    if topUps == [] then [] else [Entry(topUps[0].at, topUps[0].amount)] + TopUpEntries(topUps[1..])
  }

  /** `SUM(...) FILTER (WHERE ... > 0)` adds these. */
  function Positive(entries: seq<Entry>): (r: seq<Entry>)
    ensures |r| == |entries|
    ensures forall i :: 0 <= i < |r| ==> r[i].at == entries[i].at
  {
    if entries == [] then []
    else [entries[0].(amount := if entries[0].amount > 0 then entries[0].amount else 0)] + Positive(entries[1..])
  }

  /** `COUNT(*)` adds these. */
  function Ones(entries: seq<Entry>): (r: seq<Entry>)
    ensures |r| == |entries|
    ensures forall i :: 0 <= i < |r| ==> r[i].at == entries[i].at
  {
    if entries == [] then [] else [entries[0].(amount := 1)] + Ones(entries[1..])
  }

  function SumIn(entries: seq<Entry>, w: Window): int {
    if entries == [] then 0
    else (if w.Has(entries[0].at) then entries[0].amount else 0) + SumIn(entries[1..], w)
  }

  /** One group of `GROUP BY DATE(at)`. */
  function SumOn(entries: seq<Entry>, w: Window, d: Day): int {
    if entries == [] then 0
    else (if w.Has(entries[0].at) && DayOf(entries[0].at) == d then entries[0].amount else 0)
         + SumOn(entries[1..], w, d)
  }

  function DaysOf(entries: seq<Entry>, w: Window): (days: set<Day>)
    ensures forall d :: d in days <==> exists i :: 0 <= i < |entries| && w.Has(entries[i].at) && DayOf(entries[i].at) == d
  {
    set i | 0 <= i < |entries| && w.Has(entries[i].at) :: DayOf(entries[i].at)
  }

  /** With a course, its lines and its cards; top-ups belong to no course. */
  function Scope(books: Books, course: Option<CourseId>): Books {
    match course
    case None => books
    case Some(c) => Books(LinesOf(books.ledger, c), CardsOf(books.cards, c), [])
  }

  function LinesOf(ledger: seq<Line>, c: CourseId): seq<Line> {
    if ledger == [] then []
    else (if ledger[0].course == c then [ledger[0]] else []) + LinesOf(ledger[1..], c)
  }

  function CardsOf(cards: seq<Card>, c: CourseId): seq<Card> {
    if cards == [] then []
    else (if cards[0].course == Some(c) then [cards[0]] else []) + CardsOf(cards[1..], c)
  }

  datatype Point = Point(
    gross: int, net: int, transactions: int, codeSales: int, codeSaleCount: int,
    walletTopUps: int, walletTopUpCount: int)
  {
    function Total(): int {
      codeSales + walletTopUps + net
    }
  }

  const EMPTY := Point(0, 0, 0, 0, 0, 0, 0)

  datatype DayPoint = DayPoint(day: Day, point: Point)

  function LedgerPart(b: Books, w: Window, d: Day, p: Point): Point {
    var lines := LineEntries(b.ledger);
    p.(gross := SumOn(Positive(lines), w, d), net := SumOn(lines, w, d), transactions := SumOn(Ones(lines), w, d))
  }

  function SalesPart(b: Books, w: Window, d: Day, p: Point): Point {
    var sales := SaleEntries(b.cards);
    p.(codeSales := SumOn(sales, w, d), codeSaleCount := SumOn(Ones(sales), w, d))
  }

  function TopUpPart(b: Books, w: Window, d: Day, p: Point): Point {
    var topUps := TopUpEntries(b.topUps);
    p.(walletTopUps := SumOn(topUps, w, d), walletTopUpCount := SumOn(Ones(topUps), w, d))
  }

  function PointOn(b: Books, w: Window, d: Day): Point {
    TopUpPart(b, w, d, SalesPart(b, w, d, LedgerPart(b, w, d, EMPTY)))
  }

  function ActiveDays(b: Books, w: Window): set<Day> {
    DaysOf(LineEntries(b.ledger), w) + DaysOf(SaleEntries(b.cards), w) + DaysOf(TopUpEntries(b.topUps), w)
  }

  predicate Ascending(points: seq<DayPoint>) {
    forall i, j :: 0 <= i < j < |points| ==> points[i].day < points[j].day
  }

  /** One point for each day any source has a row on, in order of the days. */
  ghost predicate IsSeries(b: Books, w: Window, points: seq<DayPoint>) {
    && Ascending(points)
    && (forall d :: d in ActiveDays(b, w) <==> exists i :: 0 <= i < |points| && points[i].day == d)
    && (forall i :: 0 <= i < |points| ==> points[i].point == PointOn(b, w, points[i].day))
  }

  function SumTotals(points: seq<DayPoint>): int {
    if points == [] then 0 else points[0].point.Total() + SumTotals(points[1..])
  }

  /** A column of the series. */
  datatype Column = GROSS | NET | TRANSACTIONS | CODE_SALES | CODE_SALE_COUNT | TOP_UPS | TOP_UP_COUNT

  function Get(p: Point, c: Column): int {
    match c
    case GROSS => p.gross
    case NET => p.net
    case TRANSACTIONS => p.transactions
    case CODE_SALES => p.codeSales
    case CODE_SALE_COUNT => p.codeSaleCount
    case TOP_UPS => p.walletTopUps
    case TOP_UP_COUNT => p.walletTopUpCount
  }

  function SumColumn(points: seq<DayPoint>, c: Column): int {
    if points == [] then 0 else Get(points[0].point, c) + SumColumn(points[1..], c)
  }

  /** The figure of the period that a column adds up to. */
  function Figure(b: Books, w: Window, c: Column): int {
    match c
    case GROSS => Gross(b.ledger, w)
    case NET => Gross(b.ledger, w) + Refunds(b.ledger, w)
    case TRANSACTIONS => LineCount(b.ledger, w)
    case CODE_SALES => CodeSales(b.cards, w)
    case CODE_SALE_COUNT => CodeSaleCount(b.cards, w)
    case TOP_UPS => TopUpSum(b.topUps, w)
    case TOP_UP_COUNT => TopUpCount(b.topUps, w)
  }
}
