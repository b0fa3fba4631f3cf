/** The client-history dialog's summary: how much a client has spent, how
    many of their appointments were completed, and the small formatting
    helpers of its lists. Money is in integer cents. */
module ClientHistory {
  import opened Options
  import opened Lists
  import opened Text

  /** The fields of an `appointments` row the summary reads. `None` price is
      a null column; a null status behaves like any unlisted status string. */
  datatype Visit = Visit(id: string, startTime: string, endTime: string, status: string, price: Option<int>)

  /** The field of a `sales` row the summary reads. */
  datatype PastSale = PastSale(id: string, total: int)

  /** `app.status === 'completed'`. */
  predicate IsCompleted(v: Visit)
  {
    v.status == "completed"
  }

  /** `app.status === 'completed' && app.price`: completed with a price that is
      neither null nor zero. */
  predicate Billable(v: Visit)
  {
    IsCompleted(v) && v.price.Some? && v.price.value != 0
  }

  function PriceOf(v: Visit): int
  {
    v.price.GetOr(0)
  }

  function SaleTotal(s: PastSale): int
  {
    s.total
  }

  /** `totalSpent`: the prices of the billable appointments plus the totals of
      all sales. */
  function TotalSpent(visits: seq<Visit>, sales: seq<PastSale>): int
  {
    SumOf(Filter(visits, Billable), PriceOf) + SumOf(sales, SaleTotal)
  }

  /** Reference reading of `totalSpent`: every appointment contributes its price
      when billable and zero otherwise, every sale its total. */
  lemma {:induction false} TotalSpentPointwise(visits: seq<Visit>, sales: seq<PastSale>)
    ensures TotalSpent(visits, sales)
         == SumOf(visits, v => if Billable(v) then PriceOf(v) else 0) + SumOf(sales, SaleTotal)
  {
    SumOfFilter(visits, Billable, PriceOf, v => if Billable(v) then PriceOf(v) else 0);
  }

  /** The total splits over any split of the history into two parts. */
  lemma {:induction false} TotalSpentAppend(v1: seq<Visit>, v2: seq<Visit>, s1: seq<PastSale>, s2: seq<PastSale>)
    ensures TotalSpent(v1 + v2, s1 + s2) == TotalSpent(v1, s1) + TotalSpent(v2, s2)
  {
    FilterAppend(v1, v2, Billable);
    SumOfAppend(Filter(v1, Billable), Filter(v2, Billable), PriceOf);
    SumOfAppend(s1, s2, SaleTotal);
  }

  /** An appointment that is not completed, or has a null or zero price, adds
      nothing wherever it sits in the list; a billable one adds its price. */
  lemma {:induction false} VisitContribution(before: seq<Visit>, v: Visit, after: seq<Visit>, sales: seq<PastSale>)
    ensures !Billable(v) ==> TotalSpent(before + [v] + after, sales) == TotalSpent(before + after, sales)
    ensures Billable(v) ==> TotalSpent(before + [v] + after, sales) == TotalSpent(before + after, sales) + v.price.value
  {
    TotalSpentAppend(before + [v], after, sales, []);
    TotalSpentAppend(before, [v], sales, []);
    TotalSpentAppend(before, after, sales, []);
    assert sales + [] == sales;
    assert Filter([v], Billable) == if Billable(v) then [v] else [];
    SumOfOne(v, PriceOf);
  }

  /** A further sale raises the total by exactly that sale's total. */
  lemma {:induction false} AddSale(visits: seq<Visit>, sales: seq<PastSale>, sale: PastSale)
    ensures TotalSpent(visits, sales + [sale]) == TotalSpent(visits, sales) + sale.total
  {
    SumOfAppend(sales, [sale], SaleTotal);
    SumOfOne(sale, SaleTotal);
  }

  /** One for a completed appointment, zero for any other. */
  function CompletedTally(v: Visit): int
  {
    if IsCompleted(v) then 1 else 0
  }

  /** Every kept appointment counts once. */
  function CountOne(v: Visit): int
  {
    1
  }

  /** `appointments.filter(app => app.status === 'completed').length`. */
  function CompletedCount(visits: seq<Visit>): (n: nat)
    ensures n <= |visits|
    ensures n == |visits| <==> forall k :: 0 <= k < |visits| ==> IsCompleted(visits[k])
    ensures n == 0 <==> forall k :: 0 <= k < |visits| ==> !IsCompleted(visits[k])
  {
    FilterKeepsAll(visits, IsCompleted);
    FilterKeepsNone(visits, IsCompleted);
    |Filter(visits, IsCompleted)|
  }

  /** The completed count is the number of completed appointments, tallied
      one by one. */
  lemma CompletedCountIsTally(visits: seq<Visit>)
    ensures CompletedCount(visits) == SumOf(visits, CompletedTally)
  {
    SumOfFilter(visits, IsCompleted, CountOne, CompletedTally);
    SumOfUnits(Filter(visits, IsCompleted), CountOne);
  }

  /** `formatTime`: `time.slice(0, 5)`, so "HH:MM:SS" becomes "HH:MM". */
  function FormatTime(time: string): (r: string)
    ensures |time| >= 5 ==> r == time[..5]
    ensures |time| < 5 ==> r == time
  {
    Take(time, 5)
  }

  /** Formatting twice is formatting once, and a clock time keeps its hours and
      minutes. */
  lemma FormatTimeFacts(time: string)
    ensures FormatTime(FormatTime(time)) == FormatTime(time)
    ensures |time| == 8 ==> FormatTime(time) + time[5..] == time
  {
    TakeIdempotent(time, 5);
  }

  const SCHEDULED_STYLE := "bg-blue-100 text-blue-800"
  const COMPLETED_STYLE := "bg-green-100 text-green-800"
  const CANCELLED_STYLE := "bg-red-100 text-red-800"
  const DEFAULT_STYLE := "bg-gray-100 text-gray-800"

  /** `getStatusColor` of the appointment badges. */
  function StatusColor(status: string): (style: string)
    ensures style == SCHEDULED_STYLE <==> status == "scheduled"
    ensures style == COMPLETED_STYLE <==> status == "completed"
    ensures style == CANCELLED_STYLE <==> status == "cancelled"
    ensures style == DEFAULT_STYLE <==> status !in {"scheduled", "completed", "cancelled"}
  {
    match status
    case "scheduled" => SCHEDULED_STYLE
    case "completed" => COMPLETED_STYLE
    case "cancelled" => CANCELLED_STYLE
    case _ => DEFAULT_STYLE
  }
}
