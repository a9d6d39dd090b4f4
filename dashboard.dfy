/**
 * The dashboard's statistics over the most recent service orders: counts by status
 * and payment status, and the revenue paid in the current month.
 */
module Dashboard {
  import opened Wrappers
  import opened Schema
  import opened Seqs
  import opened ServiceOrders

  /** A loaded order as the dashboard holds it (status texts as strings, value in cents). */
  datatype RecentOrder = RecentOrder(
    id: Id, status: string, paymentStatus: string, value: Option<int>, createdAt: Date)

  datatype Stats = Stats(
    totalOrders: nat, openOrders: nat, completedOrders: nat, pendingPayments: nat,
    monthlyRevenue: int)

  /** The number of orders the dashboard query loads (`.limit(10)`). */
  const RecentLimit: nat := 10

  /**
   * The loaded window: the first ten of the orders as the server returns them,
   * newest first.
   */
  function RecentWindow(newestFirst: seq<RecentOrder>): (r: seq<RecentOrder>)
    ensures |r| == if |newestFirst| < RecentLimit then |newestFirst| else RecentLimit
    ensures r == newestFirst[..|r|]
  {
    if |newestFirst| < RecentLimit then newestFirst else newestFirst[..RecentLimit]
  }

  predicate IsOpen(o: RecentOrder) {
    o.status == "em_andamento" || o.status == "aguardando_peca"
  }

  predicate IsCompleted(o: RecentOrder) {
    o.status == "finalizado" || o.status == "entregue"
  }

  predicate IsPendingPayment(o: RecentOrder) {
    o.paymentStatus == "pendente"
  }

  predicate IsPaid(o: RecentOrder) {
    o.paymentStatus == "pago"
  }

  /** Created in the month and year of `now`. */
  function InMonthOf(now: Date): RecentOrder -> bool {
    (o: RecentOrder) => o.createdAt.month == now.month && o.createdAt.year == now.year
  }

  /** `total + (order.value || 0)` summed over a list. */
  function SumValues(orders: seq<RecentOrder>): int {
    if orders == [] then 0 else orders[0].value.GetOr(0) + SumValues(orders[1..])
  }

  /** Two disjoint status classes together count at most every order once. */
  lemma {:induction false} OpenCompletedDisjoint(orders: seq<RecentOrder>)
    ensures |Filter(orders, IsOpen)| + |Filter(orders, IsCompleted)| <= |orders|
  {
    if orders != [] {
      OpenCompletedDisjoint(orders[1..]);
    }
  }

  /** `calculateStats`, with the current month and year supplied by the caller. */
  function CalculateStats(orders: seq<RecentOrder>, now: Date): (s: Stats)
    ensures s.totalOrders == |orders|
    ensures s.openOrders == CountWhere(orders, IsOpen)
    ensures s.completedOrders == CountWhere(orders, IsCompleted)
    ensures s.pendingPayments == CountWhere(orders, IsPendingPayment)
    ensures s.openOrders + s.completedOrders <= s.totalOrders
    ensures s.pendingPayments <= s.totalOrders
    ensures (forall i :: 0 <= i < |orders| ==> !IsOpen(orders[i])) ==> s.openOrders == 0
  {
    OpenCompletedDisjoint(orders);
    var monthly := Filter(orders, InMonthOf(now));
    Stats(
      |orders|,
      |Filter(orders, IsOpen)|,
      |Filter(orders, IsCompleted)|,
      |Filter(orders, IsPendingPayment)|,
      SumValues(Filter(monthly, IsPaid)))
  }

  /** An independent statement of the revenue: each order contributes its value iff paid this month. */
  function RevenueByOrder(orders: seq<RecentOrder>, now: Date): int {
    if orders == [] then 0
    else (if IsPaid(orders[0]) && InMonthOf(now)(orders[0]) then orders[0].value.GetOr(0) else 0)
         + RevenueByOrder(orders[1..], now)
  }

  lemma {:induction false} RevenueMatchesPerOrderSum(orders: seq<RecentOrder>, now: Date)
    ensures CalculateStats(orders, now).monthlyRevenue == RevenueByOrder(orders, now)
  {
    if orders != [] {
      RevenueMatchesPerOrderSum(orders[1..], now);
      var rest := Filter(Filter(orders[1..], InMonthOf(now)), IsPaid);
      if InMonthOf(now)(orders[0]) {
        assert Filter(orders, InMonthOf(now)) == [orders[0]] + Filter(orders[1..], InMonthOf(now));
        if IsPaid(orders[0]) {
          assert Filter(Filter(orders, InMonthOf(now)), IsPaid) == [orders[0]] + rest;
          assert ([orders[0]] + rest)[1..] == rest;
        }
      }
    }
  }

  /** When no stored value is negative, neither is the monthly revenue. */
  lemma {:induction false} RevenueNonNegative(orders: seq<RecentOrder>, now: Date)
    requires forall i :: 0 <= i < |orders| ==> orders[i].value.GetOr(0) >= 0
    ensures CalculateStats(orders, now).monthlyRevenue >= 0
  {
    RevenueMatchesPerOrderSum(orders, now);
    PerOrderSumNonNegative(orders, now);
  }

  lemma {:induction false} PerOrderSumNonNegative(orders: seq<RecentOrder>, now: Date)
    requires forall i :: 0 <= i < |orders| ==> orders[i].value.GetOr(0) >= 0
    ensures RevenueByOrder(orders, now) >= 0
  {
    if orders != [] {
      PerOrderSumNonNegative(orders[1..], now);
    }
  }

  /** The statistics never describe more than the ten loaded orders. */
  lemma StatsBoundedByWindow(newestFirst: seq<RecentOrder>, now: Date)
    ensures CalculateStats(RecentWindow(newestFirst), now).totalOrders <= RecentLimit
  {
  }

  /**
   * A payment text other than "pendente" and "pago" reads "Pendente" on its badge but,
   * wherever it sits in the list, adds nothing to the pending payments.
   */
  lemma {:induction false} UnknownPaymentShownPendingButNotCounted(
    xs: seq<RecentOrder>, o: RecentOrder, ys: seq<RecentOrder>, now: Date)
    requires o.paymentStatus != "pendente" && o.paymentStatus != "pago"
    ensures PaymentBadge(o.paymentStatus).text == "Pendente"
    ensures CalculateStats(xs + [o] + ys, now).pendingPayments == CalculateStats(xs + ys, now).pendingPayments
  {
    CountWhereAppend(xs + [o], ys, IsPendingPayment);
    CountWhereAppend(xs, [o], IsPendingPayment);
    CountWhereAppend(xs, ys, IsPendingPayment);
    assert CountWhere([o], IsPendingPayment) == 0 by {
      assert [o][1..] == [];
    }
  }
}
