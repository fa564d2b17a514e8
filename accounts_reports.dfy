/** The statistics of the staff dashboard and the reports page: order counts
    per status and per payment status, paid revenue, the average paid order,
    and the best-selling products and categories. All are read-only folds
    over the order table. */
module AccountReports {
  import opened Base
  import opened Sorting
  import opened ProductModels
  import opened OrderViews

  // ---------------------------------------------------------------------
  // Counts
  // ---------------------------------------------------------------------

  /** `Order.objects.filter(status=s).count()`. */
  function CountWithStatus(orders: seq<Order>, s: OrderStatus): (n: nat)
    ensures n <= |orders|
  {
    if orders == [] then 0
    else (if orders[0].status == s then 1 else 0) + CountWithStatus(orders[1..], s)
  }

  /** `Order.objects.filter(payment_status=s).count()`. */
  function CountWithPayment(orders: seq<Order>, s: PaymentStatus): (n: nat)
    ensures n <= |orders|
  {
    if orders == [] then 0
    else (if orders[0].paymentStatus == s then 1 else 0) + CountWithPayment(orders[1..], s)
  }

  /** Every order has exactly one of the five statuses. */
  lemma {:induction false} StatusCountsCoverOrders(orders: seq<Order>)
    ensures CountWithStatus(orders, Pending) + CountWithStatus(orders, Processing)
          + CountWithStatus(orders, Shipped) + CountWithStatus(orders, Delivered)
          + CountWithStatus(orders, Cancelled) == |orders|
  {
    if orders != [] {
      StatusCountsCoverOrders(orders[1..]);
    }
  }

  /** Each status count is the size of the orders listed under that status. */
  lemma {:induction false} CountIsListedOrders(orders: seq<Order>, s: OrderStatus, t: PaymentStatus)
    ensures CountWithStatus(orders, s) == |Select(orders, (o: Order) => o.status == s)|
    ensures CountWithPayment(orders, t) == |Select(orders, (o: Order) => o.paymentStatus == t)|
  {
    if orders != [] {
      CountIsListedOrders(orders[1..], s, t);
    }
  }

  /** Every order has exactly one of the four payment statuses. */
  lemma {:induction false} PaymentCountsCoverOrders(orders: seq<Order>)
    ensures CountWithPayment(orders, PaymentPending) + CountWithPayment(orders, Paid)
          + CountWithPayment(orders, Failed) + CountWithPayment(orders, Refunded) == |orders|
  {
    if orders != [] {
      PaymentCountsCoverOrders(orders[1..]);
    }
  }

  /** `orders_by_status`: the count under each status code. */
  function StatusBreakdown(orders: seq<Order>): (m: map<string, nat>)
    ensures forall s :: StatusCode(s) in m && m[StatusCode(s)] == CountWithStatus(orders, s)
    ensures forall code :: code in m ==> ParseStatus(code).Some?
  {
    map["pending" := CountWithStatus(orders, Pending),
        "processing" := CountWithStatus(orders, Processing),
        "shipped" := CountWithStatus(orders, Shipped),
        "delivered" := CountWithStatus(orders, Delivered),
        "cancelled" := CountWithStatus(orders, Cancelled)]
  }

  /** The payment status breakdown: the count under each payment code. */
  function PaymentBreakdown(orders: seq<Order>): (m: map<string, nat>)
    ensures forall s :: PaymentCode(s) in m && m[PaymentCode(s)] == CountWithPayment(orders, s)
    ensures forall code :: code in m ==> ParsePayment(code).Some?
  {
    map["paid" := CountWithPayment(orders, Paid),
        "pending" := CountWithPayment(orders, PaymentPending),
        "failed" := CountWithPayment(orders, Failed),
        "refunded" := CountWithPayment(orders, Refunded)]
  }

  // ---------------------------------------------------------------------
  // Revenue
  // ---------------------------------------------------------------------

  /** The summed total amount of the paid orders; 0 when none is paid. */
  function Revenue(orders: seq<Order>): (r: int)
    ensures (forall k :: 0 <= k < |orders| ==> orders[k].paymentStatus != Paid) ==> r == 0
    ensures (forall k :: 0 <= k < |orders| ==> orders[k].totalAmount >= 0) ==> r >= 0
  {
    if orders == [] then 0
    else (if orders[0].paymentStatus == Paid then orders[0].totalAmount else 0) + Revenue(orders[1..])
  }

  /** Orders placed at or after `since`. */
  function PlacedSince(since: nat): Order -> bool {
    (o: Order) => o.createdAt >= since
  }

  /** The paid revenue of the orders placed at or after `since`. */
  function RecentRevenue(orders: seq<Order>, since: nat): int {
    Revenue(Select(orders, PlacedSince(since)))
  }

  /** Revenue over any selection of orders is at most the whole revenue
      when no amount is negative. */
  lemma {:induction false} SelectedRevenueAtMost(orders: seq<Order>, keep: Order -> bool)
    requires forall k :: 0 <= k < |orders| ==> orders[k].totalAmount >= 0
    ensures Revenue(Select(orders, keep)) <= Revenue(orders)
  {
    if orders != [] {
      SelectedRevenueAtMost(orders[1..], keep);
    }
  }

  /** Recent revenue never exceeds total revenue. */
  lemma RecentRevenueAtMostTotal(orders: seq<Order>, since: nat)
    requires forall k :: 0 <= k < |orders| ==> orders[k].totalAmount >= 0
    ensures 0 <= RecentRevenue(orders, since) <= Revenue(orders)
  {
    var recent := Select(orders, PlacedSince(since));
    SelectedRevenueAtMost(orders, PlacedSince(since));
    forall k | 0 <= k < |recent| ensures recent[k].totalAmount >= 0 {
      assert recent[k] in recent;
    }
  }

  /** The average total amount of the paid orders, 0 when none is paid. */
  function AverageOrderValue(orders: seq<Order>): (r: real)
    ensures CountWithPayment(orders, Paid) == 0 ==> r == 0.0
  {
    var n := CountWithPayment(orders, Paid);
    if n == 0 then 0.0 else AverageOf(Revenue(orders), n)
  }

  /** With paid orders, the average times their number is the revenue. */
  lemma AverageTimesCount(orders: seq<Order>, n: nat, total: int)
    requires n == CountWithPayment(orders, Paid) && total == Revenue(orders)
    requires n > 0
    ensures AverageOrderValue(orders) * (n as real) == total as real
  {
    AverageOfScales(total, n, AverageOrderValue(orders));
  }

  /** `AverageOf` scaled back by its count, on plain values. */
  lemma AverageOfScales(total: int, n: nat, q: real)
    requires n > 0 && q == AverageOf(total, n)
    ensures q * (n as real) == total as real
  {
  }

  /** `total / count` as an exact quotient. */
  function AverageOf(total: int, count: nat): (q: real)
    requires count > 0
    ensures q * (count as real) == total as real
  {
    (total as real) / (count as real)
  }

  // ---------------------------------------------------------------------
  // Grouped order lines
  // ---------------------------------------------------------------------

  /** One order line as the grouped report sees it: its grouping key, its
      quantity and its unit price. */
  datatype Entry<K> = Entry(key: K, quantity: int, price: int)

  /** One group: its key, its number of order lines, and the summed
      quantity and summed unit price of those lines. */
  datatype Stat<K> = Stat(key: K, lines: nat, quantity: int, revenue: int)

  function CountKey<K(==,!new)>(es: seq<Entry<K>>, k: K): nat {
    if es == [] then 0
    else CountKey(es[..|es| - 1], k) + (if es[|es| - 1].key == k then 1 else 0)
  }

  function SumQuantity<K(==,!new)>(es: seq<Entry<K>>, k: K): int {
    if es == [] then 0
    else SumQuantity(es[..|es| - 1], k) + (if es[|es| - 1].key == k then es[|es| - 1].quantity else 0)
  }

  function SumPrice<K(==,!new)>(es: seq<Entry<K>>, k: K): int {
    if es == [] then 0
    else SumPrice(es[..|es| - 1], k) + (if es[|es| - 1].key == k then es[|es| - 1].price else 0)
  }

  /** The distinct keys of the entries, in first-seen order. */
  function Keys<K(==,!new)>(es: seq<Entry<K>>): (ks: seq<K>)
    ensures forall i, j :: 0 <= i < j < |ks| ==> ks[i] != ks[j]
    ensures forall k :: k in ks <==> exists i :: 0 <= i < |es| && es[i].key == k
  {
    if es == [] then []
    else
      var init := Keys(es[..|es| - 1]);
      var k := es[|es| - 1].key;
      assert forall j :: 0 <= j < |es| - 1 ==> es[..|es| - 1][j] == es[j];
      if k in init then init else init + [k]
  }

  /** `values(key).annotate(...)`: one group per distinct key, with the
      count, summed quantity and summed unit price of its lines. */
  function Aggregate<K(==,!new)>(es: seq<Entry<K>>): (r: seq<Stat<K>>)
    ensures forall i, j :: 0 <= i < j < |r| ==> r[i].key != r[j].key
    ensures forall i :: 0 <= i < |es| ==> exists j :: 0 <= j < |r| && r[j].key == es[i].key
    ensures forall j :: 0 <= j < |r| ==> exists i :: 0 <= i < |es| && es[i].key == r[j].key
    ensures forall j :: 0 <= j < |r| ==>
      && r[j].lines == CountKey(es, r[j].key)
      && r[j].quantity == SumQuantity(es, r[j].key)
      && r[j].revenue == SumPrice(es, r[j].key)
  {
    var ks := Keys(es);
    var r := seq(|ks|, j requires 0 <= j < |ks| =>
      Stat(ks[j], CountKey(es, ks[j]), SumQuantity(es, ks[j]), SumPrice(es, ks[j])));
    assert forall j :: 0 <= j < |ks| ==> r[j].key == ks[j] && ks[j] in ks;
    assert forall i :: 0 <= i < |es| ==> es[i].key in ks;
    r
  }

  /** The first `n` groups in the order `le`: `order_by(...)[:n]`. */
  function Top<K(!new)>(stats: seq<Stat<K>>, le: (Stat<K>, Stat<K>) -> bool, n: nat): (r: seq<Stat<K>>)
    requires TotalPreorder(le)
    ensures |r| <= n
    ensures Sorted(r, le)
    ensures forall s :: s in r ==> s in stats
    ensures multiset(r) <= multiset(stats)
    ensures forall s :: s in stats && s !in r ==> |r| == n && forall i :: 0 <= i < |r| ==> le(r[i], s)
  {
    var sorted := SortBy(stats, le);
    var r := Take(sorted, n);
    assert forall s :: s in r ==> s in sorted;
    assert forall s :: s in sorted <==> s in stats by {
      forall s ensures s in sorted <==> s in stats {
        assert s in sorted <==> s in multiset(sorted);
        assert s in stats <==> s in multiset(stats);
      }
    }
    forall s | s in stats && s !in r
      ensures |r| == n && forall i :: 0 <= i < |r| ==> le(r[i], s)
    {
      TakeKeepsTop(sorted, n, le, s);
    }
    r
  }

  /** A group occurs at most once in a list of groups with distinct keys. */
  lemma {:induction false} DistinctKeysOccurOnce<K>(stats: seq<Stat<K>>, x: Stat<K>)
    requires forall i, j :: 0 <= i < j < |stats| ==> stats[i].key != stats[j].key
    ensures multiset(stats)[x] <= 1
  {
    if stats != [] {
      var rest := stats[1..];
      assert stats == [stats[0]] + rest;
      DistinctKeysOccurOnce(rest, x);
      if stats[0] == x {
        forall j | 0 <= j < |rest| ensures rest[j] != x {
          assert rest[j] == stats[j + 1];
        }
        assert x !in rest;
      }
    }
  }

  /** Groups taken, each at most as often as it occurs, from a list with
      distinct keys have distinct keys: no group is listed twice. */
  lemma SubmultisetKeepsKeysDistinct<K>(r: seq<Stat<K>>, stats: seq<Stat<K>>)
    requires multiset(r) <= multiset(stats)
    requires forall i, j :: 0 <= i < j < |stats| ==> stats[i].key != stats[j].key
    ensures forall i, j :: 0 <= i < j < |r| ==> r[i].key != r[j].key
  {
    forall i, j | 0 <= i < j < |r| ensures r[i].key != r[j].key {
      if r[i].key == r[j].key {
        assert r[i] in multiset(stats) && r[j] in multiset(stats);
        var a :| 0 <= a < |stats| && stats[a] == r[i];
        var b :| 0 <= b < |stats| && stats[b] == r[j];
        assert a == b;
        var x := r[i];
        assert r == r[..j] + r[j..];
        assert x in r[..j] && x == r[j..][0];
        assert multiset(r)[x] >= 2;
        DistinctKeysOccurOnce(stats, x);
        assert false;
      }
    }
  }

  /** The order lines of the given orders whose product and category are in
      the catalog, as (product name, category name, quantity, price). */
  datatype SoldLine = SoldLine(productName: string, categoryName: string, quantity: int, price: int)

  function LinesOfItems(items: seq<OrderItem>, products: seq<Product>, categories: seq<Category>): seq<SoldLine> {
    if items == [] then []
    else
      var rest := LinesOfItems(items[1..], products, categories);
      match FindProduct(products, items[0].productId)
      case None => rest
      case Some(p) =>
        match FindCategory(categories, p.categoryId)
        case None => rest
        case Some(c) => [SoldLine(p.name, c.name, items[0].quantity, items[0].price)] + rest
  }

  function SoldLines(orders: seq<Order>, products: seq<Product>, categories: seq<Category>): seq<SoldLine> {
    if orders == [] then []
    else LinesOfItems(orders[0].items, products, categories) + SoldLines(orders[1..], products, categories)
  }

  function ByProduct(ls: seq<SoldLine>): (es: seq<Entry<(string, string)>>)
    ensures |es| == |ls|
    ensures forall i :: 0 <= i < |ls| ==>
      es[i] == Entry((ls[i].productName, ls[i].categoryName), ls[i].quantity, ls[i].price)
  {
    seq(|ls|, i requires 0 <= i < |ls| => Entry((ls[i].productName, ls[i].categoryName), ls[i].quantity, ls[i].price))
  }

  function ByCategory(ls: seq<SoldLine>): (es: seq<Entry<string>>)
    ensures |es| == |ls|
    ensures forall i :: 0 <= i < |ls| ==> es[i] == Entry(ls[i].categoryName, ls[i].quantity, ls[i].price)
  {
    seq(|ls|, i requires 0 <= i < |ls| => Entry(ls[i].categoryName, ls[i].quantity, ls[i].price))
  }

  /** The (product name, category name) groups of the sold lines. */
  function ProductGroups(orders: seq<Order>, products: seq<Product>, categories: seq<Category>)
    : (r: seq<Stat<(string, string)>>)
    ensures forall i, j :: 0 <= i < j < |r| ==> r[i].key != r[j].key
  {
    Aggregate(ByProduct(SoldLines(orders, products, categories)))
  }

  /** The category-name groups of the sold lines. */
  function CategoryGroups(orders: seq<Order>, products: seq<Product>, categories: seq<Category>)
    : (r: seq<Stat<string>>)
    ensures forall i, j :: 0 <= i < j < |r| ==> r[i].key != r[j].key
  {
    Aggregate(ByCategory(SoldLines(orders, products, categories)))
  }

  function MoreSold<K>(): (Stat<K>, Stat<K>) -> bool {
    (a: Stat<K>, b: Stat<K>) => a.quantity >= b.quantity
  }

  function MoreRevenue<K>(): (Stat<K>, Stat<K>) -> bool {
    (a: Stat<K>, b: Stat<K>) => a.revenue >= b.revenue
  }

  /** `Top` by quantity, its contract read on the quantities themselves. */
  lemma TopBySoldFacts<K(!new)>(stats: seq<Stat<K>>, n: nat, r: seq<Stat<K>>)
    requires r == Top(stats, MoreSold(), n)
    ensures |r| <= n
    ensures forall i, j :: 0 <= i < j < |r| ==> r[i].quantity >= r[j].quantity
    ensures forall s :: s in r ==> s in stats
    ensures forall s :: s in stats && s !in r ==>
      |r| == n && forall i :: 0 <= i < |r| ==> r[i].quantity >= s.quantity
  {
  }

  /** `Top` by revenue, its contract read on the revenues themselves. */
  lemma TopByRevenueFacts<K(!new)>(stats: seq<Stat<K>>, n: nat, r: seq<Stat<K>>)
    requires r == Top(stats, MoreRevenue(), n)
    ensures |r| <= n
    ensures forall i, j :: 0 <= i < j < |r| ==> r[i].revenue >= r[j].revenue
    ensures forall s :: s in r ==> s in stats
    ensures forall s :: s in stats && s !in r ==>
      |r| == n && forall i :: 0 <= i < |r| ==> r[i].revenue >= s.revenue
  {
  }

  /** `top_products`: at most ten (product, category) groups, by summed
      quantity, highest first; a group left out sold no more than any shown.
      Each group's revenue is the sum of the unit prices of its lines. */
  function TopProducts(orders: seq<Order>, products: seq<Product>, categories: seq<Category>)
    : (r: seq<Stat<(string, string)>>)
    ensures |r| <= 10
    ensures forall i, j :: 0 <= i < j < |r| ==> r[i].quantity >= r[j].quantity
    ensures forall s :: s in r ==> s in ProductGroups(orders, products, categories)
    ensures forall s :: s in ProductGroups(orders, products, categories) && s !in r ==>
      |r| == 10 && forall i :: 0 <= i < |r| ==> r[i].quantity >= s.quantity
  {
    var groups := ProductGroups(orders, products, categories);
    var r := Top(groups, MoreSold(), 10);
    TopBySoldFacts(groups, 10, r);
    r
  }

  /** `category_stats`: at most five category groups by summed unit price,
      highest first. `total_orders` counts the category's order lines. */
  function CategoryStats(orders: seq<Order>, products: seq<Product>, categories: seq<Category>)
    : (r: seq<Stat<string>>)
    ensures |r| <= 5
    ensures forall i, j :: 0 <= i < j < |r| ==> r[i].revenue >= r[j].revenue
    ensures forall s :: s in r ==> s in CategoryGroups(orders, products, categories)
    ensures forall s :: s in CategoryGroups(orders, products, categories) && s !in r ==>
      |r| == 5 && forall i :: 0 <= i < |r| ==> r[i].revenue >= s.revenue
  {
    var groups := CategoryGroups(orders, products, categories);
    var r := Top(groups, MoreRevenue(), 5);
    TopByRevenueFacts(groups, 5, r);
    r
  }

  /** Each group is listed at most once, and only as often as it occurs
      among the product groups: no best seller fills two places. */
  lemma TopProductsDistinct(orders: seq<Order>, products: seq<Product>, categories: seq<Category>)
    ensures var r := TopProducts(orders, products, categories);
      && multiset(r) <= multiset(ProductGroups(orders, products, categories))
      && forall i, j :: 0 <= i < j < |r| ==> r[i].key != r[j].key
  {
    var groups := ProductGroups(orders, products, categories);
    var r := TopProducts(orders, products, categories);
    assert r == Top(groups, MoreSold(), 10);
    assert multiset(r) <= multiset(groups);
    SubmultisetKeepsKeysDistinct(r, groups);
  }

  /** Each category is listed at most once. */
  lemma CategoryStatsDistinct(orders: seq<Order>, products: seq<Product>, categories: seq<Category>)
    ensures var r := CategoryStats(orders, products, categories);
      && multiset(r) <= multiset(CategoryGroups(orders, products, categories))
      && forall i, j :: 0 <= i < j < |r| ==> r[i].key != r[j].key
  {
    var groups := CategoryGroups(orders, products, categories);
    var r := CategoryStats(orders, products, categories);
    assert r == Top(groups, MoreRevenue(), 5);
    assert multiset(r) <= multiset(groups);
    SubmultisetKeepsKeysDistinct(r, groups);
  }

  /** A kettlebell at 10.00 in category "Weights", and one paid order of
      two of them. */
  const SampleProduct: Product := Product(1, "Kettlebell", "", 1000, 1, 1, 5, false, true, 0)
  const SampleCategory: Category := Category(1, "Weights", "")
  const SampleOrder: Order :=
    Order(1, "N1", 1, Pending, Paid, 200000, 0, 16000, 216000, "", "", "", "", "", true, 0, [OrderItem(1, 2, 1000)])

  lemma SampleSoldLines()
    ensures SoldLines([SampleOrder], [SampleProduct], [SampleCategory]) == [SoldLine("Kettlebell", "Weights", 2, 1000)]
  {
    assert FindProduct([SampleProduct], 1) == Some(SampleProduct);
    assert FindCategory([SampleCategory], 1) == Some(SampleCategory);
    assert SampleOrder.items[1..] == [];
    assert LinesOfItems(SampleOrder.items, [SampleProduct], [SampleCategory])
        == [SoldLine("Kettlebell", "Weights", 2, 1000)];
    assert [SampleOrder][1..] == [] && [SampleOrder][0] == SampleOrder;
  }

  lemma SampleAggregate()
    ensures Aggregate(ByProduct([SoldLine("Kettlebell", "Weights", 2, 1000)]))
         == [Stat(("Kettlebell", "Weights"), 1, 2, 1000)]
  {
    var es := ByProduct([SoldLine("Kettlebell", "Weights", 2, 1000)]);
    assert es == [Entry(("Kettlebell", "Weights"), 2, 1000)];
    assert es[..0] == [];
    assert Keys(es) == [("Kettlebell", "Weights")];
  }

  /** The reported revenue of a best seller is the sum of unit prices, not
      the worth of what was sold: one line of two units at 10.00 reports
      10.00 although the line is worth 20.00. */
  lemma TopRevenueIgnoresQuantity()
    ensures var top := TopProducts([SampleOrder], [SampleProduct], [SampleCategory]);
      |top| == 1 && top[0].quantity == 2 && top[0].revenue == 1000 && ItemsTotal(SampleOrder.items) == 2000
  {
    SampleSoldLines();
    SampleAggregate();
    var agg := [Stat(("Kettlebell", "Weights"), 1, 2, 1000)];
    assert agg[1..] == [];
    assert SortBy(agg, MoreSold()) == agg;
    assert SampleOrder.items[..0] == [];
  }
}
