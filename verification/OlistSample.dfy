/** Cutting a relational data set down to an evenly spaced, referentially closed sample (scripts/make_olist_sample.py).
    */
module OlistSample {
  import opened Text

  datatype Order = Order(orderId: string, customerId: string)
  datatype Item = Item(orderId: string, productId: string, sellerId: string)

  /** A row of a table the script filters by one id: a customer, product or seller by its own, a payment or review by
      its order. */
  datatype Keyed = Keyed(id: string, rest: string)

  datatype Tables = Tables(
    orders: seq<Order>,
    items: seq<Item>,
    customers: seq<Keyed>,
    payments: seq<Keyed>,
    reviews: seq<Keyed>,
    products: seq<Keyed>,
    sellers: seq<Keyed>)

  // ---- evenly spaced selection -------------------------------------------------------------------------------------

  /** `int(i * (n / k))`, in exact arithmetic. */
  function Index(i: nat, n: nat, k: nat): nat
    requires k >= 1
  {
    i * n / k
  }

  lemma MulMonotone(a: int, b: int, k: nat)
    requires a <= b
    ensures a * k <= b * k
  {
  }

  lemma MulAdd(a: int, b: int, k: int)
    ensures (a + b) * k == a * k + b * k
  {
  }

  /** The quotient is the one number whose multiple is the last not above. */
  lemma Unique(a: nat, k: nat, q: nat, r: nat)
    requires k >= 1 && a == q * k + r && r < k
    ensures a / k == q
  {
    var p := a / k;
    DivMod(a, k);
    if p < q {
      MulMonotone(p + 1, q, k);
      MulAdd(p, 1, k);
    } else if p > q {
      MulMonotone(q + 1, p, k);
      MulAdd(q, 1, k);
    }
  }

  lemma DivMod(a: nat, k: nat)
    requires k >= 1
    ensures a == (a / k) * k + a % k && a % k < k
  {
  }

  lemma Quotient(a: nat, k: nat, q: nat, r: nat)
    requires k >= 1 && a == q * k + r && r < 2 * k
    ensures a / k == if r < k then q else q + 1
  {
    if r < k {
      Unique(a, k, q, r);
    } else {
      MulAdd(q, 1, k);
      Unique(a, k, q + 1, r - k);
    }
  }

  lemma DivStep(a: nat, b: nat, k: nat)
    requires k >= 1
    ensures (a + b) / k == a / k + b / k + if a % k + b % k < k then 0 else 1
  {
    DivMod(a, k);
    DivMod(b, k);
    MulAdd(a / k, b / k, k);
    Quotient(a + b, k, a / k + b / k, a % k + b % k);
  }

  /** Rounding up. */
  lemma DivUp(n: nat, k: nat)
    requires k >= 1
    ensures (n + k - 1) / k == n / k + if n % k == 0 then 0 else 1
  {
    DivMod(n, k);
    Quotient(n + k - 1, k, n / k, n % k + k - 1);
  }

  /** Consecutive indices are `n / k` apart, rounded down or up; so they increase strictly when `k <= n`. */
  lemma Gap(i: nat, n: nat, k: nat)
    requires k >= 1
    ensures n / k <= Index(i + 1, n, k) - Index(i, n, k) <= (n + k - 1) / k
  {
    MulAdd(i, 1, n);
    assert 1 * n == n;
    DivStep(i * n, n, k);
    DivUp(n, k);
    DivMod(i * n, k);
  }

  lemma AtLeastOne(n: nat, k: nat)
    requires 1 <= k <= n
    ensures n / k >= 1
  {
    Unique(k, k, 1, 0);
    DivStep(n - k, k, k);
  }

  lemma IndexEnds(n: nat, k: nat)
    requires k >= 1
    ensures Index(0, n, k) == 0 && Index(k, n, k) == n
  {
    assert 0 * n == 0 && k * n == n * k + 0;
    Unique(0, k, 0, 0);
    Unique(k * n, k, n, 0);
  }

  lemma {:induction false} IndicesIncrease(n: nat, k: nat, i: nat, j: nat)
    requires 1 <= k <= n && i < j
    ensures Index(i, n, k) < Index(j, n, k)
    decreases j - i
  {
    hide Index;
    AtLeastOne(n, k);
    Gap(j - 1, n, k);
    if i < j - 1 {
      IndicesIncrease(n, k, i, j - 1);
    }
  }

  /** The selected positions start at the first order, strictly increase, and stay in range. */
  lemma IndicesSpread(n: nat, k: nat, i: nat, j: nat)
    requires 1 <= k <= n && i <= j
    ensures Index(0, n, k) == 0 && Index(k, n, k) == n
    ensures i < j ==> Index(i, n, k) < Index(j, n, k)
    ensures j < k ==> Index(j, n, k) < n
  {
    hide Index;
    IndexEnds(n, k);
    if i < j {
      IndicesIncrease(n, k, i, j);
    }
    if j < k {
      IndicesIncrease(n, k, j, k);
    }
  }

  /** `count` orders, evenly spaced. */
  function Spaced(orders: seq<Order>, count: nat, upTo: nat): (kept: seq<Order>)
    requires count < |orders| && upTo <= count
    ensures |kept| == upTo
    ensures forall i | 0 <= i < upTo ::
            0 <= Index(i, |orders|, count) < |orders| && kept[i] == orders[Index(i, |orders|, count)]
  {
    if upTo == 0 then []
    else
      IndicesSpread(|orders|, count, upTo - 1, upTo - 1);
      Spaced(orders, count, upTo - 1) + [orders[Index(upTo - 1, |orders|, count)]]
  }

  /** Which orders are kept; asking for zero of some orders divides by zero, and for a negative number selects none. */
  function Selected(orders: seq<Order>, count: int): Option<seq<Order>> {
    if count >= |orders| then Some(orders)
    else if count == 0 then None
    else if count < 0 then Some([])
    else Some(Spaced(orders, count, count))
  }

  /** The order selection. */
  method SelectOrders(orders: seq<Order>, count: int) returns (kept: Option<seq<Order>>)
    ensures kept == Selected(orders, count)
    ensures count >= |orders| ==> kept == Some(orders)
    ensures 0 < count < |orders| ==>
              && kept.Some? && |kept.value| == count
              && forall i | 0 <= i < count ::
                   0 <= Index(i, |orders|, count) < |orders| && kept.value[i] == orders[Index(i, |orders|, count)]
    ensures count < |orders| && count == 0 ==> kept == None
    ensures count < |orders| && count < 0 ==> kept == Some([])
  {
    if count >= |orders| {
      return Some(orders);
    }
    if count == 0 {
      return None;
    }
    var chosen := [];
    for i := 0 to if count < 0 then 0 else count
      invariant chosen == if count < 0 then [] else Spaced(orders, count, i)
    {
      IndicesSpread(|orders|, count, i, i);
      chosen := chosen + [orders[Index(i, |orders|, count)]];
    }
    kept := Some(chosen);
  }

  // ---- everything follows from the orders --------------------------------------------------------------------------

  function ItemsOf(items: seq<Item>, orderIds: set<string>): seq<Item> {
    if items == [] then []
    else (if items[0].orderId in orderIds then [items[0]] else []) + ItemsOf(items[1..], orderIds)
  }

  function RowsOf(rows: seq<Keyed>, ids: set<string>): seq<Keyed> {
    if rows == [] then [] else (if rows[0].id in ids then [rows[0]] else []) + RowsOf(rows[1..], ids)
  }

  /** The sample that follows from the kept orders. */
  function Sample(t: Tables, kept: seq<Order>): Tables {
    var orderIds := set o | o in kept :: o.orderId;
    var items := ItemsOf(t.items, orderIds);
    Tables(
      kept,
      items,
      RowsOf(t.customers, set o | o in kept :: o.customerId),
      RowsOf(t.payments, orderIds),
      RowsOf(t.reviews, orderIds),
      RowsOf(t.products, set r | r in items :: r.productId),
      RowsOf(t.sellers, set r | r in items :: r.sellerId))
  }

  predicate HasRow(rows: seq<Keyed>, id: string) {
    exists r :: r in rows && r.id == id
  }

  predicate HasOrder(orders: seq<Order>, id: string) {
    exists o :: o in orders && o.orderId == id
  }

  lemma {:induction false} ItemsOfIn(items: seq<Item>, ids: set<string>, r: Item)
    ensures r in ItemsOf(items, ids) <==> r in items && r.orderId in ids
  {
    if items != [] {
      assert items == [items[0]] + items[1..];
      ItemsOfIn(items[1..], ids, r);
    }
  }

  lemma {:induction false} RowsOfIn(rows: seq<Keyed>, ids: set<string>, r: Keyed)
    ensures r in RowsOf(rows, ids) <==> r in rows && r.id in ids
  {
    if rows != [] {
      assert rows == [rows[0]] + rows[1..];
      RowsOfIn(rows[1..], ids, r);
    }
  }

  lemma RowsOfHas(rows: seq<Keyed>, ids: set<string>, id: string)
    ensures HasRow(RowsOf(rows, ids), id) <==> HasRow(rows, id) && id in ids
  {
    if HasRow(rows, id) && id in ids {
      var r :| r in rows && r.id == id;
      RowsOfIn(rows, ids, r);
    }
    if HasRow(RowsOf(rows, ids), id) {
      var r :| r in RowsOf(rows, ids) && r.id == id;
      RowsOfIn(rows, ids, r);
    }
  }

  /** Each reference of a row of the sample resolves in it exactly when it resolved in the source. */
  ghost predicate Closed(t: Tables, s: Tables) {
    && (forall o | o in s.orders :: HasRow(s.customers, o.customerId) <==> HasRow(t.customers, o.customerId))
    && (forall r | r in s.items ::
          && HasOrder(s.orders, r.orderId)
          && (HasRow(s.products, r.productId) <==> HasRow(t.products, r.productId))
          && (HasRow(s.sellers, r.sellerId) <==> HasRow(t.sellers, r.sellerId)))
    && (forall r | r in s.payments || r in s.reviews :: HasOrder(s.orders, r.id))
  }

  /** Nothing is kept without a reason: every kept product and seller is used by a kept item, every kept customer by a
      kept order; and all items, payments and reviews of a kept order are kept. */
  ghost predicate Tight(t: Tables, s: Tables) {
    && (forall p | p in s.products :: exists r :: r in s.items && r.productId == p.id)
    && (forall p | p in s.sellers :: exists r :: r in s.items && r.sellerId == p.id)
    && (forall c | c in s.customers :: exists o :: o in s.orders && o.customerId == c.id)
    && (forall r | r in t.items && HasOrder(s.orders, r.orderId) :: r in s.items)
    && (forall r: Keyed | HasOrder(s.orders, r.id) ::
          (r in t.payments ==> r in s.payments) && (r in t.reviews ==> r in s.reviews))
  }

  /** The sample of any kept orders is closed. */
  lemma SampleClosed(t: Tables, kept: seq<Order>)
    ensures Closed(t, Sample(t, kept))
  {
    var s := Sample(t, kept);
    var orderIds := set o | o in kept :: o.orderId;
    var customerIds := set o | o in kept :: o.customerId;
    var productIds := set r | r in s.items :: r.productId;
    var sellerIds := set r | r in s.items :: r.sellerId;
    forall o | o in s.orders
      ensures HasRow(s.customers, o.customerId) <==> HasRow(t.customers, o.customerId)
    {
      RowsOfHas(t.customers, customerIds, o.customerId);
    }
    forall r | r in s.items
      ensures HasOrder(s.orders, r.orderId)
      ensures HasRow(s.products, r.productId) <==> HasRow(t.products, r.productId)
      ensures HasRow(s.sellers, r.sellerId) <==> HasRow(t.sellers, r.sellerId)
    {
      ItemsOfIn(t.items, orderIds, r);
      RowsOfHas(t.products, productIds, r.productId);
      RowsOfHas(t.sellers, sellerIds, r.sellerId);
    }
    forall r | r in s.payments || r in s.reviews
      ensures HasOrder(s.orders, r.id)
    {
      RowsOfIn(t.payments, orderIds, r);
      RowsOfIn(t.reviews, orderIds, r);
    }
  }

  /** And tight. */
  lemma SampleTight(t: Tables, kept: seq<Order>)
    ensures Tight(t, Sample(t, kept))
  {
    var s := Sample(t, kept);
    var orderIds := set o | o in kept :: o.orderId;
    forall p: Keyed
      ensures p in s.products ==> exists r :: r in s.items && r.productId == p.id
      ensures p in s.sellers ==> exists r :: r in s.items && r.sellerId == p.id
      ensures p in s.customers ==> exists o :: o in s.orders && o.customerId == p.id
    {
      RowsOfIn(t.products, set r | r in s.items :: r.productId, p);
      RowsOfIn(t.sellers, set r | r in s.items :: r.sellerId, p);
      RowsOfIn(t.customers, set o | o in kept :: o.customerId, p);
    }
    forall r | r in t.items && HasOrder(s.orders, r.orderId)
      ensures r in s.items
    {
      ItemsOfIn(t.items, orderIds, r);
    }
    forall r: Keyed | HasOrder(s.orders, r.id)
      ensures (r in t.payments ==> r in s.payments) && (r in t.reviews ==> r in s.reviews)
    {
      RowsOfIn(t.payments, orderIds, r);
      RowsOfIn(t.reviews, orderIds, r);
    }
  }

  lemma SelectedAreOrders(orders: seq<Order>, count: int)
    requires Selected(orders, count).Some?
    ensures forall o | o in Selected(orders, count).value :: o in orders
    ensures |Selected(orders, count).value| == if count < 0 then 0 else if count < |orders| then count else |orders|
  {
    if 0 < count < |orders| {
      var kept := Spaced(orders, count, count);
      assert forall i | 0 <= i < |kept| :: kept[i] in orders;
    }
  }

  /** What the script writes, for every count but zero of some orders: as many orders as asked for, all of them the
      source's, and with them a closed and tight sample. */
  lemma SelectedSample(t: Tables, count: int)
    ensures Selected(t.orders, count).None? <==> count == 0 && t.orders != []
    ensures Selected(t.orders, count).Some? ==>
              var kept := Selected(t.orders, count).value;
              var s := Sample(t, kept);
              && s.orders == kept && (forall o | o in kept :: o in t.orders)
              && |kept| == (if count < 0 then 0 else if count < |t.orders| then count else |t.orders|)
              && Closed(t, s) && Tight(t, s)
  {
    hide Closed, Tight;
    if Selected(t.orders, count).Some? {
      SelectedAreOrders(t.orders, count);
      SampleClosed(t, Selected(t.orders, count).value);
      SampleTight(t, Selected(t.orders, count).value);
    }
  }

  lemma AppendCons<T>(a: seq<T>, b: seq<T>)
    requires a != []
    ensures a + b != [] && (a + b)[0] == a[0] && (a + b)[1..] == a[1..] + b
  {
  }

  lemma Associative<T>(a: seq<T>, b: seq<T>, c: seq<T>)
    ensures a + (b + c) == (a + b) + c
  {
  }

  lemma ItemsCons(a: seq<Item>, ids: set<string>)
    requires a != []
    ensures ItemsOf(a, ids) == (if a[0].orderId in ids then [a[0]] else []) + ItemsOf(a[1..], ids)
  {
  }

  /** Keeping rows is a filter: row by row, in order, each as often as it occurs. */
  lemma {:induction false} KeepsInOrder(a: seq<Item>, b: seq<Item>, ids: set<string>)
    ensures ItemsOf(a + b, ids) == ItemsOf(a, ids) + ItemsOf(b, ids)
  {
    if a == [] {
      assert a + b == b && ItemsOf(a, ids) == [];
    } else {
      hide ItemsOf;
      KeepsInOrder(a[1..], b, ids);
      AppendCons(a, b);
      ItemsCons(a, ids);
      ItemsCons(a + b, ids);
      Associative(if a[0].orderId in ids then [a[0]] else [], ItemsOf(a[1..], ids), ItemsOf(b, ids));
    }
  }

  lemma RowsCons(a: seq<Keyed>, ids: set<string>)
    requires a != []
    ensures RowsOf(a, ids) == (if a[0].id in ids then [a[0]] else []) + RowsOf(a[1..], ids)
  {
  }

  lemma {:induction false} KeepsRowsInOrder(a: seq<Keyed>, b: seq<Keyed>, ids: set<string>)
    ensures RowsOf(a + b, ids) == RowsOf(a, ids) + RowsOf(b, ids)
  {
    if a == [] {
      assert a + b == b && RowsOf(a, ids) == [];
    } else {
      hide RowsOf;
      KeepsRowsInOrder(a[1..], b, ids);
      AppendCons(a, b);
      RowsCons(a, ids);
      RowsCons(a + b, ids);
      Associative(if a[0].id in ids then [a[0]] else [], RowsOf(a[1..], ids), RowsOf(b, ids));
    }
  }

  lemma KeepsOne(r: Item, k: Keyed, ids: set<string>)
    ensures ItemsOf([r], ids) == if r.orderId in ids then [r] else []
    ensures RowsOf([k], ids) == if k.id in ids then [k] else []
  {
    assert [r][1..] == [] && [k][1..] == [];
  }
}
