/** The order endpoints: creating an order from the cart or from explicit
    items (with the per-product stock loop), the customer's cancellation, the
    administrator's status update, and the filtered listing and statistics. */
module OrderController {
  import opened Common
  import opened Store
  import opened Listing

  /** Flat shipping fee and the subtotal from which shipping is free (the
      defaults used when the environment does not override them). */
  const SHIPPING_FEE: int := 30000
  const FREE_SHIP_THRESHOLD: int := 300000

  /** The fee charged for a subtotal. With explicit items and no `total_price`
      the subtotal is `undefined`, and `undefined < threshold` is false. */
  function ShippingFee(subtotal: Option<int>): (fee: int)
    ensures fee == SHIPPING_FEE <==> subtotal.Some? && subtotal.value < FREE_SHIP_THRESHOLD
    ensures fee == 0 <==> !(subtotal.Some? && subtotal.value < FREE_SHIP_THRESHOLD)
  {
    if subtotal.Some? && subtotal.value < FREE_SHIP_THRESHOLD then SHIPPING_FEE else 0
  }

  /** The body of `POST /order`. Missing strings are "", missing items []. */
  datatype OrderRequest = OrderRequest(
    shippingAddress: string, recipientName: string, recipientMobile: string,
    paymentMethod: string, items: seq<Line>, totalPrice: Option<int>)

  predicate MissingShippingInfo(req: OrderRequest) {
    req.shippingAddress == "" || req.recipientName == "" || req.recipientMobile == ""
  }

  /** `payment_method || "cod"`, checked against the schema's enum when the
      order is written. */
  function PaymentOf(name: string): (m: Option<PaymentMethod>)
    ensures m.Some? <==> name in {"", "cod", "banking"}
    ensures name == "" || name == "cod" ==> m == Some(Cod)
    ensures name == "banking" ==> m == Some(Banking)
  {
    if name == "" || name == "cod" then Some(Cod)
    else if name == "banking" then Some(Banking)
    else None
  }

  // ---------------------------------------------------------------------------
  // The stock loop

  /** Products after a prefix of the stock loop, and the error it stopped on. */
  datatype Reservation = Reservation(products: seq<Product>, failure: Option<ApiError>)

  /** One iteration: look the product up, check `stock >= quantity`, then
      decrement `stock` and increment `sold` by the quantity. */
  function ReserveItem(ps: seq<Product>, item: Line): (r: Reservation)
    ensures |r.products| == |ps|
    ensures var k := IndexOf(ps, ProductKey, item.product);
      r.failure.None? <==> (k >= 0 && ps[k].stock >= item.quantity)
    ensures r.failure.Some? ==> r.products == ps && r.failure.value.status in {400, 404}
  {
    var k := IndexOf(ps, ProductKey, item.product);
    if k == -1 then
      Reservation(ps, Some(ApiError(404, "Product not found: " + IdText(item.product))))
    else if ps[k].stock < item.quantity then
      Reservation(ps, Some(ApiError(400, "Not enough stock for product: " + ps[k].name)))
    else
      Reservation(ps[k := Take(ps[k], item.quantity)], None)
  }

  /** The update the loop saves: `stock -= quantity`, `sold += quantity`. */
  function Take(p: Product, quantity: int): (q: Product)
    ensures q.stock + q.sold == p.stock + p.sold
    ensures q.id == p.id && q.slug == p.slug
  {
    p.(stock := p.stock - quantity, sold := p.sold + quantity)
  }

  /** The loop over a single item is that item's iteration. */
  lemma ReserveOne(ps: seq<Product>, item: Line)
    ensures Reserve(ps, [item]) == ReserveItem(ps, item)
  {
    assert [item][..0] == [];
  }

  /** The iteration that finds the product with enough stock. */
  lemma ReserveItemTakes(ps: seq<Product>, item: Line, k: int)
    requires k == IndexOf(ps, ProductKey, item.product) && k >= 0 && ps[k].stock >= item.quantity
    ensures ReserveItem(ps, item) == Reservation(ps[k := Take(ps[k], item.quantity)], None)
  {
  }

  /** The loop over all items, in order; it returns on the first failure and
      keeps every update already saved. */
  function Reserve(ps: seq<Product>, items: seq<Line>): (r: Reservation)
    ensures |r.products| == |ps|
    ensures r.failure.Some? ==> r.failure.value.status in {400, 404}
    decreases |items|
  {
    if |items| == 0 then Reservation(ps, None)
    else
      var r := Reserve(ps, items[..|items| - 1]);
      if r.failure.Some? then r else ReserveItem(r.products, items[|items| - 1])
  }

  /** One more iteration of the loop: after a failure nothing happens,
      otherwise the next item is reserved. */
  lemma ReserveStep(ps: seq<Product>, items: seq<Line>, i: int, qs: seq<Product>)
    requires 0 <= i < |items| && Reserve(ps, items[..i]) == Reservation(qs, None)
    ensures Reserve(ps, items[..i + 1]) == ReserveItem(qs, items[i])
  {
    assert items[..i + 1][..i] == items[..i];
  }

  /** Total quantity the items ask of one product. */
  function Demand(items: seq<Line>, product: ProductId): int
    decreases |items|
  {
    if |items| == 0 then 0
    else
      var last := items[|items| - 1];
      Demand(items[..|items| - 1], product) + (if last.product == product then last.quantity else 0)
  }

  /** The inventory ledger is intact from `ps` to `qs`: same products in the
      same places, only `stock` and `sold` changed, `stock + sold` unchanged,
      and no stock that was non-negative has become negative. */
  ghost predicate LedgerKept(ps: seq<Product>, qs: seq<Product>) {
    && |qs| == |ps|
    && forall k | 0 <= k < |ps| ::
      && qs[k] == ps[k].(stock := qs[k].stock, sold := qs[k].sold)
      && qs[k].stock + qs[k].sold == ps[k].stock + ps[k].sold
      && (ps[k].stock >= 0 ==> qs[k].stock >= 0)
  }

  lemma ReserveItemKeepsLedger(ps: seq<Product>, item: Line)
    ensures LedgerKept(ps, ReserveItem(ps, item).products)
  {
  }

  /** Whatever happens in the stock loop, `stock + sold` is conserved for every
      product and no stock goes negative. */
  lemma {:induction false} ReserveKeepsLedger(ps: seq<Product>, items: seq<Line>)
    ensures LedgerKept(ps, Reserve(ps, items).products)
    decreases |items|
  {
    if |items| > 0 {
      var r := Reserve(ps, items[..|items| - 1]);
      ReserveKeepsLedger(ps, items[..|items| - 1]);
      if r.failure.None? {
        ReserveItemKeepsLedger(r.products, items[|items| - 1]);
      }
    }
  }

  /** Once the loop has stopped on an item, later items change nothing. */
  lemma {:induction false} ReserveStops(ps: seq<Product>, items: seq<Line>, j: nat)
    requires j <= |items|
    requires Reserve(ps, items[..j]).failure.Some?
    ensures Reserve(ps, items) == Reserve(ps, items[..j])
    decreases |items|
  {
    if j < |items| {
      var init := items[..|items| - 1];
      assert init[..j] == items[..j];
      ReserveStops(ps, init, j);
    } else {
      assert items[..j] == items;
    }
  }

  /** A completed loop takes exactly the demanded quantity out of each
      product's stock and adds it to its `sold` count. */
  lemma {:induction false} ReserveTakesDemand(ps: seq<Product>, items: seq<Line>)
    requires DistinctBy(ps, ProductKey)
    requires Reserve(ps, items).failure.None?
    ensures var qs := Reserve(ps, items).products;
      && |qs| == |ps|
      && forall k | 0 <= k < |ps| ::
        && qs[k].stock == ps[k].stock - Demand(items, ps[k].id)
        && qs[k].sold == ps[k].sold + Demand(items, ps[k].id)
    decreases |items|
  {
    if |items| > 0 {
      var init, last := items[..|items| - 1], items[|items| - 1];
      var r := Reserve(ps, init);
      ReserveTakesDemand(ps, init);
      ReserveKeepsLedger(ps, init);
      assert forall k | 0 <= k < |ps| :: r.products[k].id == ps[k].id;
    }
  }

  // ---------------------------------------------------------------------------
  // createOrder

  /** The `201` response: the stored order and the fee breakdown. */
  datatype Receipt = Receipt(order: Order, shippingFee: int, subtotal: int, finalTotal: int)

  /** The collections `createOrder` can touch, after it, and its response. */
  datatype Placement = Placement(
    products: seq<Product>, carts: map<UserId, seq<Line>>, orders: seq<Order>,
    nextId: nat, result: Result<Receipt, ApiError>)

  /** `createOrder`, step by step as the handler runs it: validate the
      shipping fields, take the items from the request or else from the cart
      (deleting the cart at once), price the order, run the stock loop, and
      write the order. A `total_price` missing beside explicit items or a
      payment method outside the enum makes the final write fail validation,
      after the stock has been taken. */
  function PlaceOrder(
    products: seq<Product>, carts: map<UserId, seq<Line>>, orders: seq<Order>, nextId: nat,
    user: UserId, req: OrderRequest, now: int): (p: Placement)
    ensures |p.products| == |products|
    ensures p.result.Failure? ==> p.result.error.status in {400, 404, 500}
    ensures p.result.Success? ==>
      && p.result.value.order.user == user && p.result.value.order.status == Pending
      && p.result.value.order.id == nextId
  {
    if MissingShippingInfo(req) then
      Placement(products, carts, orders, nextId, Failure(ApiError(400, "Missing shipping information")))
    else if |req.items| == 0 && (user !in carts || |carts[user]| == 0) then
      Placement(products, carts, orders, nextId, Failure(ApiError(400, "Cart is empty")))
    else
      var fromCart := |req.items| == 0;
      var items := if fromCart then carts[user] else req.items;
      var subtotal := if fromCart then Some(Subtotal(items)) else req.totalPrice;
      var carts' := if fromCart then carts - {user} else carts;
      CompleteOrder(products, carts', orders, nextId, user, req, items, subtotal, now)
  }

  /** The rest of `createOrder` once the items and the subtotal are known:
      price the order, run the stock loop, and write the order. */
  function CompleteOrder(
    products: seq<Product>, carts: map<UserId, seq<Line>>, orders: seq<Order>, nextId: nat,
    user: UserId, req: OrderRequest, items: seq<Line>, subtotal: Option<int>, now: int): (p: Placement)
    ensures p.carts == carts
    ensures p.products == Reserve(products, items).products
    ensures p.result.Success? <==>
      (Reserve(products, items).failure.None? && subtotal.Some? && PaymentOf(req.paymentMethod).Some?)
    ensures p.result.Success? ==>
      && p.orders == orders + [p.result.value.order] && p.nextId == nextId + 1
      && p.result.value.order.items == items
    ensures p.result.Failure? ==> p.orders == orders && p.nextId == nextId
  {
    var fee := ShippingFee(subtotal);
    var res := Reserve(products, items);
    var payment := PaymentOf(req.paymentMethod);
    if res.failure.Some? then
      Placement(res.products, carts, orders, nextId, Failure(res.failure.value))
    else if subtotal.None? || payment.None? then
      Placement(res.products, carts, orders, nextId, Failure(ApiError(500, "Order validation failed")))
    else
      var order := Order(nextId, user, items, subtotal.value + fee, Pending, req.shippingAddress,
        Recipient(req.recipientName, req.recipientMobile), payment.value, now);
      Placement(res.products, carts, orders + [order], nextId + 1,
        Success(Receipt(order, fee, subtotal.value, subtotal.value + fee)))
  }

  /** Missing shipping information is rejected with no side effect. */
  lemma PlaceOrderRejectsMissingShipping(
    products: seq<Product>, carts: map<UserId, seq<Line>>, orders: seq<Order>, nextId: nat,
    user: UserId, req: OrderRequest, now: int)
    requires MissingShippingInfo(req)
    ensures PlaceOrder(products, carts, orders, nextId, user, req, now)
      == Placement(products, carts, orders, nextId, Failure(ApiError(400, "Missing shipping information")))
  {
  }

  /** Without explicit items, a missing or empty cart is rejected with no side effect. */
  lemma PlaceOrderRejectsEmptyCart(
    products: seq<Product>, carts: map<UserId, seq<Line>>, orders: seq<Order>, nextId: nat,
    user: UserId, req: OrderRequest, now: int)
    requires !MissingShippingInfo(req) && |req.items| == 0
    requires user !in carts || |carts[user]| == 0
    ensures PlaceOrder(products, carts, orders, nextId, user, req, now)
      == Placement(products, carts, orders, nextId, Failure(ApiError(400, "Cart is empty")))
  {
  }

  /** Every outcome keeps the inventory ledger: `stock + sold` per product is
      conserved and stock never goes negative. */
  lemma PlaceOrderKeepsLedger(
    products: seq<Product>, carts: map<UserId, seq<Line>>, orders: seq<Order>, nextId: nat,
    user: UserId, req: OrderRequest, now: int)
    ensures LedgerKept(products, PlaceOrder(products, carts, orders, nextId, user, req, now).products)
  {
    if !MissingShippingInfo(req) && !(|req.items| == 0 && (user !in carts || |carts[user]| == 0)) {
      ReserveKeepsLedger(products, if |req.items| == 0 then carts[user] else req.items);
    }
  }

  /** A successful order: it is appended with the next id, the caller as
      owner, the ordered items, status `pending`, payment `cod` by default and
      `total_price = subtotal + fee`; the subtotal is the cart's sum of
      `price * quantity`, or the caller's `total_price` for explicit items;
      each product's stock dropped and `sold` rose by what the items demand. */
  lemma PlaceOrderSuccess(
    products: seq<Product>, carts: map<UserId, seq<Line>>, orders: seq<Order>, nextId: nat,
    user: UserId, req: OrderRequest, now: int)
    requires DistinctBy(products, ProductKey)
    requires PlaceOrder(products, carts, orders, nextId, user, req, now).result.Success?
    ensures var p := PlaceOrder(products, carts, orders, nextId, user, req, now);
      var rc := p.result.value;
      var fromCart := |req.items| == 0;
      var items := if fromCart then carts[user] else req.items;
      && !MissingShippingInfo(req)
      && (fromCart ==> user in carts && |carts[user]| > 0)
      && p.orders == orders + [rc.order]
      && p.nextId == nextId + 1
      && rc.order.id == nextId && rc.order.user == user
      && rc.order.items == items && |rc.order.items| > 0
      && rc.order.status == Pending
      && (req.paymentMethod == "" ==> rc.order.paymentMethod == Cod)
      && rc.subtotal == (if fromCart then Subtotal(carts[user]) else req.totalPrice.value)
      && rc.shippingFee == ShippingFee(Some(rc.subtotal))
      && rc.order.totalPrice == rc.finalTotal == rc.subtotal + rc.shippingFee
      && |p.products| == |products|
      && forall k | 0 <= k < |products| ::
        && p.products[k].stock == products[k].stock - Demand(items, products[k].id)
        && p.products[k].sold == products[k].sold + Demand(items, products[k].id)
  {
    var items := if |req.items| == 0 then carts[user] else req.items;
    ReserveTakesDemand(products, items);
  }

  /** As written, the cart is deleted as soon as it is read, before the stock
      loop: it is gone even when the order then fails. */
  lemma CartDeletedEvenOnFailure(
    products: seq<Product>, carts: map<UserId, seq<Line>>, orders: seq<Order>, nextId: nat,
    user: UserId, req: OrderRequest, now: int)
    requires !MissingShippingInfo(req) && |req.items| == 0
    requires user in carts && |carts[user]| > 0
    ensures PlaceOrder(products, carts, orders, nextId, user, req, now).carts == carts - {user}
  {
  }

  /** Explicit items leave the cart alone. */
  lemma ExplicitItemsKeepCart(
    products: seq<Product>, carts: map<UserId, seq<Line>>, orders: seq<Order>, nextId: nat,
    user: UserId, req: OrderRequest, now: int)
    requires |req.items| > 0
    ensures PlaceOrder(products, carts, orders, nextId, user, req, now).carts == carts
  {
  }

  /** A failed order writes no order. */
  lemma FailedOrderWritesNothing(
    products: seq<Product>, carts: map<UserId, seq<Line>>, orders: seq<Order>, nextId: nat,
    user: UserId, req: OrderRequest, now: int)
    requires PlaceOrder(products, carts, orders, nextId, user, req, now).result.Failure?
    ensures PlaceOrder(products, carts, orders, nextId, user, req, now).orders == orders
    ensures PlaceOrder(products, carts, orders, nextId, user, req, now).nextId == nextId
  {
  }

  // Worked scenarios.

  /** A cart of 2 x 10000 is under the threshold: subtotal 20000, fee 30000, total 50000. */
  lemma CartOrderExample()
    ensures var x := Product(1, "X", "x", "fruit", 10000, 5, 0);
      var carts := map[7 := [Line(1, 2, 10000)]];
      var req := OrderRequest("street", "Ann", "0900", "", [], None);
      var p := PlaceOrder([x], carts, [], 2, 7, req, 0);
      && p.result.Success?
      && p.result.value.subtotal == 20000
      && p.result.value.shippingFee == 30000
      && p.result.value.finalTotal == 50000
      && p.products == [x.(stock := 3, sold := 2)]
      && p.carts == map[]
  {
    var x := Product(1, "X", "x", "fruit", 10000, 5, 0);
    var line := Line(1, 2, 10000);
    var carts := map[7 := [line]];
    assert Subtotal(carts[7]) == 20000;
    assert carts - {7} == map[];
    ReserveOne([x], line);
    ReserveItemTakes([x], line, 0);
  }

  /** The shipping fee boundary: a subtotal equal to the threshold ships free,
      one below it pays the fee. */
  lemma FreeShippingBoundary()
    ensures ShippingFee(Some(FREE_SHIP_THRESHOLD)) == 0
    ensures ShippingFee(Some(FREE_SHIP_THRESHOLD - 1)) == SHIPPING_FEE
  {
  }

  /** Two orders of 2 units against a stock of 3, one after the other: the
      first succeeds, the second is refused, and 1 unit is left. */
  lemma SecondOrderRefusedWhenStockRunsOut()
    ensures var x := Product(1, "X", "x", "fruit", 10000, 3, 0);
      var req := OrderRequest("street", "Ann", "0900", "cod", [Line(1, 2, 10000)], Some(20000));
      var p1 := PlaceOrder([x], map[], [], 2, 7, req, 0);
      var p2 := PlaceOrder(p1.products, p1.carts, p1.orders, p1.nextId, 8, req, 1);
      && p1.result.Success?
      && p2.result == Failure(ApiError(400, "Not enough stock for product: " + "X"))
      && p2.products == [x.(stock := 1, sold := 2)]
      && |p2.orders| == 1
  {
    var x := Product(1, "X", "x", "fruit", 10000, 3, 0);
    var line := Line(1, 2, 10000);
    ReserveOne([x], line);
    ReserveItemTakes([x], line, 0);
    var y := Take(x, 2);
    assert y == x.(stock := 1, sold := 2);
    ReserveOne([y], line);
    assert IndexOf([y], ProductKey, 1) == 0;
    assert ReserveItem([y], line) == Reservation([y], Some(ApiError(400, "Not enough stock for product: " + "X")));
  }

  /** As written there is no rollback: when the second product is short, the
      first product's stock has already been taken and stays taken. */
  lemma NoRollbackOnShortStock()
    ensures var a := Product(1, "A", "a", "fruit", 100, 5, 0);
      var b := Product(2, "B", "b", "fruit", 100, 1, 0);
      var req := OrderRequest("street", "Ann", "0900", "", [Line(1, 1, 100), Line(2, 2, 100)], Some(300));
      var p := PlaceOrder([a, b], map[], [], 3, 7, req, 0);
      && p.result == Failure(ApiError(400, "Not enough stock for product: " + "B"))
      && p.products == [a.(stock := 4, sold := 1), b]
      && p.orders == []
  {
    var a := Product(1, "A", "a", "fruit", 100, 5, 0);
    var b := Product(2, "B", "b", "fruit", 100, 1, 0);
    var l1, l2 := Line(1, 1, 100), Line(2, 2, 100);
    var items := [l1, l2];
    assert items[..1] == [l1];
    ReserveOne([a, b], l1);
    assert IndexOf([a, b], ProductKey, 1) == 0;
    ReserveItemTakes([a, b], l1, 0);
    var a' := Take(a, 1);
    assert [a, b][0 := a'] == [a', b];
    ReserveStep([a, b], items, 1, [a', b]);
    assert items[..2] == items;
    assert IndexOf([a', b], ProductKey, 2) == 1;
  }

  /** With explicit items the caller's `total_price` is the subtotal, even when
      it disagrees with the items' own prices. */
  lemma ExplicitTotalIsTrusted()
    ensures var x := Product(1, "X", "x", "fruit", 10000, 5, 0);
      var req := OrderRequest("street", "Ann", "0900", "", [Line(1, 2, 10000)], Some(1));
      var p := PlaceOrder([x], map[], [], 2, 7, req, 0);
      && Subtotal(req.items) == 20000
      && p.result.Success?
      && p.result.value.subtotal == 1
      && p.result.value.order.totalPrice == 1 + SHIPPING_FEE
  {
    var x := Product(1, "X", "x", "fruit", 10000, 5, 0);
    var line := Line(1, 2, 10000);
    ReserveOne([x], line);
    ReserveItemTakes([x], line, 0);
  }

  /** Explicit items without `total_price`: the stock is taken, then the order
      write fails, so stock is lost with no order to show for it. */
  lemma MissingTotalLosesStock()
    ensures var x := Product(1, "X", "x", "fruit", 10000, 5, 0);
      var req := OrderRequest("street", "Ann", "0900", "", [Line(1, 2, 10000)], None);
      var p := PlaceOrder([x], map[], [], 2, 7, req, 0);
      && p.result == Failure(ApiError(500, "Order validation failed"))
      && p.products == [x.(stock := 3, sold := 2)]
      && p.orders == []
  {
    var x := Product(1, "X", "x", "fruit", 10000, 5, 0);
    var line := Line(1, 2, 10000);
    ReserveOne([x], line);
    ReserveItemTakes([x], line, 0);
  }

  lemma LedgerKeptKeepsKeys(ps: seq<Product>, qs: seq<Product>, nextId: nat)
    requires LedgerKept(ps, qs)
    requires DistinctBy(ps, ProductKey) && DistinctBy(ps, SlugKey)
    requires forall i | 0 <= i < |ps| :: ps[i].id < nextId
    ensures DistinctBy(qs, ProductKey) && DistinctBy(qs, SlugKey)
    ensures forall i | 0 <= i < |qs| :: qs[i].id < nextId
  {
    forall i, j | 0 <= i < j < |qs| ensures ProductKey(qs[i]) != ProductKey(qs[j]) && SlugKey(qs[i]) != SlugKey(qs[j]) {
      assert ProductKey(ps[i]) != ProductKey(ps[j]) && SlugKey(ps[i]) != SlugKey(ps[j]);
    }
  }

  /** The stock loop of `createOrder` run against the database: it updates
      `stock` and `sold` item by item and stops at the first product that is
      missing or short, keeping the updates already made. */
  method ReserveStock(db: Database, items: seq<Line>) returns (failure: Option<ApiError>)
    requires db.Valid()
    modifies db
    ensures db.Valid()
    ensures Reservation(db.products, failure) == Reserve(old(db.products), items)
    ensures db.carts == old(db.carts) && db.orders == old(db.orders)
    ensures db.users == old(db.users) && db.nextId == old(db.nextId)
  {
    ghost var ps := db.products;
    ReserveKeepsLedger(ps, items);
    var i := 0;
    while i < |items|
      invariant 0 <= i <= |items|
      invariant Reserve(ps, items[..i]) == Reservation(db.products, None)
      invariant db.carts == old(db.carts) && db.orders == old(db.orders)
      invariant db.users == old(db.users) && db.nextId == old(db.nextId)
    {
      var item := items[i];
      ghost var before := db.products;
      ReserveStep(ps, items, i, before);
      var k := IndexOf(db.products, ProductKey, item.product);
      if k == -1 {
        failure := Some(ApiError(404, "Product not found: " + IdText(item.product)));
        ReserveStops(ps, items, i + 1);
        LedgerKeptKeepsKeys(ps, db.products, db.nextId);
        return;
      }
      if db.products[k].stock < item.quantity {
        failure := Some(ApiError(400, "Not enough stock for product: " + db.products[k].name));
        ReserveStops(ps, items, i + 1);
        LedgerKeptKeepsKeys(ps, db.products, db.nextId);
        return;
      }
      ReserveItemTakes(before, item, k);
      db.products := db.products[k := Take(db.products[k], item.quantity)];
      i := i + 1;
    }
    assert items[..|items|] == items;
    failure := None;
    LedgerKeptKeepsKeys(ps, db.products, db.nextId);
  }

  /** `POST /order`. */
  method CreateOrder(db: Database, user: UserId, req: OrderRequest, now: int)
    returns (r: Result<Receipt, ApiError>)
    requires db.Valid()
    modifies db
    ensures db.Valid()
    ensures db.users == old(db.users)
    ensures var p := PlaceOrder(old(db.products), old(db.carts), old(db.orders), old(db.nextId), user, req, now);
      && db.products == p.products && db.carts == p.carts && db.orders == p.orders
      && db.nextId == p.nextId && r == p.result
  {
    if req.shippingAddress == "" || req.recipientName == "" || req.recipientMobile == "" {
      return Failure(ApiError(400, "Missing shipping information"));
    }
    var items := req.items;
    var subtotal := req.totalPrice;
    if |req.items| == 0 {
      if user !in db.carts || |db.carts[user]| == 0 {
        return Failure(ApiError(400, "Cart is empty"));
      }
      items := db.carts[user];
      subtotal := Some(Subtotal(items));
      // the cart is deleted here, before any stock is checked
      db.carts := db.carts - {user};
    }
    r := CompleteOrderIn(db, user, req, items, subtotal, now);
  }

  /** Pricing, the stock loop and the order write, run against the database. */
  method CompleteOrderIn(db: Database, user: UserId, req: OrderRequest, items: seq<Line>, subtotal: Option<int>, now: int)
    returns (r: Result<Receipt, ApiError>)
    requires db.Valid() && |items| > 0
    modifies db
    ensures db.Valid()
    ensures db.users == old(db.users)
    ensures var p := CompleteOrder(old(db.products), old(db.carts), old(db.orders), old(db.nextId), user, req, items, subtotal, now);
      && db.products == p.products && db.carts == p.carts && db.orders == p.orders
      && db.nextId == p.nextId && r == p.result
  {
    var fee := ShippingFee(subtotal);
    var failure := ReserveStock(db, items);
    if failure.Some? {
      return Failure(failure.value);
    }
    var payment := PaymentOf(req.paymentMethod);
    if subtotal.None? || payment.None? {
      // `total_price` is NaN or the payment method is outside the enum
      return Failure(ApiError(500, "Order validation failed"));
    }
    var order := Order(db.nextId, user, items, subtotal.value + fee, Pending, req.shippingAddress,
      Recipient(req.recipientName, req.recipientMobile), payment.value, now);
    AppendOrderKeepsOrders(db.orders, order, db.nextId);
    db.orders := db.orders + [order];
    db.nextId := db.nextId + 1;
    r := Success(Receipt(order, fee, subtotal.value, subtotal.value + fee));
  }

  /** Appending an order with a fresh id and at least one line keeps the
      orders' ids unique and below the advanced counter. */
  lemma AppendOrderKeepsOrders(orders: seq<Order>, order: Order, bound: nat)
    requires DistinctBy(orders, OrderKey)
    requires forall i | 0 <= i < |orders| :: orders[i].id < bound && |orders[i].items| > 0
    requires order.id == bound && |order.items| > 0
    ensures DistinctBy(orders + [order], OrderKey)
    ensures forall i | 0 <= i < |orders + [order]| :: (orders + [order])[i].id < bound + 1 && |(orders + [order])[i].items| > 0
  {
    DistinctByAppend(orders, OrderKey, order);
  }

  // ---------------------------------------------------------------------------
  // Status changes

  /** `PUT /order/:orderId/cancel`: only the owner's order, and only while it
      is `pending`, becomes `cancelled`; stock is not given back. */
  method CancelOrder(db: Database, user: UserId, orderId: OrderId) returns (r: Result<Order, ApiError>)
    requires db.Valid()
    modifies db
    ensures db.Valid()
    ensures db.products == old(db.products) && db.carts == old(db.carts)
    ensures db.users == old(db.users) && db.nextId == old(db.nextId)
    ensures var k := IndexOf(old(db.orders), OwnedOrderKey, (orderId, user));
      && (k == -1 ==> r == Failure(ApiError(404, "Order not found")) && db.orders == old(db.orders))
      && (k >= 0 && old(db.orders)[k].status != Pending ==>
          r == Failure(ApiError(400, "You can only cancel pending orders")) && db.orders == old(db.orders))
      && (k >= 0 && old(db.orders)[k].status == Pending ==>
          db.orders == old(db.orders)[k := old(db.orders)[k].(status := Cancelled)] && r == Success(db.orders[k]))
  {
    var k := IndexOf(db.orders, OwnedOrderKey, (orderId, user));
    if k == -1 {
      return Failure(ApiError(404, "Order not found"));
    }
    if db.orders[k].status != Pending {
      return Failure(ApiError(400, "You can only cancel pending orders"));
    }
    DistinctByUpdate(db.orders, OrderKey, k, db.orders[k].(status := Cancelled));
    db.orders := db.orders[k := db.orders[k].(status := Cancelled)];
    r := Success(db.orders[k]);
  }

  /** `PUT /order/:orderId/status`: any of the four status names is accepted
      from any current status (no transition rules); anything else is refused. */
  method UpdateOrderStatus(db: Database, orderId: OrderId, status: string) returns (r: Result<Order, ApiError>)
    requires db.Valid()
    modifies db
    ensures db.Valid()
    ensures db.products == old(db.products) && db.carts == old(db.carts)
    ensures db.users == old(db.users) && db.nextId == old(db.nextId)
    ensures r.Failure? ==> db.orders == old(db.orders)
    ensures ParseStatus(status).None? ==> r == Failure(ApiError(400, "Invalid order status"))
    ensures ParseStatus(status).Some? && IndexOf(old(db.orders), OrderKey, orderId) == -1 ==>
      r == Failure(ApiError(404, "Order not found"))
    ensures var k := IndexOf(old(db.orders), OrderKey, orderId);
      ParseStatus(status).Some? && k >= 0 ==>
        && db.orders == old(db.orders)[k := old(db.orders)[k].(status := ParseStatus(status).value)]
        && r == Success(db.orders[k])
  {
    var st := ParseStatus(status);
    if st.None? {
      return Failure(ApiError(400, "Invalid order status"));
    }
    var k := IndexOf(db.orders, OrderKey, orderId);
    if k == -1 {
      return Failure(ApiError(404, "Order not found"));
    }
    DistinctByUpdate(db.orders, OrderKey, k, db.orders[k].(status := st.value));
    db.orders := db.orders[k := db.orders[k].(status := st.value)];
    r := Success(db.orders[k]);
  }

  // ---------------------------------------------------------------------------
  // Listing and statistics

  /** `getMyOrders`: the caller's orders, in stored order (the newest-first
      sort is left to the store). Exactly the caller's orders are listed. */
  function OrdersOf(orders: seq<Order>, user: UserId): (mine: seq<Order>)
    ensures |mine| <= |orders|
    ensures forall j | 0 <= j < |mine| :: mine[j].user == user && mine[j] in orders
    ensures forall j | 0 <= j < |orders| :: orders[j].user == user ==> orders[j] in mine
  {
    if |orders| == 0 then []
    else
      var rest := OrdersOf(orders[1..], user);
      assert forall j | 0 <= j < |orders[1..]| :: orders[1..][j] == orders[j + 1];
      (if orders[0].user == user then [orders[0]] else []) + rest
  }

  /** A new order shows up at the end of its owner's list and nobody else's. */
  lemma {:induction false} OrdersOfAppend(orders: seq<Order>, o: Order, user: UserId)
    ensures OrdersOf(orders + [o], user) == OrdersOf(orders, user) + (if o.user == user then [o] else [])
  {
    if |orders| == 0 {
      assert [o][1..] == [];
    } else {
      assert (orders + [o])[1..] == orders[1..] + [o];
      OrdersOfAppend(orders[1..], o, user);
    }
  }

  /** The `status` and `search` query parameters ("" when absent). */
  datatype OrderQuery = OrderQuery(status: string, search: string)

  /** Ids of the users whose name or e-mail matches the search pattern;
      `matches(pattern, field)` stands for the case-insensitive `$regex`. */
  function SearchHits(users: seq<User>, search: string, matches: (string, string) -> bool): set<UserId> {
    set i | 0 <= i < |users| && (matches(search, users[i].name) || matches(search, users[i].email)) :: users[i].id
  }

  predicate OrderMatches(o: Order, q: OrderQuery, hits: set<UserId>) {
    && (q.status == "" || StatusName(o.status) == q.status)
    && (q.search == "" || o.user in hits)
  }

  /** The orders the `$match` stage selects, in stored order. */
  function MatchingOrders(orders: seq<Order>, q: OrderQuery, hits: set<UserId>): (m: seq<Order>)
    ensures |m| <= |orders|
    ensures forall j | 0 <= j < |m| :: OrderMatches(m[j], q, hits) && m[j] in orders
    ensures forall j | 0 <= j < |orders| :: OrderMatches(orders[j], q, hits) ==> orders[j] in m
  {
    if |orders| == 0 then []
    else
      var rest := MatchingOrders(orders[1..], q, hits);
      assert forall j | 0 <= j < |orders[1..]| :: orders[1..][j] == orders[j + 1];
      if OrderMatches(orders[0], q, hits) then [orders[0]] + rest else rest
  }

  /** `getAllOrders`: `arrange` stands for the store's sort on the parsed option. */
  function ListOrders(
    orders: seq<Order>, users: seq<User>, q: OrderQuery, sort: string,
    rawPage: Option<int>, rawLimit: Option<int>,
    matches: (string, string) -> bool,
    arrange: (SortOption, seq<Order>) -> seq<Order>): (r: Result<Listing<Order>, ApiError>)
    ensures var m := MatchingOrders(orders, q, SearchHits(users, q.search, matches));
      && (r.Success? ==> r.value.meta.total == |m|)
      && (r.Success? && multiset(arrange(ParseSort(sort), m)) == multiset(m) ==>
          forall j | 0 <= j < |r.value.data| ::
            r.value.data[j] in orders && OrderMatches(r.value.data[j], q, SearchHits(users, q.search, matches)))
  {
    var m := MatchingOrders(orders, q, SearchHits(users, q.search, matches));
    PaginateListsMatches(m, arrange(ParseSort(sort), m), rawPage, rawLimit);
    Paginate(m, arrange(ParseSort(sort), m), rawPage, rawLimit)
  }

  /** The `$group` accumulators. */
  datatype OrderStats = OrderStats(
    totalOrders: nat, totalRevenue: int, pending: nat, shipping: nat, completed: nat, cancelled: nat)

  const NoStats := OrderStats(0, 0, 0, 0, 0, 0)

  function Plus(a: OrderStats, b: OrderStats): OrderStats {
    OrderStats(a.totalOrders + b.totalOrders, a.totalRevenue + b.totalRevenue,
      a.pending + b.pending, a.shipping + b.shipping, a.completed + b.completed, a.cancelled + b.cancelled)
  }

  /** One order's contribution to each accumulator (the `$cond` terms). */
  function StatsOf(o: Order): OrderStats {
    OrderStats(1, if o.status == Completed then o.totalPrice else 0,
      if o.status == Pending then 1 else 0, if o.status == Shipping then 1 else 0,
      if o.status == Completed then 1 else 0, if o.status == Cancelled then 1 else 0)
  }

  /** The single pass of the `$group` stage over the matched orders. */
  function Tally(orders: seq<Order>): (t: OrderStats)
    ensures t.totalOrders == |orders|
  {
    if |orders| == 0 then NoStats else Plus(StatsOf(orders[0]), Tally(orders[1..]))
  }

  /** `getOrderStats`: no matched order gives no group and the all-zero default. */
  function OrderStatsFor(orders: seq<Order>, users: seq<User>, q: OrderQuery, matches: (string, string) -> bool)
    : (s: OrderStats)
    ensures var m := MatchingOrders(orders, q, SearchHits(users, q.search, matches));
      && s.totalOrders == |m|
      && s.pending == |WithStatus(m, Pending)| && s.shipping == |WithStatus(m, Shipping)|
      && s.completed == |WithStatus(m, Completed)| && s.cancelled == |WithStatus(m, Cancelled)|
      && s.totalRevenue == SumTotals(WithStatus(m, Completed))
  {
    var m := MatchingOrders(orders, q, SearchHits(users, q.search, matches));
    TallyIsPerStatusCount(m);
    if |m| == 0 then NoStats else Tally(m)
  }

  /** The per-status counts add up to the number of orders counted. */
  lemma {:induction false} TallyCountsAddUp(orders: seq<Order>)
    ensures var t := Tally(orders);
      t.totalOrders == |orders| && t.pending + t.shipping + t.completed + t.cancelled == t.totalOrders
  {
    if |orders| > 0 {
      TallyCountsAddUp(orders[1..]);
    }
  }

  /** The tally of two runs of orders is the sum of their tallies. */
  lemma PlusAssociative(x: OrderStats, y: OrderStats, z: OrderStats)
    ensures Plus(Plus(x, y), z) == Plus(x, Plus(y, z))
  {
  }

  lemma {:induction false} TallyAppend(a: seq<Order>, b: seq<Order>)
    ensures Tally(a + b) == Plus(Tally(a), Tally(b))
  {
    if |a| == 0 {
      assert a + b == b;
    } else {
      assert (a + b)[0] == a[0];
      assert (a + b)[1..] == a[1..] + b;
      TallyAppend(a[1..], b);
      PlusAssociative(StatsOf(a[0]), Tally(a[1..]), Tally(b));
    }
  }

  lemma TallySingle(o: Order)
    ensures Tally([o]) == StatsOf(o)
  {
    assert [o][1..] == [];
  }

  lemma PlusExchange(x: OrderStats, y: OrderStats, y': OrderStats, z: OrderStats)
    ensures Plus(Plus(Plus(x, y'), z), y) == Plus(Plus(Plus(x, y), z), y')
  {
  }

  /** Changing one order's status moves its contribution from the old status
      to the new one and changes nothing else. */
  lemma TallyAfterStatusChange(orders: seq<Order>, k: nat, st: Status)
    requires k < |orders|
    ensures Plus(Tally(orders[k := orders[k].(status := st)]), StatsOf(orders[k]))
      == Plus(Tally(orders), StatsOf(orders[k].(status := st)))
  {
    var pre, post := orders[..k], orders[k + 1..];
    var o, o' := orders[k], orders[k].(status := st);
    assert orders == pre + [o] + post;
    assert orders[k := o'] == pre + [o'] + post;
    TallyAppend(pre + [o], post);
    TallyAppend(pre, [o]);
    TallyAppend(pre + [o'], post);
    TallyAppend(pre, [o']);
    TallySingle(o);
    TallySingle(o');
    PlusExchange(Tally(pre), StatsOf(o), StatsOf(o'), Tally(post));
  }

  /** A successful cancellation moves one order from `pending` to `cancelled`
      in the statistics. */
  lemma CancellationMovesOneOrder(orders: seq<Order>, k: nat)
    requires k < |orders| && orders[k].status == Pending
    ensures var t, t' := Tally(orders), Tally(orders[k := orders[k].(status := Cancelled)]);
      && t'.pending + 1 == t.pending && t'.cancelled == t.cancelled + 1
      && t'.shipping == t.shipping && t'.completed == t.completed
      && t'.totalOrders == t.totalOrders && t'.totalRevenue == t.totalRevenue
  {
    var t, t' := Tally(orders), Tally(orders[k := orders[k].(status := Cancelled)]);
    TallyAfterStatusChange(orders, k, Cancelled);
    assert Plus(t', StatsOf(orders[k])) == Plus(t, StatsOf(orders[k].(status := Cancelled)));
  }

  /** For the same filter, the statistics are the tally of the matched orders
      (the all-zero default is the tally of none), they count exactly the
      orders the listing reports as its total, and the status counts add up
      to it. */
  lemma StatsAgreeWithListing(
    orders: seq<Order>, users: seq<User>, q: OrderQuery, sort: string,
    rawPage: Option<int>, rawLimit: Option<int>,
    matches: (string, string) -> bool,
    arrange: (SortOption, seq<Order>) -> seq<Order>)
    ensures var s := OrderStatsFor(orders, users, q, matches);
      var l := ListOrders(orders, users, q, sort, rawPage, rawLimit, matches, arrange);
      && s == Tally(MatchingOrders(orders, q, SearchHits(users, q.search, matches)))
      && s.pending + s.shipping + s.completed + s.cancelled == s.totalOrders
      && (l.Success? ==> l.value.meta.total == s.totalOrders)
  {
    TallyCountsAddUp(MatchingOrders(orders, q, SearchHits(users, q.search, matches)));
  }

  /** The orders with a given status, in stored order. */
  function WithStatus(orders: seq<Order>, st: Status): seq<Order> {
    if |orders| == 0 then []
    else (if orders[0].status == st then [orders[0]] else []) + WithStatus(orders[1..], st)
  }

  /** Sum of the orders' `total_price`. */
  function SumTotals(orders: seq<Order>): int {
    if |orders| == 0 then 0 else orders[0].totalPrice + SumTotals(orders[1..])
  }

  /** The single pass agrees with counting each status separately: every
      per-status count is the number of orders with that status, and the
      revenue is the sum of `total_price` over the completed orders. */
  lemma {:induction false} TallyIsPerStatusCount(orders: seq<Order>)
    ensures var t := Tally(orders);
      && t.pending == |WithStatus(orders, Pending)|
      && t.shipping == |WithStatus(orders, Shipping)|
      && t.completed == |WithStatus(orders, Completed)|
      && t.cancelled == |WithStatus(orders, Cancelled)|
      && t.totalRevenue == SumTotals(WithStatus(orders, Completed))
  {
    if |orders| > 0 {
      TallyIsPerStatusCount(orders[1..]);
      var o, rest := orders[0], WithStatus(orders[1..], Completed);
      if o.status == Completed {
        assert ([o] + rest)[1..] == rest;
      } else {
        assert [] + rest == rest;
      }
    }
  }

  /** Filtering on one status puts every counted order under that status. */
  lemma {:induction false} StatusFilterCountsOneStatus(orders: seq<Order>, st: Status)
    requires forall j | 0 <= j < |orders| :: orders[j].status == st
    ensures var t := Tally(orders);
      && (st == Pending ==> t.pending == t.totalOrders)
      && (st == Shipping ==> t.shipping == t.totalOrders)
      && (st == Completed ==> t.completed == t.totalOrders)
      && (st == Cancelled ==> t.cancelled == t.totalOrders)
  {
    if |orders| > 0 {
      StatusFilterCountsOneStatus(orders[1..], st);
    }
  }
}
