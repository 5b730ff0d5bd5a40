/** The server cart: one cart per user, an ordered list of lines (product,
    quantity, price snapshot) edited in place by the cart endpoints. */
module CartController {
  import opened Common
  import opened Store

  /** The `data` of `GET /cart`: the lines and their subtotal. */
  datatype CartView = CartView(items: seq<Line>, subtotal: int)

  /** The lines of a user's cart; a user without a cart document has none. */
  function CartOf(carts: map<UserId, seq<Line>>, user: UserId): seq<Line> {
    if user in carts then carts[user] else []
  }

  /** Position of the line for a product (`findIndex` on `product_id`), or -1. */
  function LineIndex(lines: seq<Line>, product: ProductId): int {
    IndexOf(lines, LineKey, product)
  }

  /** Quantity on the line for a product, 0 when the cart has no such line. */
  function QuantityOf(lines: seq<Line>, product: ProductId): int {
    var i := LineIndex(lines, product);
    if i < 0 then 0 else lines[i].quantity
  }

  /** Amount (`price * quantity`) of the line for a product, 0 when there is none. */
  function AmountOf(lines: seq<Line>, product: ProductId): int {
    var i := LineIndex(lines, product);
    if i < 0 then 0 else lines[i].price * lines[i].quantity
  }

  /** `getCart`: no cart yields no items and subtotal 0; otherwise the lines and
      the sum of their amounts. */
  function GetCart(carts: map<UserId, seq<Line>>, user: UserId): (v: CartView)
    ensures user !in carts ==> v == CartView([], 0)
    ensures user in carts ==> v.items == carts[user] && v.subtotal == Subtotal(carts[user])
  {
    if user !in carts then CartView([], 0)
    else CartView(carts[user], Subtotal(carts[user]))
  }

  /** The lines after adding `quantity` of a product whose catalogue price is
      `price`: an existing line grows, otherwise a new line is appended. */
  function AddLine(lines: seq<Line>, product: ProductId, quantity: int, price: int): (r: seq<Line>)
    ensures |r| == (if LineIndex(lines, product) >= 0 then |lines| else |lines| + 1)
    ensures forall j | 0 <= j < |lines| && lines[j].product != product :: r[j] == lines[j]
  {
    var i := LineIndex(lines, product);
    if i > -1 then lines[i := lines[i].(quantity := lines[i].quantity + quantity)]
    else lines + [Line(product, quantity, price)]
  }

  /** The lines after setting the quantity of the line at `i`: a quantity
      `<= 0` removes that line (`splice(i, 1)`). */
  function SetLine(lines: seq<Line>, i: nat, quantity: int): (r: seq<Line>)
    requires i < |lines|
    ensures quantity <= 0 ==> |r| == |lines| - 1 && forall j | 0 <= j < |r| :: r[j] == lines[if j < i then j else j + 1]
    ensures quantity > 0 ==> (|r| == |lines| && r[i] == lines[i].(quantity := quantity)
      && forall j | 0 <= j < |lines| && j != i :: r[j] == lines[j])
  {
    if quantity <= 0 then RemoveAt(lines, i)
    else lines[i := lines[i].(quantity := quantity)]
  }

  /** The lines of other products, in their order (the `filter` of `removeCartItem`). */
  function Without(lines: seq<Line>, product: ProductId): (r: seq<Line>)
    ensures |r| <= |lines|
    ensures forall j | 0 <= j < |r| :: r[j].product != product
  {
    if |lines| == 0 then []
    else if lines[0].product == product then Without(lines[1..], product)
    else [lines[0]] + Without(lines[1..], product)
  }

  // ---------------------------------------------------------------------------
  // Properties of the line operations

  /** Removing a product that has no line changes nothing. */
  lemma {:induction false} WithoutAbsent(lines: seq<Line>, product: ProductId)
    requires LineIndex(lines, product) == -1
    ensures Without(lines, product) == lines
  {
    if |lines| > 0 {
      assert LineIndex(lines[1..], product) == -1 by {
        forall j | 0 <= j < |lines[1..]| ensures lines[1..][j].product != product {
          assert lines[1..][j] == lines[j + 1];
        }
      }
      WithoutAbsent(lines[1..], product);
      assert [lines[0]] + lines[1..] == lines;
    }
  }

  /** Removing twice is removing once. */
  lemma WithoutIdempotent(lines: seq<Line>, product: ProductId)
    ensures Without(Without(lines, product), product) == Without(lines, product)
  {
    WithoutAbsent(Without(lines, product), product);
  }

  /** Without duplicate products, deleting the line at the product's index
      (`updateCartItem` with quantity <= 0) is the same as filtering the product
      out (`removeCartItem`). */
  lemma {:induction false} SpliceIsWithout(lines: seq<Line>, product: ProductId)
    requires DistinctBy(lines, LineKey)
    requires LineIndex(lines, product) >= 0
    ensures Without(lines, product) == RemoveAt(lines, LineIndex(lines, product))
  {
    var i := LineIndex(lines, product);
    if i == 0 {
      assert LineIndex(lines[1..], product) == -1 by {
        forall j | 0 <= j < |lines[1..]| ensures lines[1..][j].product != product {
          assert LineKey(lines[0]) != LineKey(lines[j + 1]);
        }
      }
      WithoutAbsent(lines[1..], product);
    } else {
      var rest := lines[1..];
      assert DistinctBy(rest, LineKey) by {
        forall a, b | 0 <= a < b < |rest| ensures LineKey(rest[a]) != LineKey(rest[b]) {
          assert rest[a] == lines[a + 1] && rest[b] == lines[b + 1];
        }
      }
      assert LineIndex(rest, product) == i - 1;
      SpliceIsWithout(rest, product);
      assert RemoveAt(lines, i) == [lines[0]] + RemoveAt(rest, i - 1);
    }
  }

  /** Without duplicates, a cart's subtotal is the amount of one product's line
      plus the subtotal of all the other lines. */
  lemma {:induction false} SubtotalSplitsOnProduct(lines: seq<Line>, product: ProductId)
    requires DistinctBy(lines, LineKey)
    ensures Subtotal(lines) == AmountOf(lines, product) + Subtotal(Without(lines, product))
  {
    if |lines| > 0 {
      var rest := lines[1..];
      assert DistinctBy(rest, LineKey) by {
        forall a, b | 0 <= a < b < |rest| ensures LineKey(rest[a]) != LineKey(rest[b]) {
          assert rest[a] == lines[a + 1] && rest[b] == lines[b + 1];
        }
      }
      if lines[0].product == product {
        assert LineIndex(rest, product) == -1 by {
          forall j | 0 <= j < |rest| ensures rest[j].product != product {
            assert LineKey(lines[0]) != LineKey(lines[j + 1]);
          }
        }
        WithoutAbsent(rest, product);
      } else {
        SubtotalSplitsOnProduct(rest, product);
        assert AmountOf(lines, product) == AmountOf(rest, product);
      }
    }
  }

  lemma SubtotalUpdate(lines: seq<Line>, i: nat, x: Line)
    requires i < |lines|
    ensures Subtotal(lines[i := x]) == Subtotal(lines) - lines[i].price * lines[i].quantity + x.price * x.quantity
  {
    var pre, post := lines[..i], lines[i + 1..];
    assert lines == pre + [lines[i]] + post;
    assert lines[i := x] == pre + [x] + post;
    SubtotalAppend(pre + [lines[i]], post);
    SubtotalAppend(pre, [lines[i]]);
    SubtotalAppend(pre + [x], post);
    SubtotalAppend(pre, [x]);
  }

  /** Adding keeps at most one line per product. */
  lemma AddLineKeepsDistinct(lines: seq<Line>, product: ProductId, quantity: int, price: int)
    requires DistinctBy(lines, LineKey)
    ensures DistinctBy(AddLine(lines, product, quantity, price), LineKey)
  {
    var i := LineIndex(lines, product);
    if i > -1 {
      DistinctByUpdate(lines, LineKey, i, lines[i].(quantity := lines[i].quantity + quantity));
    } else {
      DistinctByAppend(lines, LineKey, Line(product, quantity, price));
    }
  }

  /** Adding raises the product's quantity by the amount added, keeps the
      snapshot price of an existing line (a new line takes the catalogue
      price), and leaves every other line where it was. */
  lemma AddLineEffect(lines: seq<Line>, product: ProductId, quantity: int, price: int)
    requires DistinctBy(lines, LineKey)
    ensures var r := AddLine(lines, product, quantity, price);
      && QuantityOf(r, product) == QuantityOf(lines, product) + quantity
      && 0 <= LineIndex(r, product)
      && LineIndex(r, product) == (if LineIndex(lines, product) > -1 then LineIndex(lines, product) else |lines|)
      && r[LineIndex(r, product)].price == (if LineIndex(lines, product) > -1 then lines[LineIndex(lines, product)].price else price)
      && Without(r, product) == Without(lines, product)
  {
    var i := LineIndex(lines, product);
    var r := AddLine(lines, product, quantity, price);
    AddLineKeepsDistinct(lines, product, quantity, price);
    if i > -1 {
      assert LineIndex(r, product) == i by {
        assert forall j | 0 <= j < i :: r[j] == lines[j];
        IndexOfIs(r, LineKey, product, i);
      }
      SpliceIsWithout(lines, product);
      SpliceIsWithout(r, product);
      assert RemoveAt(r, i) == RemoveAt(lines, i);
    } else {
      assert LineIndex(r, product) == |lines| by {
        assert forall j | 0 <= j < |lines| :: r[j] == lines[j];
        IndexOfIs(r, LineKey, product, |lines|);
      }
      WithoutAbsent(lines, product);
      SpliceIsWithout(r, product);
      assert RemoveAt(r, |lines|) == lines;
    }
  }

  /** Adding raises the subtotal by the added quantity at the line's snapshot price. */
  lemma AddLineSubtotal(lines: seq<Line>, product: ProductId, quantity: int, price: int)
    ensures var i := LineIndex(lines, product);
      Subtotal(AddLine(lines, product, quantity, price))
        == Subtotal(lines) + quantity * (if i > -1 then lines[i].price else price)
  {
    var i := LineIndex(lines, product);
    if i > -1 {
      var l := lines[i];
      assert AddLine(lines, product, quantity, price) == lines[i := l.(quantity := l.quantity + quantity)];
      SubtotalUpdate(lines, i, l.(quantity := l.quantity + quantity));
      assert l.price * (l.quantity + quantity) == l.price * l.quantity + quantity * l.price;
    } else {
      assert AddLine(lines, product, quantity, price) == lines + [Line(product, quantity, price)];
      SubtotalAppend(lines, [Line(product, quantity, price)]);
    }
  }

  /** Setting a quantity keeps at most one line per product. */
  lemma SetLineKeepsDistinct(lines: seq<Line>, i: nat, quantity: int)
    requires i < |lines| && DistinctBy(lines, LineKey)
    ensures DistinctBy(SetLine(lines, i, quantity), LineKey)
  {
    if quantity <= 0 {
      DistinctByRemoveAt(lines, LineKey, i);
    } else {
      DistinctByUpdate(lines, LineKey, i, lines[i].(quantity := quantity));
    }
  }

  /** Setting the quantity of a product's line: `<= 0` leaves no line for the
      product, `> 0` makes that the line's quantity; every other line is kept,
      in order. */
  lemma SetLineEffect(lines: seq<Line>, product: ProductId, quantity: int)
    requires DistinctBy(lines, LineKey)
    requires LineIndex(lines, product) >= 0
    ensures var r := SetLine(lines, LineIndex(lines, product), quantity);
      && (quantity <= 0 ==> r == Without(lines, product) && LineIndex(r, product) == -1)
      && (quantity > 0 ==>
          && LineIndex(r, product) == LineIndex(lines, product)
          && r[LineIndex(r, product)] == lines[LineIndex(lines, product)].(quantity := quantity)
          && QuantityOf(r, product) == quantity && Without(r, product) == Without(lines, product))
  {
    var i := LineIndex(lines, product);
    var r := SetLine(lines, i, quantity);
    SpliceIsWithout(lines, product);
    if quantity > 0 {
      SetLineKeepsDistinct(lines, i, quantity);
      assert LineIndex(r, product) == i by {
        assert forall j | 0 <= j < i :: r[j] == lines[j];
        IndexOfIs(r, LineKey, product, i);
      }
      SpliceIsWithout(r, product);
      assert RemoveAt(r, i) == RemoveAt(lines, i);
    }
  }

  /** Filtering keeps at most one line per product. */
  lemma {:induction false} WithoutKeepsDistinct(lines: seq<Line>, product: ProductId)
    requires DistinctBy(lines, LineKey)
    ensures DistinctBy(Without(lines, product), LineKey)
    ensures forall j | 0 <= j < |Without(lines, product)| :: Without(lines, product)[j] in lines
  {
    if |lines| > 0 {
      var rest := lines[1..];
      assert DistinctBy(rest, LineKey) by {
        forall a, b | 0 <= a < b < |rest| ensures LineKey(rest[a]) != LineKey(rest[b]) {
          assert rest[a] == lines[a + 1] && rest[b] == lines[b + 1];
        }
      }
      WithoutKeepsDistinct(rest, product);
      var w := Without(rest, product);
      assert forall j | 0 <= j < |w| :: w[j] in lines by {
        forall j | 0 <= j < |w| ensures w[j] in lines {
          assert w[j] in rest;
          var k :| 0 <= k < |rest| && rest[k] == w[j];
          assert lines[k + 1] == w[j];
        }
      }
      if lines[0].product != product {
        var r := [lines[0]] + w;
        forall a, b | 0 <= a < b < |r| ensures LineKey(r[a]) != LineKey(r[b]) {
          if a == 0 {
            var k :| 0 <= k < |rest| && rest[k] == r[b];
            assert lines[k + 1] == r[b];
          } else {
            assert r[a] == w[a - 1] && r[b] == w[b - 1];
          }
        }
      }
    }
  }

  // ---------------------------------------------------------------------------
  // The endpoints

  /** Storing a cart with one line per product keeps every cart that way. */
  lemma StoreCartKeepsDistinct(carts: map<UserId, seq<Line>>, user: UserId, lines: seq<Line>, carts': map<UserId, seq<Line>>)
    requires forall u | u in carts :: DistinctBy(carts[u], LineKey)
    requires DistinctBy(lines, LineKey) && carts' == carts[user := lines]
    ensures forall u | u in carts' :: DistinctBy(carts'[u], LineKey)
  {
  }

  /** `POST /cart`. */
  method AddToCart(db: Database, user: UserId, productId: Option<ProductId>, quantity: Option<int>)
    returns (r: Result<seq<Line>, ApiError>)
    requires db.Valid()
    modifies db
    ensures db.Valid()
    ensures db.products == old(db.products) && db.orders == old(db.orders)
    ensures db.users == old(db.users) && db.nextId == old(db.nextId)
    ensures r.Failure? ==> db.carts == old(db.carts)
    ensures r.Success? <==> (productId.Some? && quantity.Some? && quantity.value != 0
      && IndexOf(old(db.products), ProductKey, productId.value) >= 0)
    ensures productId.None? || quantity.None? || quantity.value == 0 ==>
      r == Failure(ApiError(400, "Missing product_id or quantity")) && db.carts == old(db.carts)
    ensures (productId.Some? && quantity.Some? && quantity.value != 0
      && IndexOf(old(db.products), ProductKey, productId.value) == -1) ==>
      r == Failure(ApiError(404, "Product not found")) && db.carts == old(db.carts)
    ensures r.Success? ==>
      var k := IndexOf(old(db.products), ProductKey, productId.value);
      && 0 <= k
      && db.carts == old(db.carts)[user := AddLine(CartOf(old(db.carts), user), productId.value, quantity.value, old(db.products)[k].price)]
      && r.value == db.carts[user]
  {
    if productId.None? || quantity.None? || quantity.value == 0 {
      return Failure(ApiError(400, "Missing product_id or quantity"));
    }
    var pid, q := productId.value, quantity.value;
    var k := IndexOf(db.products, ProductKey, pid);
    if k == -1 {
      return Failure(ApiError(404, "Product not found"));
    }
    var price := db.products[k].price;
    var lines: seq<Line>;
    if user !in db.carts {
      // first add: a new cart document with this single line
      lines := [Line(pid, q, price)];
      assert lines == [] + [Line(pid, q, price)];
    } else {
      lines := db.carts[user];
      var i := LineIndex(lines, pid);
      if i > -1 {
        lines := lines[i := lines[i].(quantity := lines[i].quantity + q)];
      } else {
        lines := lines + [Line(pid, q, price)];
      }
    }
    assert lines == AddLine(CartOf(db.carts, user), pid, q, price);
    AddLineKeepsDistinct(CartOf(db.carts, user), pid, q, price);
    StoreCartKeepsDistinct(db.carts, user, lines, db.carts[user := lines]);
    db.carts := db.carts[user := lines];
    r := Success(lines);
  }

  /** `PUT /cart`. */
  method UpdateCartItem(db: Database, user: UserId, productId: Option<ProductId>, quantity: Option<int>)
    returns (r: Result<seq<Line>, ApiError>)
    requires db.Valid()
    modifies db
    ensures db.Valid()
    ensures db.products == old(db.products) && db.orders == old(db.orders)
    ensures db.users == old(db.users) && db.nextId == old(db.nextId)
    ensures r.Failure? ==> db.carts == old(db.carts)
    ensures r.Success? <==> (productId.Some? && quantity.Some? && user in old(db.carts)
      && LineIndex(old(db.carts)[user], productId.value) >= 0)
    ensures productId.None? || quantity.None? ==> r == Failure(ApiError(400, "Missing product_id or quantity"))
    ensures productId.Some? && quantity.Some? && user !in old(db.carts) ==>
      r == Failure(ApiError(404, "Cart not found"))
    ensures (productId.Some? && quantity.Some? && user in old(db.carts)
      && LineIndex(old(db.carts)[user], productId.value) == -1) ==>
      r == Failure(ApiError(404, "Product not found in cart"))
    ensures r.Success? ==>
      && user in old(db.carts)
      && var lines := old(db.carts)[user];
      && 0 <= LineIndex(lines, productId.value)
      && db.carts == old(db.carts)[user := SetLine(lines, LineIndex(lines, productId.value), quantity.value)]
      && r.value == db.carts[user]
  {
    if productId.None? || quantity.None? {
      return Failure(ApiError(400, "Missing product_id or quantity"));
    }
    var pid, q := productId.value, quantity.value;
    if user !in db.carts {
      return Failure(ApiError(404, "Cart not found"));
    }
    var lines := db.carts[user];
    var i := LineIndex(lines, pid);
    if i == -1 {
      return Failure(ApiError(404, "Product not found in cart"));
    }
    SetLineKeepsDistinct(lines, i, q);
    if q <= 0 {
      lines := lines[..i] + lines[i + 1..];
    } else {
      lines := lines[i := lines[i].(quantity := q)];
    }
    db.carts := db.carts[user := lines];
    r := Success(lines);
  }

  /** `DELETE /cart/:product_id`. */
  method RemoveCartItem(db: Database, user: UserId, productId: ProductId)
    returns (r: Result<seq<Line>, ApiError>)
    requires db.Valid()
    modifies db
    ensures db.Valid()
    ensures db.products == old(db.products) && db.orders == old(db.orders)
    ensures db.users == old(db.users) && db.nextId == old(db.nextId)
    ensures user !in old(db.carts) ==> r == Failure(ApiError(404, "Cart not found")) && db.carts == old(db.carts)
    ensures user in old(db.carts) ==>
      && db.carts == old(db.carts)[user := Without(old(db.carts)[user], productId)]
      && r == Success(db.carts[user])
  {
    if user !in db.carts {
      return Failure(ApiError(404, "Cart not found"));
    }
    var lines := Without(db.carts[user], productId);
    WithoutKeepsDistinct(db.carts[user], productId);
    db.carts := db.carts[user := lines];
    r := Success(lines);
  }

  /** `DELETE /cart`: deletes the user's cart document, if any; a later
      `GET /cart` then sees no items and subtotal 0. */
  method ClearCart(db: Database, user: UserId)
    requires db.Valid()
    modifies db
    ensures db.Valid()
    ensures db.products == old(db.products) && db.orders == old(db.orders)
    ensures db.users == old(db.users) && db.nextId == old(db.nextId)
    ensures db.carts == old(db.carts) - {user}
    ensures GetCart(db.carts, user) == CartView([], 0)
  {
    db.carts := db.carts - {user};
  }
}
