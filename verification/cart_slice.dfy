/** The storefront's cart state: the `fetchCart` payload shaping, the outcome
    of the cart thunks, and the reducers that update the cart slice. */
module CartSlice {
  import opened Common
  import opened Store
  import opened CartController

  /** The badge count: the sum of the lines' quantities. */
  function SumQuantities(items: seq<Line>): int {
    if |items| == 0 then 0 else items[0].quantity + SumQuantities(items[1..])
  }

  lemma {:induction false} SumQuantitiesAppend(a: seq<Line>, b: seq<Line>)
    ensures SumQuantities(a + b) == SumQuantities(a) + SumQuantities(b)
  {
    if |a| == 0 {
      assert a + b == b;
    } else {
      assert (a + b)[1..] == a[1..] + b;
      SumQuantitiesAppend(a[1..], b);
    }
  }

  lemma SumQuantitiesSingle(x: Line)
    ensures SumQuantities([x]) == x.quantity
  {
    assert [x][1..] == [];
  }

  /** Adding `quantity` of a product to a server cart raises the count the
      client then fetches by exactly `quantity`. */
  lemma AddLineCount(lines: seq<Line>, product: ProductId, quantity: int, price: int)
    ensures SumQuantities(AddLine(lines, product, quantity, price)) == SumQuantities(lines) + quantity
  {
    var i := LineIndex(lines, product);
    if i > -1 {
      var pre, post := lines[..i], lines[i + 1..];
      var x := lines[i].(quantity := lines[i].quantity + quantity);
      assert lines == pre + [lines[i]] + post;
      assert lines[i := x] == pre + [x] + post;
      SumQuantitiesAppend(pre + [lines[i]], post);
      SumQuantitiesAppend(pre, [lines[i]]);
      SumQuantitiesAppend(pre + [x], post);
      SumQuantitiesAppend(pre, [x]);
      SumQuantitiesSingle(lines[i]);
      SumQuantitiesSingle(x);
    } else {
      SumQuantitiesAppend(lines, [Line(product, quantity, price)]);
      SumQuantitiesSingle(Line(product, quantity, price));
    }
  }

  /** Removing a product's line from a cart without duplicates lowers the
      count by that line's quantity (by nothing when there is no line). */
  lemma RemoveLineCount(lines: seq<Line>, product: ProductId)
    requires DistinctBy(lines, LineKey)
    ensures SumQuantities(Without(lines, product)) == SumQuantities(lines) - QuantityOf(lines, product)
  {
    var i := LineIndex(lines, product);
    if i == -1 {
      WithoutAbsent(lines, product);
    } else {
      SpliceIsWithout(lines, product);
      var pre, post := lines[..i], lines[i + 1..];
      assert lines == pre + [lines[i]] + post;
      assert RemoveAt(lines, i) == pre + post;
      SumQuantitiesAppend(pre + [lines[i]], post);
      SumQuantitiesAppend(pre, [lines[i]]);
      SumQuantitiesAppend(pre, post);
      SumQuantitiesSingle(lines[i]);
    }
  }

  // ---------------------------------------------------------------------------
  // Thunks

  /** A `{ success, message, data }` body of `GET /cart`. */
  datatype CartResponse = CartResponse(success: bool, message: Option<string>, data: Option<CartView>)

  /** The `{ ...cartData, count }` payload of a fulfilled `fetchCart`. */
  datatype CartPayload = CartPayload(items: seq<Line>, subtotal: int, count: int)

  /** How a thunk settles: fulfilled with a payload, or rejected with the
      value given to `rejectWithValue` (None when that value is undefined). */
  datatype Outcome<+P> = Fulfilled(payload: P) | Rejected(reason: Option<string>)

  /** `fetchCart`: a failed response rejects with its message; otherwise the
      data (or an empty cart when there is none) is extended with its count. */
  function FetchCartThunk(response: CartResponse): (o: Outcome<CartPayload>)
    ensures !response.success ==> o == Rejected(response.message)
    ensures response.success ==> o.Fulfilled?
    ensures response.success && response.data.None? ==> o == Fulfilled(CartPayload([], 0, 0))
    ensures response.success && response.data.Some? ==>
      o.payload.items == response.data.value.items && o.payload.subtotal == response.data.value.subtotal
    ensures o.Fulfilled? ==> o.payload.count == SumQuantities(o.payload.items)
  {
    if !response.success then Rejected(response.message)
    else
      var data := if response.data.Some? then response.data.value else CartView([], 0);
      Fulfilled(CartPayload(data.items, data.subtotal, SumQuantities(data.items)))
  }

  /** `value || fallback`: a missing or empty string gives the fallback. */
  function OrElse(value: Option<string>, fallback: string): (s: string)
    ensures value.Some? && value.value != "" ==> s == value.value
    ensures value.None? || value.value == "" ==> s == fallback
  {
    if value.Some? && value.value != "" then value.value else fallback
  }

  /** The body of a cart mutation (`POST`, `PUT`, `DELETE /cart...`). */
  datatype MutationResponse = MutationResponse(success: bool, message: Option<string>)

  /** `addToCart`, `updateCartItem`, `removeCartItem` and `clearCart`: a failed
      response rejects with its message or the thunk's own fallback, so the
      rejection always carries a non-empty text; a successful one fulfils
      (and dispatches `fetchCart`). */
  function MutationThunk(response: MutationResponse, fallback: string): (o: Outcome<()>)
    requires fallback != ""
    ensures o.Rejected? <==> !response.success
    ensures o.Rejected? ==> o.reason == Some(OrElse(response.message, fallback)) && o.reason.value != ""
  {
    if response.success then Fulfilled(()) else Rejected(Some(OrElse(response.message, fallback)))
  }

  /** The count the client shows after fetching a user's cart is the sum of
      the quantities of that user's server cart, and 0 when there is none. */
  lemma FetchedCountMatchesServer(carts: map<UserId, seq<Line>>, user: UserId)
    ensures var o := FetchCartThunk(CartResponse(true, None, Some(GetCart(carts, user))));
      && o.Fulfilled?
      && o.payload.items == CartOf(carts, user)
      && o.payload.count == SumQuantities(CartOf(carts, user))
      && (user !in carts ==> o.payload == CartPayload([], 0, 0))
  {
  }

  // ---------------------------------------------------------------------------
  // The slice

  /** The `cart` slice of the store. */
  class CartState {
    var items: seq<Line>
    var count: int
    var subtotal: int
    var isLoading: bool
    var error: Option<string>

    /** The badge count agrees with the items. */
    ghost predicate CountMatches()
      reads this
    {
      count == SumQuantities(items)
    }

    /** `initialState`. */
    constructor ()
      ensures items == [] && count == 0 && subtotal == 0 && !isLoading && error == None
      ensures CountMatches()
    {
      items, count, subtotal, isLoading, error := [], 0, 0, false, None;
    }

    /** `clearCartState`: empties the cart and the error; `isLoading` stays. */
    method ClearCartState()
      modifies this
      ensures items == [] && count == 0 && subtotal == 0 && error == None
      ensures isLoading == old(isLoading)
      ensures CountMatches()
    {
      items := [];
      count := 0;
      subtotal := 0;
      error := None;
    }

    /** `fetchCart.pending`: loading, no error, cart data kept. */
    method FetchCartPending()
      modifies this
      ensures isLoading && error == None
      ensures items == old(items) && count == old(count) && subtotal == old(subtotal)
      ensures old(CountMatches()) ==> CountMatches()
    {
      isLoading := true;
      error := None;
    }

    /** `fetchCart.fulfilled`: not loading, cart data replaced by the payload;
      the error is left as it is. */
    method FetchCartFulfilled(payload: CartPayload)
      modifies this
      ensures !isLoading && error == old(error)
      ensures items == payload.items && count == payload.count && subtotal == payload.subtotal
      ensures payload.count == SumQuantities(payload.items) ==> CountMatches()
    {
      isLoading := false;
      items := payload.items;
      count := payload.count;
      subtotal := payload.subtotal;
    }

    /** `fetchCart.rejected`: not loading, the error recorded, cart data kept. */
    method FetchCartRejected(reason: Option<string>)
      modifies this
      ensures !isLoading && error == Some(OrElse(reason, "Could not fetch cart"))
      ensures items == old(items) && count == old(count) && subtotal == old(subtotal)
      ensures old(CountMatches()) ==> CountMatches()
    {
      isLoading := false;
      error := Some(OrElse(reason, "Could not fetch cart"));
    }

    /** `addToCart.rejected`: only the error changes. */
    method AddToCartRejected(reason: Option<string>)
      modifies this
      ensures error == Some(OrElse(reason, "Could not add item to cart"))
      ensures items == old(items) && count == old(count) && subtotal == old(subtotal)
      ensures isLoading == old(isLoading)
      ensures old(CountMatches()) ==> CountMatches()
    {
      error := Some(OrElse(reason, "Could not add item to cart"));
    }

    /** `updateCartItem.rejected`: only the error changes. */
    method UpdateCartItemRejected(reason: Option<string>)
      modifies this
      ensures error == Some(OrElse(reason, "Could not update item"))
      ensures items == old(items) && count == old(count) && subtotal == old(subtotal)
      ensures isLoading == old(isLoading)
      ensures old(CountMatches()) ==> CountMatches()
    {
      error := Some(OrElse(reason, "Could not update item"));
    }

    /** `removeCartItem.rejected`: only the error changes. */
    method RemoveCartItemRejected(reason: Option<string>)
      modifies this
      ensures error == Some(OrElse(reason, "Could not remove item"))
      ensures items == old(items) && count == old(count) && subtotal == old(subtotal)
      ensures isLoading == old(isLoading)
      ensures old(CountMatches()) ==> CountMatches()
    {
      error := Some(OrElse(reason, "Could not remove item"));
    }

    /** `clearCart.pending`: loading; nothing else changes. */
    method ClearCartPending()
      modifies this
      ensures isLoading
      ensures items == old(items) && count == old(count) && subtotal == old(subtotal) && error == old(error)
      ensures old(CountMatches()) ==> CountMatches()
    {
      isLoading := true;
    }

    /** `clearCart.rejected`: not loading, the error recorded, cart data kept. */
    method ClearCartRejected(reason: Option<string>)
      modifies this
      ensures !isLoading && error == Some(OrElse(reason, "Could not clear cart"))
      ensures items == old(items) && count == old(count) && subtotal == old(subtotal)
      ensures old(CountMatches()) ==> CountMatches()
    {
      isLoading := false;
      error := Some(OrElse(reason, "Could not clear cart"));
    }
  }
}
