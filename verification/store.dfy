/** The stored records (the Mongoose schemas of Product, Cart, Order and User)
    and the database that holds their collections. */
module Store {
  import opened Common

  type ProductId = nat
  type UserId = nat
  type OrderId = nat

  /** A catalogue product; `stock` and `sold` default to 0 on creation. */
  datatype Product = Product(
    id: ProductId, name: string, slug: string, category: string,
    price: int, stock: int, sold: int)

  /** A cart line or an order line: product, quantity and the unit price
      snapshot taken when the line was added to the cart. */
  datatype Line = Line(product: ProductId, quantity: int, price: int)

  datatype Status = Pending | Shipping | Completed | Cancelled

  datatype PaymentMethod = Cod | Banking

  datatype Recipient = Recipient(name: string, mobile: string)

  datatype Order = Order(
    id: OrderId, user: UserId, items: seq<Line>, totalPrice: int, status: Status,
    shippingAddress: string, recipient: Recipient, paymentMethod: PaymentMethod,
    createdAt: int)

  datatype Role = Customer | Admin | Seller

  datatype User = User(
    id: UserId, name: string, phone: string, email: string,
    passwordHash: string, role: Role)

  // Keys by which the controllers look records up.
  function ProductKey(p: Product): ProductId { p.id }
  function SlugKey(p: Product): string { p.slug }
  function LineKey(l: Line): ProductId { l.product }
  function OrderKey(o: Order): OrderId { o.id }
  function OwnedOrderKey(o: Order): (OrderId, UserId) { (o.id, o.user) }
  function UserKey(u: User): UserId { u.id }
  function EmailKey(u: User): string { u.email }

  /** The string stored for each status value (the schema's enum). */
  function StatusName(s: Status): string {
    match s
    case Pending => "pending"
    case Shipping => "shipping"
    case Completed => "completed"
    case Cancelled => "cancelled"
  }

  /** The status a request string names, if it is one of the four enum values. */
  function ParseStatus(s: string): (r: Option<Status>)
    ensures r.Some? <==> s in {"pending", "shipping", "completed", "cancelled"}
    ensures r.Some? ==> StatusName(r.value) == s
  {
    if s == "pending" then Some(Pending)
    else if s == "shipping" then Some(Shipping)
    else if s == "completed" then Some(Completed)
    else if s == "cancelled" then Some(Cancelled)
    else None
  }

  lemma StatusNameRoundTrip(st: Status)
    ensures ParseStatus(StatusName(st)) == Some(st)
  {
  }

  function RoleName(r: Role): string {
    match r
    case Customer => "customer"
    case Admin => "admin"
    case Seller => "seller"
  }

  /** Distinct roles have distinct names. */
  lemma RoleNameInjective(a: Role, b: Role)
    ensures RoleName(a) == RoleName(b) <==> a == b
  {
    if a != b {
      assert RoleName(a)[0] != RoleName(b)[0];
    }
  }

  /** The role a request string names, if it is one of the three enum values. */
  function ParseRole(s: string): (r: Option<Role>)
    ensures r.Some? <==> s in {"customer", "admin", "seller"}
    ensures r.Some? ==> RoleName(r.value) == s
  {
    if s == "customer" then Some(Customer)
    else if s == "admin" then Some(Admin)
    else if s == "seller" then Some(Seller)
    else None
  }

  /** Sum of `price * quantity` over the lines (the cart and order `reduce`). */
  function Subtotal(lines: seq<Line>): int {
    if |lines| == 0 then 0
    else lines[0].price * lines[0].quantity + Subtotal(lines[1..])
  }

  lemma {:induction false} SubtotalAppend(a: seq<Line>, b: seq<Line>)
    ensures Subtotal(a + b) == Subtotal(a) + Subtotal(b)
  {
    if |a| == 0 {
      assert a + b == b;
    } else {
      assert (a + b)[1..] == a[1..] + b;
      SubtotalAppend(a[1..], b);
    }
  }

  /** The collections of the MongoDB database, as the controllers see them
      between two requests. Every collection keeps insertion order. */
  class Database {
    var products: seq<Product>
    var carts: map<UserId, seq<Line>>
    var orders: seq<Order>
    var users: seq<User>
    var nextId: nat

    /** What the controllers maintain: product, user and order ids are unique
        and were issued by the id counter, product slugs and e-mails are
        unique, every order has at least one line, and a cart holds at most
        one line per product. */
    ghost predicate Valid()
      reads this
    {
      && DistinctBy(products, ProductKey)
      && DistinctBy(products, SlugKey)
      && (forall i | 0 <= i < |products| :: products[i].id < nextId)
      && DistinctBy(users, UserKey)
      && DistinctBy(users, EmailKey)
      && (forall i | 0 <= i < |users| :: users[i].id < nextId)
      && DistinctBy(orders, OrderKey)
      && (forall i | 0 <= i < |orders| :: orders[i].id < nextId)
      && (forall i | 0 <= i < |orders| :: |orders[i].items| > 0)
      && (forall u | u in carts :: DistinctBy(carts[u], LineKey))
    }

    constructor ()
      ensures Valid()
      ensures products == [] && carts == map[] && orders == [] && users == [] && nextId == 0
    {
      products, carts, orders, users, nextId := [], map[], [], [], 0;
    }
  }
}
