/** The order views (Orders/views.py): checkout from the cart and the own-versus-staff listing. */
module OrderViews {
  import opened Models
  import opened OrderMath
  import opened PaymentModels
  import opened Storage

  datatype CheckoutError = CartEmpty | ShippingInfoRequired | OutOfStock(name: string, available: int)

  /** 201 with the new order, or 400 with the error. */
  datatype CheckoutReply = OrderCreated(id: OrderId, order: Order) | CheckoutFailure(error: CheckoutError)

  function CheckoutStatus(r: CheckoutReply): int
  {
    if r.OrderCreated? then 201 else 400
  }

  /** A request field counts as given when present and not empty. */
  predicate Present(field: Option<string>)
  {
    field.Some? && field.value != ""
  }

  predicate InCatalog(lines: seq<CartLine>, products: map<ProductId, Product>)
  {
    forall i | 0 <= i < |lines| :: lines[i].product in products
  }

  predicate Short(line: CartLine, products: map<ProductId, Product>)
    requires line.product in products
  {
    products[line.product].stock < line.quantity
  }

  /** The first cart line whose product has less stock than the line asks for. */
  function FirstShortLine(lines: seq<CartLine>, products: map<ProductId, Product>): (r: Option<nat>)
    requires InCatalog(lines, products)
    ensures r.Some? ==> r.value < |lines| && Short(lines[r.value], products)
    ensures r.Some? ==> forall k | 0 <= k < r.value :: !Short(lines[k], products)
    ensures r.None? <==> forall k | 0 <= k < |lines| :: !Short(lines[k], products)
  {
    if lines == [] then None
    else if Short(lines[0], products) then Some(0)
    else match FirstShortLine(lines[1..], products)
      case Some(k) => Some(k + 1)
      case None => None
  }

  /** The cart's total: Σ current price × quantity over its lines. */
  function CartTotal(lines: seq<CartLine>, products: map<ProductId, Product>): (r: int)
    requires InCatalog(lines, products)
    ensures (forall i | 0 <= i < |lines| :: lines[i].quantity >= 0 && products[lines[i].product].price >= 0) ==> r >= 0
  {
    if lines == [] then 0
    else products[lines[0].product].price * lines[0].quantity + CartTotal(lines[1..], products)
  }

  /** The order item created for a cart line: same product and quantity, the product's price now. */
  function Freeze(line: CartLine, products: map<ProductId, Product>): OrderItem
    requires line.product in products
  {
    OrderItem(line.product, line.quantity, products[line.product].price)
  }

  function FrozenItems(lines: seq<CartLine>, products: map<ProductId, Product>): seq<OrderItem>
    requires InCatalog(lines, products)
  {
    seq(|lines|, k requires 0 <= k < |lines| => Freeze(lines[k], products))
  }

  /** The total stored on a checked-out order is the total of its frozen items, so it does not
      move when product prices change later. */
  lemma {:induction false} CartTotalIsItemsTotal(lines: seq<CartLine>, products: map<ProductId, Product>)
    requires InCatalog(lines, products)
    ensures CartTotal(lines, products) == ItemsTotal(FrozenItems(lines, products))
  {
    if lines != [] {
      CartTotalIsItemsTotal(lines[1..], products);
      assert FrozenItems(lines, products)[1..] == FrozenItems(lines[1..], products);
    }
  }

  predicate CartNonEmpty(db: Db, user: UserId)
  {
    user in db.carts && |db.carts[user]| > 0
  }

  function CheckoutSpec(db: Db, user: UserId, address: Option<string>, phone: Option<string>): (r: Step<CheckoutReply>)
    requires Consistent(db)
    ensures r.reply == CheckoutFailure(CartEmpty) <==> !CartNonEmpty(db, user)
    ensures r.reply == CheckoutFailure(ShippingInfoRequired) <==>
      CartNonEmpty(db, user) && !(Present(address) && Present(phone))
    ensures (r.reply.CheckoutFailure? && r.reply.error.OutOfStock?) <==>
      && CartNonEmpty(db, user) && Present(address) && Present(phone)
      && exists k | 0 <= k < |db.carts[user]| :: Short(db.carts[user][k], db.products)
    ensures r.reply.CheckoutFailure? && r.reply.error.OutOfStock? ==>
      && InCatalog(db.carts[user], db.products)
      && FirstShortLine(db.carts[user], db.products).Some?
      && var p := db.products[db.carts[user][FirstShortLine(db.carts[user], db.products).value].product];
         r.reply.error == OutOfStock(p.name, p.stock)
    ensures r.reply.CheckoutFailure? ==> r.db == db
  {
    if !CartNonEmpty(db, user) then Step(CheckoutFailure(CartEmpty), db)
    else if !Present(address) || !Present(phone) then Step(CheckoutFailure(ShippingInfoRequired), db)
    else
      var lines := db.carts[user];
      assert InCatalog(lines, db.products);
      match FirstShortLine(lines, db.products)
      case Some(k) =>
        var p := db.products[lines[k].product];
        Step(CheckoutFailure(OutOfStock(p.name, p.stock)), db)
      case None =>
        var order := Order(user, Pending, CartTotal(lines, db.products), address.value, phone.value,
                           FrozenItems(lines, db.products));
        Step(OrderCreated(db.nextOrderId, order),
             db.(orders := db.orders[db.nextOrderId := order], nextOrderId := db.nextOrderId + 1))
  }

  /** A successful checkout adds exactly one order under a fresh id, owned by the caller and
      pending, whose total is the cart's total at that instant and whose items are the cart's
      lines one for one with the prices of that instant; the cart, the products' stock and the
      payments are left as they were. */
  lemma CheckoutCreatesOrder(db: Db, user: UserId, address: Option<string>, phone: Option<string>)
    requires Consistent(db)
    ensures var r := CheckoutSpec(db, user, address, phone);
      && Consistent(r.db)
      && (r.reply.OrderCreated? ==>
        var lines := db.carts[user];
        var o := r.reply.order;
        && InCatalog(lines, db.products)
        && r.reply.id !in db.orders
        && r.db == db.(orders := db.orders[r.reply.id := o], nextOrderId := db.nextOrderId + 1)
        && o.user == user && o.status == Pending
        && o.address == address.value && o.phone == phone.value
        && o.total == CartTotal(lines, db.products) == ItemsTotal(o.items)
        && |o.items| == |lines|
        && (forall k | 0 <= k < |lines| ::
              o.items[k] == OrderItem(lines[k].product, lines[k].quantity, db.products[lines[k].product].price)))
  {
    var r := CheckoutSpec(db, user, address, phone);
    if r.reply.OrderCreated? {
      var lines := db.carts[user];
      assert InCatalog(lines, db.products);
      CartTotalIsItemsTotal(lines, db.products);
    }
  }

  /** Checkout checks stock but never takes anything off it (stock is only written by
      OrderSerializer.create): cart {A: 2 at 10.00, stock 5} gives an order of 20.00 and A's
      stock is still 5. */
  lemma CheckoutKeepsStockExample()
    ensures var db := Db(map[1 := Product("A", 1000, 5)], map[9 := [CartLine(1, 1, 2)]], map[], map[], [], 2, 1);
            var r := CheckoutSpec(db, 9, Some("1 Main St"), Some("555-0100"));
            && r.reply == OrderCreated(1, Order(9, Pending, 2000, "1 Main St", "555-0100", [OrderItem(1, 2, 1000)]))
            && r.db.products[1].stock == 5
  {
    var db := Db(map[1 := Product("A", 1000, 5)], map[9 := [CartLine(1, 1, 2)]], map[], map[], [], 2, 1);
    assert Consistent(db);
    var lines := [CartLine(1, 1, 2)];
    assert FirstShortLine(lines, db.products) == None;
    assert CartTotal(lines, db.products) == 2000 by { assert lines[1..] == []; }
    assert FrozenItems(lines, db.products) == [OrderItem(1, 2, 1000)];
  }

  /** checkout answers 201 exactly when the cart is non-empty, the shipping fields are given and
      no line is short, and 400 otherwise. */
  lemma CheckoutStatuses(db: Db, user: UserId, address: Option<string>, phone: Option<string>)
    requires Consistent(db)
    ensures var s := CheckoutStatus(CheckoutSpec(db, user, address, phone).reply);
      var accepted := && CartNonEmpty(db, user) && Present(address) && Present(phone)
                      && forall k | 0 <= k < |db.carts[user]| :: !Short(db.carts[user][k], db.products);
      && (s == 201 <==> accepted)
      && (s == 400 <==> !accepted)
  {
  }

  /** get_queryset: staff see every order, anybody else exactly their own. */
  function VisibleOrders(orders: map<OrderId, Order>, user: UserId, isStaff: bool): (r: map<OrderId, Order>)
    ensures isStaff ==> r == orders
    ensures !isStaff ==> forall id :: id in r <==> id in orders && orders[id].user == user
    ensures forall id | id in r :: id in orders && r[id] == orders[id]
  {
    if isStaff then orders else map id | id in orders && orders[id].user == user :: orders[id]
  }

  method Checkout(st: Store, user: UserId, address: Option<string>, phone: Option<string>) returns (reply: CheckoutReply)
    requires st.Valid()
    modifies st
    ensures st.Valid()
    ensures Step(reply, st.Snapshot()) == CheckoutSpec(old(st.Snapshot()), user, address, phone)
  {
    ghost var db := st.Snapshot();
    CheckoutCreatesOrder(db, user, address, phone);
    if user !in st.carts || |st.carts[user]| == 0 {
      return CheckoutFailure(CartEmpty);
    }
    if !Present(address) || !Present(phone) {
      return CheckoutFailure(ShippingInfoRequired);
    }
    var lines := st.carts[user];
    assert InCatalog(lines, st.products);
    var short := CheckStock(lines, st.products);
    if short.Some? {
      var p := st.products[lines[short.value].product];
      return CheckoutFailure(OutOfStock(p.name, p.stock));
    }
    var id := st.nextOrderId;
    var total := CartTotal(lines, st.products);
    st.orders := st.orders[id := Order(user, Pending, total, address.value, phone.value, [])];
    st.nextOrderId := id + 1;
    FreezeItems(st, id, lines);
    assert [] + FrozenItems(lines, db.products) == FrozenItems(lines, db.products);
    reply := OrderCreated(id, st.orders[id]);
  }

  /** The stock loop of checkout: it stops at the first line whose product has less stock than
      the line asks for. */
  method CheckStock(lines: seq<CartLine>, products: map<ProductId, Product>) returns (short: Option<nat>)
    requires InCatalog(lines, products)
    ensures short == FirstShortLine(lines, products)
  {
    for i := 0 to |lines|
      invariant forall k | 0 <= k < i :: !Short(lines[k], products)
    {
      if products[lines[i].product].stock < lines[i].quantity {
        return Some(i);
      }
    }
    return None;
  }

  /** The item loop of checkout: one item per cart line, with the product's price of that moment,
      appended in order to the order `id`; nothing else changes. */
  method FreezeItems(st: Store, id: OrderId, lines: seq<CartLine>)
    requires id in st.orders && InCatalog(lines, st.products)
    modifies st
    ensures st.Snapshot() == old(st.Snapshot()).(
      orders := old(st.orders)[id := old(st.orders[id]).(items := old(st.orders[id].items) + FrozenItems(lines, old(st.products)))])
  {
    ghost var db := st.Snapshot();
    assert FrozenItems(lines[..0], db.products) == [];
    assert db.orders[id].items + [] == db.orders[id].items;
    for i := 0 to |lines|
      invariant st.Snapshot() == db.(orders := db.orders[id := db.orders[id].(items := db.orders[id].items + FrozenItems(lines[..i], db.products))])
    {
      assert FrozenItems(lines[..i + 1], db.products) == FrozenItems(lines[..i], db.products) + [Freeze(lines[i], db.products)];
      assert db.orders[id].items + FrozenItems(lines[..i + 1], db.products)
          == db.orders[id].items + FrozenItems(lines[..i], db.products) + [Freeze(lines[i], db.products)];
      var item := OrderItem(lines[i].product, lines[i].quantity, st.products[lines[i].product].price);
      st.orders := st.orders[id := st.orders[id].(items := st.orders[id].items + [item])];
    }
    assert lines[..|lines|] == lines;
  }
}
