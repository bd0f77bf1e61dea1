/** Order creation from an item list (Orders/serializers.py, OrderSerializer.create). */
module OrderSerializers {
  import opened Models
  import opened OrderMath
  import opened PaymentModels
  import opened Storage

  /** One entry of the request's `items` list: a product and, when sent, quantity and price. */
  datatype ItemEntry = ItemEntry(product: ProductId, quantity: Option<int>, price: Option<int>)

  /** The order fields the serializer accepts from a client.  The owner and total_price are not
      among them: total_price is read-only and the owner is always the requesting user, as
      CreateFacts states. */
  datatype OrderFields = OrderFields(
    status: Option<OrderStatus>,
    address: string,
    phone: string)

  /** `item.get(key, 0)`. */
  function OrZero(x: Option<int>): int
  {
    if x.Some? then x.value else 0
  }

  /** The `total_price` create computes: Σ price × quantity over the entries, a missing field counting as 0. */
  function SubmittedTotal(entries: seq<ItemEntry>): (r: int)
    ensures (forall i | 0 <= i < |entries| :: OrZero(entries[i].price) >= 0 && OrZero(entries[i].quantity) >= 0) ==> r >= 0
    ensures (forall i | 0 <= i < |entries| :: entries[i].price.None? || entries[i].quantity.None?) ==> r == 0
  {
    if entries == [] then 0
    else OrZero(entries[0].price) * OrZero(entries[0].quantity) + SubmittedTotal(entries[1..])
  }

  /** Every entry carries a quantity and a price and names an existing product. */
  predicate Complete(entries: seq<ItemEntry>, products: map<ProductId, Product>)
  {
    forall i | 0 <= i < |entries| ::
      entries[i].quantity.Some? && entries[i].price.Some? && entries[i].product in products
  }

  function ItemOf(e: ItemEntry): OrderItem
    requires e.quantity.Some? && e.price.Some?
  {
    OrderItem(e.product, e.quantity.value, e.price.value)
  }

  function ItemsOf(entries: seq<ItemEntry>, products: map<ProductId, Product>): seq<OrderItem>
    requires Complete(entries, products)
  {
    seq(|entries|, k requires 0 <= k < |entries| => ItemOf(entries[k]))
  }

  /** The quantity the entries ask of one product. */
  function QuantityFor(entries: seq<ItemEntry>, product: ProductId, products: map<ProductId, Product>): int
    requires Complete(entries, products)
  {
    if entries == [] then 0
    else
      var last := entries[|entries| - 1];
      QuantityFor(entries[..|entries| - 1], product, products) + (if last.product == product then last.quantity.value else 0)
  }

  /** The catalog after the item loop has run over the entries: one decrement per entry, in order,
      with no lower bound. */
  function StockAfter(products: map<ProductId, Product>, entries: seq<ItemEntry>): (r: map<ProductId, Product>)
    requires Complete(entries, products)
    ensures r.Keys == products.Keys
  {
    if entries == [] then products
    else
      var before := StockAfter(products, entries[..|entries| - 1]);
      var e := entries[|entries| - 1];
      before[e.product := before[e.product].(stock := before[e.product].stock - e.quantity.value)]
  }

  /** Each product's stock goes down by the sum of the quantities of the entries naming it, and
      nothing else about any product changes. */
  lemma {:induction false} StockAfterDecrements(products: map<ProductId, Product>, entries: seq<ItemEntry>)
    requires Complete(entries, products)
    ensures forall p | p in products ::
      StockAfter(products, entries)[p] == products[p].(stock := products[p].stock - QuantityFor(entries, p, products))
  {
    if entries != [] {
      var init := entries[..|entries| - 1];
      assert Complete(init, products);
      StockAfterDecrements(products, init);
    }
  }

  /** With every field present, the stored total is the total of the created items. */
  lemma {:induction false} SubmittedTotalIsItemsTotal(entries: seq<ItemEntry>, products: map<ProductId, Product>)
    requires Complete(entries, products)
    ensures SubmittedTotal(entries) == ItemsTotal(ItemsOf(entries, products))
  {
    if entries != [] {
      assert Complete(entries[1..], products);
      SubmittedTotalIsItemsTotal(entries[1..], products);
      assert ItemsOf(entries, products)[1..] == ItemsOf(entries[1..], products);
    }
  }

  /** An entry that lacks its price or its quantity adds nothing to the total. */
  lemma {:induction false} MissingFieldCountsZero(entries: seq<ItemEntry>, k: nat)
    requires k < |entries| && (entries[k].price.None? || entries[k].quantity.None?)
    ensures SubmittedTotal(entries) == SubmittedTotal(entries[..k] + entries[k+1..])
  {
    if k > 0 {
      MissingFieldCountsZero(entries[1..], k - 1);
      assert entries[1..][..k-1] + entries[1..][k..] == (entries[..k] + entries[k+1..])[1..];
    } else {
      assert entries[..k] + entries[k+1..] == entries[1..];
    }
  }

  function NewOrder(user: UserId, fields: OrderFields, entries: seq<ItemEntry>, items: seq<OrderItem>): Order
  {
    Order(user, if fields.status.Some? then fields.status.value else Pending, SubmittedTotal(entries),
          fields.address, fields.phone, items)
  }

  /** create as intended: each entry's `product` is the resolved Product row (here, its key in the
      catalog), every item is created and every quantity is taken off the stock. */
  function CreateSpec(db: Db, user: UserId, fields: OrderFields, entries: seq<ItemEntry>): (r: Step<OrderId>)
    requires Complete(entries, db.products)
    ensures r.reply == db.nextOrderId && r.db.nextOrderId == db.nextOrderId + 1
    ensures r.db.orders.Keys == db.orders.Keys + {r.reply}
    ensures forall id | id in db.orders && id != r.reply :: r.db.orders[id] == db.orders[id]
    ensures r.db.products.Keys == db.products.Keys
    ensures r.db == db.(orders := r.db.orders, nextOrderId := r.db.nextOrderId, products := r.db.products)
  {
    var id := db.nextOrderId;
    Step(id, db.(orders := db.orders[id := NewOrder(user, fields, entries, ItemsOf(entries, db.products))],
                 nextOrderId := id + 1,
                 products := StockAfter(db.products, entries)))
  }

  /** create adds one order under a fresh id, owned by the requester, whose total is the
      submitted total and which has one item per entry; it takes each entry's quantity off its
      product's stock; carts, payments and the other orders are untouched and the store stays
      consistent. */
  lemma CreateFacts(db: Db, user: UserId, fields: OrderFields, entries: seq<ItemEntry>)
    requires Consistent(db) && Complete(entries, db.products)
    ensures var r := CreateSpec(db, user, fields, entries);
      var o := r.db.orders[r.reply];
      && Consistent(r.db)
      && r.reply !in db.orders && r.db.orders == db.orders[r.reply := o]
      && o.user == user && o.total == SubmittedTotal(entries) == ItemsTotal(o.items)
      && |o.items| == |entries|
      && o.status == (if fields.status.Some? then fields.status.value else Pending)
      && o.address == fields.address && o.phone == fields.phone
      && (forall k | 0 <= k < |entries| :: o.items[k].product == entries[k].product
                                          && o.items[k].quantity == entries[k].quantity.value
                                          && o.items[k].price == entries[k].price.value)
      && r.db.products.Keys == db.products.Keys
      && (forall p | p in db.products ::
            r.db.products[p].stock == db.products[p].stock - QuantityFor(entries, p, db.products)
            && r.db.products[p].price == db.products[p].price)
      && r.db.carts == db.carts && r.db.payments == db.payments && r.db.webhooks == db.webhooks
  {
    var r := CreateSpec(db, user, fields, entries);
    StockAfterDecrements(db.products, entries);
    SubmittedTotalIsItemsTotal(entries, db.products);
    CreateKeepsConsistent(db, user, fields, entries);
  }

  /** An empty item list gives total 0, no items and no stock change. */
  lemma CreateEmpty(db: Db, user: UserId, fields: OrderFields)
    ensures var r := CreateSpec(db, user, fields, []);
      var o := r.db.orders[r.reply];
      o.total == 0 && o.items == [] && r.db.products == db.products
  {
    assert ItemsOf([], db.products) == [];
  }

  /** Nothing bounds the decrement: stock 1 and an entry for 3 leave stock -2. */
  lemma StockCanGoNegative()
    ensures var db := Db(map[4 := Product("B", 500, 1)], map[], map[], map[], [], 1, 1);
            CreateSpec(db, 2, OrderFields(None, "a", "p"), [ItemEntry(4, Some(3), Some(500))]).db.products[4].stock == -2
  {
    var entries := [ItemEntry(4, Some(3), Some(500))];
    assert entries[..0] == [];
  }

  // ---------------------------------------------------------------------------------------
  // create as written

  /** What create as written ends in: the order's id, and whether the item loop raised. */
  datatype CreateOutcome = Created(id: OrderId) | ItemLoopRaised(id: OrderId)

  /** create as written.  The list it loops over is the raw request list (OrderViewSet.create puts
      `request.data.get('items', [])` in the context), so `item_data['product']` is the plain id
      the client sent, and `OrderItem.objects.create(order=order, **item_data)` refuses a plain id
      for the product foreign key.  The order row, with its total, is already inserted when the
      first item creation raises: no item is created and no stock changes.  Entries are taken to
      be keyed `product`; one keyed `product_id` would be created before `item_data['product']`
      raises. */
  function CreateAsWritten(db: Db, user: UserId, fields: OrderFields, entries: seq<ItemEntry>): (r: Step<CreateOutcome>)
    ensures r.reply.ItemLoopRaised? <==> entries != []
    ensures r.reply.id == db.nextOrderId && r.reply.id in r.db.orders
    ensures Consistent(db) ==> r.reply.id !in db.orders
    ensures r.db == db.(orders := db.orders[db.nextOrderId := r.db.orders[db.nextOrderId]], nextOrderId := db.nextOrderId + 1)
    ensures var o := r.db.orders[r.reply.id];
            o.user == user && o.items == [] && o.total == SubmittedTotal(entries)
  {
    var id := db.nextOrderId;
    var stored := db.(orders := db.orders[id := NewOrder(user, fields, entries, [])], nextOrderId := id + 1);
    if entries == [] then Step(Created(id), stored) else Step(ItemLoopRaised(id), stored)
  }

  /** As written, a non-empty item list leaves an order whose total counts the entries but which
      has no items, and the catalog untouched; the intended create gives the same order one item
      per entry and takes the quantities off the stock. */
  lemma CreateAsWrittenLeavesItemlessOrder(db: Db, user: UserId, fields: OrderFields, entries: seq<ItemEntry>)
    requires Complete(entries, db.products) && entries != []
    ensures var w := CreateAsWritten(db, user, fields, entries);
            var c := CreateSpec(db, user, fields, entries);
            && w.reply == ItemLoopRaised(c.reply)
            && w.db.orders[w.reply.id].items == [] && |c.db.orders[c.reply].items| == |entries|
            && w.db.orders[w.reply.id].total == c.db.orders[c.reply].total == SubmittedTotal(entries)
            && w.db.products == db.products
            && w.db.orders[w.reply.id] == c.db.orders[c.reply].(items := [])
  {
  }

  /** The request items=[{product: 4, quantity: 3, price: 500}] with stock 10: as written, order 1
      is stored with total 1500 and no items, and the stock stays 10; intended: one item and
      stock 7. */
  lemma CreateAsWrittenExample()
    ensures var db := Db(map[4 := Product("B", 500, 10)], map[], map[], map[], [], 1, 1);
            var entries := [ItemEntry(4, Some(3), Some(500))];
            var fields := OrderFields(None, "a", "p");
            var w := CreateAsWritten(db, 2, fields, entries);
            var c := CreateSpec(db, 2, fields, entries);
            && w.reply == ItemLoopRaised(1)
            && w.db.orders[1] == Order(2, Pending, 1500, "a", "p", [])
            && w.db.products[4].stock == 10
            && c.db.orders[1].items == [OrderItem(4, 3, 500)]
            && c.db.products[4].stock == 7
  {
    var entries := [ItemEntry(4, Some(3), Some(500))];
    assert entries[1..] == [] && entries[..0] == [];
  }

  /** One more turn of the item loop: one more item, one more decrement. */
  lemma StepFacts(products: map<ProductId, Product>, entries: seq<ItemEntry>, i: nat)
    requires Complete(entries, products) && i < |entries|
    ensures Complete(entries[..i + 1], products)
    ensures var e := entries[i];
            var before := StockAfter(products, entries[..i]);
            StockAfter(products, entries[..i + 1])
              == before[e.product := before[e.product].(stock := before[e.product].stock - e.quantity.value)]
    ensures ItemsOf(entries[..i + 1], products) == ItemsOf(entries[..i], products) + [ItemOf(entries[i])]
  {
    var done := entries[..i + 1];
    assert done[..i] == entries[..i] && done[i] == entries[i];
  }

  lemma CreateKeepsConsistent(db: Db, user: UserId, fields: OrderFields, entries: seq<ItemEntry>)
    requires Consistent(db) && Complete(entries, db.products)
    ensures Consistent(CreateSpec(db, user, fields, entries).db)
  {
    var r := CreateSpec(db, user, fields, entries);
    forall u | u in r.db.carts ensures LinesValid(r.db.carts[u], r.db.products, r.db.nextLineId) {
      assert LinesValid(db.carts[u], db.products, db.nextLineId);
    }
  }

  /** The item loop of create (`for item_data in items_data`): per entry, append the item to order `id` and take
      the quantity off the product.  It is stated for any store, without the store invariant. */
  method CreateItems(st: Store, id: OrderId, entries: seq<ItemEntry>)
    requires Complete(entries, st.products) && id in st.orders
    modifies st
    ensures st.Snapshot() == old(st.Snapshot()).(
      orders := old(st.orders)[id := old(st.orders[id]).(items := old(st.orders[id].items) + ItemsOf(entries, old(st.products)))],
      products := StockAfter(old(st.products), entries))
  {
    ghost var db := st.Snapshot();
    assert ItemsOf(entries[..0], db.products) == [];
    assert db.orders[id].items + [] == db.orders[id].items;
    for i := 0 to |entries|
      invariant Complete(entries[..i], db.products)
      invariant st.Snapshot() == db.(orders := db.orders[id := db.orders[id].(items := db.orders[id].items + ItemsOf(entries[..i], db.products))],
                                     products := StockAfter(db.products, entries[..i]))
    {
      var e := entries[i];
      StepFacts(db.products, entries, i);
      assert db.orders[id].items + ItemsOf(entries[..i + 1], db.products)
          == db.orders[id].items + ItemsOf(entries[..i], db.products) + [ItemOf(e)];
      st.orders := st.orders[id := st.orders[id].(items := st.orders[id].items + [OrderItem(e.product, e.quantity.value, e.price.value)])];
      var product := st.products[e.product];
      st.products := st.products[e.product := product.(stock := product.stock - e.quantity.value)];
    }
    assert entries[..|entries|] == entries;
  }

  /** The view method: create the order with its total, then run the item loop. */
  method CreateOrder(st: Store, user: UserId, fields: OrderFields, entries: seq<ItemEntry>) returns (id: OrderId)
    requires st.Valid() && Complete(entries, st.products)
    modifies st
    ensures st.Valid()
    ensures Step(id, st.Snapshot()) == CreateSpec(old(st.Snapshot()), user, fields, entries)
  {
    ghost var db := st.Snapshot();
    CreateKeepsConsistent(db, user, fields, entries);
    id := st.nextOrderId;
    st.orders := st.orders[id := NewOrder(user, fields, entries, [])];
    st.nextOrderId := id + 1;
    CreateItems(st, id, entries);
    assert [] + ItemsOf(entries, db.products) == ItemsOf(entries, db.products);
    assert NewOrder(user, fields, entries, []).(items := ItemsOf(entries, db.products))
        == NewOrder(user, fields, entries, ItemsOf(entries, db.products));
  }
}
