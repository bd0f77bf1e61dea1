/** The store the views act on: one table per entity, plus the next auto-increment ids. */
module Storage {
  import opened Models
  import opened PaymentModels

  datatype Db = Db(
    products: map<ProductId, Product>,
    carts: map<UserId, seq<CartLine>>,
    orders: map<OrderId, Order>,
    payments: map<Reference, Payment>,
    webhooks: seq<WebhookRecord>,
    nextLineId: int,
    nextOrderId: int)

  /** What an action answers, together with the store it leaves behind. */
  datatype Step<R> = Step(reply: R, db: Db)

  /** The lines of one cart: each names an existing product with a positive quantity, ids are
      issued ids, and no two lines share an id or a product. */
  predicate LinesValid(lines: seq<CartLine>, products: map<ProductId, Product>, nextLineId: int)
  {
    && (forall i | 0 <= i < |lines| ::
          1 <= lines[i].id < nextLineId && lines[i].product in products && lines[i].quantity > 0)
    && (forall i, j | 0 <= i < j < |lines| ::
          lines[i].id != lines[j].id && lines[i].product != lines[j].product)
  }

  /** The store invariant: valid carts, order ids below the counter, valid payments. */
  predicate Consistent(db: Db)
  {
    && db.nextLineId >= 1
    && (forall u | u in db.carts :: LinesValid(db.carts[u], db.products, db.nextLineId))
    && (forall id | id in db.orders :: id < db.nextOrderId)
    && PaymentsValid(db.orders, db.payments)
  }

  lemma LinesValidLater(lines: seq<CartLine>, products: map<ProductId, Product>, n: int, m: int)
    requires LinesValid(lines, products, n) && n <= m
    ensures LinesValid(lines, products, m)
  {
  }

  /** The database, with the tables as fields that the views update in place. */
  class Store {
    var products: map<ProductId, Product>
    var carts: map<UserId, seq<CartLine>>
    var orders: map<OrderId, Order>
    var payments: map<Reference, Payment>
    var webhooks: seq<WebhookRecord>
    var nextLineId: int
    var nextOrderId: int

    function Snapshot(): Db
      reads this
    {
      Db(products, carts, orders, payments, webhooks, nextLineId, nextOrderId)
    }

    predicate Valid()
      reads this
    {
      Consistent(Snapshot())
    }

    /** A store holding a catalog and nothing else. */
    constructor (catalog: map<ProductId, Product>)
      ensures Snapshot() == Db(catalog, map[], map[], map[], [], 1, 1)
      ensures Valid()
    {
      products, carts, orders, payments, webhooks := catalog, map[], map[], map[], [];
      nextLineId, nextOrderId := 1, 1;
    }
  }
}
