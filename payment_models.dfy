/** Payment and webhook-log rows (Payments/models.py) and the constraints the schema puts on them. */
module PaymentModels {
  import opened Models

  /** The three choices of the status column; a new payment starts as pending. */
  datatype PaymentStatus = PaymentPending | PaymentSuccess | PaymentFailed

  datatype Payment = Payment(
    user: UserId,
    order: OrderId,
    amount: int,
    status: PaymentStatus,
    providerId: Option<string>,
    paymentMethod: Option<string>)

  /** `data` of a webhook payload: absent, present but not an object, or an object with the keys read. */
  datatype ChargeData =
    | MissingData
    | DataNotAnObject
    | DataObject(reference: Option<string>, id: Option<string>, channel: Option<string>)

  /** A parsed webhook payload: its `event` key and its `data` key. */
  datatype Payload = Payload(event: Option<string>, data: ChargeData)

  /** A row of the append-only webhook log. */
  datatype WebhookRecord = WebhookRecord(payload: Payload, event: string, processed: bool)

  /** Decimal(max_digits=10, decimal_places=2): at most ten digits, so below 10^10 minor units. */
  const AmountBound: int := 10_000_000_000

  predicate AmountFits(amount: int)
  {
    -AmountBound < amount < AmountBound
  }

  /** The row `Payment.objects.create(user, order, amount, reference)` inserts: every other
      column takes its default. */
  function NewPayment(user: UserId, order: OrderId, amount: int): (p: Payment)
    ensures p.status == PaymentPending
    ensures p.providerId == None && p.paymentMethod == None
    ensures p.user == user && p.order == order && p.amount == amount
  {
    Payment(user, order, amount, PaymentPending, None, None)
  }

  /** The row `PaystackWebhookData.objects.create(payload, event)` inserts. */
  function NewWebhookRecord(payload: Payload, event: string): (w: WebhookRecord)
    ensures !w.processed
    ensures w.payload == payload && w.event == event
  {
    WebhookRecord(payload, event, false)
  }

  /** The one-to-one link to Order: no two references name the same order.  Uniqueness of the
      reference itself is the key of the payments map. */
  predicate OnePaymentPerOrder(payments: map<Reference, Payment>)
  {
    forall r1, r2 | r1 in payments && r2 in payments && payments[r1].order == payments[r2].order :: r1 == r2
  }

  predicate HasPayment(payments: map<Reference, Payment>, order: OrderId)
  {
    exists r | r in payments :: payments[r].order == order
  }

  /** Every payment points at an existing order, at most one per order, with an amount that fits. */
  predicate PaymentsValid(orders: map<OrderId, Order>, payments: map<Reference, Payment>)
  {
    && OnePaymentPerOrder(payments)
    && (forall r | r in payments :: payments[r].order in orders && AmountFits(payments[r].amount))
  }

  /** Deleting an order cascades to its payment (on_delete=CASCADE). */
  function DeleteOrder(orders: map<OrderId, Order>, payments: map<Reference, Payment>, id: OrderId)
    : (r: (map<OrderId, Order>, map<Reference, Payment>))
    ensures id !in r.0 && !HasPayment(r.1, id)
    ensures forall o | o in orders && o != id :: o in r.0 && r.0[o] == orders[o]
    ensures r.0.Keys <= orders.Keys
    ensures forall ref :: ref in r.1 <==> ref in payments && payments[ref].order != id
    ensures forall ref | ref in r.1 :: r.1[ref] == payments[ref]
    ensures PaymentsValid(orders, payments) ==> PaymentsValid(r.0, r.1)
  {
    (orders - {id}, map ref | ref in payments && payments[ref].order != id :: payments[ref])
  }
}
