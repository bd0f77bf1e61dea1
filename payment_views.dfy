/** The payment views (Payments/views.py): initialize, verify and the provider's webhook.
    The provider's HTTP replies are inputs; HMAC-SHA512 is a function parameter. */
module PaymentViews {
  import opened Models
  import opened PaymentModels
  import opened Storage

  type Bytes = seq<bv8>

  /** `Order.objects.get(id=order_id, user=request.user)` finds the order. */
  predicate OwnedOrder(db: Db, user: UserId, id: OrderId)
  {
    id in db.orders && db.orders[id].user == user
  }

  // ---------------------------------------------------------------------------------------
  // Reconciliation: what a provider outcome does to Payment, Order and Cart

  /** A successful charge: the payment records success with the provider's id and channel, its
      order becomes processing, and the lines of `cartOwner`'s cart (if there is one) are deleted. */
  function MarkPaid(db: Db, reference: Reference, id: Option<string>, channel: Option<string>, cartOwner: UserId): (r: Db)
    requires Consistent(db) && reference in db.payments
    ensures reference in r.payments && r.payments.Keys == db.payments.Keys
    ensures r.payments[reference] == db.payments[reference].(status := PaymentSuccess, providerId := id, paymentMethod := channel)
    ensures forall ref | ref in db.payments && ref != reference :: r.payments[ref] == db.payments[ref]
    ensures var o := db.payments[reference].order;
            && o in r.orders && r.orders.Keys == db.orders.Keys
            && r.orders[o] == db.orders[o].(status := Processing)
            && forall o' | o' in db.orders && o' != o :: r.orders[o'] == db.orders[o']
    ensures r.carts.Keys == db.carts.Keys
    ensures cartOwner in db.carts ==> r.carts[cartOwner] == []
    ensures forall u | u in db.carts && u != cartOwner :: r.carts[u] == db.carts[u]
    ensures r.products == db.products && r.webhooks == db.webhooks
    ensures r.nextLineId == db.nextLineId && r.nextOrderId == db.nextOrderId
    ensures Consistent(r)
  {
    var p := db.payments[reference];
    db.(payments := db.payments[reference := p.(status := PaymentSuccess, providerId := id, paymentMethod := channel)],
        orders := db.orders[p.order := db.orders[p.order].(status := Processing)],
        carts := if cartOwner in db.carts then db.carts[cartOwner := []] else db.carts)
  }

  /** Reconciliation assigns absolute values, so applying the same success twice is applying it once. */
  lemma MarkPaidIdempotent(db: Db, reference: Reference, id: Option<string>, channel: Option<string>, cartOwner: UserId)
    requires Consistent(db) && reference in db.payments
    ensures MarkPaid(MarkPaid(db, reference, id, channel, cartOwner), reference, id, channel, cartOwner)
         == MarkPaid(db, reference, id, channel, cartOwner)
  {
    var once := MarkPaid(db, reference, id, channel, cartOwner);
    var twice := MarkPaid(once, reference, id, channel, cartOwner);
    assert twice.payments == once.payments;
    assert twice.orders == once.orders;
    assert twice.carts == once.carts;
  }

  /** Any other transaction status: the payment is marked failed; order and cart stay. */
  function MarkFailed(db: Db, reference: Reference): (r: Db)
    requires Consistent(db) && reference in db.payments
    ensures r.payments.Keys == db.payments.Keys && r.payments[reference].status == PaymentFailed
    ensures r.payments[reference] == db.payments[reference].(status := PaymentFailed)
    ensures forall ref | ref in db.payments && ref != reference :: r.payments[ref] == db.payments[ref]
    ensures r == db.(payments := r.payments)
    ensures Consistent(r)
  {
    db.(payments := db.payments[reference := db.payments[reference].(status := PaymentFailed)])
  }

  // ---------------------------------------------------------------------------------------
  // initialize

  /** The validated request: order id, email and callback URL ('' when not sent). */
  datatype InitData = InitData(orderId: OrderId, email: string, callbackUrl: string)

  /** The provider's answer to transaction/initialize: a 200 with status true and the
      authorization data, a refusal (with the provider's message when it sent one), or an
      exception while calling it or reading the answer. */
  datatype InitReply =
    | ProviderAccepted(authorizationUrl: string, accessCode: string)
    | ProviderRejected(message: Option<string>)
    | ProviderException(error: string)

  /** The JSON body posted to the provider. */
  datatype ProviderRequest = ProviderRequest(
    email: string, amount: int, reference: Reference, callbackUrl: string, orderId: OrderId, userId: UserId)

  datatype InitResponse =
    | InitInvalid
    | InitOrderNotFound
    | PaymentAlreadyExists
    | AmountRejected
    | Initialized(payment: Payment, authorizationUrl: string, accessCode: string, reference: Reference)
    | InitFailed(providerError: string)
    | InitError(message: string)

  function InitStatus(r: InitResponse): int
  {
    match r
    case InitInvalid => 400
    case InitOrderNotFound => 404
    case PaymentAlreadyExists => 400
    case AmountRejected => 500
    case Initialized(_, _, _, _) => 200
    case InitFailed(_) => 400
    case InitError(_) => 500
  }

  /** The checks initialize makes before it writes anything, in their order. */
  predicate InitChecksPass(db: Db, user: UserId, data: Option<InitData>)
  {
    && data.Some?
    && OwnedOrder(db, user, data.value.orderId)
    && !HasPayment(db.payments, data.value.orderId)
    && AmountFits(db.orders[data.value.orderId].total)
  }

  /** The store just before the provider is called: the pending payment is reserved. */
  function Reserved(db: Db, user: UserId, data: InitData, reference: Reference): (r: Db)
    requires InitChecksPass(db, user, Some(data)) && reference !in db.payments
    ensures r == db.(payments := r.payments)
    ensures r.payments.Keys == db.payments.Keys + {reference} && |r.payments| == |db.payments| + 1
    ensures forall ref | ref in db.payments :: r.payments[ref] == db.payments[ref]
    ensures var p := r.payments[reference];
            && p.status == PaymentPending && p.user == user && p.order == data.orderId
            && p.amount == db.orders[data.orderId].total
  {
    db.(payments := db.payments[reference := NewPayment(user, data.orderId, db.orders[data.orderId].total)])
  }

  /** `int(order.total_price * 100)`: the total has two decimal places, so in minor units the
      product with 100 truncates nothing and the amount sent is the stored total. */
  function SentRequest(db: Db, user: UserId, data: Option<InitData>, reference: Reference): (r: Option<ProviderRequest>)
    ensures r.Some? <==> InitChecksPass(db, user, data)
    ensures r.Some? ==>
      r.value.amount == db.orders[data.value.orderId].total && r.value.reference == reference
      && r.value.orderId == data.value.orderId && r.value.userId == user && r.value.email == data.value.email
      && r.value.callbackUrl == data.value.callbackUrl
  {
    if InitChecksPass(db, user, data) then
      var d := data.value;
      Some(ProviderRequest(d.email, db.orders[d.orderId].total, reference, d.callbackUrl, d.orderId, user))
    else None
  }

  /** The answer of the first check that fails before anything is written, if one does.  The
      view itself tests only the first three; `AmountRejected` stands for the database refusing
      the insert of `Payment.objects.create` because the amount does not fit Decimal(10, 2).
      That error is not caught, so it is a 500, and whether a backend refuses (rather than
      rounds or stores) the value depends on the database. */
  function InitCheck(db: Db, user: UserId, data: Option<InitData>): (r: Option<InitResponse>)
    ensures r == Some(InitInvalid) <==> data.None?
    ensures r == Some(InitOrderNotFound) <==> data.Some? && !OwnedOrder(db, user, data.value.orderId)
    ensures r == Some(PaymentAlreadyExists) <==>
      data.Some? && OwnedOrder(db, user, data.value.orderId) && HasPayment(db.payments, data.value.orderId)
    ensures r == Some(AmountRejected) <==>
      && data.Some? && OwnedOrder(db, user, data.value.orderId) && !HasPayment(db.payments, data.value.orderId)
      && !AmountFits(db.orders[data.value.orderId].total)
    ensures r.None? <==> InitChecksPass(db, user, data)
  {
    if data.None? then Some(InitInvalid)
    else if !OwnedOrder(db, user, data.value.orderId) then Some(InitOrderNotFound)
    else if HasPayment(db.payments, data.value.orderId) then Some(PaymentAlreadyExists)
    else if !AmountFits(db.orders[data.value.orderId].total) then Some(AmountRejected)
    else None
  }

  /** The payment is deleted again when the provider refuses or raises. */
  lemma RollbackRestores(db: Db, user: UserId, data: InitData, reference: Reference)
    requires InitChecksPass(db, user, Some(data)) && reference !in db.payments
    ensures var reserved := Reserved(db, user, data, reference);
            reserved.(payments := reserved.payments - {reference}) == db
  {
    var reserved := Reserved(db, user, data, reference);
    assert reserved.payments - {reference} == db.payments;
  }

  function InitializeSpec(db: Db, user: UserId, data: Option<InitData>, reference: Reference, reply: InitReply)
    : (r: Step<InitResponse>)
    requires reference !in db.payments
    ensures InitCheck(db, user, data).Some? ==> r == Step(InitCheck(db, user, data).value, db)
    ensures r.reply.Initialized? <==> InitChecksPass(db, user, data) && reply.ProviderAccepted?
    ensures !r.reply.Initialized? ==> r.db == db
  {
    match InitCheck(db, user, data)
    case Some(error) => Step(error, db)
    case None =>
      var reserved := Reserved(db, user, data.value, reference);
      RollbackRestores(db, user, data.value, reference);
      var rolledBack := reserved.(payments := reserved.payments - {reference});
      match reply
      case ProviderAccepted(url, code) =>
        Step(Initialized(reserved.payments[reference], url, code, reference), reserved)
      case ProviderRejected(message) =>
        Step(InitFailed(if message.Some? then message.value else "Unknown error"), rolledBack)
      case ProviderException(message) =>
        Step(InitError(message), rolledBack)
  }

  /** A successful initialize stores exactly the reserved pending payment and answers it with its
      reference; a provider refusal or exception is answered as such once every check passed. */
  lemma InitializeSucceeds(db: Db, user: UserId, data: Option<InitData>, reference: Reference, reply: InitReply)
    requires reference !in db.payments
    ensures var r := InitializeSpec(db, user, data, reference, reply);
      && (r.reply.Initialized? ==>
            && r.db == Reserved(db, user, data.value, reference)
            && r.reply.payment == r.db.payments[reference] && r.reply.reference == reference
            && r.reply.authorizationUrl == reply.authorizationUrl && r.reply.accessCode == reply.accessCode)
      && (InitChecksPass(db, user, data) && reply.ProviderRejected? ==>
            r.reply == InitFailed(if reply.message.Some? then reply.message.value else "Unknown error"))
      && (InitChecksPass(db, user, data) && reply.ProviderException? ==> r.reply == InitError(reply.error))
  {
  }

  /** initialize keeps the store consistent: the reserved payment is the only one for its order
      and its amount fits the column. */
  lemma InitializeKeepsConsistent(db: Db, user: UserId, data: Option<InitData>, reference: Reference, reply: InitReply)
    requires Consistent(db) && reference !in db.payments
    ensures Consistent(InitializeSpec(db, user, data, reference, reply).db)
  {
    if InitChecksPass(db, user, data) {
      ReservedKeepsConsistent(db, user, data.value, reference);
      InitializeSucceeds(db, user, data, reference, reply);
    }
  }

  /** The reserved payment is the only one for its order, points at an existing order and fits
      the column. */
  lemma ReservedKeepsConsistent(db: Db, user: UserId, data: InitData, reference: Reference)
    requires Consistent(db) && InitChecksPass(db, user, Some(data)) && reference !in db.payments
    ensures Consistent(Reserved(db, user, data, reference))
  {
    var r := Reserved(db, user, data, reference);
    assert r.payments.Keys == db.payments.Keys + {reference};
  }

  /** A second initialize for the same order is refused and adds no payment. */
  lemma InitializeTwiceRefused(db: Db, user: UserId, data: InitData, ref1: Reference, ref2: Reference,
                               reply1: InitReply, reply2: InitReply)
    requires ref1 !in db.payments && ref2 != ref1 && ref2 !in db.payments
    requires InitializeSpec(db, user, Some(data), ref1, reply1).reply.Initialized?
    ensures var s1 := InitializeSpec(db, user, Some(data), ref1, reply1);
            var s2 := InitializeSpec(s1.db, user, Some(data), ref2, reply2);
            s2.reply == PaymentAlreadyExists && s2.db == s1.db
  {
    var s1 := InitializeSpec(db, user, Some(data), ref1, reply1);
    assert s1.db.payments[ref1].order == data.orderId;
  }

  /** initialize answers 200 exactly when every check passes and the provider accepts; 404 for an
      order the caller does not own; 500 for an amount the column refuses and for a provider
      exception; 400 for invalid data, an existing payment and a provider refusal. */
  lemma InitializeStatuses(db: Db, user: UserId, data: Option<InitData>, reference: Reference, reply: InitReply)
    requires reference !in db.payments
    ensures var s := InitStatus(InitializeSpec(db, user, data, reference, reply).reply);
      && (s == 200 <==> InitChecksPass(db, user, data) && reply.ProviderAccepted?)
      && (s == 404 <==> data.Some? && !OwnedOrder(db, user, data.value.orderId))
      && (s == 500 <==>
            || (&& data.Some? && OwnedOrder(db, user, data.value.orderId) && !HasPayment(db.payments, data.value.orderId)
                && !AmountFits(db.orders[data.value.orderId].total))
            || (InitChecksPass(db, user, data) && reply.ProviderException?))
      && (s == 400 <==>
            || data.None?
            || (OwnedOrder(db, user, data.value.orderId) && HasPayment(db.payments, data.value.orderId))
            || (InitChecksPass(db, user, data) && reply.ProviderRejected?))
  {
    InitializeSucceeds(db, user, data, reference, reply);
  }

  method Initialize(st: Store, user: UserId, data: Option<InitData>, reference: Reference, reply: InitReply)
    returns (response: InitResponse, sent: Option<ProviderRequest>)
    requires st.Valid() && reference !in st.payments
    modifies st
    ensures st.Valid()
    ensures Step(response, st.Snapshot()) == InitializeSpec(old(st.Snapshot()), user, data, reference, reply)
    ensures sent == SentRequest(old(st.Snapshot()), user, data, reference)
  {
    ghost var db := st.Snapshot();
    InitializeKeepsConsistent(db, user, data, reference, reply);
    InitializeSucceeds(db, user, data, reference, reply);
    if data.None? {
      return InitInvalid, None;
    }
    var d := data.value;
    if d.orderId !in st.orders || st.orders[d.orderId].user != user {
      return InitOrderNotFound, None;
    }
    var order := st.orders[d.orderId];
    if HasPayment(st.payments, d.orderId) {
      return PaymentAlreadyExists, None;
    }
    if !AmountFits(order.total) {
      return AmountRejected, None;
    }
    var payment := NewPayment(user, d.orderId, order.total);
    st.payments := st.payments[reference := payment];
    assert st.Snapshot() == Reserved(db, user, d, reference);
    sent := Some(ProviderRequest(d.email, order.total, reference, d.callbackUrl, d.orderId, user));
    match reply {
      case ProviderAccepted(url, code) =>
        response := Initialized(payment, url, code, reference);
      case ProviderRejected(message) =>
        st.payments := st.payments - {reference};
        response := InitFailed(if message.Some? then message.value else "Unknown error");
      case ProviderException(message) =>
        st.payments := st.payments - {reference};
        response := InitError(message);
    }
  }

  // ---------------------------------------------------------------------------------------
  // verify

  /** The provider's answer to transaction/verify: a 200 with status true and the transaction's
      status, id and channel; a refusal; or an exception. */
  datatype VerifyReply =
    | Transaction(status: string, id: Option<string>, channel: Option<string>)
    | VerifyRejected(message: Option<string>)
    | VerifyException(error: string)

  datatype VerifyResponse =
    | VerifyInvalid
    | PaymentNotFound
    | Verified(payment: Payment)
    | VerificationFailed(payment: Payment)
    | VerifyFailed(providerError: string)
    | VerifyError(message: string)

  function VerifyStatus(r: VerifyResponse): int
  {
    match r
    case VerifyInvalid => 400
    case PaymentNotFound => 404
    case Verified(_) => 200
    case VerificationFailed(_) => 400
    case VerifyFailed(_) => 400
    case VerifyError(_) => 500
  }

  /** The serializer's `reference` field: required and not blank. */
  predicate ReferenceGiven(reference: Option<string>)
  {
    reference.Some? && reference.value != ""
  }

  function VerifySpec(db: Db, caller: UserId, reference: Option<string>, reply: VerifyReply): (r: Step<VerifyResponse>)
    requires Consistent(db)
    ensures r.reply == VerifyInvalid <==> !ReferenceGiven(reference)
    ensures r.reply == PaymentNotFound <==> ReferenceGiven(reference) && reference.value !in db.payments
    ensures !(r.reply.Verified? || r.reply.VerificationFailed?) ==> r.db == db
    ensures r.reply.Verified? <==>
      ReferenceGiven(reference) && reference.value in db.payments && reply.Transaction? && reply.status == "success"
    ensures r.reply.Verified? ==>
      r.db == MarkPaid(db, reference.value, reply.id, reply.channel, caller) && r.reply.payment == r.db.payments[reference.value]
    ensures r.reply.VerificationFailed? <==>
      ReferenceGiven(reference) && reference.value in db.payments && reply.Transaction? && reply.status != "success"
    ensures r.reply.VerificationFailed? ==>
      r.db == MarkFailed(db, reference.value) && r.reply.payment == r.db.payments[reference.value]
    ensures r.reply.VerifyFailed? <==> ReferenceGiven(reference) && reference.value in db.payments && reply.VerifyRejected?
    ensures r.reply.VerifyFailed? ==>
      reply.VerifyRejected? && r.reply.providerError == (if reply.message.Some? then reply.message.value else "Unknown error")
    ensures r.reply.VerifyError? <==> ReferenceGiven(reference) && reference.value in db.payments && reply.VerifyException?
    ensures r.reply.VerifyError? ==> reply.VerifyException? && r.reply.message == reply.error
    ensures Consistent(r.db)
  {
    if !ReferenceGiven(reference) then Step(VerifyInvalid, db)
    else if reference.value !in db.payments then Step(PaymentNotFound, db)
    else match reply
      case VerifyException(message) => Step(VerifyError(message), db)
      case VerifyRejected(message) => Step(VerifyFailed(if message.Some? then message.value else "Unknown error"), db)
      case Transaction(status, id, channel) =>
        if status == "success" then
          var paid := MarkPaid(db, reference.value, id, channel, caller);
          Step(Verified(paid.payments[reference.value]), paid)
        else
          var failed := MarkFailed(db, reference.value);
          Step(VerificationFailed(failed.payments[reference.value]), failed)
  }

  /** Verifying the same successful transaction twice leaves the store as verifying it once. */
  lemma VerifyIdempotent(db: Db, caller: UserId, reference: Option<string>, reply: VerifyReply)
    requires Consistent(db)
    ensures var s1 := VerifySpec(db, caller, reference, reply);
            VerifySpec(s1.db, caller, reference, reply).db == s1.db
  {
    var s1 := VerifySpec(db, caller, reference, reply);
    if s1.reply.Verified? {
      MarkPaidIdempotent(db, reference.value, reply.id, reply.channel, caller);
    } else if s1.reply.VerificationFailed? {
      assert MarkFailed(s1.db, reference.value) == s1.db;
    }
  }

  /** verify answers 200 exactly for a successful transaction of a stored payment, 404 for an
      unknown reference, 500 for a provider exception, and 400 for invalid data, another
      transaction status and a provider refusal. */
  lemma VerifyStatuses(db: Db, caller: UserId, reference: Option<string>, reply: VerifyReply)
    requires Consistent(db)
    ensures var s := VerifyStatus(VerifySpec(db, caller, reference, reply).reply);
      var known := ReferenceGiven(reference) && reference.value in db.payments;
      && (s == 200 <==> known && reply.Transaction? && reply.status == "success")
      && (s == 404 <==> ReferenceGiven(reference) && reference.value !in db.payments)
      && (s == 500 <==> known && reply.VerifyException?)
      && (s == 400 <==>
            || !ReferenceGiven(reference)
            || (known && (reply.VerifyRejected? || (reply.Transaction? && reply.status != "success"))))
  {
  }

  method Verify(st: Store, caller: UserId, reference: Option<string>, reply: VerifyReply) returns (response: VerifyResponse)
    requires st.Valid()
    modifies st
    ensures st.Valid()
    ensures Step(response, st.Snapshot()) == VerifySpec(old(st.Snapshot()), caller, reference, reply)
  {
    ghost var db := st.Snapshot();
    if !ReferenceGiven(reference) {
      return VerifyInvalid;
    }
    var ref := reference.value;
    if ref !in st.payments {
      return PaymentNotFound;
    }
    match reply {
      case VerifyException(message) =>
        response := VerifyError(message);
      case VerifyRejected(message) =>
        response := VerifyFailed(if message.Some? then message.value else "Unknown error");
      case Transaction(status, id, channel) =>
        var payment := st.payments[ref];
        if status == "success" {
          payment := payment.(status := PaymentSuccess, providerId := id, paymentMethod := channel);
          st.payments := st.payments[ref := payment];
          st.orders := st.orders[payment.order := st.orders[payment.order].(status := Processing)];
          if caller in st.carts {
            st.carts := st.carts[caller := []];
          }
          assert st.Snapshot() == MarkPaid(db, ref, id, channel, caller);
          response := Verified(payment);
        } else {
          payment := payment.(status := PaymentFailed);
          st.payments := st.payments[ref := payment];
          response := VerificationFailed(payment);
        }
    }
  }

  // ---------------------------------------------------------------------------------------
  // webhook

  /** What `json.loads` and `.get` make of the body: not JSON, JSON but not an object, or an object. */
  datatype ParsedBody = NotJson | NotAnObject | JsonObject(payload: Payload)

  /** 400, 401, 200 and 500. */
  datatype WebhookResponse = SignatureMissing | SignatureMismatch | WebhookOk | WebhookError

  function WebhookStatus(r: WebhookResponse): int
  {
    match r
    case SignatureMissing => 400
    case SignatureMismatch => 401
    case WebhookOk => 200
    case WebhookError => 500
  }

  /** process_successful_charge either raises (when `data` is not an object) or returns a store. */
  datatype ChargeOutcome = Raised | Done(db: Db)

  /** `data` is an object whose non-empty `reference` names a stored payment. */
  predicate ChargeNamesPayment(db: Db, data: ChargeData)
  {
    data.DataObject? && data.reference.Some? && data.reference.value != "" && data.reference.value in db.payments
  }

  function ProcessCharge(db: Db, data: ChargeData): (r: ChargeOutcome)
    requires Consistent(db)
    ensures r.Raised? <==> data.DataNotAnObject?
    ensures r.Done? && !ChargeNamesPayment(db, data) ==> r.db == db
    ensures ChargeNamesPayment(db, data) ==>
      r.db == MarkPaid(db, data.reference.value, data.id, data.channel, db.payments[data.reference.value].user)
    ensures r.Done? ==> Consistent(r.db)
  {
    match data
    case MissingData => Done(db)
    case DataNotAnObject => Raised
    case DataObject(reference, id, channel) =>
      if reference.None? || reference.value == "" || reference.value !in db.payments then Done(db)
      else Done(MarkPaid(db, reference.value, id, channel, db.payments[reference.value].user))
  }

  /** Flip the processed flag of log record k. */
  function SetProcessed(db: Db, k: nat): Db
    requires k < |db.webhooks|
  {
    db.(webhooks := db.webhooks[k := db.webhooks[k].(processed := true)])
  }

  /** The signature header counts as present when sent and not empty. */
  predicate SignatureGiven(signature: Option<string>)
  {
    signature.Some? && signature.value != ""
  }

  function WebhookSpec(db: Db, secret: Bytes, signature: Option<string>, body: Bytes, parsed: ParsedBody,
                       hmac: (Bytes, Bytes) -> string): (r: Step<WebhookResponse>)
    requires Consistent(db)
    ensures r.reply == SignatureMissing <==> !SignatureGiven(signature)
    ensures r.reply == SignatureMismatch <==> SignatureGiven(signature) && hmac(secret, body) != signature.value
    ensures r.reply == SignatureMissing || r.reply == SignatureMismatch ==> r.db == db
    ensures Consistent(r.db)
  {
    if !SignatureGiven(signature) then Step(SignatureMissing, db)
    else if hmac(secret, body) != signature.value then Step(SignatureMismatch, db)
    else match parsed
      case NotJson => Step(WebhookError, db)
      case NotAnObject => Step(WebhookError, db)
      case JsonObject(payload) =>
        if payload.event.None? then Step(WebhookError, db)
        else
          var logged := db.(webhooks := db.webhooks + [NewWebhookRecord(payload, payload.event.value)]);
          if payload.event.value != "charge.success" then Step(WebhookOk, logged)
          else match ProcessCharge(logged, payload.data)
            case Raised => Step(WebhookError, logged)
            case Done(processed) => Step(WebhookOk, SetProcessed(processed, |db.webhooks|))
  }

  /** With a valid signature and a storable payload, exactly one record is appended to the log,
      and it is marked processed exactly when the event is charge.success and processing did not
      raise; an event other than charge.success changes nothing else. */
  lemma WebhookLogs(db: Db, secret: Bytes, signature: Option<string>, body: Bytes, payload: Payload,
                    hmac: (Bytes, Bytes) -> string)
    requires Consistent(db) && SignatureGiven(signature) && hmac(secret, body) == signature.value
    requires payload.event.Some?
    ensures var r := WebhookSpec(db, secret, signature, body, JsonObject(payload), hmac);
            var processed := payload.event.value == "charge.success" && !payload.data.DataNotAnObject?;
            && r.db.webhooks == db.webhooks + [WebhookRecord(payload, payload.event.value, processed)]
            && (r.reply == WebhookOk <==> !(payload.event.value == "charge.success" && payload.data.DataNotAnObject?))
            && (!processed ==> r.db == db.(webhooks := r.db.webhooks))
  {
  }

  /** A body that is not JSON, not an object, or has no event is answered 500 and logs nothing. */
  lemma WebhookUnstorable(db: Db, secret: Bytes, signature: Option<string>, body: Bytes, parsed: ParsedBody,
                          hmac: (Bytes, Bytes) -> string)
    requires Consistent(db) && SignatureGiven(signature) && hmac(secret, body) == signature.value
    requires parsed.NotJson? || parsed.NotAnObject? || parsed.payload.event.None?
    ensures WebhookSpec(db, secret, signature, body, parsed, hmac) == Step(WebhookError, db)
  {
  }

  /** The tables reconciliation touches. */
  predicate SameReconciledState(a: Db, b: Db)
  {
    a.payments == b.payments && a.orders == b.orders && a.carts == b.carts && a.products == b.products
  }

  /** Reconciliation does not look at the webhook log. */
  lemma MarkPaidIgnoresLog(db: Db, log: seq<WebhookRecord>, reference: Reference, id: Option<string>,
                           channel: Option<string>, cartOwner: UserId)
    requires Consistent(db) && reference in db.payments
    ensures Consistent(db.(webhooks := log))
    ensures MarkPaid(db.(webhooks := log), reference, id, channel, cartOwner)
         == MarkPaid(db, reference, id, channel, cartOwner).(webhooks := log)
  {
  }

  /** Apart from the log, an authentic charge.success delivery is the owner's MarkPaid when its
      data names a payment, and no change otherwise. */
  lemma WebhookReconciles(db: Db, secret: Bytes, signature: Option<string>, body: Bytes, payload: Payload,
                          hmac: (Bytes, Bytes) -> string)
    requires Consistent(db) && SignatureGiven(signature) && hmac(secret, body) == signature.value
    requires payload.event == Some("charge.success") && !payload.data.DataNotAnObject?
    ensures var r := WebhookSpec(db, secret, signature, body, JsonObject(payload), hmac);
            var data := payload.data;
            && r.reply == WebhookOk
            && (ChargeNamesPayment(db, data) ==>
                  r.db == MarkPaid(db, data.reference.value, data.id, data.channel,
                                   db.payments[data.reference.value].user).(webhooks := r.db.webhooks))
            && (!ChargeNamesPayment(db, data) ==> r.db == db.(webhooks := r.db.webhooks))
  {
    var data := payload.data;
    var logged := db.(webhooks := db.webhooks + [NewWebhookRecord(payload, "charge.success")]);
    if ChargeNamesPayment(db, data) {
      MarkPaidIgnoresLog(db, logged.webhooks, data.reference.value, data.id, data.channel,
                         db.payments[data.reference.value].user);
    }
  }

  /** Delivering the same webhook twice leaves Payment, Order and Cart as one delivery does. */
  lemma WebhookIdempotent(db: Db, secret: Bytes, signature: Option<string>, body: Bytes, parsed: ParsedBody,
                          hmac: (Bytes, Bytes) -> string)
    requires Consistent(db)
    ensures var s1 := WebhookSpec(db, secret, signature, body, parsed, hmac);
            var s2 := WebhookSpec(s1.db, secret, signature, body, parsed, hmac);
            s2.reply == s1.reply && SameReconciledState(s2.db, s1.db)
  {
    var s1 := WebhookSpec(db, secret, signature, body, parsed, hmac);
    if SignatureGiven(signature) && hmac(secret, body) == signature.value && parsed.JsonObject?
       && parsed.payload.event == Some("charge.success") && !parsed.payload.data.DataNotAnObject? {
      var data := parsed.payload.data;
      WebhookReconciles(db, secret, signature, body, parsed.payload, hmac);
      WebhookReconciles(s1.db, secret, signature, body, parsed.payload, hmac);
      if ChargeNamesPayment(db, data) {
        var ref := data.reference.value;
        var owner := db.payments[ref].user;
        var once := MarkPaid(db, ref, data.id, data.channel, owner);
        assert s1.db == once.(webhooks := s1.db.webhooks);
        assert ChargeNamesPayment(s1.db, data) && s1.db.payments[ref].user == owner;
        MarkPaidIgnoresLog(once, s1.db.webhooks, ref, data.id, data.channel, owner);
        MarkPaidIdempotent(db, ref, data.id, data.channel, owner);
      }
    }
  }

  /** For the payment's owner, verify and the webhook reconcile a success to the same Payment,
      Order and Cart. */
  lemma VerifyAgreesWithWebhookForOwner(db: Db, reference: Reference, id: Option<string>, channel: Option<string>)
    requires Consistent(db) && reference != "" && reference in db.payments
    ensures var owner := db.payments[reference].user;
            var byVerify := VerifySpec(db, owner, Some(reference), Transaction("success", id, channel)).db;
            var byHook := ProcessCharge(db, DataObject(Some(reference), id, channel));
            byHook.Done? && byHook.db == byVerify
  {
  }

  /** verify clears the cart of whoever calls it, the webhook that of the payment's owner: when
      another user verifies, the owner's cart keeps its lines and the caller's cart is emptied. */
  lemma VerifyClearsCallersCart(db: Db, caller: UserId, reference: Reference, id: Option<string>, channel: Option<string>)
    requires Consistent(db) && reference != "" && reference in db.payments
    requires caller != db.payments[reference].user
    ensures var owner := db.payments[reference].user;
            var byVerify := VerifySpec(db, caller, Some(reference), Transaction("success", id, channel)).db;
            var byHook := ProcessCharge(db, DataObject(Some(reference), id, channel));
            && byHook.Done?
            && (owner in db.carts ==> byVerify.carts[owner] == db.carts[owner] && byHook.db.carts[owner] == [])
            && (caller in db.carts ==> byVerify.carts[caller] == [] && byHook.db.carts[caller] == db.carts[caller])
  {
  }

  /** The webhook answers 400 without a signature, 401 for a wrong one, 500 when the signed
      body is not an object with an event or its charge.success data is not an object, and 200
      otherwise. */
  lemma WebhookStatuses(db: Db, secret: Bytes, signature: Option<string>, body: Bytes, parsed: ParsedBody,
                        hmac: (Bytes, Bytes) -> string)
    requires Consistent(db)
    ensures var s := WebhookStatus(WebhookSpec(db, secret, signature, body, parsed, hmac).reply);
      var signed := SignatureGiven(signature) && hmac(secret, body) == signature.value;
      var broken := || !parsed.JsonObject? || parsed.payload.event.None?
                     || (parsed.payload.event.value == "charge.success" && parsed.payload.data.DataNotAnObject?);
      && (s == 400 <==> !SignatureGiven(signature))
      && (s == 401 <==> SignatureGiven(signature) && hmac(secret, body) != signature.value)
      && (s == 500 <==> signed && broken)
      && (s == 200 <==> signed && !broken)
  {
  }

  /** process_successful_charge. */
  method ProcessSuccessfulCharge(st: Store, data: ChargeData) returns (raised: bool)
    requires st.Valid()
    modifies st
    ensures st.Valid()
    ensures var r := ProcessCharge(old(st.Snapshot()), data);
            raised == r.Raised? && (r.Done? ==> st.Snapshot() == r.db) && (r.Raised? ==> st.Snapshot() == old(st.Snapshot()))
  {
    ghost var db := st.Snapshot();
    match data {
      case MissingData =>
        return false;
      case DataNotAnObject =>
        return true;
      case DataObject(reference, id, channel) =>
        if reference.None? || reference.value == "" {
          return false;
        }
        var ref := reference.value;
        if ref !in st.payments {
          return false;
        }
        var payment := st.payments[ref].(status := PaymentSuccess, providerId := id, paymentMethod := channel);
        st.payments := st.payments[ref := payment];
        st.orders := st.orders[payment.order := st.orders[payment.order].(status := Processing)];
        if payment.user in st.carts {
          st.carts := st.carts[payment.user := []];
        }
        assert st.Snapshot() == MarkPaid(db, ref, id, channel, db.payments[ref].user);
        return false;
    }
  }

  method Webhook(st: Store, secret: Bytes, signature: Option<string>, body: Bytes, parsed: ParsedBody,
                 hmac: (Bytes, Bytes) -> string) returns (response: WebhookResponse)
    requires st.Valid()
    modifies st
    ensures st.Valid()
    ensures Step(response, st.Snapshot()) == WebhookSpec(old(st.Snapshot()), secret, signature, body, parsed, hmac)
  {
    if !SignatureGiven(signature) {
      return SignatureMissing;
    }
    var computed := hmac(secret, body);
    if computed != signature.value {
      return SignatureMismatch;
    }
    match parsed {
      case NotJson =>
        return WebhookError;
      case NotAnObject =>
        return WebhookError;
      case JsonObject(payload) =>
        if payload.event.None? {
          return WebhookError;
        }
        var k := |st.webhooks|;
        st.webhooks := st.webhooks + [NewWebhookRecord(payload, payload.event.value)];
        if payload.event.value == "charge.success" {
          var raised := ProcessSuccessfulCharge(st, payload.data);
          if raised {
            return WebhookError;
          }
          st.webhooks := st.webhooks[k := st.webhooks[k].(processed := true)];
        }
        response := WebhookOk;
    }
  }
}
