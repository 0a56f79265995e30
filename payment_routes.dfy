/**
 * The payment handlers of server/routes/payments.js: creating a gateway
 * order, verifying the gateway's signature, recording a failed payment
 * (with stock restore), refunds and the payment history. The gateway calls
 * and the keyed hash are parameters: an id the gateway returns, and a
 * function from payload to hex digest.
 */
module PaymentRoutes {
  import opened Common
  import opened OrderModel
  import opened Store
  import Sorting
  import OrderRoutes

  // ---------------------------------------------------------------------------
  // Loading the router

  /**
   * One `router.post(path, ...)` or `router.get(path, ...)` call: its path
   * and the names its middleware arguments evaluate, left to right, while
   * the module body runs (the handler bodies run only per request).
   */
  datatype RouteDecl = RouteDecl(path: string, loadNames: seq<string>)

  /** Running the module body: the paths registered, or the first unbound name, which throws a ReferenceError. */
  datatype LoadResult = Loaded(paths: seq<string>) | ReferenceError(name: string)

  /** The first of `names` that is not bound. */
  function FirstUnbound(names: seq<string>, bound: set<string>): (r: Option<string>)
    ensures r.None? <==> forall i :: 0 <= i < |names| ==> names[i] in bound
    ensures r.Some? ==> r.value in names && r.value !in bound
  {
    if names == [] then None
    else if names[0] !in bound then Some(names[0])
    else
      var r := FirstUnbound(names[1..], bound);
      assert forall i :: 1 <= i < |names| ==> names[i] == names[1..][i - 1];
      r
  }

  /** The route declarations run in order; the first unbound name stops the module. */
  function LoadRouter(bound: set<string>, decls: seq<RouteDecl>): LoadResult
  {
    if decls == [] then Loaded([])
    else
      var unbound := FirstUnbound(decls[0].loadNames, bound);
      if unbound.Some? then ReferenceError(unbound.value)
      else
        var rest := LoadRouter(bound, decls[1..]);
        if rest.Loaded? then Loaded([decls[0].path] + rest.paths) else rest
  }

  /**
   * The router loads iff every declaration's names are bound, and then it
   * serves every declared path in order; otherwise the name it stops at is
   * unbound and used by some declaration.
   */
  lemma {:induction false} LoadRouterFacts(bound: set<string>, decls: seq<RouteDecl>)
    ensures var r := LoadRouter(bound, decls);
      && (r.Loaded? <==> forall i :: 0 <= i < |decls| ==> FirstUnbound(decls[i].loadNames, bound).None?)
      && (r.Loaded? ==> |r.paths| == |decls| && forall i :: 0 <= i < |decls| ==> r.paths[i] == decls[i].path)
      && (r.ReferenceError? ==> r.name !in bound && exists i :: 0 <= i < |decls| && r.name in decls[i].loadNames)
  {
    if decls != [] {
      LoadRouterFacts(bound, decls[1..]);
      assert forall i :: 1 <= i < |decls| ==> decls[i] == decls[1..][i - 1];
      var r := LoadRouter(bound, decls);
      var rest := LoadRouter(bound, decls[1..]);
      if r.ReferenceError? && FirstUnbound(decls[0].loadNames, bound).None? {
        var i :| 0 <= i < |decls[1..]| && r.name in decls[1..][i].loadNames;
        assert r.name in decls[i + 1].loadNames;
      }
    }
  }

  /** The names lines 1-10 of server/routes/payments.js bind. */
  const ImportedNames: set<string> :=
    {"express", "Razorpay", "crypto", "body", "validationResult", "Order", "protect", "sendEmail", "generateInvoice", "router"}

  /** The five declarations, with the names their middleware arguments use. */
  const PaymentRouteDecls: seq<RouteDecl> := [
    RouteDecl("/create-order", ["protect", "body"]),
    RouteDecl("/verify", ["protect", "body"]),
    RouteDecl("/failure", ["protect", "body"]),
    RouteDecl("/refund", ["protect", "authorize", "body"]),
    RouteDecl("/history", ["protect"])
  ]

  /**
   * As written, `authorize('admin')` in the refund declaration names an
   * import that is missing, so the module throws while loading and none of
   * the five routes is served.
   */
  lemma RouterAsWrittenFailsToLoad()
    ensures LoadRouter(ImportedNames, PaymentRouteDecls) == ReferenceError("authorize")
  {
    assert FirstUnbound(PaymentRouteDecls[3].loadNames, ImportedNames) == Some("authorize");
  }

  /** With `authorize` imported beside `protect`, the module loads and serves all five paths. */
  lemma CorrectedRouterLoads()
    ensures LoadRouter(ImportedNames + {"authorize"}, PaymentRouteDecls)
      == Loaded(["/create-order", "/verify", "/failure", "/refund", "/history"])
  {
    var bound := ImportedNames + {"authorize"};
    assert forall i :: 0 <= i < |PaymentRouteDecls| ==> FirstUnbound(PaymentRouteDecls[i].loadNames, bound).None?;
    LoadRouterFacts(bound, PaymentRouteDecls);
  }

  // ---------------------------------------------------------------------------
  // Create a gateway order

  /** What is sent to the gateway: the amount in paise, the currency and the receipt. */
  datatype GatewayOrder = GatewayOrder(id: string, amount: int, currency: string, receipt: string)

  /** `POST /api/payments/create-order`; `gatewayId` is the id the gateway returns. */
  function CreatePaymentOrderSpec(s: State, requester: UserId, orderId: OrderId, amount: real, gatewayId: string): (State, Result<GatewayOrder>)
  {
    if amount < 0.0 then (s, Err(ValidationFailed))
    else if orderId !in s.orders || s.orders[orderId].user != requester then (s, Err(NotFound))
    else
      var o := s.orders[orderId];
      var g := GatewayOrder(gatewayId, Round(amount * 100.0), "INR", o.orderNumber);
      (State(s.orders[orderId := o.(payment := o.payment.(razorpayOrderId := Some(gatewayId)))], s.products), Ok(g))
  }

  /**
   * Only the owner gets a gateway order, and a missing order and someone
   * else's look alike (404). The amount sent is the requested amount in
   * paise, off by at most half a paisa, and the receipt is the order number;
   * only the gateway order id is recorded on the order.
   */
  lemma CreatePaymentOrderOutcome(s: State, requester: UserId, orderId: OrderId, amount: real, gatewayId: string)
    ensures var (s', res) := CreatePaymentOrderSpec(s, requester, orderId, amount, gatewayId);
      && s'.products == s.products
      && (res.Err? ==> s' == s)
      && (amount >= 0.0 ==> (res.Err? <==> res == Err(NotFound)))
      && (res.Ok? <==> amount >= 0.0 && orderId in s.orders && s.orders[orderId].user == requester)
      && (res.Ok? ==>
            && amount * 100.0 - 0.5 < res.value.amount as real <= amount * 100.0 + 0.5
            && res.value.receipt == s.orders[orderId].orderNumber
            && s'.orders == s.orders[orderId := s.orders[orderId].(payment := s.orders[orderId].payment.(razorpayOrderId := Some(gatewayId)))])
  {
  }

  method CreatePaymentOrder(db: Db, requester: UserId, orderId: OrderId, amount: real, gatewayId: string)
    returns (res: Result<GatewayOrder>)
    modifies db
    ensures (db.Snapshot(), res) == CreatePaymentOrderSpec(old(db.Snapshot()), requester, orderId, amount, gatewayId)
  {
    if amount < 0.0 {
      return Err(ValidationFailed);
    }
    if orderId !in db.orders || db.orders[orderId].user != requester {
      return Err(NotFound);
    }
    var order := new OrderDocument.Load(db.orders[orderId]);
    var gatewayOrder := GatewayOrder(gatewayId, Round(amount * 100.0), "INR", order.orderNumber);
    order.payment := order.payment.(razorpayOrderId := Some(gatewayId));
    db.orders := db.orders[orderId := order.Value()];
    res := Ok(gatewayOrder);
  }

  // ---------------------------------------------------------------------------
  // Verify a payment

  datatype VerifyRequest = VerifyRequest(gatewayOrderId: string, paymentId: string, signature: string, orderId: OrderId)

  /** The string the gateway signs: `razorpay_order_id + "|" + razorpay_payment_id`. */
  function SignedPayload(req: VerifyRequest): (p: string)
    ensures |p| == |req.gatewayOrderId| + 1 + |req.paymentId|
    ensures p[..|req.gatewayOrderId|] == req.gatewayOrderId && p[|req.gatewayOrderId|] == '|'
    ensures p[|req.gatewayOrderId| + 1..] == req.paymentId
  {
    req.gatewayOrderId + "|" + req.paymentId
  }

  /**
   * `POST /api/payments/verify`. `hmac` is the keyed SHA-256 hex digest;
   * `invoiceUrl` is the generated invoice's URL, or `None` when generating
   * it failed (the failure is logged and the payment stands).
   */
  function VerifyPaymentSpec(s: State, requester: UserId, req: VerifyRequest, hmac: string -> string,
                             invoiceUrl: Option<string>, now: int): (State, Result<Order>)
  {
    if req.gatewayOrderId == "" || req.paymentId == "" || req.signature == "" then (s, Err(ValidationFailed))
    else if hmac(SignedPayload(req)) != req.signature then (s, Err(SignatureMismatch))
    else if req.orderId !in s.orders || s.orders[req.orderId].user != requester then (s, Err(NotFound))
    else
      var final := PaidOrder(s.orders[req.orderId], req, invoiceUrl, now);
      (State(s.orders[req.orderId := final], s.products), Ok(final))
  }

  /** The order after a verified payment: paid with the gateway's ids, confirmed, and invoiced when an invoice was made. */
  function PaidOrder(o: Order, req: VerifyRequest, invoiceUrl: Option<string>, now: int): Order
  {
    var paid := o.(payment := o.payment.(status := Paid, razorpayPaymentId := Some(req.paymentId),
                                         razorpaySignature := Some(req.signature), paidAt := Some(now)));
    var confirmed := WithStatus(paid, Confirmed, "Payment completed successfully", None, now);
    if invoiceUrl.Some? then confirmed.(invoice := Some(Invoice("INV-" + o.orderNumber, invoiceUrl.value, now)))
    else confirmed
  }

  /** A signature that does not match is refused before any order is read, whatever the store holds. */
  lemma ForgedSignatureChangesNothing(s: State, requester: UserId, req: VerifyRequest, hmac: string -> string,
                                      invoiceUrl: Option<string>, now: int)
    requires req.gatewayOrderId != "" && req.paymentId != "" && req.signature != ""
    requires hmac(SignedPayload(req)) != req.signature
    ensures VerifyPaymentSpec(s, requester, req, hmac, invoiceUrl, now) == (s, Err(SignatureMismatch))
  {
  }

  /**
   * A verified payment on an owned order: completed, the payment id and
   * signature stored, stamped now, 'confirmed' appended; the invoice is
   * recorded when it could be generated and its absence undoes nothing.
   */
  lemma VerifiedPaymentOutcome(s: State, requester: UserId, req: VerifyRequest, hmac: string -> string,
                               invoiceUrl: Option<string>, now: int)
    requires VerifyPaymentSpec(s, requester, req, hmac, invoiceUrl, now).1.Ok?
    ensures var (s', res) := VerifyPaymentSpec(s, requester, req, hmac, invoiceUrl, now);
      var o := s.orders[req.orderId];
      && hmac(SignedPayload(req)) == req.signature
      && s'.orders == s.orders[req.orderId := res.value]
      && s'.products == s.products
      && res.value.payment.status == Paid
      && res.value.payment.razorpayPaymentId == Some(req.paymentId)
      && res.value.payment.razorpaySignature == Some(req.signature)
      && res.value.payment.paidAt == Some(now)
      && res.value.status == Confirmed && StatusMatchesHistory(res.value)
      && res.value.statusHistory == o.statusHistory + [HistoryEntry(Confirmed, now, "Payment completed successfully", None)]
      && res.value.items == o.items && res.value.pricing == o.pricing
      && (invoiceUrl.None? ==> res.value.invoice == o.invoice)
      && (invoiceUrl.Some? ==> res.value.invoice == Some(Invoice("INV-" + o.orderNumber, invoiceUrl.value, now)))
  {
  }

  method VerifyPayment(db: Db, requester: UserId, req: VerifyRequest, hmac: string -> string,
                       invoiceUrl: Option<string>, now: int) returns (res: Result<Order>)
    modifies db
    ensures (db.Snapshot(), res) == VerifyPaymentSpec(old(db.Snapshot()), requester, req, hmac, invoiceUrl, now)
  {
    if req.gatewayOrderId == "" || req.paymentId == "" || req.signature == "" {
      return Err(ValidationFailed);
    }
    var expectedSignature := hmac(req.gatewayOrderId + "|" + req.paymentId);
    assert req.gatewayOrderId + "|" + req.paymentId == SignedPayload(req);
    if expectedSignature != req.signature {
      return Err(SignatureMismatch);
    }
    if req.orderId !in db.orders || db.orders[req.orderId].user != requester {
      return Err(NotFound);
    }
    res := ConfirmPayment(db, req, invoiceUrl, now);
  }

  /** Load the order, mark it paid, confirm it, attach the invoice if one was made, save. */
  method ConfirmPayment(db: Db, req: VerifyRequest, invoiceUrl: Option<string>, now: int) returns (res: Result<Order>)
    requires req.orderId in db.orders
    modifies db
    ensures var final := PaidOrder(old(db.orders)[req.orderId], req, invoiceUrl, now);
      db.Snapshot() == State(old(db.orders)[req.orderId := final], old(db.products)) && res == Ok(final)
  {
    var order := new OrderDocument.Load(db.orders[req.orderId]);
    ghost var o := order.Value();
    order.payment := order.payment.(status := Paid, razorpayPaymentId := Some(req.paymentId),
                                    razorpaySignature := Some(req.signature), paidAt := Some(now));
    assert order.Value() == o.(payment := o.payment.(status := Paid, razorpayPaymentId := Some(req.paymentId),
                                                     razorpaySignature := Some(req.signature), paidAt := Some(now)));
    order.AddStatusHistory(Confirmed, "Payment completed successfully", None, now);
    ghost var ordersBefore := db.orders;
    ghost var confirmed := order.Value();
    db.orders := db.orders[req.orderId := order.Value()];
    if invoiceUrl.Some? {
      order.invoice := Some(Invoice("INV-" + order.orderNumber, invoiceUrl.value, now));
      assert order.Value() == confirmed.(invoice := Some(Invoice("INV-" + o.orderNumber, invoiceUrl.value, now)));
      db.orders := db.orders[req.orderId := order.Value()];
      assert db.orders == ordersBefore[req.orderId := order.Value()];
    }
    res := Ok(order.Value());
  }

  // ---------------------------------------------------------------------------
  // Record a failed payment

  /** The `error` object of the request; `description` may be missing. */
  datatype PaymentError = PaymentError(description: Option<string>)

  function FailureNote(e: PaymentError): string
  {
    "Payment failed: " + (if Truthy(e.description) then e.description.value else "Unknown error")
  }

  /** The order `addStatusHistory` saves: payment failed, back to 'pending' with the failure note. */
  function FailedOrder(o: Order, e: PaymentError, now: int): Order
  {
    WithStatus(o.(payment := o.payment.(status := PaymentFailed)), Pending, FailureNote(e), None, now)
  }

  /** `POST /api/payments/failure` with `Product` in scope: the order is saved, then its stock restored. */
  function PaymentFailureSpec(s: State, requester: UserId, orderId: OrderId, error: Option<PaymentError>, now: int): (State, Result<Order>)
  {
    if error.None? then (s, Err(ValidationFailed))
    else if orderId !in s.orders || s.orders[orderId].user != requester then (s, Err(NotFound))
    else
      var o := s.orders[orderId];
      var failed := FailedOrder(o, error.value, now);
      (State(s.orders[orderId := failed], Restock(s.products, o.items)), Ok(failed))
  }

  /**
   * `POST /api/payments/failure` as written: `Product` is never imported,
   * so after `addStatusHistory` has saved the failed order the restore loop
   * throws on its first item and the error goes to `next(error)`. Only an
   * order without items gets the success answer.
   */
  function PaymentFailureAsWrittenSpec(s: State, requester: UserId, orderId: OrderId, error: Option<PaymentError>, now: int): (State, Result<Order>)
  {
    if error.None? then (s, Err(ValidationFailed))
    else if orderId !in s.orders || s.orders[orderId].user != requester then (s, Err(NotFound))
    else
      var o := s.orders[orderId];
      var failed := FailedOrder(o, error.value, now);
      (State(s.orders[orderId := failed], s.products), if o.items == [] then Ok(failed) else Err(ServerError))
  }

  /**
   * As written, a recorded failure on an order with items saves the same
   * order as the intended handler but restores no stock and answers with a
   * server error; every other request is answered alike.
   */
  lemma PaymentFailureAsWrittenSkipsRestock(s: State, requester: UserId, orderId: OrderId, error: Option<PaymentError>, now: int)
    ensures var (w, wr) := PaymentFailureAsWrittenSpec(s, requester, orderId, error, now);
      var (c, cr) := PaymentFailureSpec(s, requester, orderId, error, now);
      && w.products == s.products
      && w.orders == c.orders
      && (cr.Err? ==> wr == cr)
      && (cr.Ok? ==> (wr.Ok? <==> s.orders[orderId].items == []) && (wr.Ok? ==> wr == cr))
      && (cr.Ok? && s.orders[orderId].items != [] ==> wr == Err(ServerError))
  {
  }

  /**
   * On a well-formed store, every product an order with items holds ends
   * with less stock under the handler as written than under the intended one.
   */
  lemma PaymentFailureAsWrittenLosesStock(s: State, requester: UserId, orderId: OrderId, error: Option<PaymentError>, now: int, k: nat)
    requires Valid(s)
    requires PaymentFailureSpec(s, requester, orderId, error, now).1.Ok?
    requires k < |s.orders[orderId].items| && s.orders[orderId].items[k].product in s.products
    ensures var pid := s.orders[orderId].items[k].product;
      && PaymentFailureAsWrittenSpec(s, requester, orderId, error, now).0.products[pid].stock == s.products[pid].stock
      && PaymentFailureSpec(s, requester, orderId, error, now).0.products[pid].stock > s.products[pid].stock
  {
    var items := s.orders[orderId].items;
    var pid := items[k].product;
    RestockAddsReserved(s.products, items);
    ReservedPositive(items, pid, k);
  }

  /**
   * A recorded failure marks the payment failed, puts the order back to
   * 'pending' with one more history entry, and returns every item's
   * quantity to its product's stock.
   */
  lemma PaymentFailureOutcome(s: State, requester: UserId, orderId: OrderId, error: Option<PaymentError>, now: int)
    ensures var (s', res) := PaymentFailureSpec(s, requester, orderId, error, now);
      && (res.Err? ==> s' == s)
      && (res.Ok? <==> error.Some? && orderId in s.orders && s.orders[orderId].user == requester)
      && (res.Ok? ==>
            && s'.orders == s.orders[orderId := res.value]
            && res.value.payment.status == PaymentFailed
            && res.value.status == Pending && StatusMatchesHistory(res.value)
            && |res.value.statusHistory| == |s.orders[orderId].statusHistory| + 1
            && s'.products.Keys == s.products.Keys
            && forall pid :: pid in s.products ==>
                 s'.products[pid].stock == s.products[pid].stock + Reserved(s.orders[orderId].items, pid))
  {
    if orderId in s.orders {
      RestockAddsReserved(s.products, s.orders[orderId].items);
    }
  }

  lemma PaymentFailureKeepsValid(s: State, requester: UserId, orderId: OrderId, error: Option<PaymentError>, now: int)
    requires Valid(s)
    ensures Valid(PaymentFailureSpec(s, requester, orderId, error, now).0)
  {
    if orderId in s.orders {
      RestockKeepsStockNonNegative(s.products, s.orders[orderId].items);
    }
  }

  method RecordPaymentFailure(db: Db, requester: UserId, orderId: OrderId, error: Option<PaymentError>, now: int)
    returns (res: Result<Order>)
    modifies db
    ensures (db.Snapshot(), res) == PaymentFailureSpec(old(db.Snapshot()), requester, orderId, error, now)
  {
    if error.None? {
      return Err(ValidationFailed);
    }
    if orderId !in db.orders || db.orders[orderId].user != requester {
      return Err(NotFound);
    }
    var order := new OrderDocument.Load(db.orders[orderId]);
    order.payment := order.payment.(status := PaymentFailed);
    order.AddStatusHistory(Pending, FailureNote(error.value), None, now);
    var saved := order.Value();
    db.orders := db.orders[orderId := saved];
    OrderRoutes.RestoreStock(db, saved.items);
    res := Ok(saved);
  }

  // ---------------------------------------------------------------------------
  // Refund

  /** The gateway's refund: its id and the amount in paise. */
  datatype GatewayRefund = GatewayRefund(id: string, amount: int)

  /**
   * `POST /api/payments/refund`, admins only. `refundId` is the id the
   * gateway returns and `amountText` the decimal rendering of `amount` in
   * the history note.
   */
  function RefundSpec(s: State, requester: UserId, role: string, orderId: OrderId, amount: real, reason: string,
                      refundId: string, amountText: string, now: int): (State, Result<GatewayRefund>)
  {
    if role != "admin" then (s, Err(NotPermitted))
    else if amount < 0.0 || reason == "" then (s, Err(ValidationFailed))
    else if orderId !in s.orders then (s, Err(NotFound))
    else
      var o := s.orders[orderId];
      if o.payment.status != Paid then (s, Err(NotRefundable))
      else
        var refunded := RefundedOrder(o, requester, amount, reason, refundId, amountText, now);
        (State(s.orders[orderId := refunded], s.products), Ok(GatewayRefund(refundId, Round(amount * 100.0))))
  }

  /** The order after a refund: the refund recorded, fully or partially refunded, and 'refunded' appended by the admin. */
  function RefundedOrder(o: Order, requester: UserId, amount: real, reason: string, refundId: string,
                         amountText: string, now: int): Order
  {
    var payment := o.payment.(refundId := Some(refundId), refundAmount := Some(amount), refundReason := Some(reason),
                              status := if amount >= o.pricing.total then FullyRefunded else PartiallyRefunded);
    WithStatus(o.(payment := payment), Refunded, "Refund processed: ₹" + amountText + " - " + reason, Some(requester), now)
  }

  /**
   * A refund needs an admin and a completed payment; it is full exactly when
   * the amount reaches the order total, records the refund details, and
   * leaves the order in the 'refunded' status, which the schema's status
   * enum does not list.
   */
  lemma RefundOutcome(s: State, requester: UserId, role: string, orderId: OrderId, amount: real, reason: string,
                      refundId: string, amountText: string, now: int)
    ensures var (s', res) := RefundSpec(s, requester, role, orderId, amount, reason, refundId, amountText, now);
      && s'.products == s.products
      && (res.Err? ==> s' == s)
      && (role != "admin" ==> res == Err(NotPermitted))
      && (res.Ok? <==> role == "admin" && amount >= 0.0 && reason != "" && orderId in s.orders
                        && s.orders[orderId].payment.status == Paid)
      && (res.Ok? ==>
            var r := s'.orders[orderId];
            && orderId in s'.orders
            && (r.payment.status == FullyRefunded <==> amount >= s.orders[orderId].pricing.total)
            && (r.payment.status == PartiallyRefunded <==> amount < s.orders[orderId].pricing.total)
            && r.payment.refundId == Some(refundId) && r.payment.refundAmount == Some(amount)
            && r.payment.refundReason == Some(reason)
            && r.status == Refunded && !InStatusEnum(r.status) && StatusMatchesHistory(r))
  {
  }

  /** An order can be refunded only once: after a refund its payment is no longer 'completed'. */
  lemma RefundOnlyOnce(s: State, requester: UserId, orderId: OrderId, amount: real, reason: string,
                       refundId: string, amountText: string, now: int,
                       amount2: real, reason2: string, refundId2: string, amountText2: string, later: int)
    requires RefundSpec(s, requester, "admin", orderId, amount, reason, refundId, amountText, now).1.Ok?
    ensures var s1 := RefundSpec(s, requester, "admin", orderId, amount, reason, refundId, amountText, now).0;
      amount2 >= 0.0 && reason2 != "" ==>
        RefundSpec(s1, requester, "admin", orderId, amount2, reason2, refundId2, amountText2, later) == (s1, Err(NotRefundable))
  {
  }

  /**
   * The refund handler as written: the status enum (server/models/Order.js)
   * has no 'refunded', so the save inside `addStatusHistory('refunded')`
   * is refused after the gateway has already paid the refund. The gates
   * are those of `RefundSpec`; where it would succeed, nothing is stored,
   * the caller gets a server error, and the gateway refund (the middle
   * component) stands.
   */
  function RefundAsWrittenSpec(s: State, requester: UserId, role: string, orderId: OrderId, amount: real, reason: string,
                               refundId: string, amountText: string, now: int): (State, Option<GatewayRefund>, Result<GatewayRefund>)
  {
    var (s', res) := RefundSpec(s, requester, role, orderId, amount, reason, refundId, amountText, now);
    if res.Ok? then (s, Some(res.value), Err(ServerError)) else (s', None, res)
  }

  /**
   * As written, a refund the gateway has issued leaves the payment
   * 'completed', so every later request for the same order passes the
   * check at server/routes/payments.js:245 and is refunded by the gateway
   * again, where the intended handler refuses it (`RefundOnlyOnce`).
   */
  lemma RefundAsWrittenRepeats(s: State, requester: UserId, orderId: OrderId, amount: real, reason: string,
                               refundId: string, amountText: string, now: int,
                               amount2: real, reason2: string, refundId2: string, amountText2: string, later: int)
    requires RefundAsWrittenSpec(s, requester, "admin", orderId, amount, reason, refundId, amountText, now).1.Some?
    requires amount2 >= 0.0 && reason2 != ""
    ensures var (s1, issued, res) := RefundAsWrittenSpec(s, requester, "admin", orderId, amount, reason, refundId, amountText, now);
      && s1 == s && res == Err(ServerError)
      && issued == Some(GatewayRefund(refundId, Round(amount * 100.0)))
      && RefundAsWrittenSpec(s1, requester, "admin", orderId, amount2, reason2, refundId2, amountText2, later).1
         == Some(GatewayRefund(refundId2, Round(amount2 * 100.0)))
      && RefundSpec(RefundSpec(s, requester, "admin", orderId, amount, reason, refundId, amountText, now).0,
                    requester, "admin", orderId, amount2, reason2, refundId2, amountText2, later).1 == Err(NotRefundable)
  {
    RefundOutcome(s, requester, "admin", orderId, amount, reason, refundId, amountText, now);
    RefundOnlyOnce(s, requester, orderId, amount, reason, refundId, amountText, now, amount2, reason2, refundId2, amountText2, later);
  }

  method Refund(db: Db, requester: UserId, role: string, orderId: OrderId, amount: real, reason: string,
                refundId: string, amountText: string, now: int) returns (res: Result<GatewayRefund>)
    modifies db
    ensures (db.Snapshot(), res) == RefundSpec(old(db.Snapshot()), requester, role, orderId, amount, reason, refundId, amountText, now)
  {
    if role != "admin" {
      return Err(NotPermitted);
    }
    if amount < 0.0 || reason == "" {
      return Err(ValidationFailed);
    }
    if orderId !in db.orders {
      return Err(NotFound);
    }
    if db.orders[orderId].payment.status != Paid {
      return Err(NotRefundable);
    }
    var refund := GatewayRefund(refundId, Round(amount * 100.0));
    RecordRefund(db, requester, orderId, amount, reason, refundId, amountText, now);
    res := Ok(refund);
  }

  /** Load the order, record the refund on its payment, append 'refunded', save. */
  method RecordRefund(db: Db, requester: UserId, orderId: OrderId, amount: real, reason: string,
                      refundId: string, amountText: string, now: int)
    requires orderId in db.orders
    modifies db
    ensures db.Snapshot() == State(old(db.orders)[orderId := RefundedOrder(old(db.orders)[orderId], requester, amount, reason,
                                                                           refundId, amountText, now)], old(db.products))
  {
    var order := new OrderDocument.Load(db.orders[orderId]);
    ghost var o := order.Value();
    order.payment := order.payment.(refundId := Some(refundId), refundAmount := Some(amount), refundReason := Some(reason));
    order.payment := order.payment.(status := if amount >= order.pricing.total then FullyRefunded else PartiallyRefunded);
    assert order.Value() == o.(payment := order.payment);
    order.AddStatusHistory(Refunded, "Refund processed: ₹" + amountText + " - " + reason, Some(requester), now);
    db.orders := db.orders[orderId := order.Value()];
  }

  // ---------------------------------------------------------------------------
  // History

  /** Payment statuses the history lists: completed, refunded and partially refunded. */
  predicate Settled(o: Order)
  {
    o.payment.status in {Paid, FullyRefunded, PartiallyRefunded}
  }

  /** `sort({ 'payment.paidAt': -1 })`: later payments first, orders never paid last. */
  predicate PaidNoEarlier(a: Order, b: Order)
  {
    if a.payment.paidAt.None? then b.payment.paidAt.None?
    else b.payment.paidAt.None? || a.payment.paidAt.value >= b.payment.paidAt.value
  }

  lemma PaidNoEarlierIsPreorder()
    ensures Sorting.TotalPreorder(PaidNoEarlier)
  {
  }

  /** The caller's settled orders, in collection order. */
  function SettledOrders(docs: seq<Order>, user: UserId): (r: seq<Order>)
    ensures forall i :: 0 <= i < |r| ==> r[i].user == user && Settled(r[i])
    ensures forall o: Order :: o.user == user && Settled(o) ==> multiset(r)[o] == multiset(docs)[o]
    ensures multiset(r) <= multiset(docs)
  {
    if docs == [] then []
    else
      var rest := SettledOrders(docs[1..], user);
      assert docs == [docs[0]] + docs[1..];
      if docs[0].user == user && Settled(docs[0]) then [docs[0]] + rest else rest
  }

  /** `GET /api/payments/history`: the caller's settled orders, latest payment first, one page at a time. */
  function PaymentHistory(docs: seq<Order>, user: UserId, pageQ: Option<int>, limitQ: Option<int>): (r: Result<OrderRoutes.Listing<Order>>)
    ensures r.Ok? <==> (OrderRoutes.PageParam(pageQ, 1) - 1) * OrderRoutes.PageParam(limitQ, 10) >= 0
    ensures r.Ok? ==> OrderRoutes.IsPage(r.value, SettledOrders(docs, user), PaidNoEarlier,
                                         OrderRoutes.PageParam(pageQ, 1), OrderRoutes.PageParam(limitQ, 10))
    ensures r.Ok? ==> forall i :: 0 <= i < |r.value.items| ==> r.value.items[i].user == user && Settled(r.value.items[i])
  {
    var matching := SettledOrders(docs, user);
    OrderRoutes.PageDrawnFrom(matching, PaidNoEarlier, OrderRoutes.PageParam(pageQ, 1), OrderRoutes.PageParam(limitQ, 10));
    OrderRoutes.Paginate(matching, PaidNoEarlier, OrderRoutes.PageParam(pageQ, 1), OrderRoutes.PageParam(limitQ, 10))
  }

  /** The history lists later payments first. */
  lemma PaymentHistoryLatestFirst(docs: seq<Order>, user: UserId, pageQ: Option<int>, limitQ: Option<int>)
    ensures var r := PaymentHistory(docs, user, pageQ, limitQ);
      r.Ok? ==> Sorting.SortedBy(r.value.items, PaidNoEarlier)
  {
    PaidNoEarlierIsPreorder();
    OrderRoutes.PaginateSorted(SettledOrders(docs, user), PaidNoEarlier, OrderRoutes.PageParam(pageQ, 1), OrderRoutes.PageParam(limitQ, 10));
  }
}
