/**
  What one checkout request does, stated about `CheckoutSpec.Checkout`:
  which failure stops which side effect, when stock is reduced, when the
  voucher history, the ordered products and the snap token are written,
  the shape of the Midtrans item list, and which status code a request
  answers with.
*/
module CheckoutProperties {
  import opened Wrappers
  import opened BaseController
  import opened CheckoutSpec

  /** The address with id `id` exists and belongs to the caller. */
  predicate Owned(db: Db, id: int, s: Session) {
    id in db.addresses && db.addresses[id].fkUserId == s.caller.id
  }

  /** Every check passed and the order store accepted the order. */
  predicate Inserted(db: Db, s: Session, cfg: Config, req: CheckoutRequest, svc: Services) {
    var g := CheckGate(db, s, cfg, req, svc);
    g.Cleared? && svc.storeOrder(OrderPayloadFor(s, cfg, req, svc, g.shipping, g.billing, g.found)).queryStatus
  }

  /** The id the order store gave the inserted order. */
  function InsertedId(db: Db, s: Session, cfg: Config, req: CheckoutRequest, svc: Services): int
    requires Inserted(db, s, cfg, req, svc)
  {
    var g := CheckGate(db, s, cfg, req, svc);
    svc.storeOrder(OrderPayloadFor(s, cfg, req, svc, g.shipping, g.billing, g.found)).queryResponse.id
  }

  // ---------------------------------------------------------------------
  // The checks, one failing stage at a time
  // ---------------------------------------------------------------------

  /** A failing first cart check answers 422 with the cart check's data and
      makes no other call: no address lookup, no cost lookup, no write. */
  lemma FirstCartCheckFailure(db: Db, s: Session, cfg: Config, req: CheckoutRequest, svc: Services)
    requires !CheckingCart(svc.firstCheck).arrayStatus
    ensures var o := Checkout(db, s, cfg, req, svc);
      o.db == db && o.calls == [GroupCart] && o.response.code == 422
      && o.response.message == "Invalid cart data"
      && o.response.data == CartCheckValue(CheckingCart(svc.firstCheck).arrayResponse)
  {
    assert CheckGate(db, s, cfg, req, svc)
        == Rejected([GroupCart], CartCheckValue(CheckingCart(svc.firstCheck).arrayResponse), "Invalid cart data");
    RejectedChangesNothing(db, s, cfg, req, svc);
    CartCheckValueIsNotFalsy(CheckingCart(svc.firstCheck).arrayResponse);
  }

  /** A shipping address the caller does not own fails with field
      `shipping_address`, after the cart check and one address lookup. */
  lemma ShippingAddressMustBeOwned(db: Db, s: Session, cfg: Config, req: CheckoutRequest, svc: Services)
    requires CheckingCart(svc.firstCheck).arrayStatus
    requires !Owned(db, req.shippingAddressId, s)
    ensures var o := Checkout(db, s, cfg, req, svc);
      o.db == db && o.calls == [GroupCart, FindAddress(req.shippingAddressId)]
      && o.response.code == 422 && o.response.message == "Shipping address not found"
      && o.response.data == StageError("shipping_address", "Shipping address not found")
  {
    assert CheckGate(db, s, cfg, req, svc)
        == Rejected([GroupCart, FindAddress(req.shippingAddressId)],
                    StageError("shipping_address", "Shipping address not found"), "Shipping address not found");
    RejectedChangesNothing(db, s, cfg, req, svc);
  }

  /** A billing address the caller does not own fails with field
      `billing_address`; the billing id is the shipping id when "same as
      shipping" is set. */
  lemma BillingAddressMustBeOwned(db: Db, s: Session, cfg: Config, req: CheckoutRequest, svc: Services)
    requires CheckingCart(svc.firstCheck).arrayStatus
    requires Owned(db, req.shippingAddressId, s) && !Owned(db, BillingAddressId(req), s)
    ensures var o := Checkout(db, s, cfg, req, svc);
      o.db == db && o.calls == [GroupCart, FindAddress(req.shippingAddressId), FindAddress(BillingAddressId(req))]
      && o.response.code == 422 && o.response.message == "Billing address not found"
      && o.response.data == StageError("billing_address", "Billing address not found")
  {
    assert CheckGate(db, s, cfg, req, svc)
        == Rejected([GroupCart, FindAddress(req.shippingAddressId), FindAddress(BillingAddressId(req))],
                    StageError("billing_address", "Billing address not found"), "Billing address not found");
    RejectedChangesNothing(db, s, cfg, req, svc);
  }

  /** A failed cost lookup fails with field `rajaongkir` and the upstream
      description, or "Courier service failed" when there is none. */
  lemma CostLookupFailure(db: Db, s: Session, cfg: Config, req: CheckoutRequest, svc: Services)
    requires CheckingCart(svc.firstCheck).arrayStatus
    requires Owned(db, req.shippingAddressId, s) && Owned(db, BillingAddressId(req), s)
    requires svc.getCost(CostPayloadFor(cfg, svc, db.addresses[req.shippingAddressId], req)).CostFailed?
    ensures var o := Checkout(db, s, cfg, req, svc);
      var cost := svc.getCost(CostPayloadFor(cfg, svc, db.addresses[req.shippingAddressId], req));
      o.db == db
      && o.calls == [GroupCart, FindAddress(req.shippingAddressId), FindAddress(BillingAddressId(req)),
                     GetCost(CostPayloadFor(cfg, svc, db.addresses[req.shippingAddressId], req))]
      && o.response.code == 422 && o.response.message == "Courier cost check failed"
      && o.response.data == StageError("rajaongkir", cost.description.GetOr("Courier service failed"))
  {
    var payload := CostPayloadFor(cfg, svc, db.addresses[req.shippingAddressId], req);
    var cost := svc.getCost(payload);
    assert CheckGate(db, s, cfg, req, svc)
        == Rejected([GroupCart, FindAddress(req.shippingAddressId), FindAddress(BillingAddressId(req)), GetCost(payload)],
                    StageError("rajaongkir", CostFailureMessage(cost.description)), "Courier cost check failed");
    RejectedChangesNothing(db, s, cfg, req, svc);
  }

  /** No offered service matching the selected courier fails with field
      `courier`, before any write. */
  lemma CourierMismatch(db: Db, s: Session, cfg: Config, req: CheckoutRequest, svc: Services)
    requires CheckingCart(svc.firstCheck).arrayStatus
    requires Owned(db, req.shippingAddressId, s) && Owned(db, BillingAddressId(req), s)
    requires var cost := svc.getCost(CostPayloadFor(cfg, svc, db.addresses[req.shippingAddressId], req));
      cost.CostFound? && svc.findCourier(cost.costs, req.courier).None?
    ensures var o := Checkout(db, s, cfg, req, svc);
      o.db == db
      && o.calls == [GroupCart, FindAddress(req.shippingAddressId), FindAddress(BillingAddressId(req)),
                     GetCost(CostPayloadFor(cfg, svc, db.addresses[req.shippingAddressId], req)), FindCourier]
      && o.response.code == 422 && o.response.message == "Courier validation failed"
      && o.response.data == StageError("courier", "Invalid courier cost input")
  {
    var payload := CostPayloadFor(cfg, svc, db.addresses[req.shippingAddressId], req);
    assert CheckGate(db, s, cfg, req, svc)
        == Rejected([GroupCart, FindAddress(req.shippingAddressId), FindAddress(BillingAddressId(req)),
                     GetCost(payload), FindCourier],
                    StageError("courier", "Invalid courier cost input"), "Courier validation failed");
    RejectedChangesNothing(db, s, cfg, req, svc);
  }

  /** A failing second cart check answers 422 with that check's data,
      after every other check and before any write. */
  lemma SecondCartCheckFailure(db: Db, s: Session, cfg: Config, req: CheckoutRequest, svc: Services)
    requires CheckingCart(svc.firstCheck).arrayStatus
    requires Owned(db, req.shippingAddressId, s) && Owned(db, BillingAddressId(req), s)
    requires var cost := svc.getCost(CostPayloadFor(cfg, svc, db.addresses[req.shippingAddressId], req));
      cost.CostFound? && svc.findCourier(cost.costs, req.courier).Some?
    requires !CheckingCart(svc.secondCheck).arrayStatus
    ensures var o := Checkout(db, s, cfg, req, svc);
      o.db == db
      && o.calls == [GroupCart, FindAddress(req.shippingAddressId), FindAddress(BillingAddressId(req)),
                     GetCost(CostPayloadFor(cfg, svc, db.addresses[req.shippingAddressId], req)), FindCourier, GroupCart]
      && o.response.code == 422 && o.response.message == "Cart validation failed"
      && o.response.data == CartCheckValue(CheckingCart(svc.secondCheck).arrayResponse)
  {
    var payload := CostPayloadFor(cfg, svc, db.addresses[req.shippingAddressId], req);
    assert CheckGate(db, s, cfg, req, svc)
        == Rejected([GroupCart, FindAddress(req.shippingAddressId), FindAddress(BillingAddressId(req)),
                     GetCost(payload), FindCourier, GroupCart],
                    CartCheckValue(CheckingCart(svc.secondCheck).arrayResponse), "Cart validation failed");
    RejectedChangesNothing(db, s, cfg, req, svc);
    CartCheckValueIsNotFalsy(CheckingCart(svc.secondCheck).arrayResponse);
  }

  /** The checks clear exactly when every stage passes. */
  lemma ClearedIffEveryCheckPasses(db: Db, s: Session, cfg: Config, req: CheckoutRequest, svc: Services)
    ensures CheckGate(db, s, cfg, req, svc).Cleared? <==>
      CheckingCart(svc.firstCheck).arrayStatus
      && Owned(db, req.shippingAddressId, s) && Owned(db, BillingAddressId(req), s)
      && (var cost := svc.getCost(CostPayloadFor(cfg, svc, db.addresses[req.shippingAddressId], req));
          cost.CostFound? && svc.findCourier(cost.costs, req.courier).Some?)
      && CheckingCart(svc.secondCheck).arrayStatus
  {
  }

  /** Whatever check fails, the storage is unchanged and the answer is a
      422 body carrying the failing stage's data and message. */
  lemma RejectedChangesNothing(db: Db, s: Session, cfg: Config, req: CheckoutRequest, svc: Services)
    requires CheckGate(db, s, cfg, req, svc).Rejected?
    ensures var g := CheckGate(db, s, cfg, req, svc);
      var o := Checkout(db, s, cfg, req, svc);
      o.db == db && o.calls == g.calls && o.response.code == 422
      && o.response.message == g.message && (!Falsy(g.data) ==> o.response.data == g.data)
  {
  }

  /** Checks that clear hand over to the stages after them: the request's
      outcome is theirs, after the checks' own calls. */
  lemma ClearedCheckout(db: Db, s: Session, cfg: Config, req: CheckoutRequest, svc: Services)
    requires CheckGate(db, s, cfg, req, svc).Cleared?
    ensures var g := CheckGate(db, s, cfg, req, svc);
      var c := Commit(db, s, cfg, req, svc, g.shipping, g.billing, g.found);
      Checkout(db, s, cfg, req, svc) == c.(calls := g.calls + c.calls)
  {
  }

  /** Stock changes only when every check passed, and then it is the
      second check's cart that is reduced. */
  lemma StockReducedOnlyWhenCleared(db: Db, s: Session, cfg: Config, req: CheckoutRequest, svc: Services)
    ensures var g := CheckGate(db, s, cfg, req, svc);
      var o := Checkout(db, s, cfg, req, svc);
      o.db.stock == (if g.Cleared? then svc.reduceStock(db.stock, svc.secondCheck.cart) else db.stock)
  {
    var g := CheckGate(db, s, cfg, req, svc);
    if g.Cleared? {
      CommitReducesOnce(db, s, cfg, req, svc, g.shipping, g.billing, g.found);
      ClearedCheckout(db, s, cfg, req, svc);
    }
  }

  /** Checks that clear are followed by exactly one `ReduceStock` call, of
      the second check's cart, made right after the second cart check. */
  lemma StockReducedOnceAfterChecks(db: Db, s: Session, cfg: Config, req: CheckoutRequest, svc: Services)
    requires CheckGate(db, s, cfg, req, svc).Cleared?
    ensures var o := Checkout(db, s, cfg, req, svc);
      |o.calls| > 6 && o.calls[4] == FindCourier && o.calls[5] == GroupCart
      && o.calls[6] == ReduceStock(svc.secondCheck.cart)
      && forall i :: 0 <= i < |o.calls| && i != 6 ==> !o.calls[i].ReduceStock?
  {
    var g := CheckGate(db, s, cfg, req, svc);
    var c := Commit(db, s, cfg, req, svc, g.shipping, g.billing, g.found);
    CommitReducesOnce(db, s, cfg, req, svc, g.shipping, g.billing, g.found);
    ClearedCheckout(db, s, cfg, req, svc);
    OneReductionAfterChecks(g.calls, c.calls, svc.secondCheck.cart, req.shippingAddressId, BillingAddressId(req),
                            CostPayloadFor(cfg, svc, g.shipping, req));
  }

  /** The six calls of checks that clear, followed by calls whose only
      reduction is their first: the one reduction comes right after the
      courier match and the second cart check. */
  lemma OneReductionAfterChecks(gateCalls: seq<Call>, after: seq<Call>, cart: seq<CartItem>,
                                shippingId: int, billingId: int, payload: CostPayload)
    requires gateCalls == [GroupCart, FindAddress(shippingId), FindAddress(billingId), GetCost(payload), FindCourier, GroupCart]
    requires |after| >= 1 && after[0] == ReduceStock(cart)
    requires forall i :: 1 <= i < |after| ==> !after[i].ReduceStock?
    ensures var calls := gateCalls + after;
      |calls| > 6 && calls[4] == FindCourier && calls[5] == GroupCart && calls[6] == ReduceStock(cart)
      && forall i :: 0 <= i < |calls| && i != 6 ==> !calls[i].ReduceStock?
  {
    var calls := gateCalls + after;
    forall i | 0 <= i < |calls| && i != 6
      ensures !calls[i].ReduceStock?
    {
      if i > 6 {
        assert calls[i] == after[i - 6];
      } else {
        assert calls[i] == gateCalls[i];
      }
    }
  }

  /** After an accepted insert, the stages after the checks are the stock
      reduction and the insert, then `Record` on the reduced storage. */
  lemma InsertedCommit(db: Db, s: Session, cfg: Config, req: CheckoutRequest, svc: Services,
                       shipping: Address, billing: Address, found: CourierService)
    requires svc.storeOrder(OrderPayloadFor(s, cfg, req, svc, shipping, billing, found)).queryStatus
    ensures var payload := OrderPayloadFor(s, cfg, req, svc, shipping, billing, found);
      var cart := svc.secondCheck.cart;
      var r := Record(db.(stock := svc.reduceStock(db.stock, cart)), s, req, svc, found, payload,
                      svc.storeOrder(payload).queryResponse);
      Commit(db, s, cfg, req, svc, shipping, billing, found)
        == r.(calls := [ReduceStock(cart)] + [GenerateOrderNumber] + [StoreOrder(payload)] + r.calls)
  {
  }

  /** The stages after the checks reduce the second check's cart first,
      with the only `ReduceStock` call they make. */
  lemma CommitReducesOnce(db: Db, s: Session, cfg: Config, req: CheckoutRequest, svc: Services,
                          shipping: Address, billing: Address, found: CourierService)
    ensures var c := Commit(db, s, cfg, req, svc, shipping, billing, found);
      |c.calls| >= 3 && c.calls[0] == ReduceStock(svc.secondCheck.cart)
      && c.db.stock == svc.reduceStock(db.stock, svc.secondCheck.cart)
      && forall i :: 1 <= i < |c.calls| ==> !c.calls[i].ReduceStock?
  {
    var cart := svc.secondCheck.cart;
    var payload := OrderPayloadFor(s, cfg, req, svc, shipping, billing, found);
    var insert := svc.storeOrder(payload);
    if insert.queryStatus {
      var reduced := db.(stock := svc.reduceStock(db.stock, cart));
      var r := Record(reduced, s, req, svc, found, payload, insert.queryResponse);
      RecordNeverReduces(reduced, s, req, svc, found, payload, insert.queryResponse);
      InsertedCommit(db, s, cfg, req, svc, shipping, billing, found);
      ReductionThenInsert(cart, payload, r.calls);
    } else {
      ReductionThenInsert(cart, payload, []);
    }
  }

  /** The reduction, the order number and the insert, followed by calls
      that reduce nothing: the reduction is the first call and the only one. */
  lemma ReductionThenInsert(cart: seq<CartItem>, payload: OrderPayload, rest: seq<Call>)
    requires forall i :: 0 <= i < |rest| ==> !rest[i].ReduceStock?
    ensures var calls := [ReduceStock(cart)] + [GenerateOrderNumber] + [StoreOrder(payload)] + rest;
      calls[0] == ReduceStock(cart) && forall i :: 1 <= i < |calls| ==> !calls[i].ReduceStock?
  {
    var calls := [ReduceStock(cart)] + [GenerateOrderNumber] + [StoreOrder(payload)] + rest;
    forall i | 1 <= i < |calls|
      ensures !calls[i].ReduceStock?
    {
      if i >= 3 {
        assert calls[i] == rest[i - 3];
      }
    }
  }

  /** The stages after the insert leave the stock alone and make no
      `ReduceStock` call. */
  lemma RecordNeverReduces(db: Db, s: Session, req: CheckoutRequest, svc: Services,
                           found: CourierService, payload: OrderPayload, inserted: InsertedOrder)
    ensures var r := Record(db, s, req, svc, found, payload, inserted);
      r.db.stock == db.stock && forall i :: 0 <= i < |r.calls| ==> !r.calls[i].ReduceStock?
  {
    var id := inserted.id;
    var history := VoucherHistoryFor(req.voucherId, s.caller.id, id);
    var rows := OrderProductRows(svc.secondCheck.cart, id, svc.now);
    var written := db.(orders := db.orders + [StoredOrder(id, payload)],
                       voucherHistory := db.voucherHistory + history,
                       orderProducts := db.orderProducts + rows);
    var p := Pay(written, s, req, svc, found, inserted);
    var r := Record(db, s, req, svc, found, payload, inserted);
    var head := VoucherHistoryCalls(history) + [InsertOrderProducts(rows)];
    assert r.calls == head + p.calls;
    forall i | 0 <= i < |r.calls|
      ensures !r.calls[i].ReduceStock?
    {
      if i < |head| {
        assert r.calls[i] == head[i];
      } else {
        assert r.calls[i] == p.calls[i - |head|];
      }
    }
  }

  /** A refused insert fails with field `order`; the stock reduction already
      made stays, and nothing else is written. */
  lemma InsertFailureKeepsReduction(db: Db, s: Session, cfg: Config, req: CheckoutRequest, svc: Services)
    requires CheckGate(db, s, cfg, req, svc).Cleared? && !Inserted(db, s, cfg, req, svc)
    ensures var o := Checkout(db, s, cfg, req, svc);
      o.db == db.(stock := svc.reduceStock(db.stock, svc.secondCheck.cart))
      && o.response.code == 422 && o.response.message == "Order insertion failed"
      && o.response.data == StageError("order", "Order creation failed")
      && o.calls[|o.calls| - 1].StoreOrder?
  {
  }

  /** Without a successful insert the order table is unchanged. */
  lemma OrdersUnchangedWithoutInsert(db: Db, s: Session, cfg: Config, req: CheckoutRequest, svc: Services)
    requires !Inserted(db, s, cfg, req, svc)
    ensures Checkout(db, s, cfg, req, svc).db.orders == db.orders
  {
  }

  /** A successful insert adds exactly the inserted order, with the payload
      the store was given. */
  lemma OrderAppendedOnInsert(db: Db, s: Session, cfg: Config, req: CheckoutRequest, svc: Services)
    requires Inserted(db, s, cfg, req, svc)
    ensures var g := CheckGate(db, s, cfg, req, svc);
      Checkout(db, s, cfg, req, svc).db.orders
        == db.orders + [StoredOrder(InsertedId(db, s, cfg, req, svc),
                                    OrderPayloadFor(s, cfg, req, svc, g.shipping, g.billing, g.found))]
  {
  }

  /** The voucher history only ever grows at its end. */
  lemma VoucherHistoryPrefixKept(db: Db, s: Session, cfg: Config, req: CheckoutRequest, svc: Services)
    ensures var o := Checkout(db, s, cfg, req, svc);
      |o.db.voucherHistory| >= |db.voucherHistory|
      && o.db.voucherHistory[..|db.voucherHistory|] == db.voucherHistory
  {
    if Inserted(db, s, cfg, req, svc) {
      InsertedCheckoutWrites(db, s, cfg, req, svc);
    } else {
      VoucherHistoryUnchangedOtherwise(db, s, cfg, req, svc);
    }
  }

  /** A voucher-history row is added iff a voucher id was given and the
      insert succeeded. */
  lemma VoucherHistoryOnlyForInsertedVoucher(db: Db, s: Session, cfg: Config, req: CheckoutRequest, svc: Services)
    ensures var o := Checkout(db, s, cfg, req, svc);
      |o.db.voucherHistory| == |db.voucherHistory| + 1 <==> Inserted(db, s, cfg, req, svc) && VoucherGiven(req.voucherId)
  {
  }

  /** Otherwise, whether a check failed, the insert was refused or no
      voucher id was given, the voucher history is left as it was. */
  lemma VoucherHistoryUnchangedOtherwise(db: Db, s: Session, cfg: Config, req: CheckoutRequest, svc: Services)
    requires !(Inserted(db, s, cfg, req, svc) && VoucherGiven(req.voucherId))
    ensures Checkout(db, s, cfg, req, svc).db.voucherHistory == db.voucherHistory
  {
    var g := CheckGate(db, s, cfg, req, svc);
    if g.Cleared? {
      ClearedCheckout(db, s, cfg, req, svc);
      var payload := OrderPayloadFor(s, cfg, req, svc, g.shipping, g.billing, g.found);
      if svc.storeOrder(payload).queryStatus {
        InsertedCommit(db, s, cfg, req, svc, g.shipping, g.billing, g.found);
        assert VoucherHistoryFor(req.voucherId, s.caller.id, svc.storeOrder(payload).queryResponse.id) == [];
      }
    }
  }

  /** That row carries the voucher id, the caller and the inserted order. */
  lemma VoucherHistoryRowOfInsert(db: Db, s: Session, cfg: Config, req: CheckoutRequest, svc: Services)
    requires Inserted(db, s, cfg, req, svc) && VoucherGiven(req.voucherId)
    ensures var o := Checkout(db, s, cfg, req, svc);
      |o.db.voucherHistory| > |db.voucherHistory|
      && o.db.voucherHistory[|db.voucherHistory|]
         == VoucherHistoryRow(req.voucherId.value, s.caller.id, InsertedId(db, s, cfg, req, svc))
  {
  }

  /** Without a successful insert no order-product row is written. */
  lemma OrderProductsUnchangedWithoutInsert(db: Db, s: Session, cfg: Config, req: CheckoutRequest, svc: Services)
    requires !Inserted(db, s, cfg, req, svc)
    ensures Checkout(db, s, cfg, req, svc).db.orderProducts == db.orderProducts
  {
  }

  /** An inserted order gets one order-product row per item of the second
      check's cart, in cart order, each pointing at the inserted order. */
  lemma OrderProductsOfInsertedOrder(db: Db, s: Session, cfg: Config, req: CheckoutRequest, svc: Services)
    requires Inserted(db, s, cfg, req, svc)
    ensures RowsAppended(db.orderProducts, Checkout(db, s, cfg, req, svc).db.orderProducts,
                         svc.secondCheck.cart, InsertedId(db, s, cfg, req, svc))
  {
    InsertedCheckoutWrites(db, s, cfg, req, svc);
    AppendedRows(db.orderProducts, svc.secondCheck.cart, InsertedId(db, s, cfg, req, svc), svc.now);
  }

  /** A request whose order was inserted writes, at the end of each table,
      the stored order, the voucher history of `VoucherHistoryFor` and one
      order-product row per item of the second check's cart. */
  lemma InsertedCheckoutWrites(db: Db, s: Session, cfg: Config, req: CheckoutRequest, svc: Services)
    requires Inserted(db, s, cfg, req, svc)
    ensures var o := Checkout(db, s, cfg, req, svc);
      var g := CheckGate(db, s, cfg, req, svc);
      var id := InsertedId(db, s, cfg, req, svc);
      o.db.orders == db.orders + [StoredOrder(id, OrderPayloadFor(s, cfg, req, svc, g.shipping, g.billing, g.found))]
      && o.db.voucherHistory == db.voucherHistory + VoucherHistoryFor(req.voucherId, s.caller.id, id)
      && o.db.orderProducts == db.orderProducts + OrderProductRows(svc.secondCheck.cart, id, svc.now)
  {
    var g := CheckGate(db, s, cfg, req, svc);
    ClearedCheckout(db, s, cfg, req, svc);
    InsertedCommit(db, s, cfg, req, svc, g.shipping, g.billing, g.found);
  }

  /** `all` is `table` followed by one row per cart item, in cart order,
      each pointing at order `orderId`. */
  predicate RowsAppended(table: seq<OrderProductRow>, all: seq<OrderProductRow>, cart: seq<CartItem>, orderId: int) {
    |all| == |table| + |cart| && all[..|table|] == table
    && forall i :: 0 <= i < |cart| ==>
         all[|table| + i].fkOrderId == orderId && all[|table| + i].fkVariantId == cart[i].variantId
         && all[|table| + i].qty == cart[i].qty
  }

  /** Appending the order-product rows of a cart appends them as `RowsAppended` says. */
  lemma AppendedRows(table: seq<OrderProductRow>, cart: seq<CartItem>, orderId: int, now: string)
    ensures RowsAppended(table, table + OrderProductRows(cart, orderId, now), cart, orderId)
  {
    var rows := OrderProductRows(cart, orderId, now);
    var all := table + rows;
    forall i | 0 <= i < |cart|
      ensures all[|table| + i] == OrderProductRowFor(cart[i], orderId, now)
    {
      assert all[|table| + i] == rows[i];
    }
  }

  /** A successful request answers 201 with the inserted order's uuid, id
      and snap token, and saves that token on the order. */
  lemma SuccessSavesSnapToken(db: Db, s: Session, cfg: Config, req: CheckoutRequest, svc: Services)
    requires Inserted(db, s, cfg, req, svc)
    ensures var o := Checkout(db, s, cfg, req, svc);
      var id := InsertedId(db, s, cfg, req, svc);
      o.response.code == 201 && o.response.success == "OK"
      && id in o.db.snapTokens && o.db.snapTokens == db.snapTokens[id := o.db.snapTokens[id]]
      && o.response.data.VMap? && o.response.data.entries["id"] == VInt(id)
      && o.response.data.entries["payment_snap_token"] == VStr(o.db.snapTokens[id])
      && o.db.stock == svc.reduceStock(db.stock, svc.secondCheck.cart)
  {
  }

  /** A request answers 201 exactly when the order was inserted, and 422
      otherwise; the `success` field tells the two apart. */
  lemma ResponseCodes(db: Db, s: Session, cfg: Config, req: CheckoutRequest, svc: Services)
    ensures var o := Checkout(db, s, cfg, req, svc);
      (o.response.code == 201 <==> Inserted(db, s, cfg, req, svc))
      && (o.response.code == 422 <==> !Inserted(db, s, cfg, req, svc))
      && (o.response.success == "OK" <==> o.response.code == 201)
  {
  }

  // ---------------------------------------------------------------------
  // The Midtrans item list
  // ---------------------------------------------------------------------

  /** The item list is the product lines in cart order, then the shipping
      line, then the voucher line: |cart| + 2 lines, every product name at
      most 45 characters, a voucher line that never adds to the total. */
  lemma PaymentItemsShape(cart: seq<CartItem>, courier: Courier, found: CourierService,
                          voucher: Option<Voucher>, totals: Calculation)
    ensures var items := PaymentItems(cart, courier, found, voucher, totals);
      |items| == |cart| + 2
      && (forall i :: 0 <= i < |cart| ==>
            items[i].id == cart[i].variantSku && items[i].quantity == cart[i].qty
            && items[i].price == cart[i].purchasePrice && |items[i].name| <= 45)
      && items[|cart|] == ShippingLine(courier, found)
      && items[|cart| + 1] == VoucherLine(voucher, totals) && items[|cart| + 1].price <= 0
  {
  }

  // ---------------------------------------------------------------------
  // Helpers
  // ---------------------------------------------------------------------

  /** Neither a grouping nor an error list encodes to a falsy value. */
  lemma CartCheckValueIsNotFalsy(c: CartCheck)
    ensures !Falsy(CartCheckValue(c)) || (c.CartErrors? && c.errors == [])
  {
    match c
    case Grouped(g) =>
      assert "cart" in GroupingValue(g).entries;
    case CartErrors(errors) =>
      if errors != [] {
        assert |FieldErrorsValue(errors).items| == |errors|;
      }
  }
}
