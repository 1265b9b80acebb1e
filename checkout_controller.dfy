/**
  The checkout action of app/Http/Controllers/CheckoutController.php as the
  step-by-step procedure it is: a shop whose tables the request changes in
  place, one stage after another, returning at the first failing stage.
  Each method is proved against the functions of CheckoutSpec.
*/
module CheckoutController {
  import opened BaseController
  import opened CheckoutSpec

  /** The `foreach` over the second check's cart: one order-product row and
      one Midtrans line per cart item, in cart order. */
  method BuildOrderLines(cart: seq<CartItem>, orderId: int, now: string)
    returns (cartItems: seq<OrderProductRow>, midtransItems: seq<PaymentItem>)
    ensures cartItems == OrderProductRows(cart, orderId, now)
    ensures midtransItems == ProductLines(cart)
  {
    cartItems, midtransItems := [], [];
    for i := 0 to |cart|
      invariant cartItems == OrderProductRows(cart[..i], orderId, now)
      invariant midtransItems == ProductLines(cart[..i])
    {
      assert cart[..i + 1][..i] == cart[..i];
      cartItems := cartItems + [OrderProductRowFor(cart[i], orderId, now)];
      midtransItems := midtransItems + [ProductLine(cart[i])];
    }
    assert cart[..|cart|] == cart;
  }

  /** The shop's storage, changed in place by a checkout. Each method also
      returns, as a ghost `trace`, the collaborator calls it made in order. */
  class Shop {
    var stock: map<int, int>
    var orders: seq<StoredOrder>
    var orderProducts: seq<OrderProductRow>
    var voucherHistory: seq<VoucherHistoryRow>
    var snapTokens: map<int, string>
    var addresses: map<int, Address>
    var vouchers: map<int, Voucher>

    function Snapshot(): Db
      reads this
    {
      Db(stock, orders, orderProducts, voucherHistory, snapTokens, addresses, vouchers)
    }

    constructor (db: Db)
      ensures Snapshot() == db
    {
      stock, orders, orderProducts := db.stock, db.orders, db.orderProducts;
      voucherHistory, snapTokens := db.voucherHistory, db.snapTokens;
      addresses, vouchers := db.addresses, db.vouchers;
    }

    /** One checkout request: the checks, then, when they all pass, the
        stock reduction and the order. */
    method Create(s: Session, cfg: Config, req: CheckoutRequest, svc: Services)
      returns (response: ResponseBody, ghost trace: seq<Call>)
      modifies this
      ensures Snapshot() == Checkout(old(Snapshot()), s, cfg, req, svc).db
      ensures trace == Checkout(old(Snapshot()), s, cfg, req, svc).calls
      ensures response == Checkout(old(Snapshot()), s, cfg, req, svc).response
    {
      var gate := RunChecks(s, cfg, req, svc);
      match gate
      case Rejected(calls, data, message) =>
        response := CheckoutError(s, req, data, message);
        trace := calls;
      case Cleared(calls, shipping, billing, found) =>
        ghost var committed;
        response, committed := CommitOrder(s, cfg, req, svc, shipping, billing, found);
        trace := calls + committed;
    }

    /** The checks at the head of the checkout, in order, returning at the
        first that fails; they read the address table and change nothing. */
    method RunChecks(s: Session, cfg: Config, req: CheckoutRequest, svc: Services) returns (gate: Gate)
      ensures gate == CheckGate(Snapshot(), s, cfg, req, svc)
    {
      var billingId := BillingAddressId(req);
      var shippingId := req.shippingAddressId;
      var courier := req.courier;

      // Validate stock and cart
      var checkingData := CheckingCart(svc.firstCheck);
      var calls := [GroupCart];
      if !checkingData.arrayStatus {
        return Rejected(calls, CartCheckValue(checkingData.arrayResponse), "Invalid cart data");
      }

      // Check shipping address
      var shippingAddress := FindOwnedAddress(addresses, shippingId, s.caller.id);
      calls := calls + [FindAddress(shippingId)];
      if shippingAddress.None? {
        return Rejected(calls, StageError("shipping_address", "Shipping address not found"), "Shipping address not found");
      }

      // Check billing address
      var billingAddress := FindOwnedAddress(addresses, billingId, s.caller.id);
      calls := calls + [FindAddress(billingId)];
      if billingAddress.None? {
        return Rejected(calls, StageError("billing_address", "Billing address not found"), "Billing address not found");
      }

      // Check courier cost
      var costPayload := CostPayload(cfg.originCity, shippingAddress.value.city, svc.firstCheck.totalWeight, courier.agent);
      var costResult := svc.getCost(costPayload);
      calls := calls + [GetCost(costPayload)];
      if costResult.CostFailed? {
        var message := CostFailureMessage(costResult.description);
        return Rejected(calls, StageError("rajaongkir", message), "Courier cost check failed");
      }

      // Find the matching courier service
      var foundCourier := svc.findCourier(costResult.costs, courier);
      calls := calls + [FindCourier];
      if foundCourier.None? {
        return Rejected(calls, StageError("courier", "Invalid courier cost input"), "Courier validation failed");
      }

      // Double-check stock before reducing
      var recheck := CheckingCart(svc.secondCheck);
      calls := calls + [GroupCart];
      if !recheck.arrayStatus {
        return Rejected(calls, CartCheckValue(recheck.arrayResponse), "Cart validation failed");
      }
      return Cleared(calls, shippingAddress.value, billingAddress.value, foundCourier.value);
    }

    /** The stages after every check has passed: reduce stock with the
        second check's cart and insert the order. */
    method CommitOrder(s: Session, cfg: Config, req: CheckoutRequest, svc: Services,
                       shipping: Address, billing: Address, found: CourierService)
      returns (response: ResponseBody, ghost trace: seq<Call>)
      modifies this
      ensures Snapshot() == Commit(old(Snapshot()), s, cfg, req, svc, shipping, billing, found).db
      ensures trace == Commit(old(Snapshot()), s, cfg, req, svc, shipping, billing, found).calls
      ensures response == Commit(old(Snapshot()), s, cfg, req, svc, shipping, billing, found).response
    {
      var cart := svc.secondCheck.cart;  // the cart of the second, passing, check

      // Reduce stock
      stock := svc.reduceStock(stock, cart);
      trace := [ReduceStock(cart)];

      // Generate the order number and insert the order
      trace := trace + [GenerateOrderNumber];
      var payloadOrder := OrderPayloadFor(s, cfg, req, svc, shipping, billing, found);
      var insert := svc.storeOrder(payloadOrder);
      trace := trace + [StoreOrder(payloadOrder)];
      if !insert.queryStatus {
        response := CheckoutError(s, req, StageError("order", "Order creation failed"), "Order insertion failed");
        return;
      }
      ghost var recorded;
      response, recorded := RecordOrder(s, req, svc, found, payloadOrder, insert.queryResponse);
      trace := trace + recorded;
    }

    /** The stages after a successful insert of `payload` as `inserted`:
        the stored order, voucher history and ordered products, then
        `PayOrder`. */
    method RecordOrder(s: Session, req: CheckoutRequest, svc: Services,
                       found: CourierService, payload: OrderPayload, inserted: InsertedOrder)
      returns (response: ResponseBody, ghost trace: seq<Call>)
      modifies this
      ensures Snapshot() == Record(old(Snapshot()), s, req, svc, found, payload, inserted).db
      ensures trace == Record(old(Snapshot()), s, req, svc, found, payload, inserted).calls
      ensures response == Record(old(Snapshot()), s, req, svc, found, payload, inserted).response
    {
      var voucherId := req.voucherId;
      var orderId := inserted.id;
      orders := orders + [StoredOrder(orderId, payload)];

      // Save voucher history if a voucher was applied
      trace := [];
      if VoucherGiven(voucherId) {
        var row := VoucherHistoryRow(voucherId.value, s.caller.id, orderId);
        voucherHistory := voucherHistory + [row];
        trace := [CreateVoucherHistory(row)];
      }

      // Insert ordered products, one row and one Midtrans line per cart item
      var cartItems, midtransItems := BuildOrderLines(svc.secondCheck.cart, orderId, svc.now);
      orderProducts := orderProducts + cartItems;
      trace := trace + [InsertOrderProducts(cartItems)];
      ghost var db := old(Snapshot());
      assert Snapshot() == db.(orders := db.orders + [StoredOrder(orderId, payload)],
                               voucherHistory := db.voucherHistory + VoucherHistoryFor(voucherId, s.caller.id, orderId),
                               orderProducts := db.orderProducts + cartItems);

      ghost var paid;
      response, paid := PayOrder(s, req, svc, found, inserted, midtransItems);
      trace := trace + paid;
    }

    /** The last stages: order totals, voucher line, the Midtrans snap
        token and its saving on the order. `productLines` are the Midtrans
        lines of the cart items, built with the order-product rows. */
    method PayOrder(s: Session, req: CheckoutRequest, svc: Services,
                    found: CourierService, inserted: InsertedOrder, productLines: seq<PaymentItem>)
      returns (response: ResponseBody, ghost trace: seq<Call>)
      requires productLines == ProductLines(svc.secondCheck.cart)
      modifies this
      ensures Snapshot() == Pay(old(Snapshot()), s, req, svc, found, inserted).db
      ensures trace == Pay(old(Snapshot()), s, req, svc, found, inserted).calls
      ensures response == Pay(old(Snapshot()), s, req, svc, found, inserted).response
    {
      var orderId := inserted.id;

      // Shipping and voucher lines of the Midtrans payload
      var shippingBill := ShippingLine(req.courier, found);
      var getCalculation := svc.calculate(orderId);
      trace := [CalculateOrder(orderId)];
      var voucherData := FindVoucher(vouchers, req.voucherId);
      trace := trace + [LookUpVoucher];
      var voucherBill := VoucherLine(voucherData, getCalculation);
      var midtransItems := productLines;
      midtransItems := midtransItems + [shippingBill];
      midtransItems := midtransItems + [voucherBill];

      // Generate the Midtrans snap token and save it on the order
      var midtransPayload := PaymentPayload(midtransItems, svc.orderNumber.invoiceNumber, getCalculation.grandTotal,
                                            s.caller.name, s.caller.email, s.caller.phone);
      assert midtransPayload == PaymentPayloadFor(s, req, svc, Snapshot(), found, orderId);
      var snapToken := svc.snapToken(midtransPayload);
      trace := trace + [GetSnapToken(midtransPayload)];
      snapTokens := snapTokens[orderId := snapToken];
      trace := trace + [SaveSnapToken(orderId, snapToken)];

      response := CheckoutSuccess(s, req, inserted, snapToken);
    }
  }
}
