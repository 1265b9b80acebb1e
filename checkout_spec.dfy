/**
  The checkout of app/Http/Controllers/CheckoutController.php as values:
  the records the controller reads and writes, its pure pieces (the cart
  gate, the billing-address choice, the payment line items) and the
  function `Checkout` that says what one request does to the shop's
  storage, which collaborators it calls in which order, and which JSON
  body it answers with.

  Collaborators whose code is not part of this model (cart grouping, the
  RajaOngkir cost client, the courier finder, stock reduction, the order
  number generator, the order store, the order calculation and the Midtrans
  snap token service) are fields of `Services`: the values they return, or
  functions from what they are given to what they return.
*/
module CheckoutSpec {
  import opened Wrappers
  import opened BaseController

  // ---------------------------------------------------------------------
  // Records
  // ---------------------------------------------------------------------

  /** One grouped, priced cart line as the cart-grouping service returns it. */
  datatype CartItem = CartItem(
    productId: int,
    variantId: int,
    productName: string,
    productImage: string,
    variantSku: string,
    variantDescription: string,
    qty: int,
    price: int,
    discount: int,
    purchasePrice: int,
    note: string)

  /** The grouping service's response: the available lines, the lines that
      are out of stock and the total weight of the cart. */
  datatype Grouping = Grouping(cart: seq<CartItem>, outOfStock: seq<CartItem>, totalWeight: int)

  /** One entry of a field-tagged error list. */
  datatype FieldError = FieldError(field: string, message: string)

  /** What a cart check carries: the grouping itself, or an error list. */
  datatype CartCheck = Grouped(grouping: Grouping) | CartErrors(errors: seq<FieldError>)

  /** A row of the shipping-address book. */
  datatype Address = Address(
    id: int,
    fkUserId: int,
    city: int,
    cityLabel: string,
    provinceLabel: string,
    postalCode: string,
    phoneNumber: string,
    firstName: string,
    lastName: string,
    street: string,
    labelPlace: string,
    courierNote: string)

  /** The authenticated caller. */
  datatype User = User(id: int, uuid: string, name: string, email: string, phone: string)

  /** The courier the customer selected. */
  datatype Courier = Courier(agent: string, service: string, price: int, etd: string)

  /** The validated checkout request: the fields the controller reads,
      and the whole validated input as the framework hands it over, which
      every body echoes in its `params`. */
  datatype CheckoutRequest = CheckoutRequest(
    shippingAddressId: int,
    billingAddressId: int,
    sameAsShipping: bool,
    courier: Courier,
    voucherId: Option<int>,
    validated: map<string, Value>)

  /** The question put to the RajaOngkir cost client. */
  datatype CostPayload = CostPayload(origin: int, destination: int, weight: int, courier: string)

  /** One priced courier service; `etd` and `value` are those of its first cost entry. */
  datatype CourierService = CourierService(service: string, description: string, etd: string, value: int)

  /** The cost client's answer: the services on offer, or a failure with the
      upstream status description when it has one. */
  datatype CostResult = CostFound(costs: seq<CourierService>) | CostFailed(description: Option<string>)

  datatype OrderNumber = OrderNumber(queueNumber: string, invoiceNumber: string)

  /** The shipping or billing half of an order, copied from an address. */
  datatype AddressFields = AddressFields(
    country: string,
    phone: string,
    firstName: string,
    lastName: string,
    street: string,
    city: string,
    province: string,
    postalCode: string,
    labelPlace: string,
    noteAddress: string)

  /** The order row the controller asks the order store to insert. */
  datatype OrderPayload = OrderPayload(
    queueNumber: string,
    orderNumber: string,
    uuid: string,
    contactEmail: string,
    shipping: AddressFields,
    billing: AddressFields,
    courierAgent: string,
    courierAgentService: string,
    courierAgentServiceDesc: string,
    courierEstimateDelivered: string,
    courierResiNumber: string,
    courierCost: int,
    paymentMethod: string,
    paymentReferenceCode: string,
    invoiceNote: string,
    deliveryOrderNote: string,
    fkUserId: int,
    fkVoucherId: Option<int>,
    paymentStatus: string,
    status: string)

  /** What a successful insert reports back. */
  datatype InsertedOrder = InsertedOrder(id: int, uuid: string)

  datatype StoredOrder = StoredOrder(id: int, payload: OrderPayload)

  /** One ordered product, frozen at order time. */
  datatype OrderProductRow = OrderProductRow(
    fkProductId: int,
    fkVariantId: int,
    productName: string,
    image: string,
    sku: string,
    variantDescription: string,
    qty: int,
    actualPrice: int,
    discountPrice: int,
    purchasePrice: int,
    note: string,
    fkOrderId: int,
    createdAt: string,
    updatedAt: string)

  datatype VoucherHistoryRow = VoucherHistoryRow(voucherId: int, userId: int, orderId: int)

  datatype Voucher = Voucher(code: string)

  /** The part of the order calculation that the checkout reads. */
  datatype Calculation = Calculation(discount: int, grandTotal: int)

  /** One line of the Midtrans item list. */
  datatype PaymentItem = PaymentItem(id: string, price: int, quantity: int, name: string)

  /** The Midtrans payload: item list, transaction details and customer details. */
  datatype PaymentPayload = PaymentPayload(
    cart: seq<PaymentItem>,
    orderId: string,
    grossAmount: int,
    firstName: string,
    email: string,
    phone: string)

  /** Configuration values the controller reads. */
  datatype Config = Config(originCity: int, invoiceNote: string, deliveryOrderNote: string)

  /** The request's ambient context: caller, route path, and the values the
      response body takes from `uniqid()`/`rand()` and the clock. */
  datatype Session = Session(caller: User, path: string, requestNo: string, timestamp: string)

  /** The collaborators. `firstCheck` and `secondCheck` are the grouping
      service's two answers for the same product list, independent because
      stock may change between them. */
  datatype Services = Services(
    firstCheck: Grouping,
    secondCheck: Grouping,
    // `$costService->getCost`
    getCost: CostPayload -> CostResult,
    // `$courierFinderService->courierCostFinder`
    findCourier: (seq<CourierService>, Courier) -> Option<CourierService>,
    // `$orderReduceStockServices->reduceStock`, as its effect on the stock table
    reduceStock: (map<int, int>, seq<CartItem>) -> map<int, int>,
    orderNumber: OrderNumber,
    orderUuid: string,
    // `$orderInterface->store`
    storeOrder: OrderPayload -> QueryEnvelope<InsertedOrder>,
    // `$orderCalculationService->orderCalculation`
    calculate: int -> Calculation,
    // `$createSnapTokenService->getSnapToken`
    snapToken: PaymentPayload -> string,
    now: string)

  /** The storage a checkout reads and writes: stock per variant, the order
      tables, the snap token saved per order, and the (read-only) address
      and voucher tables. */
  datatype Db = Db(
    stock: map<int, int>,
    orders: seq<StoredOrder>,
    orderProducts: seq<OrderProductRow>,
    voucherHistory: seq<VoucherHistoryRow>,
    snapTokens: map<int, string>,
    addresses: map<int, Address>,
    vouchers: map<int, Voucher>)

  /** A collaborator call made by the checkout, in the order it is made. */
  datatype Call =
    | GroupCart
    | FindAddress(addressId: int)
    | GetCost(payload: CostPayload)
    | FindCourier
    | ReduceStock(items: seq<CartItem>)
    | GenerateOrderNumber
    | StoreOrder(order: OrderPayload)
    | CreateVoucherHistory(row: VoucherHistoryRow)
    | InsertOrderProducts(rows: seq<OrderProductRow>)
    | CalculateOrder(orderId: int)
    | LookUpVoucher
    | GetSnapToken(payment: PaymentPayload)
    | SaveSnapToken(orderId: int, token: string)

  /** The storage after a request, the calls it made and the body it answered with. */
  datatype Outcome = Outcome(db: Db, calls: seq<Call>, response: ResponseBody)

  // ---------------------------------------------------------------------
  // The cart gate and the request's pure pieces
  // ---------------------------------------------------------------------

  const CartEmptyError := FieldError("cart_empty", "Cart is empty, please add some products")

  /** The cart gate: out-of-stock lines fail first, then an empty cart;
      otherwise the grouping passes through unchanged. */
  function CheckingCart(g: Grouping): (r: ArrayEnvelope<CartCheck>)
    ensures r.arrayStatus <==> |g.outOfStock| == 0 && |g.cart| > 0
    ensures r.arrayStatus ==> r.arrayResponse == Grouped(g) && r.arrayMessage == "Cart check success"
    ensures |g.outOfStock| >= 1 ==> r.arrayResponse == Grouped(g) && r.arrayMessage == "Item out of stock"
    ensures |g.outOfStock| == 0 && |g.cart| == 0 ==> r.arrayResponse == CartErrors([CartEmptyError])
  {
    if |g.outOfStock| >= 1 then
      HandleArrayErrorResponse(Grouped(g), "Item out of stock")
    else if |g.cart| <= 0 then
      HandleArrayErrorResponse(CartErrors([CartEmptyError]), "Cart empty")
    else
      HandleArrayResponse(Grouped(g), "Cart check success")
  }

  /** The billing address id: the shipping one when "same as shipping" is set. */
  function BillingAddressId(req: CheckoutRequest): (id: int)
    ensures req.sameAsShipping ==> id == req.shippingAddressId
    ensures !req.sameAsShipping ==> id == req.billingAddressId
  {
    if req.sameAsShipping then req.shippingAddressId else req.billingAddressId
  }

  /** The address with that id, if the caller owns it. */
  function FindOwnedAddress(addresses: map<int, Address>, id: int, userId: int): (a: Option<Address>)
    ensures a.Some? <==> id in addresses && addresses[id].fkUserId == userId
    ensures a.Some? ==> a.value == addresses[id]
  {
    if id in addresses && addresses[id].fkUserId == userId then Some(addresses[id]) else None
  }

  /** A voucher id counts as given when it is present and not 0 (PHP truthiness). */
  predicate VoucherGiven(voucherId: Option<int>) {
    voucherId.Some? && voucherId.value != 0
  }

  /** `Voucher::find`: null finds nothing; an id finds its row if there is one. */
  function FindVoucher(vouchers: map<int, Voucher>, voucherId: Option<int>): (v: Option<Voucher>)
    ensures v.Some? <==> voucherId.Some? && voucherId.value in vouchers
    ensures v.Some? ==> v.value == vouchers[voucherId.value]
  {
    if voucherId.Some? && voucherId.value in vouchers then Some(vouchers[voucherId.value]) else None
  }

  const DefaultCostFailure := "Courier service failed"

  /** The message of a failed cost lookup: the upstream description, or the default. */
  function CostFailureMessage(description: Option<string>): (m: string)
    ensures description.Some? ==> m == description.value
    ensures description.None? ==> m == DefaultCostFailure
  {
    description.GetOr(DefaultCostFailure)
  }

  /** The route path with every '/' turned into '.', used as the body's title. */
  function DotPath(path: string): (t: string)
    ensures |t| == |path|
    ensures forall i :: 0 <= i < |path| ==> t[i] == (if path[i] == '/' then '.' else path[i])
    ensures '/' !in t
  {
    if path == [] then []
    else [if path[0] == '/' then '.' else path[0]] + DotPath(path[1..])
  }

  const NameLimit := 42

  /** A product name cut to its first 42 characters plus "..." when longer. */
  function TruncateName(name: string): (r: string)
    ensures |r| <= NameLimit + 3
    ensures |name| <= NameLimit ==> r == name
    ensures |name| > NameLimit ==> |r| == NameLimit + 3 && r[..NameLimit] == name[..NameLimit] && r[NameLimit..] == "..."
  {
    if |name| > NameLimit then name[..NameLimit] + "..." else name
  }

  // ---------------------------------------------------------------------
  // Order rows and payment lines
  // ---------------------------------------------------------------------

  function AddressFieldsOf(a: Address): AddressFields {
    AddressFields("Indonesia", a.phoneNumber, a.firstName, a.lastName, a.street,
                  a.cityLabel, a.provinceLabel, a.postalCode, a.labelPlace, a.courierNote)
  }

  /** The order the controller asks the store to insert. */
  function OrderPayloadFor(
    s: Session, cfg: Config, req: CheckoutRequest, svc: Services,
    shipping: Address, billing: Address, found: CourierService): (p: OrderPayload)
    ensures p.fkUserId == s.caller.id && p.fkVoucherId == req.voucherId
    ensures p.shipping == AddressFieldsOf(shipping) && p.billing == AddressFieldsOf(billing)
    ensures p.courierAgent == req.courier.agent && p.courierAgentService == found.service
    ensures p.courierCost == found.value
    ensures p.paymentStatus == "UNPAID" && p.status == "ORDER"
    ensures p.orderNumber == svc.orderNumber.invoiceNumber && p.queueNumber == svc.orderNumber.queueNumber
  {
    OrderPayload(
      svc.orderNumber.queueNumber, svc.orderNumber.invoiceNumber, svc.orderUuid, s.caller.email,
      AddressFieldsOf(shipping), AddressFieldsOf(billing),
      req.courier.agent, found.service, found.description, found.etd, "", found.value,
      "Midtrans", "", cfg.invoiceNote, cfg.deliveryOrderNote,
      s.caller.id, req.voucherId, "UNPAID", "ORDER")
  }

  function OrderProductRowFor(item: CartItem, orderId: int, now: string): (r: OrderProductRow)
    ensures r.fkOrderId == orderId && r.fkVariantId == item.variantId && r.qty == item.qty
  {
    OrderProductRow(item.productId, item.variantId, item.productName, item.productImage,
                    item.variantSku, item.variantDescription, item.qty, item.price,
                    item.discount, item.purchasePrice, item.note, orderId, now, now)
  }

  /** One order-product row per cart item, in cart order. */
  function OrderProductRows(cart: seq<CartItem>, orderId: int, now: string): (rows: seq<OrderProductRow>)
    ensures |rows| == |cart|
    ensures forall i :: 0 <= i < |cart| ==> rows[i] == OrderProductRowFor(cart[i], orderId, now)
  {
    if cart == [] then []
    else OrderProductRows(cart[..|cart| - 1], orderId, now) + [OrderProductRowFor(cart[|cart| - 1], orderId, now)]
  }

  /** The Midtrans line of one cart item. */
  function ProductLine(item: CartItem): (p: PaymentItem)
    ensures p.id == item.variantSku && p.price == item.purchasePrice && p.quantity == item.qty
    ensures p.name == TruncateName(item.productName)
  {
    PaymentItem(item.variantSku, item.purchasePrice, item.qty, TruncateName(item.productName))
  }

  /** The Midtrans lines of the cart items, in cart order. */
  function ProductLines(cart: seq<CartItem>): (items: seq<PaymentItem>)
    ensures |items| == |cart|
    ensures forall i :: 0 <= i < |cart| ==> items[i] == ProductLine(cart[i])
  {
    if cart == [] then []
    else ProductLines(cart[..|cart| - 1]) + [ProductLine(cart[|cart| - 1])]
  }

  /** The shipping line: one unit at the matched service's cost. */
  function ShippingLine(courier: Courier, found: CourierService): (p: PaymentItem)
    ensures p.quantity == 1 && p.price == found.value
    ensures p.id == "shipping-" + p.name && p.name == courier.agent + "-" + found.service
  {
    PaymentItem("shipping-" + courier.agent + "-" + found.service, found.value, 1,
                courier.agent + "-" + found.service)
  }

  function Abs(x: int): (r: int)
    ensures r >= 0 && (r == x || r == -x)
  {
    if x < 0 then -x else x
  }

  /** The voucher line: minus the calculated discount when the voucher
      exists, otherwise a zero-priced "no-voucher" placeholder. */
  function VoucherLine(voucher: Option<Voucher>, totals: Calculation): (p: PaymentItem)
    ensures p.quantity == 1 && p.price <= 0
    ensures voucher.Some? ==> p.id == voucher.value.code && p.price == -Abs(totals.discount)
    ensures voucher.None? ==> p == PaymentItem("no-voucher", 0, 1, "No Discount Voucher")
  {
    if voucher.Some? then PaymentItem(voucher.value.code, -Abs(totals.discount), 1, "Discount Voucher")
    else PaymentItem("no-voucher", 0, 1, "No Discount Voucher")
  }

  /** The whole Midtrans item list: product lines, then shipping, then voucher. */
  function PaymentItems(cart: seq<CartItem>, courier: Courier, found: CourierService,
                        voucher: Option<Voucher>, totals: Calculation): (items: seq<PaymentItem>)
    ensures |items| == |cart| + 2
    ensures forall i :: 0 <= i < |cart| ==> items[i] == ProductLine(cart[i])
    ensures items[|cart|] == ShippingLine(courier, found)
    ensures items[|cart| + 1] == VoucherLine(voucher, totals)
  {
    ProductLines(cart) + [ShippingLine(courier, found)] + [VoucherLine(voucher, totals)]
  }

  // ---------------------------------------------------------------------
  // Encodings into the JSON values of the response bodies
  // ---------------------------------------------------------------------

  function FieldErrorValue(e: FieldError): Value {
    VMap(map["field" := VStr(e.field), "message" := VStr(e.message)])
  }

  function FieldErrorsValue(errors: seq<FieldError>): Value {
    VList(FieldErrorValues(errors))
  }

  function FieldErrorValues(errors: seq<FieldError>): (vs: seq<Value>)
    ensures |vs| == |errors|
  {
    if errors == [] then [] else [FieldErrorValue(errors[0])] + FieldErrorValues(errors[1..])
  }

  /** The one-entry error list the controller answers a failed stage with:
      `[{field, message}]`, which is never falsy and so reaches the body as is. */
  function StageError(field: string, message: string): (v: Value)
    ensures v == VList([VMap(map["field" := VStr(field), "message" := VStr(message)])])
    ensures !Falsy(v)
  {
    var errors := [FieldError(field, message)];
    assert errors[1..] == [];
    assert FieldErrorValues(errors) == [FieldErrorValue(errors[0])];
    FieldErrorsValue(errors)
  }

  function CartItemValue(item: CartItem): Value {
    VMap(map[
      "product_id" := VInt(item.productId),
      "variant_id" := VInt(item.variantId),
      "product_name" := VStr(item.productName),
      "product_image" := VStr(item.productImage),
      "variant_sku" := VStr(item.variantSku),
      "variant_description" := VStr(item.variantDescription),
      "qty" := VInt(item.qty),
      "price_info" := VMap(map["price" := VInt(item.price), "discount" := VInt(item.discount)]),
      "purchase_price" := VInt(item.purchasePrice),
      "note" := VStr(item.note)])
  }

  function CartItemsValue(items: seq<CartItem>): Value {
    VList(CartItemValues(items))
  }

  function CartItemValues(items: seq<CartItem>): (vs: seq<Value>)
    ensures |vs| == |items|
  {
    if items == [] then [] else [CartItemValue(items[0])] + CartItemValues(items[1..])
  }

  function GroupingValue(g: Grouping): Value {
    VMap(map[
      "cart" := CartItemsValue(g.cart),
      "out_of_stock" := CartItemsValue(g.outOfStock),
      "calculation" := VMap(map["total_weight" := VInt(g.totalWeight)])])
  }

  function CartCheckValue(c: CartCheck): Value {
    match c
    case Grouped(g) => GroupingValue(g)
    case CartErrors(errors) => FieldErrorsValue(errors)
  }

  function ResponseCtx(s: Session): ResponseContext {
    ResponseContext(Some(s.caller.uuid), s.requestNo, s.timestamp)
  }

  /** The 422 body every failed stage answers with. */
  function CheckoutError(s: Session, req: CheckoutRequest, data: Value, message: string): (b: ResponseBody)
    ensures b.code == 422 && b.success == "Unprocessable Entity" && b.message == message
    ensures !Falsy(data) ==> b.data == data
  {
    HandleError(ResponseCtx(s), data, message, Some(req.validated), Some(DotPath(s.path)), 422)
  }

  /** The 201 body of a successful checkout. */
  function CheckoutSuccess(s: Session, req: CheckoutRequest, inserted: InsertedOrder, token: string): (b: ResponseBody)
    ensures b.code == 201 && b.success == "OK" && b.message == "Checkout success"
    ensures b.data == VMap(map["uuid" := VStr(inserted.uuid), "id" := VInt(inserted.id), "payment_snap_token" := VStr(token)])
  {
    var data := VMap(map["uuid" := VStr(inserted.uuid), "id" := VInt(inserted.id), "payment_snap_token" := VStr(token)]);
    assert "id" in data.entries;
    HandleResponse(ResponseCtx(s), data, "Checkout success", Some(req.validated), Some(DotPath(s.path)), 201)
  }

  // ---------------------------------------------------------------------
  // The checkout
  // ---------------------------------------------------------------------

  /** How the checks before stock reduction end, with the calls they made:
      rejected with the error data and message of the failing stage, or
      cleared with the two addresses and the matched courier service. */
  datatype Gate =
    | Rejected(calls: seq<Call>, data: Value, message: string)
    | Cleared(calls: seq<Call>, shipping: Address, billing: Address, found: CourierService)

  /** The cost question: from the configured origin city to the shipping
      address's city, for the first check's total weight and the selected
      courier. */
  function CostPayloadFor(cfg: Config, svc: Services, shipping: Address, req: CheckoutRequest): (p: CostPayload)
    ensures p.origin == cfg.originCity && p.destination == shipping.city
    ensures p.weight == svc.firstCheck.totalWeight && p.courier == req.courier.agent
  {
    CostPayload(cfg.originCity, shipping.city, svc.firstCheck.totalWeight, req.courier.agent)
  }

  /** The checks, in the controller's order, each failing fast. The calls
      are collected one stage at a time, as the controller makes them. */
  function CheckGate(db: Db, s: Session, cfg: Config, req: CheckoutRequest, svc: Services): (g: Gate)
    ensures 1 <= |g.calls| <= 6 && g.calls[0] == GroupCart
    ensures g.Cleared? ==>
      g.calls == [GroupCart, FindAddress(req.shippingAddressId), FindAddress(BillingAddressId(req)),
                  GetCost(CostPayloadFor(cfg, svc, g.shipping, req)), FindCourier, GroupCart]
    ensures g.Cleared? ==>
      req.shippingAddressId in db.addresses && g.shipping == db.addresses[req.shippingAddressId]
      && g.shipping.fkUserId == s.caller.id
      && BillingAddressId(req) in db.addresses && g.billing == db.addresses[BillingAddressId(req)]
      && g.billing.fkUserId == s.caller.id
    ensures g.Cleared? ==> |svc.secondCheck.outOfStock| == 0 && |svc.secondCheck.cart| > 0
  {
    var first := CheckingCart(svc.firstCheck);
    var calls1 := [GroupCart];
    if !first.arrayStatus then
      Rejected(calls1, CartCheckValue(first.arrayResponse), "Invalid cart data")
    else
      var shipping := FindOwnedAddress(db.addresses, req.shippingAddressId, s.caller.id);
      var calls2 := calls1 + [FindAddress(req.shippingAddressId)];
      if shipping.None? then
        Rejected(calls2, StageError("shipping_address", "Shipping address not found"), "Shipping address not found")
      else
        var billingId := BillingAddressId(req);
        var billing := FindOwnedAddress(db.addresses, billingId, s.caller.id);
        var calls3 := calls2 + [FindAddress(billingId)];
        if billing.None? then
          Rejected(calls3, StageError("billing_address", "Billing address not found"), "Billing address not found")
        else
          var payload := CostPayloadFor(cfg, svc, shipping.value, req);
          var cost := svc.getCost(payload);
          var calls4 := calls3 + [GetCost(payload)];
          if cost.CostFailed? then
            Rejected(calls4, StageError("rajaongkir", CostFailureMessage(cost.description)), "Courier cost check failed")
          else
            var found := svc.findCourier(cost.costs, req.courier);
            var calls5 := calls4 + [FindCourier];
            if found.None? then
              Rejected(calls5, StageError("courier", "Invalid courier cost input"), "Courier validation failed")
            else
              var recheck := CheckingCart(svc.secondCheck);
              var calls6 := calls5 + [GroupCart];
              if !recheck.arrayStatus then
                Rejected(calls6, CartCheckValue(recheck.arrayResponse), "Cart validation failed")
              else
                Cleared(calls6, shipping.value, billing.value, found.value)
  }

  /** The voucher-history rows a request adds: one when a voucher id was given. */
  function VoucherHistoryFor(voucherId: Option<int>, userId: int, orderId: int): (rows: seq<VoucherHistoryRow>)
    ensures |rows| == (if VoucherGiven(voucherId) then 1 else 0)
    ensures |rows| == 1 ==> rows[0] == VoucherHistoryRow(voucherId.value, userId, orderId)
  {
    if VoucherGiven(voucherId) then [VoucherHistoryRow(voucherId.value, userId, orderId)] else []
  }

  function VoucherHistoryCalls(rows: seq<VoucherHistoryRow>): seq<Call>
    requires |rows| <= 1
  {
    if rows == [] then [] else [CreateVoucherHistory(rows[0])]
  }

  /** The Midtrans payload for an inserted order: the item list of the
      second check's cart, charging the calculated grand total for the
      invoice number, with the caller as customer. */
  function PaymentPayloadFor(s: Session, req: CheckoutRequest, svc: Services, db: Db,
                             found: CourierService, orderId: int): (p: PaymentPayload)
    ensures p.cart == PaymentItems(svc.secondCheck.cart, req.courier, found, FindVoucher(db.vouchers, req.voucherId),
                                   svc.calculate(orderId))
    ensures |p.cart| == |svc.secondCheck.cart| + 2
    ensures p.grossAmount == svc.calculate(orderId).grandTotal && p.orderId == svc.orderNumber.invoiceNumber
    ensures p.firstName == s.caller.name && p.email == s.caller.email && p.phone == s.caller.phone
  {
    var totals := svc.calculate(orderId);
    PaymentPayload(PaymentItems(svc.secondCheck.cart, req.courier, found, FindVoucher(db.vouchers, req.voucherId), totals),
                   svc.orderNumber.invoiceNumber, totals.grandTotal,
                   s.caller.name, s.caller.email, s.caller.phone)
  }

  /** Everything after the checks: reduce stock with the second check's
      cart and insert the order; when the insert succeeds, `Record` does
      the rest. `calls` holds only the calls of these stages. */
  function Commit(db: Db, s: Session, cfg: Config, req: CheckoutRequest, svc: Services,
                  shipping: Address, billing: Address, found: CourierService): (o: Outcome)
    ensures |o.calls| >= 3 && o.calls[0] == ReduceStock(svc.secondCheck.cart)
    ensures o.db.stock == svc.reduceStock(db.stock, svc.secondCheck.cart)
    ensures o.db.addresses == db.addresses && o.db.vouchers == db.vouchers
    ensures !svc.storeOrder(OrderPayloadFor(s, cfg, req, svc, shipping, billing, found)).queryStatus ==>
      o.db == db.(stock := svc.reduceStock(db.stock, svc.secondCheck.cart)) && o.response.code == 422
  {
    var cart := svc.secondCheck.cart;
    var reduced := db.(stock := svc.reduceStock(db.stock, cart));
    var payload := OrderPayloadFor(s, cfg, req, svc, shipping, billing, found);
    var calls := [ReduceStock(cart)] + [GenerateOrderNumber] + [StoreOrder(payload)];
    var insert := svc.storeOrder(payload);
    if !insert.queryStatus then
      Outcome(reduced, calls, CheckoutError(s, req, StageError("order", "Order creation failed"), "Order insertion failed"))
    else
      var recorded := Record(reduced, s, req, svc, found, payload, insert.queryResponse);
      recorded.(calls := calls + recorded.calls)
  }

  /** The stages after a successful insert: the stored order, the voucher
      history (when a voucher was given) and the ordered products; `Pay`
      does the rest. */
  function Record(db: Db, s: Session, req: CheckoutRequest, svc: Services,
                  found: CourierService, payload: OrderPayload, inserted: InsertedOrder): (o: Outcome)
    ensures o.db.orders == db.orders + [StoredOrder(inserted.id, payload)]
    ensures o.db.voucherHistory == db.voucherHistory + VoucherHistoryFor(req.voucherId, s.caller.id, inserted.id)
    ensures o.db.orderProducts == db.orderProducts + OrderProductRows(svc.secondCheck.cart, inserted.id, svc.now)
    ensures o.db.stock == db.stock && o.db.addresses == db.addresses && o.db.vouchers == db.vouchers
    ensures o.response.code == 201
  {
    var id := inserted.id;
    var history := VoucherHistoryFor(req.voucherId, s.caller.id, id);
    var rows := OrderProductRows(svc.secondCheck.cart, id, svc.now);
    var paid := Pay(db.(orders := db.orders + [StoredOrder(id, payload)],
                        voucherHistory := db.voucherHistory + history,
                        orderProducts := db.orderProducts + rows),
                    s, req, svc, found, inserted);
    paid.(calls := VoucherHistoryCalls(history) + [InsertOrderProducts(rows)] + paid.calls)
  }

  /** The last stages: the order totals, the voucher, the Midtrans snap
      token and its saving on the order, and the success body. */
  function Pay(db: Db, s: Session, req: CheckoutRequest, svc: Services,
               found: CourierService, inserted: InsertedOrder): (o: Outcome)
    ensures inserted.id in o.db.snapTokens
    ensures o.db == db.(snapTokens := db.snapTokens[inserted.id := o.db.snapTokens[inserted.id]])
    ensures o.db.snapTokens[inserted.id] == svc.snapToken(PaymentPayloadFor(s, req, svc, db, found, inserted.id))
    ensures o.calls == [CalculateOrder(inserted.id), LookUpVoucher,
                        GetSnapToken(PaymentPayloadFor(s, req, svc, db, found, inserted.id)),
                        SaveSnapToken(inserted.id, o.db.snapTokens[inserted.id])]
    ensures o.response == CheckoutSuccess(s, req, inserted, o.db.snapTokens[inserted.id])
  {
    var id := inserted.id;
    var payment := PaymentPayloadFor(s, req, svc, db, found, id);
    var token := svc.snapToken(payment);
    Outcome(db.(snapTokens := db.snapTokens[id := token]),
            [CalculateOrder(id)] + [LookUpVoucher] + [GetSnapToken(payment)] + [SaveSnapToken(id, token)],
            CheckoutSuccess(s, req, inserted, token))
  }

  /** One checkout request. */
  function Checkout(db: Db, s: Session, cfg: Config, req: CheckoutRequest, svc: Services): (o: Outcome)
    ensures o.db.addresses == db.addresses && o.db.vouchers == db.vouchers
    ensures o.response.code == 201 || o.response.code == 422
    ensures CheckGate(db, s, cfg, req, svc).Rejected? ==> o.db == db
  {
    match CheckGate(db, s, cfg, req, svc)
    case Rejected(calls, data, message) => Outcome(db, calls, CheckoutError(s, req, data, message))
    case Cleared(calls, shipping, billing, found) =>
      var committed := Commit(db, s, cfg, req, svc, shipping, billing, found);
      committed.(calls := calls + committed.calls)
  }
}
