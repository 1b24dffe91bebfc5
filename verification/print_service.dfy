/** The printing service: the single-order receipt (its field defaults, item source
    and conditional summary lines) and the order report (empty guard, default
    options, summary counts, status groups and optional columns). Receipts and
    reports are structured values; the HTML they are rendered into is not modelled. */
module PrintService {
  import opened Wrappers
  import opened Text
  import opened Payload
  import opened Dates
  import OrderDetail

  // ---------------------------------------------------------------- receipt

  /** One item line of a receipt. */
  datatype ReceiptItem = ReceiptItem(
    name: Option<string>,
    qty: Option<int>,
    price: Option<int>,
    notes: string,
    attributes: seq<Attribute>)

  /** A product as a receipt line: notes default to `''` and attributes to `[]`. */
  function ReceiptProduct(p: RawProduct): (it: ReceiptItem)
    ensures Truthy(p.productName) ==> it.name == p.productName
    ensures !Truthy(p.productName) ==> it.name == p.name
    ensures it.qty == Some(FirstSome([p.quantity, p.qty]).GetOr(1))
    ensures it.price == Some(FirstSome([p.itemTotal, p.priceTotal, p.price]).GetOr(0))
    ensures it.notes == TruthyOr([p.notes], "")
    ensures p.selectedAttributes.None? ==> it.attributes == []
    ensures p.selectedAttributes.Some? ==> it.attributes == OrderDetail.NormalizeAttributes(p.selectedAttributes.value)
  {
    var line := OrderDetail.ProductLine(p);
    ReceiptItem(line.name, line.qty, line.price, TruthyOr([p.notes], ""), line.attributes.GetOr([]))
  }

  /** A ready-made line item as a receipt line. */
  function ReceiptLineItem(it: LineItem): (r: ReceiptItem)
    ensures r.name == it.name && r.qty == it.qty && r.price == it.price
    ensures r.notes == TruthyOr([it.notes], "")
    ensures r.attributes == it.attributes.GetOr([])
  {
    ReceiptItem(it.name, it.qty, it.price, TruthyOr([it.notes], ""), it.attributes.GetOr([]))
  }

  /** The receipt's items: `products` whenever it is an array (even an empty one),
      else `items`, else none. */
  function ReceiptItems(o: RawOrder): (r: seq<ReceiptItem>)
    ensures o.products.Some? ==>
      |r| == |o.products.value| && forall i | 0 <= i < |r| :: r[i] == ReceiptProduct(o.products.value[i])
    ensures o.products.None? && o.items.Some? ==>
      |r| == |o.items.value| && forall i | 0 <= i < |r| :: r[i] == ReceiptLineItem(o.items.value[i])
    ensures o.products.None? && o.items.None? ==> r == []
  {
    if o.products.Some? then
      var ps := o.products.value;
      seq(|ps|, i requires 0 <= i < |ps| => ReceiptProduct(ps[i]))
    else if o.items.Some? then
      var its := o.items.value;
      seq(|its|, i requires 0 <= i < |its| => ReceiptLineItem(its[i]))
    else []
  }

  /** The receipt and the detail view read the same product the same way, up to
      the receipt's `''`/`[]` defaults. */
  lemma ReceiptProductMatchesDetail(p: RawProduct)
    ensures var d, r := OrderDetail.ProductLine(p), ReceiptProduct(p);
      r.name == d.name && r.qty == d.qty && r.price == d.price
      && r.notes == TruthyOr([d.notes], "") && r.attributes == d.attributes.GetOr([])
  {
  }

  /** The two views take items from opposite sources: with both arrays present and
      `items` non-empty, the detail shows `items` and the receipt shows `products`. */
  lemma ItemSourcesDisagree(o: RawOrder)
    requires o.items.Some? && |o.items.value| > 0 && o.products.Some?
    ensures OrderDetail.DetailItems(o) == o.items.value
    ensures |ReceiptItems(o)| == |o.products.value|
    ensures var x := LineItem(None, Some("x"), Some(1), Some(0), None, None);
      var w := EmptyOrder.(items := Some([x]), products := Some([]));
      OrderDetail.DetailItems(w) == [x] && ReceiptItems(w) == []
  {
  }

  /** The customer name on the receipt: the joined name when `user.firstName` is
      non-empty, else `customer.name`, else 'Customer'. */
  function ReceiptName(o: RawOrder): (r: string)
    ensures o.user.Some? && Truthy(o.user.value.firstName) ==> r == JoinName(o.user.value.firstName, o.user.value.lastName)
    ensures !(o.user.Some? && Truthy(o.user.value.firstName)) ==>
      r == TruthyOr([if o.customer.Some? then o.customer.value.name else None], "Customer")
  {
    if o.user.Some? && Truthy(o.user.value.firstName) then JoinName(o.user.value.firstName, o.user.value.lastName)
    else
      var cn := if o.customer.Some? then o.customer.value.name else None;
      TruthyOr([cn], "Customer")
  }

  /** The receipt names the customer as the detail view does, except when the first
      name is nothing but white space and the last name is blank: the receipt then
      prints an empty name where the detail shows 'Customer'. */
  lemma ReceiptNameMatchesDetail(o: RawOrder)
    ensures ReceiptName(o) == TruthyOr([OrderDetail.ContactName(o)], "Customer") <==>
      !(o.user.Some? && Truthy(o.user.value.firstName) && JoinName(o.user.value.firstName, o.user.value.lastName) == "")
  {
    var c := OrderDetail.ContactName(o);
    assert [c][1..] == [];
    if o.user.Some? && Truthy(o.user.value.firstName) {
      assert c == Some(JoinName(o.user.value.firstName, o.user.value.lastName));
    }
  }

  /** A receipt, field by field. `placed` is the raw creation stamp (its locale
      rendering is not modelled); `eta` is shown only when non-zero. */
  datatype Receipt = Receipt(
    branch: string,
    orderNumber: string,
    orderType: string,
    placed: Option<string>,
    eta: Option<int>,
    items: seq<ReceiptItem>,
    lines: seq<OrderDetail.SummaryLine>,
    payStatus: string,
    payMethod: string,
    customerName: string,
    customerEmail: string,
    customerPhone: string,
    customerNotes: Option<string>)

  /** The receipt's summary lines: Subtotal first, the optional lines, the total last. */
  function ReceiptSummary(t: OrderDetail.Totals, orderType: string): (lines: seq<OrderDetail.SummaryLine>)
    ensures |lines| >= 2
    ensures lines[0] == OrderDetail.SummaryLine(OrderDetail.SubtotalLine, t.subtotal)
    ensures lines[|lines| - 1] == OrderDetail.SummaryLine(OrderDetail.TotalLine, t.total)
  {
    var f := [OrderDetail.SummaryLine(OrderDetail.TotalLine, t.total)];
    var e := OrderDetail.Optional(t.deliveryFee > 0 && orderType == "delivery", OrderDetail.DeliveryFeeLine, t.deliveryFee, f);
    var d := OrderDetail.Optional(t.tips > 0, OrderDetail.TipLine, t.tips, e);
    var c := OrderDetail.Optional(t.serviceCharge > 0, OrderDetail.ServiceChargeLine, t.serviceCharge, d);
    var b := OrderDetail.Optional(t.discount > 0, OrderDetail.DiscountLine, t.discount, c);
    assert |e| >= 1 && e[|e| - 1] == f[0];
    assert |b| >= 1 && b[|b| - 1] == f[0];
    OrderDetail.Optional(true, OrderDetail.SubtotalLine, t.subtotal, b)
  }

  /** Discount, Service Charge and Tips print when positive, Delivery Fee when
      positive on a delivery, tax never; Subtotal and the total always. */
  lemma ReceiptShows(t: OrderDetail.Totals, orderType: string, lab: OrderDetail.Label)
    ensures lab in OrderDetail.Shown(ReceiptSummary(t, orderType)) <==>
      || (lab == OrderDetail.DiscountLine && t.discount > 0)
      || (lab == OrderDetail.ServiceChargeLine && t.serviceCharge > 0)
      || (lab == OrderDetail.TipLine && t.tips > 0)
      || (lab == OrderDetail.DeliveryFeeLine && t.deliveryFee > 0 && orderType == "delivery")
      || lab == OrderDetail.SubtotalLine || lab == OrderDetail.TotalLine
  {
    var f := [OrderDetail.SummaryLine(OrderDetail.TotalLine, t.total)];
    OrderDetail.ShownSingle(f[0], lab);
    var e := OrderDetail.Optional(t.deliveryFee > 0 && orderType == "delivery", OrderDetail.DeliveryFeeLine, t.deliveryFee, f);
    OrderDetail.OptionalShows(t.deliveryFee > 0 && orderType == "delivery", OrderDetail.DeliveryFeeLine, t.deliveryFee, f, lab);
    var d := OrderDetail.Optional(t.tips > 0, OrderDetail.TipLine, t.tips, e);
    OrderDetail.OptionalShows(t.tips > 0, OrderDetail.TipLine, t.tips, e, lab);
    var c := OrderDetail.Optional(t.serviceCharge > 0, OrderDetail.ServiceChargeLine, t.serviceCharge, d);
    OrderDetail.OptionalShows(t.serviceCharge > 0, OrderDetail.ServiceChargeLine, t.serviceCharge, d, lab);
    var b := OrderDetail.Optional(t.discount > 0, OrderDetail.DiscountLine, t.discount, c);
    OrderDetail.OptionalShows(t.discount > 0, OrderDetail.DiscountLine, t.discount, c, lab);
    OrderDetail.OptionalShows(true, OrderDetail.SubtotalLine, t.subtotal, b, lab);
  }

  /** The amount the receipt prints beside each label. */
  function ReceiptAmount(t: OrderDetail.Totals, lab: OrderDetail.Label): int {
    match lab
    case SubtotalLine => t.subtotal
    case DiscountLine => t.discount
    case ServiceChargeLine => t.serviceCharge
    case TipLine => t.tips
    case DeliveryFeeLine => t.deliveryFee
    case TaxLine => t.tax
    case TotalLine => t.total
  }

  /** Each receipt line shows its own charge. */
  lemma ReceiptAmounts(t: OrderDetail.Totals, orderType: string, lab: OrderDetail.Label)
    ensures OrderDetail.Carries(ReceiptSummary(t, orderType), lab, ReceiptAmount(t, lab))
  {
    var a := ReceiptAmount(t, lab);
    var f := [OrderDetail.SummaryLine(OrderDetail.TotalLine, t.total)];
    OrderDetail.CarriesSingle(f[0], lab, a);
    var e := OrderDetail.Optional(t.deliveryFee > 0 && orderType == "delivery", OrderDetail.DeliveryFeeLine, t.deliveryFee, f);
    OrderDetail.OptionalCarries(t.deliveryFee > 0 && orderType == "delivery", OrderDetail.DeliveryFeeLine, t.deliveryFee, f, lab, a);
    var d := OrderDetail.Optional(t.tips > 0, OrderDetail.TipLine, t.tips, e);
    OrderDetail.OptionalCarries(t.tips > 0, OrderDetail.TipLine, t.tips, e, lab, a);
    var c := OrderDetail.Optional(t.serviceCharge > 0, OrderDetail.ServiceChargeLine, t.serviceCharge, d);
    OrderDetail.OptionalCarries(t.serviceCharge > 0, OrderDetail.ServiceChargeLine, t.serviceCharge, d, lab, a);
    var b := OrderDetail.Optional(t.discount > 0, OrderDetail.DiscountLine, t.discount, c);
    OrderDetail.OptionalCarries(t.discount > 0, OrderDetail.DiscountLine, t.discount, c, lab, a);
    OrderDetail.OptionalCarries(true, OrderDetail.SubtotalLine, t.subtotal, b, lab, a);
  }

  /** The receipt prints its lines in its own fixed order, none twice. */
  lemma ReceiptOrdered(t: OrderDetail.Totals, orderType: string)
    ensures OrderDetail.Ordered(ReceiptSummary(t, orderType), OrderDetail.ReceiptLayout)
  {
    var L := OrderDetail.ReceiptLayout;
    var f := [OrderDetail.SummaryLine(OrderDetail.TotalLine, t.total)];
    var e := OrderDetail.Optional(t.deliveryFee > 0 && orderType == "delivery", OrderDetail.DeliveryFeeLine, t.deliveryFee, f);
    OrderDetail.OptionalOrdered(t.deliveryFee > 0 && orderType == "delivery", OrderDetail.DeliveryFeeLine, t.deliveryFee, f, L);
    var d := OrderDetail.Optional(t.tips > 0, OrderDetail.TipLine, t.tips, e);
    OrderDetail.OptionalOrdered(t.tips > 0, OrderDetail.TipLine, t.tips, e, L);
    var c := OrderDetail.Optional(t.serviceCharge > 0, OrderDetail.ServiceChargeLine, t.serviceCharge, d);
    OrderDetail.OptionalOrdered(t.serviceCharge > 0, OrderDetail.ServiceChargeLine, t.serviceCharge, d, L);
    var b := OrderDetail.Optional(t.discount > 0, OrderDetail.DiscountLine, t.discount, c);
    OrderDetail.OptionalOrdered(t.discount > 0, OrderDetail.DiscountLine, t.discount, c, L);
    OrderDetail.OptionalOrdered(true, OrderDetail.SubtotalLine, t.subtotal, b, L);
  }

  /** `formatOrderToHTML`: every field with its fallback. */
  function FormatReceipt(o: RawOrder): (r: Receipt)
    ensures r.orderNumber == TruthyOr([o.orderNumber, o.id], "N/A")
    ensures r.orderType == TruthyOr([o.orderType, o.deliveryMethod], "collection")
    ensures r.branch == TruthyOr([o.branchName], "Restaurant")
    ensures r.customerName == ReceiptName(o)
    ensures r.items == ReceiptItems(o)
    ensures r.lines == ReceiptCharges(o)
    ensures var nested := if o.payment.Some? then o.payment.value.payMethod else None;
      r.payMethod == TruthyOr([o.paymentMethod, nested], "card")
    ensures var nested := if o.payment.Some? then o.payment.value.payStatus else None;
      r.payStatus == TruthyOr([o.paymentStatus, nested], "paid")
    ensures r.eta.Some? <==> o.estimatedTimeToComplete.Some? && o.estimatedTimeToComplete.value != 0
    ensures r.eta.Some? ==> r.eta == o.estimatedTimeToComplete
    ensures r.orderNumber != "" && r.orderType != "" && r.branch != "" && r.payMethod != "" && r.payStatus != ""
    ensures r.placed.Some? <==> Truthy(o.createdAt)
    ensures r.placed.Some? ==> r.placed == o.createdAt
    ensures r.customerNotes.Some? <==> Truthy(o.customerNotes)
    ensures r.customerNotes.Some? ==> r.customerNotes == o.customerNotes
  {
    var nm := if o.payment.Some? then o.payment.value.payMethod else None;
    var ns := if o.payment.Some? then o.payment.value.payStatus else None;
    var ue := if o.user.Some? then o.user.value.email else None;
    var up := if o.user.Some? then o.user.value.phone else None;
    var ce := if o.customer.Some? then o.customer.value.email else None;
    var cp := if o.customer.Some? then o.customer.value.phone else None;
    var orderType := TruthyOr([o.orderType, o.deliveryMethod], "collection");
    Receipt(
      branch := TruthyOr([o.branchName], "Restaurant"),
      orderNumber := TruthyOr([o.orderNumber, o.id], "N/A"),
      orderType := orderType,
      placed := if Truthy(o.createdAt) then o.createdAt else None,
      eta := if o.estimatedTimeToComplete.Some? && o.estimatedTimeToComplete.value != 0 then o.estimatedTimeToComplete else None,
      items := ReceiptItems(o),
      lines := ReceiptCharges(o),
      payStatus := TruthyOr([o.paymentStatus, ns], "paid"),
      payMethod := TruthyOr([o.paymentMethod, nm], "card"),
      customerName := ReceiptName(o),
      customerEmail := TruthyOr([ue, ce], ""),
      customerPhone := TruthyOr([up, cp], ""),
      customerNotes := if Truthy(o.customerNotes) then o.customerNotes else None)
  }

  /** The receipt's e-mail and phone are the user's non-empty value, else the
      customer's, else blank; whenever the detail view shows a customer block, the
      receipt prints the same e-mail and phone it does. */
  lemma ReceiptContact(o: RawOrder)
    ensures var ue, ce := if o.user.Some? then o.user.value.email else None, if o.customer.Some? then o.customer.value.email else None;
      FormatReceipt(o).customerEmail == (if Truthy(ue) then ue.value else if Truthy(ce) then ce.value else "")
    ensures var up, cp := if o.user.Some? then o.user.value.phone else None, if o.customer.Some? then o.customer.value.phone else None;
      FormatReceipt(o).customerPhone == (if Truthy(up) then up.value else if Truthy(cp) then cp.value else "")
    ensures var c := OrderDetail.DetailContact(o);
      c.Some? ==> FormatReceipt(o).customerEmail == c.value.email.GetOr("") && FormatReceipt(o).customerPhone == c.value.phone.GetOr("")
  {
    var ue := if o.user.Some? then o.user.value.email else None;
    var up := if o.user.Some? then o.user.value.phone else None;
    var ce := if o.customer.Some? then o.customer.value.email else None;
    var cp := if o.customer.Some? then o.customer.value.phone else None;
    TruthyOrPair(ue, ce, "");
    TruthyOrPair(up, cp, "");
  }

  /** The receipt prints the order number the detail header shows, and 'N/A' where
      the header would be blank. */
  lemma ReceiptNumberMatchesHeader(o: RawOrder)
    ensures var h := OrderDetail.HeaderNumber(o);
      FormatReceipt(o).orderNumber == if Truthy(h) then h.value else "N/A"
  {
    TruthyOrPair(o.orderNumber, o.id, "N/A");
  }

  /** The summary lines a receipt prints, in terms of the payload. Tax is never printed. */
  function ReceiptCharges(o: RawOrder): (lines: seq<OrderDetail.SummaryLine>)
    ensures var ls := OrderDetail.Shown(lines);
      && OrderDetail.SubtotalLine in ls && OrderDetail.TotalLine in ls
      && OrderDetail.TaxLine !in ls
      && (OrderDetail.DiscountLine in ls <==> o.discountAppliedAmount.Or(o.discountAmount).GetOr(0) > 0)
      && (OrderDetail.TipLine in ls <==> o.tips.GetOr(0) > 0)
      && (OrderDetail.ServiceChargeLine in ls <==> o.serviceCharge.Or(o.serviceChargesTotalAll).GetOr(0) > 0)
      && (OrderDetail.DeliveryFeeLine in ls <==>
            o.deliveryFee.GetOr(0) > 0 && OrElse(o.orderType, o.deliveryMethod) == Some("delivery"))
    ensures lines[0] == OrderDetail.SummaryLine(OrderDetail.SubtotalLine, o.subtotal.Or(o.totalAmount).GetOr(0))
    ensures lines[|lines| - 1] == OrderDetail.SummaryLine(OrderDetail.TotalLine, o.finalTotal.Or(o.total).GetOr(0))
  {
    var ty := TruthyOr([o.orderType, o.deliveryMethod], "collection");
    TruthyOrPair(o.orderType, o.deliveryMethod, "collection");
    var t := OrderDetail.DetailTotals(o);
    ReceiptShows(t, ty, OrderDetail.SubtotalLine);
    ReceiptShows(t, ty, OrderDetail.TotalLine);
    ReceiptShows(t, ty, OrderDetail.TaxLine);
    ReceiptShows(t, ty, OrderDetail.DiscountLine);
    ReceiptShows(t, ty, OrderDetail.TipLine);
    ReceiptShows(t, ty, OrderDetail.ServiceChargeLine);
    ReceiptShows(t, ty, OrderDetail.DeliveryFeeLine);
    ReceiptSummary(t, ty)
  }

  /** Each receipt line shows its own charge, read from the payload with the same
      fallbacks as the detail view, and the lines keep the receipt's order. */
  lemma ReceiptChargesAmounts(o: RawOrder)
    ensures var lines := ReceiptCharges(o);
      && OrderDetail.Carries(lines, OrderDetail.DiscountLine, o.discountAppliedAmount.Or(o.discountAmount).GetOr(0))
      && OrderDetail.Carries(lines, OrderDetail.ServiceChargeLine, o.serviceCharge.Or(o.serviceChargesTotalAll).GetOr(0))
      && OrderDetail.Carries(lines, OrderDetail.TipLine, o.tips.GetOr(0))
      && OrderDetail.Carries(lines, OrderDetail.DeliveryFeeLine, o.deliveryFee.GetOr(0))
      && OrderDetail.Ordered(lines, OrderDetail.ReceiptLayout)
  {
    var ty := TruthyOr([o.orderType, o.deliveryMethod], "collection");
    var t := OrderDetail.DetailTotals(o);
    ReceiptAmounts(t, ty, OrderDetail.DiscountLine);
    ReceiptAmounts(t, ty, OrderDetail.ServiceChargeLine);
    ReceiptAmounts(t, ty, OrderDetail.TipLine);
    ReceiptAmounts(t, ty, OrderDetail.DeliveryFeeLine);
    ReceiptOrdered(t, ty);
  }

  /** The receipt and the detail view read the payment method from opposite ends:
      the receipt prefers the flat `paymentMethod`, the detail the nested one. */
  lemma PaymentPrecedenceDiffers()
    ensures var o := EmptyOrder.(paymentMethod := Some("cash"), payment := Some(RawPayment(Some("card"), None)));
      FormatReceipt(o).payMethod == "cash" && OrderDetail.DetailPayment(o).payMethod == "card"
  {
    TruthyOrPair(Some("cash"), Some("card"), "card");
    TruthyOrPair(Some("card"), Some("cash"), "-");
  }

  /** What printing a receipt from the detail view leads to. */
  datatype PrintOutcome = Printed | PrinterFailed(described: string)

  /** Whether every receipt item has a price; the receipt formats each with
      `item.price.toFixed(2)`, which throws a TypeError on a missing one. */
  predicate PricesPresent(items: seq<ReceiptItem>) {
    forall i | 0 <= i < |items| :: items[i].price.Some?
  }

  /** What `printOrder` leads to: the receipt handed to the printer, if building it
      did not throw, and the outcome. */
  datatype PrintRun = PrintRun(sent: Option<Receipt>, outcome: PrintOutcome)

  /** `printOrder(order)`: builds the receipt and hands it to the printer. `printer`
      is the printer call's outcome and `typeError` the engine's description of the
      TypeError a missing item price raises; both lie outside the model. */
  function PrintOrder(o: RawOrder, printer: PrintOutcome, typeError: string): (r: PrintRun)
    ensures r.sent.Some? <==> PricesPresent(ReceiptItems(o))
    ensures r.sent.Some? ==> r.sent.value == FormatReceipt(o) && r.outcome == printer
    ensures r.sent.None? ==> r.outcome == PrinterFailed(typeError)
  {
    if PricesPresent(ReceiptItems(o)) then PrintRun(Some(FormatReceipt(o)), printer)
    else PrintRun(None, PrinterFailed(typeError))
  }

  /** Products always print (their price defaults to 0); a ready-made `items` entry
      without a price makes `printOrder` throw before the printer is called. The
      detail view never gets that far: see `UnpricedReceiptCrashesDetail`. */
  lemma MissingPriceFailsPrint(o: RawOrder, printer: PrintOutcome, typeError: string)
    ensures o.products.Some? ==> PrintOrder(o, printer, typeError).sent.Some?
    ensures var x := LineItem(None, Some("x"), Some(1), None, None, None);
      var w := EmptyOrder.(items := Some([x]));
      && PrintOrder(w, printer, typeError).sent.None?
      && PrintAlert(PrintOrder(w, printer, typeError).outcome).title == "Print error"
  {
    var x := LineItem(None, Some("x"), Some(1), None, None, None);
    var w := EmptyOrder.(items := Some([x]));
    assert ReceiptItems(w)[0].price.None?;
  }

  /** An unpriced receipt line always comes from a non-empty `items` array, which
      the detail view renders too, so its items block throws at `it.price.toFixed(2)`
      before the Print button can be pressed. The converse fails: with `products`
      present the receipt prints them while the detail view still renders `items`. */
  lemma {:induction false} UnpricedReceiptCrashesDetail(o: RawOrder)
    ensures !PricesPresent(ReceiptItems(o)) ==> !OrderDetail.ItemsRender(o)
    ensures var x := LineItem(None, Some("x"), Some(1), None, None, None);
      var w := EmptyOrder.(items := Some([x]), products := Some([]));
      && PricesPresent(ReceiptItems(w))
      && !OrderDetail.ItemsRender(w)
  {
    if !PricesPresent(ReceiptItems(o)) {
      var i :| 0 <= i < |ReceiptItems(o)| && ReceiptItems(o)[i].price.None?;
      assert OrderDetail.DetailItems(o)[i].price.None?;
    }
    var x := LineItem(None, Some("x"), Some(1), None, None, None);
    var w := EmptyOrder.(items := Some([x]), products := Some([]));
    assert OrderDetail.DetailItems(w)[0] == x;
  }

  datatype Alert = Alert(title: string, body: string)

  /** The error `printOrder` rethrows when the printer call fails. */
  function PrintError(described: string): (msg: string)
    ensures |"Failed to print: "| <= |msg| && msg[..|"Failed to print: "|] == "Failed to print: "
  {
    "Failed to print: " + described
  }

  /** The alert after a print attempt: since the rethrown message is never empty,
      the 'Failed to print' fallback is never the text shown. */
  function PrintAlert(outcome: PrintOutcome): (a: Alert)
    ensures outcome.Printed? ==> a == Alert("Print", "Receipt sent to printer")
    ensures outcome.PrinterFailed? ==> a.title == "Print error" && a.body == PrintError(outcome.described)
  {
    match outcome
    case Printed => Alert("Print", "Receipt sent to printer")
    case PrinterFailed(d) =>
      var m := Some(PrintError(d));
      Alert("Print error", TruthyOr([m], "Failed to print"))
  }

  // ----------------------------------------------------------------- report

  /** The fields of a history row the report reads. */
  datatype ReportOrder = ReportOrder(
    id: Option<string>,
    orderNumber: Option<string>,
    customer: string,
    kind: Fulfilment,
    status: Option<string>,
    total: int,
    createdAt: Option<string>)

  /** The report's column switches. */
  datatype PrintOptions = PrintOptions(
    includeOrderNumber: bool,
    includeCustomer: bool,
    includeType: bool,
    includeAmount: bool,
    includeTime: bool,
    includeStatus: bool)

  /** Used when the caller passes no options: four columns on, Time and Status off. */
  const DefaultOptions := PrintOptions(true, true, true, true, false, false)

  /** The report's columns; `NoCol` is the 1-based `#`. */
  datatype Column = NoCol | IdCol | CustomerCol | TypeCol | TimeCol | StatusCol | AmountCol

  /** Position of a column in the fixed left-to-right order. */
  function Rank(c: Column): nat {
    match c
    case NoCol => 0
    case IdCol => 1
    case CustomerCol => 2
    case TypeCol => 3
    case TimeCol => 4
    case StatusCol => 5
    case AmountCol => 6
  }

  /** Whether the options switch a column on; `#` is always on. */
  predicate Selected(opts: PrintOptions, c: Column) {
    match c
    case NoCol => true
    case IdCol => opts.includeOrderNumber
    case CustomerCol => opts.includeCustomer
    case TypeCol => opts.includeType
    case TimeCol => opts.includeTime
    case StatusCol => opts.includeStatus
    case AmountCol => opts.includeAmount
  }

  /** Every column, in the fixed order. */
  const AllColumns: seq<Column> := [NoCol, IdCol, CustomerCol, TypeCol, TimeCol, StatusCol, AmountCol]

  predicate Ascending(cs: seq<Column>) {
    forall i, j | 0 <= i < j < |cs| :: Rank(cs[i]) < Rank(cs[j])
  }

  /** The tail of an ascending list is ascending and ranks above its head. */
  lemma AscendingTail(cs: seq<Column>)
    requires Ascending(cs) && cs != []
    ensures Ascending(cs[1..])
    ensures forall c | c in cs[1..] :: Rank(cs[0]) < Rank(c)
  {
    forall c | c in cs[1..] ensures Rank(cs[0]) < Rank(c) {
      var k :| 0 <= k < |cs[1..]| && cs[1..][k] == c;
      assert cs[k + 1] == c;
    }
  }

  /** A column ranked below every column of an ascending list extends it. */
  lemma AscendingCons(x: Column, rest: seq<Column>)
    requires Ascending(rest)
    requires forall c | c in rest :: Rank(x) < Rank(c)
    ensures Ascending([x] + rest)
  {
    var r := [x] + rest;
    forall i, j | 0 <= i < j < |r| ensures Rank(r[i]) < Rank(r[j]) {
      assert r[j] == rest[j - 1] && rest[j - 1] in rest;
      if i > 0 { assert r[i] == rest[i - 1]; }
    }
  }

  /** The selected columns of `cs`, in their order. */
  function SelectColumns(opts: PrintOptions, cs: seq<Column>): (r: seq<Column>)
    requires Ascending(cs)
    ensures forall c :: c in r <==> c in cs && Selected(opts, c)
    ensures Ascending(r)
  {
    if cs == [] then []
    else
      AscendingTail(cs);
      var rest := SelectColumns(opts, cs[1..]);
      assert forall c :: c in cs <==> c == cs[0] || c in cs[1..];
      if Selected(opts, cs[0]) then
        AscendingCons(cs[0], rest);
        [cs[0]] + rest
      else rest
  }

  /** The header: `#` then each selected column in the fixed order. */
  function Columns(opts: PrintOptions): (cols: seq<Column>)
    ensures |cols| >= 1 && cols[0] == NoCol
    ensures forall c :: c in cols <==> Selected(opts, c)
    ensures Ascending(cols)
  {
    var cols := SelectColumns(opts, AllColumns);
    forall c: Column ensures c in AllColumns {
      assert AllColumns[Rank(c)] == c;
    }
    assert NoCol in cols;
    assert cols[0] == NoCol by {
      var k :| 0 <= k < |cols| && cols[k] == NoCol;
    }
    cols
  }

  /** The customer column's text: at most 15 characters, then '...'. */
  function Truncate(s: string): (r: string)
    ensures |s| <= 15 ==> r == s
    ensures |s| > 15 ==> |r| == 18 && r[..15] == s[..15] && r[15..] == "..."
  {
    if |s| > 15 then s[..15] + "..." else s
  }

  /** One cell of the report table. */
  datatype Cell =
    | Index(n: nat)
    | Ref(orderNumber: Option<string>)
    | Name(text: string)
    | Initial(c: char)
    | Clock(createdAt: Option<string>)
    | Status(status: Option<string>)
    | Amount(minor: int)

  /** The type column's upper-cased first letter. */
  function TypeInitial(k: Fulfilment): char {
    match k
    case Delivery => 'D'
    case Collection => 'C'
  }

  /** Whether a cell belongs under a column. */
  predicate Fits(col: Column, cell: Cell) {
    match col
    case NoCol => cell.Index?
    case IdCol => cell.Ref?
    case CustomerCol => cell.Name?
    case TypeCol => cell.Initial?
    case TimeCol => cell.Clock?
    case StatusCol => cell.Status?
    case AmountCol => cell.Amount?
  }

  /** The cell of the `index`-th order under `col`: the 1-based position, or the
      order's own field (the customer cut to 15 characters, the type's initial). */
  function CellFor(col: Column, index: nat, o: ReportOrder): (c: Cell)
    ensures Fits(col, c)
    ensures c.Index? ==> c.n == index + 1
    ensures c.Ref? ==> c.orderNumber == o.orderNumber
    ensures c.Name? ==> c.text == Truncate(o.customer) && |c.text| <= 18
    ensures c.Initial? ==> (c.c == 'D' <==> o.kind == Delivery) && (c.c == 'C' <==> o.kind == Collection)
    ensures c.Clock? ==> c.createdAt == o.createdAt
    ensures c.Status? ==> c.status == o.status
    ensures c.Amount? ==> c.minor == o.total
  {
    match col
    case NoCol => Index(index + 1)
    case IdCol => Ref(o.orderNumber)
    case CustomerCol => Name(Truncate(o.customer))
    case TypeCol => Initial(TypeInitial(o.kind))
    case TimeCol => Clock(o.createdAt)
    case StatusCol => Status(o.status)
    case AmountCol => Amount(o.total)
  }

  /** One table row: a cell per header column, in header order. */
  function ReportRow(cols: seq<Column>, index: nat, o: ReportOrder): (row: seq<Cell>)
    ensures |row| == |cols|
    ensures forall k | 0 <= k < |row| :: Fits(cols[k], row[k]) && row[k] == CellFor(cols[k], index, o)
  {
    seq(|cols|, k requires 0 <= k < |cols| => CellFor(cols[k], index, o))
  }

  /** The number of orders with the given status. */
  function CountWithStatus(orders: seq<ReportOrder>, key: Option<string>): (n: nat)
    ensures n <= |orders|
  {
    if orders == [] then 0
    else CountWithStatus(orders[..|orders| - 1], key) + (if orders[|orders| - 1].status == key then 1 else 0)
  }

  /** One entry of the status grouping. The app keys its object by `String(status)`,
      so an absent status and the literal string "undefined" fall into one group
      there; here they are the keys `None` and `Some("undefined")`. */
  datatype Group = Group(key: Option<string>, count: nat)

  function Keys(gs: seq<Group>): (ks: seq<Option<string>>)
    ensures |ks| == |gs| && forall i | 0 <= i < |gs| :: ks[i] == gs[i].key
  {
    seq(|gs|, i requires 0 <= i < |gs| => gs[i].key)
  }

  predicate DistinctKeys(gs: seq<Group>) {
    forall i, j | 0 <= i < j < |gs| :: gs[i].key != gs[j].key
  }

  /** The count recorded for `key`, 0 when it has no entry. */
  function Lookup(gs: seq<Group>, key: Option<string>): nat {
    if gs == [] then 0
    else if gs[0].key == key then gs[0].count
    else Lookup(gs[1..], key)
  }

  function GroupSum(gs: seq<Group>): nat {
    if gs == [] then 0 else gs[0].count + GroupSum(gs[1..])
  }

  /** `acc[key] = (acc[key] || 0) + 1`: bump an existing entry, or append a new one. */
  function Bump(gs: seq<Group>, key: Option<string>): (r: seq<Group>)
    ensures |r| == |gs| || |r| == |gs| + 1
    ensures forall k :: k in Keys(r) <==> k in Keys(gs) || k == key
  {
    if gs == [] then
      assert Keys([Group(key, 1)]) == [key];
      [Group(key, 1)]
    else if gs[0].key == key then
      var r := [Group(key, gs[0].count + 1)] + gs[1..];
      assert Keys(r) == [key] + Keys(gs[1..]);
      assert Keys(gs) == [gs[0].key] + Keys(gs[1..]);
      r
    else
      var rest := Bump(gs[1..], key);
      assert Keys([gs[0]] + rest) == [gs[0].key] + Keys(rest);
      assert Keys(gs) == [gs[0].key] + Keys(gs[1..]);
      [gs[0]] + rest
  }

  /** Bumping adds one to `key`'s count and to the total, and keeps keys distinct. */
  lemma {:induction false} BumpCounts(gs: seq<Group>, key: Option<string>)
    requires DistinctKeys(gs)
    ensures DistinctKeys(Bump(gs, key))
    ensures GroupSum(Bump(gs, key)) == GroupSum(gs) + 1
    ensures forall k :: Lookup(Bump(gs, key), k) == Lookup(gs, k) + (if k == key then 1 else 0)
  {
    if gs == [] {
    } else if gs[0].key == key {
      var r := Bump(gs, key);
      assert r[1..] == gs[1..];
      forall k ensures Lookup(r, k) == Lookup(gs, k) + (if k == key then 1 else 0) {
        if k != key {
          LookupAbsent(gs[1..], key);
        }
      }
      forall i, j | 0 <= i < j < |r| ensures r[i].key != r[j].key {
        if i == 0 { assert r[j] == gs[j]; } else { assert r[i] == gs[i] && r[j] == gs[j]; }
      }
    } else {
      var rest := Bump(gs[1..], key);
      assert DistinctKeys(gs[1..]) by {
        forall i, j | 0 <= i < j < |gs| - 1 ensures gs[1..][i].key != gs[1..][j].key {
          assert gs[1..][i] == gs[i + 1] && gs[1..][j] == gs[j + 1];
        }
      }
      BumpCounts(gs[1..], key);
      var r := [gs[0]] + rest;
      assert r[1..] == rest;
      assert gs[0].key !in Keys(gs[1..]) by {
        forall i | 0 <= i < |gs[1..]| ensures Keys(gs[1..])[i] != gs[0].key {
          assert gs[1..][i] == gs[i + 1];
        }
      }
      assert gs[0].key !in Keys(rest);
      forall i, j | 0 <= i < j < |r| ensures r[i].key != r[j].key {
        if i == 0 {
          assert r[j] == rest[j - 1] && Keys(rest)[j - 1] == rest[j - 1].key;
        } else {
          assert r[i] == rest[i - 1] && r[j] == rest[j - 1];
        }
      }
    }
  }

  /** A key with no entry looks up as 0. */
  lemma {:induction false} LookupAbsent(gs: seq<Group>, key: Option<string>)
    requires key !in Keys(gs)
    ensures Lookup(gs, key) == 0
  {
    if gs != [] {
      assert Keys(gs)[0] == gs[0].key;
      assert Keys(gs[1..]) == Keys(gs)[1..];
      LookupAbsent(gs[1..], key);
    }
  }

  /** The status grouping, folded over the orders from first to last. */
  function StatusGroups(orders: seq<ReportOrder>): (gs: seq<Group>)
  {
    if orders == [] then [] else Bump(StatusGroups(orders[..|orders| - 1]), orders[|orders| - 1].status)
  }

  /** Each key counts exactly its orders, keys are distinct, and the counts sum to
      the number of orders. */
  lemma {:induction false} StatusGroupsCount(orders: seq<ReportOrder>)
    ensures DistinctKeys(StatusGroups(orders))
    ensures GroupSum(StatusGroups(orders)) == |orders|
    ensures forall k :: Lookup(StatusGroups(orders), k) == CountWithStatus(orders, k)
    ensures forall i | 0 <= i < |orders| :: orders[i].status in Keys(StatusGroups(orders))
  {
    if orders != [] {
      var init := orders[..|orders| - 1];
      StatusGroupsCount(init);
      BumpCounts(StatusGroups(init), orders[|orders| - 1].status);
      forall i | 0 <= i < |orders| ensures orders[i].status in Keys(StatusGroups(orders)) {
        if i < |orders| - 1 { assert orders[i] == init[i]; }
      }
    }
  }

  /** The number of orders of one fulfilment type. */
  function CountKind(orders: seq<ReportOrder>, k: Fulfilment): (n: nat)
    ensures n <= |orders|
  {
    if orders == [] then 0
    else CountKind(orders[..|orders| - 1], k) + (if orders[|orders| - 1].kind == k then 1 else 0)
  }

  /** Every order is either a delivery or a collection. */
  lemma {:induction false} KindsPartition(orders: seq<ReportOrder>)
    ensures CountKind(orders, Delivery) + CountKind(orders, Collection) == |orders|
  {
    if orders != [] {
      KindsPartition(orders[..|orders| - 1]);
    }
  }

  /** The order report. `fromText` and `toText` are the picked range as printed
      under the title, in the order the caller passed it. `statusGroups` is
      computed but never printed: the report shows the totals, the revenue and the
      delivery and collection counts only. */
  datatype Report = Report(
    fromText: string,
    toText: string,
    totalOrders: nat,
    deliveryOrders: nat,
    collectionOrders: nat,
    statusGroups: seq<Group>,
    header: seq<Column>,
    rows: seq<seq<Cell>>)

  /** `printOrders`: nothing for an empty list; otherwise the report over the picked
      range with the given or the default options. */
  function PrintOrders(orders: seq<ReportOrder>, from: Date, to: Date, options: Option<PrintOptions>): (r: Option<Report>)
    requires Valid(from) && Valid(to)
    ensures r.None? <==> orders == []
    ensures r.Some? ==> r.value.fromText == FormatDate(from) && r.value.toText == FormatDate(to)
    ensures r.Some? ==> r.value.header == Columns(options.GetOr(DefaultOptions))
    ensures r.Some? ==>
      && r.value.totalOrders == |orders|
      && r.value.deliveryOrders + r.value.collectionOrders == |orders|
      && r.value.deliveryOrders == CountKind(orders, Delivery)
    ensures r.Some? ==>
      && GroupSum(r.value.statusGroups) == |orders|
      && DistinctKeys(r.value.statusGroups)
      && forall k :: Lookup(r.value.statusGroups, k) == CountWithStatus(orders, k)
    ensures r.Some? ==>
      && |r.value.rows| == |orders|
      && forall i | 0 <= i < |orders| ::
           && |r.value.rows[i]| == |r.value.header|
           && r.value.rows[i][0] == Index(i + 1)
           && r.value.rows[i] == ReportRow(r.value.header, i, orders[i])
           && forall k | 0 <= k < |r.value.header| :: Fits(r.value.header[k], r.value.rows[i][k])
  {
    if orders == [] then None
    else
      var opts := options.GetOr(DefaultOptions);
      var cols := Columns(opts);
      StatusGroupsCount(orders);
      KindsPartition(orders);
      Some(Report(
        FormatDate(from),
        FormatDate(to),
        |orders|,
        CountKind(orders, Delivery),
        CountKind(orders, Collection),
        StatusGroups(orders),
        cols,
        seq(|orders|, i requires 0 <= i < |orders| => ReportRow(cols, i, orders[i]))))
  }

  /** The range under the report's title reads back as the two picked dates. */
  lemma ReportRange(orders: seq<ReportOrder>, from: Date, to: Date, options: Option<PrintOptions>)
    requires orders != [] && Valid(from) && Valid(to)
    ensures var r := PrintOrders(orders, from, to, options).value;
      ParseDate(r.fromText) == Some(from) && ParseDate(r.toText) == Some(to)
  {
    FormatDateRoundTrip(from);
    FormatDateRoundTrip(to);
  }
}
