/** The order detail view: how it normalises the detail payload (line items,
    totals, fulfilment, payment and contact), which summary lines it shows, and
    which action buttons each stage offers and where they lead. */
module OrderDetail {
  import opened Wrappers
  import opened Text
  import opened Payload
  import LiveQueue
  import OrdersService

  /** Normalises the attributes of a product: each one's chosen options default to `[]`. */
  function NormalizeAttributes(attrs: seq<RawAttribute>): (r: seq<Attribute>)
    ensures |r| == |attrs|
    ensures forall i | 0 <= i < |r| ::
      r[i].attributeName == attrs[i].attributeName && r[i].selectedItems == attrs[i].selectedItems.GetOr([])
  {
    seq(|attrs|, i requires 0 <= i < |attrs| => Attribute(attrs[i].attributeName, attrs[i].selectedItems.GetOr([])))
  }

  /** One backend product as a display line item. */
  function ProductLine(p: RawProduct): (it: LineItem)
    ensures Truthy(p.id) ==> it.id == p.id
    ensures !Truthy(p.id) ==> it.id == p.altId
    ensures Truthy(p.productName) ==> it.name == p.productName
    ensures !Truthy(p.productName) ==> it.name == p.name
    ensures it.qty == Some(FirstSome([p.quantity, p.qty]).GetOr(1))
    ensures it.price == Some(FirstSome([p.itemTotal, p.priceTotal, p.price]).GetOr(0))
    ensures it.notes == p.notes
    ensures it.attributes.Some? <==> p.selectedAttributes.Some?
    ensures it.attributes.Some? ==> it.attributes.value == NormalizeAttributes(p.selectedAttributes.value)
  {
    assert [p.quantity, p.qty][1..] == [p.qty] && [p.qty][1..] == [];
    var prices := [p.itemTotal, p.priceTotal, p.price];
    assert prices[1..] == [p.priceTotal, p.price] && prices[1..][1..] == [p.price] && [p.price][1..] == [];
    FirstSomeCons(prices);
    FirstSomeCons(prices[1..]);
    LineItem(
      id := OrElse(p.id, p.altId),
      name := OrElse(p.productName, p.name),
      qty := Some(p.quantity.Or(p.qty).GetOr(1)),
      price := Some(p.itemTotal.Or(p.priceTotal).Or(p.price).GetOr(0)),
      notes := p.notes,
      attributes := match p.selectedAttributes
        case Some(attrs) => Some(NormalizeAttributes(attrs))
        case None => None)
  }

  /** Every product, in order, as a line item. */
  function ProductLines(ps: seq<RawProduct>): (r: seq<LineItem>)
    ensures |r| == |ps|
    ensures forall i | 0 <= i < |r| :: r[i] == ProductLine(ps[i])
  {
    seq(|ps|, i requires 0 <= i < |ps| => ProductLine(ps[i]))
  }

  /** The detail view's items: a non-empty `items` array wins, then `products`, else none. */
  function DetailItems(o: RawOrder): (r: seq<LineItem>)
    ensures o.items.Some? && |o.items.value| > 0 ==> r == o.items.value
    ensures !(o.items.Some? && |o.items.value| > 0) && o.products.Some? ==> r == ProductLines(o.products.value)
    ensures !(o.items.Some? && |o.items.value| > 0) && o.products.None? ==> r == []
  {
    if o.items.Some? && |o.items.value| > 0 then o.items.value
    else if o.products.Some? then ProductLines(o.products.value)
    else []
  }

  /** Whether the items block renders: it formats every line's price with
      `toFixed(2)`, which throws on a missing one. */
  predicate ItemsRender(o: RawOrder) {
    forall i | 0 <= i < |DetailItems(o)| :: DetailItems(o)[i].price.Some?
  }

  /** The charges the detail view derives, each with its own fallback chain ending in 0. */
  datatype Totals = Totals(
    discount: int,
    tips: int,
    deliveryFee: int,
    tax: int,
    serviceCharge: int,
    subtotal: int,
    total: int)

  function DetailTotals(o: RawOrder): (t: Totals)
    ensures t.discount == FirstSome([o.discountAppliedAmount, o.discountAmount]).GetOr(0)
    ensures t.tips == FirstSome([o.tips]).GetOr(0)
    ensures t.deliveryFee == FirstSome([o.deliveryFee]).GetOr(0)
    ensures t.tax == FirstSome([o.tax]).GetOr(0)
    ensures t.serviceCharge == FirstSome([o.serviceCharge, o.serviceChargesTotalAll]).GetOr(0)
    ensures t.subtotal == FirstSome([o.subtotal, o.totalAmount]).GetOr(0)
    ensures t.total == FirstSome([o.finalTotal, o.total]).GetOr(0)
  {
    assert [o.discountAppliedAmount, o.discountAmount][1..] == [o.discountAmount];
    assert [o.serviceCharge, o.serviceChargesTotalAll][1..] == [o.serviceChargesTotalAll];
    assert [o.subtotal, o.totalAmount][1..] == [o.totalAmount];
    assert [o.finalTotal, o.total][1..] == [o.total];
    Totals(
      discount := o.discountAppliedAmount.Or(o.discountAmount).GetOr(0),
      tips := o.tips.GetOr(0),
      deliveryFee := o.deliveryFee.GetOr(0),
      tax := o.tax.GetOr(0),
      serviceCharge := o.serviceCharge.Or(o.serviceChargesTotalAll).GetOr(0),
      subtotal := o.subtotal.Or(o.totalAmount).GetOr(0),
      total := o.finalTotal.Or(o.total).GetOr(0))
  }

  /** `(order.orderType || order.deliveryMethod) === 'delivery'`. */
  function DetailKind(o: RawOrder): (k: Fulfilment)
    ensures k == Delivery <==> OrElse(o.orderType, o.deliveryMethod) == Some("delivery")
  {
    if OrElse(o.orderType, o.deliveryMethod) == Some("delivery") then Delivery else Collection
  }

  /** The detail never calls a delivery what the list calls a collection, but the list
      also counts a collection `orderType` with a delivery `deliveryMethod` as delivery. */
  lemma DetailKindImpliesListKind(o: RawOrder)
    ensures DetailKind(o) == Delivery ==> LiveQueue.ListKind(o.orderType, o.deliveryMethod) == Delivery
    ensures var m := EmptyOrder.(orderType := Some("collection"), deliveryMethod := Some("delivery"));
      DetailKind(m) == Collection && LiveQueue.ListKind(m.orderType, m.deliveryMethod) == Delivery
  {
  }

  /** The list row and the detail view total the same record differently: the list
      reads `finalTotal ?? totalAmount ?? total` (normalisation folds `totalAmount`
      into `total`), the detail `finalTotal ?? total`. They agree exactly when a
      final total is present, `totalAmount` is absent, or it equals `total ?? 0`. */
  lemma ListAndDetailTotals(raw: RawOrder, tab: LiveQueue.Tab)
    ensures LiveQueue.MapRow(OrdersService.Normalize(raw), tab).total == DetailTotals(raw).total
      <==> raw.finalTotal.Some? || raw.totalAmount.None? || raw.totalAmount.value == raw.total.GetOr(0)
    ensures var m := EmptyOrder.(totalAmount := Some(1200), total := Some(1000));
      LiveQueue.MapRow(OrdersService.Normalize(m), tab).total == 1200 && DetailTotals(m).total == 1000
  {
    LiveQueue.RowFromRaw(raw, tab);
    var xs := [raw.finalTotal, raw.totalAmount, raw.total];
    assert xs[1..] == [raw.totalAmount, raw.total] && xs[1..][1..] == [raw.total] && [raw.total][1..] == [];
    var m := EmptyOrder.(totalAmount := Some(1200), total := Some(1000));
    LiveQueue.RowFromRaw(m, tab);
    assert [m.finalTotal, m.totalAmount, m.total][1..] == [m.totalAmount, m.total];
  }

  /** The labels of the summary lines under the items. */
  datatype Label = DiscountLine | TipLine | DeliveryFeeLine | TaxLine | ServiceChargeLine | SubtotalLine | TotalLine

  datatype SummaryLine = SummaryLine(caption: Label, amount: int)

  /** The service-charge line's value: a numeric `serviceCharge`, else the fallback
      total when non-zero, else no line. */
  function ServiceChargeShown(o: RawOrder): (r: Option<int>)
    ensures o.serviceCharge.Some? ==> r == o.serviceCharge
    ensures o.serviceCharge.None? ==>
      (r.Some? <==> DetailTotals(o).serviceCharge != 0) && (r.Some? ==> r.value == DetailTotals(o).serviceCharge)
  {
    match o.serviceCharge
    case Some(v) => Some(v)
    case None =>
      var fallback := DetailTotals(o).serviceCharge;
      if fallback != 0 then Some(fallback) else None
  }

  /** The subtotal line's value: a numeric `subtotal`, else the fallback subtotal. */
  function SubtotalShown(o: RawOrder): (r: int)
    ensures r == DetailTotals(o).subtotal
  {
    match o.subtotal
    case Some(v) => v
    case None => DetailTotals(o).subtotal
  }

  /** The labels that appear among `lines`. */
  function Shown(lines: seq<SummaryLine>): set<Label> {
    set i | 0 <= i < |lines| :: lines[i].caption
  }

  /** A single line shows its own label and nothing else. */
  lemma ShownSingle(line: SummaryLine, lab: Label)
    ensures lab in Shown([line]) <==> lab == line.caption
  {
    assert [line][0] == line;
  }

  /** A line that is shown only when `shown` holds, ahead of `rest`. */
  function Optional(shown: bool, caption: Label, amount: int, rest: seq<SummaryLine>): (r: seq<SummaryLine>)
    ensures shown ==> r == [SummaryLine(caption, amount)] + rest
    ensures !shown ==> r == rest
  {
    if shown then [SummaryLine(caption, amount)] + rest else rest
  }

  /** `Optional` adds `caption` to the labels shown exactly when `shown` holds. */
  lemma OptionalShows(shown: bool, caption: Label, amount: int, rest: seq<SummaryLine>, lab: Label)
    ensures lab in Shown(Optional(shown, caption, amount, rest)) <==> (shown && lab == caption) || lab in Shown(rest)
  {
    if shown {
      var r := [SummaryLine(caption, amount)] + rest;
      assert r[0].caption == caption;
      if lab in Shown(rest) {
        var i :| 0 <= i < |rest| && rest[i].caption == lab;
        assert r[i + 1] == rest[i];
      }
      if lab in Shown(r) && lab != caption {
        var i :| 0 <= i < |r| && r[i].caption == lab;
        assert rest[i - 1] == r[i];
      }
    }
  }

  /** Every line captioned `lab` shows `amount`. */
  predicate Carries(lines: seq<SummaryLine>, lab: Label, amount: int) {
    forall i | 0 <= i < |lines| && lines[i].caption == lab :: lines[i].amount == amount
  }

  /** The two places summary lines are printed, each with its own order. */
  datatype Layout = DetailLayout | ReceiptLayout

  /** The display order of each layout. The detail view prints Discount, Tip,
      Delivery Fee, Tax, Service Charge, Subtotal, Total; the receipt prints
      Subtotal, Discount, Service Charge, Tips, Delivery Fee, Total (and no tax). */
  function Rank(layout: Layout, lab: Label): nat {
    match layout
    case DetailLayout =>
      (match lab
       case DiscountLine => 0
       case TipLine => 1
       case DeliveryFeeLine => 2
       case TaxLine => 3
       case ServiceChargeLine => 4
       case SubtotalLine => 5
       case TotalLine => 6)
    case ReceiptLayout =>
      (match lab
       case SubtotalLine => 0
       case DiscountLine => 1
       case ServiceChargeLine => 2
       case TipLine => 3
       case DeliveryFeeLine => 4
       case TotalLine => 5
       case TaxLine => 6)
  }

  /** Each caption ranks strictly below the next in the layout's order. */
  predicate Ordered(lines: seq<SummaryLine>, layout: Layout)
    decreases |lines|
  {
    |lines| <= 1
    || (Rank(layout, lines[0].caption) < Rank(layout, lines[1].caption) && Ordered(lines[1..], layout))
  }

  /** Ordered lines run strictly up the order all the way, so no label appears twice. */
  lemma {:induction false} OrderedPairwise(lines: seq<SummaryLine>, layout: Layout)
    requires Ordered(lines, layout)
    ensures forall i, j | 0 <= i < j < |lines| :: Rank(layout, lines[i].caption) < Rank(layout, lines[j].caption)
  {
    if |lines| > 1 {
      OrderedPairwise(lines[1..], layout);
      forall i, j | 0 <= i < j < |lines| ensures Rank(layout, lines[i].caption) < Rank(layout, lines[j].caption) {
        assert lines[j] == lines[1..][j - 1];
        if i > 0 { assert lines[i] == lines[1..][i - 1]; }
        else if j > 1 { assert lines[1] == lines[1..][0]; }
      }
    }
  }

  /** A single line carries its own amount under its label. */
  lemma CarriesSingle(line: SummaryLine, lab: Label, amount: int)
    ensures Carries([line], lab, amount) <==> (lab == line.caption ==> line.amount == amount)
  {
    assert [line][0] == line;
  }

  /** `Optional` keeps what `rest` carries and adds its own line's amount. */
  lemma OptionalCarries(shown: bool, caption: Label, amount: int, rest: seq<SummaryLine>, lab: Label, a: int)
    ensures Carries(Optional(shown, caption, amount, rest), lab, a) <==>
      (shown && lab == caption ==> amount == a) && Carries(rest, lab, a)
  {
    if shown {
      var r := [SummaryLine(caption, amount)] + rest;
      if Carries(r, lab, a) {
        forall i | 0 <= i < |rest| && rest[i].caption == lab ensures rest[i].amount == a {
          assert r[i + 1] == rest[i];
        }
        assert r[0] == SummaryLine(caption, amount);
      }
      if (lab == caption ==> amount == a) && Carries(rest, lab, a) {
        forall i | 0 <= i < |r| && r[i].caption == lab ensures r[i].amount == a {
          if i > 0 { assert r[i] == rest[i - 1]; }
        }
      }
    }
  }

  /** A line ranked just below everything in an ordered `rest` keeps the order. */
  lemma OptionalOrdered(shown: bool, caption: Label, amount: int, rest: seq<SummaryLine>, layout: Layout)
    requires Ordered(rest, layout)
    requires rest == [] || Rank(layout, caption) < Rank(layout, rest[0].caption)
    ensures var r := Optional(shown, caption, amount, rest);
      Ordered(r, layout) && (r == [] || Rank(layout, caption) <= Rank(layout, r[0].caption))
  {
    if shown {
      var r := [SummaryLine(caption, amount)] + rest;
      assert r[1..] == rest;
    }
  }

  /** The amount the detail view prints beside each label. */
  function DetailAmount(t: Totals, serviceCharge: Option<int>, subtotal: int, lab: Label): int {
    match lab
    case DiscountLine => t.discount
    case TipLine => t.tips
    case DeliveryFeeLine => t.deliveryFee
    case TaxLine => t.tax
    case ServiceChargeLine => serviceCharge.GetOr(0)
    case SubtotalLine => subtotal
    case TotalLine => t.total
  }

  /** The summary lines in display order, from the derived charges: the optional
      lines, then Subtotal, then the total. */
  function SummaryOf(t: Totals, kind: Fulfilment, serviceCharge: Option<int>, subtotal: int): (lines: seq<SummaryLine>)
    ensures |lines| >= 2
    ensures lines[|lines| - 2] == SummaryLine(SubtotalLine, subtotal)
    ensures lines[|lines| - 1] == SummaryLine(TotalLine, t.total)
  {
    var f := [SummaryLine(SubtotalLine, subtotal)] + [SummaryLine(TotalLine, t.total)];
    var e := Optional(serviceCharge.Some?, ServiceChargeLine, serviceCharge.GetOr(0), f);
    var d := Optional(t.tax != 0, TaxLine, t.tax, e);
    var c := Optional(t.deliveryFee != 0 && kind == Delivery, DeliveryFeeLine, t.deliveryFee, d);
    var b := Optional(t.tips != 0, TipLine, t.tips, c);
    Optional(t.discount != 0, DiscountLine, t.discount, b)
  }

  /** Each optional line appears exactly when its charge is due; Subtotal and the
      total always appear. */
  lemma SummaryShows(t: Totals, kind: Fulfilment, serviceCharge: Option<int>, subtotal: int, lab: Label)
    ensures lab in Shown(SummaryOf(t, kind, serviceCharge, subtotal)) <==>
      || (lab == DiscountLine && t.discount != 0)
      || (lab == TipLine && t.tips != 0)
      || (lab == DeliveryFeeLine && t.deliveryFee != 0 && kind == Delivery)
      || (lab == TaxLine && t.tax != 0)
      || (lab == ServiceChargeLine && serviceCharge.Some?)
      || lab == SubtotalLine || lab == TotalLine
  {
    var f := [SummaryLine(SubtotalLine, subtotal)] + [SummaryLine(TotalLine, t.total)];
    ShownSingle(SummaryLine(TotalLine, t.total), lab);
    OptionalShows(true, SubtotalLine, subtotal, [SummaryLine(TotalLine, t.total)], lab);
    var e := Optional(serviceCharge.Some?, ServiceChargeLine, serviceCharge.GetOr(0), f);
    OptionalShows(serviceCharge.Some?, ServiceChargeLine, serviceCharge.GetOr(0), f, lab);
    var d := Optional(t.tax != 0, TaxLine, t.tax, e);
    OptionalShows(t.tax != 0, TaxLine, t.tax, e, lab);
    var c := Optional(t.deliveryFee != 0 && kind == Delivery, DeliveryFeeLine, t.deliveryFee, d);
    OptionalShows(t.deliveryFee != 0 && kind == Delivery, DeliveryFeeLine, t.deliveryFee, d, lab);
    var b := Optional(t.tips != 0, TipLine, t.tips, c);
    OptionalShows(t.tips != 0, TipLine, t.tips, c, lab);
    OptionalShows(t.discount != 0, DiscountLine, t.discount, b, lab);
  }

  /** Each summary line shows its own charge. */
  lemma SummaryAmounts(t: Totals, kind: Fulfilment, serviceCharge: Option<int>, subtotal: int, lab: Label)
    ensures Carries(SummaryOf(t, kind, serviceCharge, subtotal), lab, DetailAmount(t, serviceCharge, subtotal, lab))
  {
    var a := DetailAmount(t, serviceCharge, subtotal, lab);
    var last := [SummaryLine(TotalLine, t.total)];
    var f := [SummaryLine(SubtotalLine, subtotal)] + last;
    CarriesSingle(last[0], lab, a);
    OptionalCarries(true, SubtotalLine, subtotal, last, lab, a);
    var e := Optional(serviceCharge.Some?, ServiceChargeLine, serviceCharge.GetOr(0), f);
    OptionalCarries(serviceCharge.Some?, ServiceChargeLine, serviceCharge.GetOr(0), f, lab, a);
    var d := Optional(t.tax != 0, TaxLine, t.tax, e);
    OptionalCarries(t.tax != 0, TaxLine, t.tax, e, lab, a);
    var c := Optional(t.deliveryFee != 0 && kind == Delivery, DeliveryFeeLine, t.deliveryFee, d);
    OptionalCarries(t.deliveryFee != 0 && kind == Delivery, DeliveryFeeLine, t.deliveryFee, d, lab, a);
    var b := Optional(t.tips != 0, TipLine, t.tips, c);
    OptionalCarries(t.tips != 0, TipLine, t.tips, c, lab, a);
    OptionalCarries(t.discount != 0, DiscountLine, t.discount, b, lab, a);
  }

  /** The summary lines appear in the detail view's fixed order, none twice. */
  lemma SummaryOrdered(t: Totals, kind: Fulfilment, serviceCharge: Option<int>, subtotal: int)
    ensures Ordered(SummaryOf(t, kind, serviceCharge, subtotal), DetailLayout)
  {
    var last := [SummaryLine(TotalLine, t.total)];
    var f := [SummaryLine(SubtotalLine, subtotal)] + last;
    OptionalOrdered(true, SubtotalLine, subtotal, last, DetailLayout);
    var e := Optional(serviceCharge.Some?, ServiceChargeLine, serviceCharge.GetOr(0), f);
    OptionalOrdered(serviceCharge.Some?, ServiceChargeLine, serviceCharge.GetOr(0), f, DetailLayout);
    var d := Optional(t.tax != 0, TaxLine, t.tax, e);
    OptionalOrdered(t.tax != 0, TaxLine, t.tax, e, DetailLayout);
    var c := Optional(t.deliveryFee != 0 && kind == Delivery, DeliveryFeeLine, t.deliveryFee, d);
    OptionalOrdered(t.deliveryFee != 0 && kind == Delivery, DeliveryFeeLine, t.deliveryFee, d, DetailLayout);
    var b := Optional(t.tips != 0, TipLine, t.tips, c);
    OptionalOrdered(t.tips != 0, TipLine, t.tips, c, DetailLayout);
    OptionalOrdered(t.discount != 0, DiscountLine, t.discount, b, DetailLayout);
  }

  /** The detail view's summary lines. */
  function DetailSummary(o: RawOrder): (lines: seq<SummaryLine>)
    ensures var ls := Shown(lines);
      && (DiscountLine in ls <==> o.discountAppliedAmount.Or(o.discountAmount).GetOr(0) != 0)
      && (TipLine in ls <==> o.tips.GetOr(0) != 0)
      && (DeliveryFeeLine in ls <==> o.deliveryFee.GetOr(0) != 0 && OrElse(o.orderType, o.deliveryMethod) == Some("delivery"))
      && (TaxLine in ls <==> o.tax.GetOr(0) != 0)
      && (ServiceChargeLine in ls <==> o.serviceCharge.Some? || o.serviceChargesTotalAll.GetOr(0) != 0)
    ensures |lines| >= 2
    ensures lines[|lines| - 2] == SummaryLine(SubtotalLine, o.subtotal.Or(o.totalAmount).GetOr(0))
    ensures lines[|lines| - 1] == SummaryLine(TotalLine, o.finalTotal.Or(o.total).GetOr(0))
  {
    var t := DetailTotals(o);
    var kind, sc, sub := DetailKind(o), ServiceChargeShown(o), SubtotalShown(o);
    SummaryShows(t, kind, sc, sub, DiscountLine);
    SummaryShows(t, kind, sc, sub, TipLine);
    SummaryShows(t, kind, sc, sub, DeliveryFeeLine);
    SummaryShows(t, kind, sc, sub, TaxLine);
    SummaryShows(t, kind, sc, sub, ServiceChargeLine);
    SummaryOf(t, DetailKind(o), ServiceChargeShown(o), SubtotalShown(o))
  }

  /** Each of the detail view's optional summary lines shows its own charge, read
      from the payload with the same fallbacks. */
  lemma DetailSummaryAmounts(o: RawOrder)
    ensures var lines := DetailSummary(o);
      && Carries(lines, DiscountLine, o.discountAppliedAmount.Or(o.discountAmount).GetOr(0))
      && Carries(lines, TipLine, o.tips.GetOr(0))
      && Carries(lines, DeliveryFeeLine, o.deliveryFee.GetOr(0))
      && Carries(lines, TaxLine, o.tax.GetOr(0))
      && Carries(lines, ServiceChargeLine, o.serviceCharge.Or(o.serviceChargesTotalAll).GetOr(0))
  {
    var t := DetailTotals(o);
    var kind, sc, sub := DetailKind(o), ServiceChargeShown(o), SubtotalShown(o);
    SummaryAmounts(t, kind, sc, sub, DiscountLine);
    SummaryAmounts(t, kind, sc, sub, TipLine);
    SummaryAmounts(t, kind, sc, sub, DeliveryFeeLine);
    SummaryAmounts(t, kind, sc, sub, TaxLine);
    SummaryAmounts(t, kind, sc, sub, ServiceChargeLine);
  }

  /** The detail view's summary lines keep its display order. */
  lemma DetailSummaryOrdered(o: RawOrder)
    ensures Ordered(DetailSummary(o), DetailLayout)
  {
    SummaryOrdered(DetailTotals(o), DetailKind(o), ServiceChargeShown(o), SubtotalShown(o));
  }

  /** The header's order number: `orderNumber || id`. */
  function HeaderNumber(o: RawOrder): (r: Option<string>)
    ensures Truthy(o.orderNumber) ==> r == o.orderNumber
    ensures !Truthy(o.orderNumber) ==> r == o.id
  {
    OrElse(o.orderNumber, o.id)
  }

  /** The payment block: method and status prefer the nested `payment` object. */
  datatype PaymentView = PaymentView(kind: Fulfilment, payMethod: string, payStatus: string)

  function DetailPayment(o: RawOrder): (p: PaymentView)
    ensures p.kind == DetailKind(o)
    ensures var nested := if o.payment.Some? then o.payment.value.payMethod else None;
      p.payMethod == TruthyOr([nested, o.paymentMethod], "-")
    ensures var nested := if o.payment.Some? then o.payment.value.payStatus else None;
      p.payStatus == TruthyOr([nested, o.paymentStatus], "-")
  {
    var m := if o.payment.Some? then o.payment.value.payMethod else None;
    var s := if o.payment.Some? then o.payment.value.payStatus else None;
    assert [m, o.paymentMethod][1..] == [o.paymentMethod] && [o.paymentMethod][1..] == [];
    assert [s, o.paymentStatus][1..] == [o.paymentStatus] && [o.paymentStatus][1..] == [];
    PaymentView(DetailKind(o), TruthyOr([m, o.paymentMethod], "-"), TruthyOr([s, o.paymentStatus], "-"))
  }

  /** The contact name both the detail and the receipt derive: the joined name when
      `user.firstName` is non-empty, else `customer.name`. */
  function ContactName(o: RawOrder): (r: Option<string>)
    ensures o.user.Some? && Truthy(o.user.value.firstName) ==>
      r == Some(JoinName(o.user.value.firstName, o.user.value.lastName))
    ensures !(o.user.Some? && Truthy(o.user.value.firstName)) ==>
      r == (if o.customer.Some? then o.customer.value.name else None)
  {
    if o.user.Some? && Truthy(o.user.value.firstName) then Some(JoinName(o.user.value.firstName, o.user.value.lastName))
    else if o.customer.Some? then o.customer.value.name
    else None
  }

  /** The customer block: shown when the payload has a `user` or a `customer`. */
  datatype ContactView = ContactView(name: string, email: Option<string>, phone: Option<string>)

  function DetailContact(o: RawOrder): (r: Option<ContactView>)
    ensures r.Some? <==> o.user.Some? || o.customer.Some?
    ensures r.Some? ==> r.value.name == TruthyOr([ContactName(o)], "Customer") && r.value.name != ""
    ensures var ue, ce := if o.user.Some? then o.user.value.email else None, if o.customer.Some? then o.customer.value.email else None;
      r.Some? ==> r.value.email == (if Truthy(ue) then ue else if Truthy(ce) then ce else None)
    ensures var up, cp := if o.user.Some? then o.user.value.phone else None, if o.customer.Some? then o.customer.value.phone else None;
      r.Some? ==> r.value.phone == (if Truthy(up) then up else if Truthy(cp) then cp else None)
  {
    if o.user.None? && o.customer.None? then None
    else
      var ue := if o.user.Some? then o.user.value.email else None;
      var up := if o.user.Some? then o.user.value.phone else None;
      var ce := if o.customer.Some? then o.customer.value.email else None;
      var cp := if o.customer.Some? then o.customer.value.phone else None;
      FirstTruthyPair(ue, ce);
      FirstTruthyPair(up, cp);
      Some(ContactView(TruthyOr([ContactName(o)], "Customer"), FirstTruthy([ue, ce]), FirstTruthy([up, cp])))
  }

  /** The buttons of the action bar. */
  datatype Button = DelayButton | RejectButton | AcceptButton | ReadyButton | CancelButton | PrintButton

  /** The buttons each stage shows, left to right. */
  function ActionBar(stage: LiveQueue.Tab): (bs: seq<Button>)
    ensures |bs| >= 1 && bs[0] == DelayButton
    ensures AcceptButton in bs <==> stage == LiveQueue.New
    ensures RejectButton in bs <==> stage == LiveQueue.New
    ensures ReadyButton in bs <==> stage == LiveQueue.InProgress
    ensures CancelButton in bs <==> stage == LiveQueue.InProgress
    ensures PrintButton in bs <==> stage != LiveQueue.New
    ensures !(AcceptButton in bs && ReadyButton in bs)
  {
    match stage
    case New => [DelayButton, RejectButton, AcceptButton]
    case InProgress => [DelayButton, ReadyButton, CancelButton, PrintButton]
    case Complete => [DelayButton, PrintButton]
  }

  /** The callbacks the parent screen may supply. */
  datatype Callback = OnDelay | OnCancel | OnAccept | OnReady

  /** What pressing a button does: call a parent callback, show a local alert, or print. */
  datatype Handler = Invoke(cb: Callback) | LocalAlert(title: string) | SendToPrinter

  /** Routes a button press given the callbacks supplied. */
  function Route(b: Button, supplied: set<Callback>): (h: Handler)
    ensures b == PrintButton <==> h == SendToPrinter
    ensures (b == RejectButton || b == CancelButton) && OnCancel in supplied ==> h == Invoke(OnCancel)
    ensures b == AcceptButton && OnAccept in supplied ==> h == Invoke(OnAccept)
    ensures b == ReadyButton && OnReady in supplied ==> h == Invoke(OnReady)
    ensures b == DelayButton && OnDelay in supplied ==> h == Invoke(OnDelay)
    ensures h.Invoke? ==> h.cb in supplied
    ensures b == RejectButton && OnCancel !in supplied ==> h == LocalAlert("Reject")
    ensures b == CancelButton && OnCancel !in supplied ==> h == LocalAlert("Cancel")
    ensures b == AcceptButton && OnAccept !in supplied ==> h == LocalAlert("Accept")
    ensures b == ReadyButton && OnReady !in supplied ==> h == LocalAlert("Ready")
    ensures b == DelayButton && OnDelay !in supplied ==> h == LocalAlert("Delay")
  {
    match b
    case PrintButton => SendToPrinter
    case DelayButton => if OnDelay in supplied then Invoke(OnDelay) else LocalAlert("Delay")
    case RejectButton => if OnCancel in supplied then Invoke(OnCancel) else LocalAlert("Reject")
    case AcceptButton => if OnAccept in supplied then Invoke(OnAccept) else LocalAlert("Accept")
    case ReadyButton => if OnReady in supplied then Invoke(OnReady) else LocalAlert("Ready")
    case CancelButton => if OnCancel in supplied then Invoke(OnCancel) else LocalAlert("Cancel")
  }

  /** Reject and Cancel are the same action once the parent supplies `onCancelPress`. */
  lemma RejectIsCancel(supplied: set<Callback>)
    requires OnCancel in supplied
    ensures Route(RejectButton, supplied) == Route(CancelButton, supplied) == Invoke(OnCancel)
  {
  }
}
