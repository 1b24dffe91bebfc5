/** The loosely-typed order payloads the server returns, as records whose every
    field may be absent. Nested optional paths such as `order.discountApplied?.discountAmount`
    are flattened into one optional field: `?.` yields `undefined` whether the
    outer object or the inner field is missing. Money is in integer minor units. */
module Payload {
  import opened Wrappers

  datatype RawUser = RawUser(
    firstName: Option<string>,
    lastName: Option<string>,
    email: Option<string>,
    phone: Option<string>)

  /** `order.customer`, the contact block some payloads carry instead of `user`. */
  datatype RawCustomer = RawCustomer(name: Option<string>, email: Option<string>, phone: Option<string>)

  /** `order.payment`: its `method` and `status`. */
  datatype RawPayment = RawPayment(payMethod: Option<string>, payStatus: Option<string>)

  /** One chosen option of an attribute (`selectedItems[i]`). */
  datatype SelectedItem = SelectedItem(itemName: Option<string>, itemPrice: Option<int>, quantity: Option<int>)

  /** `product.selectedAttributes[i]` as the server sends it. */
  datatype RawAttribute = RawAttribute(attributeName: Option<string>, selectedItems: Option<seq<SelectedItem>>)

  /** An attribute once normalised: its chosen options always form a list. */
  datatype Attribute = Attribute(attributeName: Option<string>, selectedItems: seq<SelectedItem>)

  /** `order.products[i]`: `productName` is `product.product?.name`, `priceTotal` is
      `product.price?.total` and `price` a plain numeric `product.price`. */
  datatype RawProduct = RawProduct(
    id: Option<string>,
    altId: Option<string>,
    productName: Option<string>,
    name: Option<string>,
    quantity: Option<int>,
    qty: Option<int>,
    itemTotal: Option<int>,
    priceTotal: Option<int>,
    price: Option<int>,
    notes: Option<string>,
    selectedAttributes: Option<seq<RawAttribute>>)

  /** A display line item, the shape of `order.items[i]`. */
  datatype LineItem = LineItem(
    id: Option<string>,
    name: Option<string>,
    qty: Option<int>,
    price: Option<int>,
    notes: Option<string>,
    attributes: Option<seq<Attribute>>)

  /** An order as any of the order endpoints returns it. `altId` is `_id`;
      `branchName` is `branchId?.name`; `items` and `products` are `None` when
      absent or not an array. */
  datatype RawOrder = RawOrder(
    id: Option<string>,
    altId: Option<string>,
    orderNumber: Option<string>,
    status: Option<string>,
    orderType: Option<string>,
    deliveryMethod: Option<string>,
    total: Option<int>,
    totalAmount: Option<int>,
    finalTotal: Option<int>,
    subtotal: Option<int>,
    tips: Option<int>,
    deliveryFee: Option<int>,
    tax: Option<int>,
    serviceCharge: Option<int>,
    serviceChargesTotalAll: Option<int>,
    discountAppliedAmount: Option<int>,
    discountAmount: Option<int>,
    estimatedTimeToComplete: Option<int>,
    paymentMethod: Option<string>,
    paymentStatus: Option<string>,
    payment: Option<RawPayment>,
    user: Option<RawUser>,
    customer: Option<RawCustomer>,
    branchName: Option<string>,
    createdAt: Option<string>,
    customerNotes: Option<string>,
    items: Option<seq<LineItem>>,
    products: Option<seq<RawProduct>>)

  /** The payload with every field absent; examples update the fields they need. */
  const EmptyOrder := RawOrder(
    None, None, None, None, None, None, None, None, None, None, None, None, None, None,
    None, None, None, None, None, None, None, None, None, None, None, None, None, None)

  const EmptyProduct := RawProduct(None, None, None, None, None, None, None, None, None, None, None)

  /** Fulfilment as the screens classify an order. */
  datatype Fulfilment = Delivery | Collection

  /** Equality test against a string literal, as `x === 'lit'` on an optional field. */
  predicate IsText(s: Option<string>, lit: string) {
    s == Some(lit)
  }
}
