/** The order list endpoint's client-side normalisation (`fetchLiveOrders`): each
    record gets one id, one numeric total, one order type and a trimmed-down user. */
module OrdersService {
  import opened Wrappers
  import opened Errors
  import opened Payload

  /** The user projection `{firstName, lastName, email}`. */
  datatype UserSummary = UserSummary(firstName: Option<string>, lastName: Option<string>, email: Option<string>)

  /** A normalised list record (`LiveOrder`). */
  datatype LiveOrder = LiveOrder(
    id: Option<string>,
    orderNumber: Option<string>,
    status: Option<string>,
    total: int,
    finalTotal: Option<int>,
    orderType: Option<string>,
    deliveryMethod: Option<string>,
    paymentMethod: Option<string>,
    paymentStatus: Option<string>,
    createdAt: Option<string>,
    estimatedTimeToComplete: Option<int>,
    user: Option<UserSummary>)

  /** Normalises one server record. */
  function Normalize(o: RawOrder): (r: LiveOrder)
    // id = id || _id
    ensures Truthy(o.id) ==> r.id == o.id
    ensures !Truthy(o.id) ==> r.id == o.altId
    // total = totalAmount ?? total ?? 0
    ensures r.total == FirstSome([o.totalAmount, o.total]).GetOr(0)
    // orderType = orderType || deliveryMethod
    ensures Truthy(r.orderType) <==> Truthy(o.orderType) || Truthy(o.deliveryMethod)
    ensures Truthy(r.orderType) ==> r.orderType == FirstTruthy([o.orderType, o.deliveryMethod])
    ensures r.user.Some? <==> o.user.Some?
    ensures r.user.Some? ==>
      r.user.value == UserSummary(o.user.value.firstName, o.user.value.lastName, o.user.value.email)
    ensures r.status == o.status && r.finalTotal == o.finalTotal && r.orderNumber == o.orderNumber
    ensures r.deliveryMethod == o.deliveryMethod && r.estimatedTimeToComplete == o.estimatedTimeToComplete
    ensures r.paymentMethod == o.paymentMethod && r.paymentStatus == o.paymentStatus && r.createdAt == o.createdAt
  {
    assert [o.totalAmount, o.total][1..] == [o.total] && [o.total][1..] == [];
    assert [o.orderType, o.deliveryMethod][1..] == [o.deliveryMethod] && [o.deliveryMethod][1..] == [];
    LiveOrder(
      id := OrElse(o.id, o.altId),
      orderNumber := o.orderNumber,
      status := o.status,
      total := o.totalAmount.Or(o.total).GetOr(0),
      finalTotal := o.finalTotal,
      orderType := OrElse(o.orderType, o.deliveryMethod),
      deliveryMethod := o.deliveryMethod,
      paymentMethod := o.paymentMethod,
      paymentStatus := o.paymentStatus,
      createdAt := o.createdAt,
      estimatedTimeToComplete := o.estimatedTimeToComplete,
      user := match o.user
        case Some(u) => Some(UserSummary(u.firstName, u.lastName, u.email))
        case None => None)
  }

  /** `fetchLiveOrders`: `res.data?.data ?? []` normalised record by record, in order;
      a failed request rejects with its error unchanged. */
  function FetchLiveOrders(response: Reply<Option<seq<RawOrder>>>): (r: Reply<seq<LiveOrder>>)
    ensures response.Err? ==> r == Err(response.failure)
    ensures response.Ok? && response.value.None? ==> r == Ok([])
    ensures response.Ok? && response.value.Some? ==>
      r.Ok? && |r.value| == |response.value.value|
      && forall i | 0 <= i < |r.value| :: r.value[i] == Normalize(response.value.value[i])
  {
    match response
    case Err(f) => Err(f)
    case Ok(data) =>
      var xs := data.GetOr([]);
      Ok(seq(|xs|, i requires 0 <= i < |xs| => Normalize(xs[i])))
  }
}
