/** The order history screen: the date-range query (always sent earlier date
    first), the mapping of fetched orders into history rows, the summary counts,
    the report's column switches and the print dialog. */
module OrderHistory {
  import opened Wrappers
  import opened Text
  import opened Payload
  import opened Errors
  import opened Dates
  import opened AuthService
  import LiveQueue
  import OrdersService
  import PrintService

  /** A picked moment: its calendar date and the milliseconds into that day. */
  datatype Instant = Instant(day: Date, msOfDay: nat)

  /** `fromDate <= toDate` on the two picked moments. */
  predicate InstantLe(a: Instant, b: Instant) {
    (a.day != b.day && DayLe(a.day, b.day)) || (a.day == b.day && a.msOfDay <= b.msOfDay)
  }

  /** Calendar order is total: of two dates, one is on or before the other. */
  lemma DayLeTotal(a: Date, b: Date)
    ensures DayLe(a, b) || DayLe(b, a)
  {
  }

  /** The `startDate`/`endDate` query parameters. */
  datatype Range = Range(start: string, end: string)

  /** The query range: the earlier picked date first, whichever picker holds it. */
  function QueryRange(from: Instant, to: Instant): (r: Range)
    requires Valid(from.day) && Valid(to.day)
    ensures ParseDate(r.start).Some? && ParseDate(r.end).Some?
    ensures DayLe(ParseDate(r.start).value, ParseDate(r.end).value)
    ensures {ParseDate(r.start).value, ParseDate(r.end).value} == {from.day, to.day}
  {
    FormatDateRoundTrip(from.day);
    FormatDateRoundTrip(to.day);
    DayLeTotal(from.day, to.day);
    if InstantLe(from, to) then Range(FormatDate(from.day), FormatDate(to.day))
    else Range(FormatDate(to.day), FormatDate(from.day))
  }

  /** Swapping the pickers sends the same range when the dates differ. */
  lemma QueryRangeSymmetric(from: Instant, to: Instant)
    requires Valid(from.day) && Valid(to.day) && from.day != to.day
    ensures QueryRange(from, to) == QueryRange(to, from)
  {
  }

  /** A fetched order as a history row. */
  function HistoryRow(o: RawOrder): (r: PrintService.ReportOrder)
    ensures r.id == o.id && r.orderNumber == o.orderNumber && r.status == o.status && r.createdAt == o.createdAt
    ensures r.kind == Delivery <==> IsText(o.orderType, "delivery") || IsText(o.deliveryMethod, "delivery")
    ensures r.total == FirstSome([o.finalTotal, o.total]).GetOr(0)
    ensures var u := o.user;
      var first, last := if u.Some? then u.value.firstName else None, if u.Some? then u.value.lastName else None;
      var email := if u.Some? then u.value.email else None;
      && (HasName(first, last) ==> r.customer == JoinName(first, last))
      && (!HasName(first, last) ==> r.customer == TruthyOr([email], "Customer") && r.customer != "")
  {
    assert [o.finalTotal, o.total][1..] == [o.total];
    var u := o.user;
    var first := if u.Some? then u.value.firstName else None;
    var last := if u.Some? then u.value.lastName else None;
    var email := if u.Some? then u.value.email else None;
    PrintService.ReportOrder(
      id := o.id,
      orderNumber := o.orderNumber,
      customer := NameOrEmail(first, last, email, "Customer"),
      kind := LiveQueue.ListKind(o.orderType, o.deliveryMethod),
      status := o.status,
      total := o.finalTotal.Or(o.total).GetOr(0),
      createdAt := o.createdAt)
  }

  /** The history row and the live list agree on the customer label and the
      delivery test for the same record. Their totals agree exactly when a final
      total is present, `totalAmount` is absent, or it equals `total ?? 0`: the
      history row skips the normalisation that folds `totalAmount` into `total`. */
  lemma HistoryRowMatchesLiveRow(o: RawOrder, tab: LiveQueue.Tab)
    ensures var live := LiveQueue.MapRow(OrdersService.Normalize(o), tab);
      && HistoryRow(o).customer == live.customer
      && HistoryRow(o).kind == live.kind
      && (HistoryRow(o).total == live.total
          <==> o.finalTotal.Some? || o.totalAmount.None? || o.totalAmount.value == o.total.GetOr(0))
  {
    LiveQueue.RowFromRaw(o, tab);
    var xs := [o.finalTotal, o.totalAmount, o.total];
    assert xs[1..] == [o.totalAmount, o.total] && xs[1..][1..] == [o.total] && [o.total][1..] == [];
    assert [o.finalTotal, o.total][1..] == [o.total] && [o.total][1..] == [];
  }

  /** Every fetched order, in order, as a history row. */
  function HistoryRows(os: seq<RawOrder>): (r: seq<PrintService.ReportOrder>)
    ensures |r| == |os| && forall i | 0 <= i < |r| :: r[i] == HistoryRow(os[i])
  {
    seq(|os|, i requires 0 <= i < |os| => HistoryRow(os[i]))
  }

  /** The report column a checkbox of the print dialog controls. */
  datatype OptionFlag = OrderNumberFlag | CustomerFlag | TypeFlag | AmountFlag | TimeFlag | StatusFlag

  function Flag(opts: PrintService.PrintOptions, f: OptionFlag): bool {
    match f
    case OrderNumberFlag => opts.includeOrderNumber
    case CustomerFlag => opts.includeCustomer
    case TypeFlag => opts.includeType
    case AmountFlag => opts.includeAmount
    case TimeFlag => opts.includeTime
    case StatusFlag => opts.includeStatus
  }

  /** Ticking a checkbox flips its flag and leaves the other five alone
      (`{ ...prev, flag: !prev.flag }`). */
  function Toggle(opts: PrintService.PrintOptions, f: OptionFlag): (r: PrintService.PrintOptions)
    ensures Flag(r, f) == !Flag(opts, f)
    ensures forall g | g != f :: Flag(r, g) == Flag(opts, g)
  {
    PrintService.PrintOptions(
      includeOrderNumber := if f == OrderNumberFlag then !opts.includeOrderNumber else opts.includeOrderNumber,
      includeCustomer := if f == CustomerFlag then !opts.includeCustomer else opts.includeCustomer,
      includeType := if f == TypeFlag then !opts.includeType else opts.includeType,
      includeAmount := if f == AmountFlag then !opts.includeAmount else opts.includeAmount,
      includeTime := if f == TimeFlag then !opts.includeTime else opts.includeTime,
      includeStatus := if f == StatusFlag then !opts.includeStatus else opts.includeStatus)
  }

  /** Ticking a checkbox twice restores the options. */
  lemma ToggleTwice(opts: PrintService.PrintOptions, f: OptionFlag)
    ensures Toggle(Toggle(opts, f), f) == opts
  {
  }

  /** Ticks of two checkboxes commute. */
  lemma ToggleCommute(opts: PrintService.PrintOptions, f: OptionFlag, g: OptionFlag)
    ensures Toggle(Toggle(opts, f), g) == Toggle(Toggle(opts, g), f)
  {
  }

  /** The screen's state. */
  datatype State = State(
    orders: seq<PrintService.ReportOrder>,
    loading: bool,
    error: string,
    from: Instant,
    to: Instant,
    options: PrintService.PrintOptions,
    printDialog: bool,
    user: Option<AuthUser>)

  /** Both pickers start on the current moment; the options start at their defaults;
      the user is the one the auth context holds. */
  function Initial(now: Instant, user: Option<AuthUser>): (st: State)
    ensures st.orders == [] && !st.loading && st.error == "" && !st.printDialog
    ensures st.from == now && st.to == now && st.user == user
    ensures forall f :: Flag(st.options, f) <==> f != TimeFlag && f != StatusFlag
  {
    State([], false, "", now, now, PrintService.PrintOptions(true, true, true, true, false, false), false, user)
  }

  /** The request `refresh` makes: `fetchOrdersByDate(startDate, endDate, branchId)`. */
  datatype Query = OrdersByDate(range: Range, branch: Option<string>)

  /** What `refresh` leads to: the state once the request settles, and the request it made. */
  datatype Refreshed = Refreshed(state: State, query: Query)

  /** The state while the request is in flight: error cleared, loading set. */
  function RefreshPending(st: State): (r: State)
    ensures r.loading && r.error == ""
    ensures r.orders == st.orders && r.from == st.from && r.to == st.to && r.options == st.options
  {
    st.(loading := true, error := "")
  }

  /** `refresh`, given the reply the fetch will settle with. */
  function Refresh(st: State, reply: Reply<seq<RawOrder>>): (r: Refreshed)
    requires Valid(st.from.day) && Valid(st.to.day)
    ensures r.query.range == QueryRange(st.from, st.to)
    ensures r.query.branch == BranchParam(st.user)
    ensures !r.state.loading
    ensures r.state.from == st.from && r.state.to == st.to && r.state.options == st.options
    ensures r.state.printDialog == st.printDialog && r.state.user == st.user
    ensures reply.Ok? ==> r.state.orders == HistoryRows(reply.value) && r.state.error == ""
    ensures reply.Err? ==>
      && r.state.orders == st.orders
      && r.state.error == TruthyOr([reply.failure.serverMessage, reply.failure.message], "Failed to load")
      && r.state.error != ""
  {
    var pending := RefreshPending(st);
    var settled := match reply
      case Ok(all) => pending.(orders := HistoryRows(all))
      case Err(f) => pending.(error := ErrorText(f, "Failed to load"));
    Refreshed(settled.(loading := false), OrdersByDate(QueryRange(st.from, st.to), BranchParam(st.user)))
  }

  /** Refreshing twice with the same answer is the same as refreshing once. */
  lemma RefreshIdempotent(st: State, reply: Reply<seq<RawOrder>>)
    requires Valid(st.from.day) && Valid(st.to.day)
    ensures Refresh(Refresh(st, reply).state, reply) == Refresh(st, reply)
  {
  }

  /** A change to one of `refresh`'s dependencies (`fromDate`, `toDate`, `user`) and
      whether the effect runs `refresh` again. */
  datatype Change = Change(state: State, refetch: bool)

  /** Confirming a picker stores the picked moment. The picker hands over a new
      `Date` object, which React's dependency check never finds equal to the old one,
      so the list is always fetched again, even for the same moment. */
  function PickFrom(st: State, at: Instant): (r: Change)
    ensures r.state.from == at && r.state.(from := st.from) == st
    ensures r.refetch
  {
    Change(st.(from := at), true)
  }

  function PickTo(st: State, at: Instant): (r: Change)
    ensures r.state.to == at && r.state.(to := st.to) == st
    ensures r.refetch
  {
    Change(st.(to := at), true)
  }

  /** The auth context's user changing: the list is fetched again when it differs.
      React compares the dependency by reference (`Object.is`); "differs" here is
      value inequality, so a fresh but equal user object is not a change. */
  function UserChanged(st: State, user: Option<AuthUser>): (r: Change)
    ensures r.state.user == user && r.state.(user := st.user) == st
    ensures r.refetch <==> user != st.user
  {
    Change(st.(user := user), user != st.user)
  }

  /** The refetch after a pick asks for the range spanning the picked day and the
      other picker's day, scoped to the same branch. */
  lemma PickedRangeIsQueried(st: State, at: Instant, reply: Reply<seq<RawOrder>>)
    requires Valid(st.to.day) && Valid(at.day)
    ensures var q := Refresh(PickFrom(st, at).state, reply).query;
      && ParseDate(q.range.start).Some? && ParseDate(q.range.end).Some?
      && {ParseDate(q.range.start).value, ParseDate(q.range.end).value} == {at.day, st.to.day}
      && q.branch == BranchParam(st.user)
  {
  }

  /** After the user changes, the refetch is scoped to the new user's branch. */
  lemma UserChangeRescopesQuery(st: State, user: Option<AuthUser>, reply: Reply<seq<RawOrder>>)
    requires Valid(st.from.day) && Valid(st.to.day)
    ensures var c := UserChanged(st, user);
      && (BranchParam(user) != BranchParam(st.user) ==> c.refetch)
      && Refresh(c.state, reply).query == OrdersByDate(Refresh(st, reply).query.range, BranchParam(user))
  {
  }

  /** The summary widget; revenue is not modelled. */
  datatype Summary = Summary(ordersCount: nat, delivery: nat, collection: nat)

  function Summarize(orders: seq<PrintService.ReportOrder>): (s: Summary)
    ensures s.ordersCount == |orders|
    ensures s.delivery == PrintService.CountKind(orders, Delivery)
    ensures s.delivery + s.collection == s.ordersCount
  {
    PrintService.KindsPartition(orders);
    Summary(|orders|, PrintService.CountKind(orders, Delivery), PrintService.CountKind(orders, Collection))
  }

  /** The Print button, disabled while there is nothing to print. */
  function OpenPrintDialog(st: State): (r: State)
    ensures r.printDialog <==> st.printDialog || st.orders != []
    ensures r.(printDialog := st.printDialog) == st
  {
    if st.orders == [] then st else st.(printDialog := true)
  }

  /** Ticking a checkbox in the dialog. */
  function TickOption(st: State, f: OptionFlag): (r: State)
    ensures r.options == Toggle(st.options, f)
    ensures r.(options := st.options) == st
  {
    st.(options := Toggle(st.options, f))
  }

  /** What the dialog's Print button leads to: the dialog closes and the report is
      produced from the listed orders with the chosen options. */
  datatype Printed = Printed(state: State, report: Option<PrintService.Report>)

  function ConfirmPrint(st: State): (r: Printed)
    requires Valid(st.from.day) && Valid(st.to.day)
    ensures !r.state.printDialog && r.state.(printDialog := st.printDialog) == st
    ensures r.report == PrintService.PrintOrders(st.orders, st.from.day, st.to.day, Some(st.options))
    ensures r.report.Some? <==> st.orders != []
    ensures r.report.Some? ==> r.report.value.header == PrintService.Columns(st.options)
    ensures r.report.Some? ==> |r.report.value.rows| == |st.orders|
  {
    Printed(st.(printDialog := false), PrintService.PrintOrders(st.orders, st.from.day, st.to.day, Some(st.options)))
  }

  /** The report prints the range as picked while the query sends it earlier date
      first: with the pickers reversed, the two disagree on which date leads. */
  lemma ReportRangeAsPicked(st: State)
    requires Valid(st.from.day) && Valid(st.to.day) && st.orders != []
    requires st.from.day != st.to.day && DayLe(st.to.day, st.from.day)
    ensures var report := ConfirmPrint(st).report.value;
      && ParseDate(report.fromText) == Some(st.from.day)
      && ParseDate(QueryRange(st.from, st.to).start) == Some(st.to.day)
  {
    FormatDateRoundTrip(st.from.day);
    FormatDateRoundTrip(st.to.day);
  }

  /** The printed report's counts are the summary widget's counts. */
  lemma ReportAgreesWithSummary(st: State)
    requires Valid(st.from.day) && Valid(st.to.day) && st.orders != []
    ensures var report := ConfirmPrint(st).report.value;
      var s := Summarize(st.orders);
      report.totalOrders == s.ordersCount && report.deliveryOrders == s.delivery && report.collectionOrders == s.collection
  {
  }
}
