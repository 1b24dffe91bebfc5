/** The live order screen as a sequential state machine. Every awaited gateway
    call is an explicit `Reply` input, and every handler returns the state it
    leaves behind together with the gateway calls it issued, in order. */
module LiveScreen {
  import opened Wrappers
  import opened Errors
  import opened Payload
  import opened Dates
  import opened LiveQueue
  import OrdersService
  import opened AuthService

  /** The "Start From" menu: today, yesterday or two days ago. */
  datatype DateOffset = Today | Yesterday | TwoDaysAgo

  /** The `startDate`/`endDate` query parameters. */
  datatype Window = Window(start: string, end: string)

  /** `getDateStr(dateOffset)` and `getDateStr(0)`: the caller supplies the two calendar
      days (today minus the offset, and today), since reading the clock is outside the model. */
  function QueryWindow(startDay: Date, today: Date): (w: Window)
    requires Valid(startDay) && Valid(today)
    ensures ParseDate(w.start) == Some(startDay) && ParseDate(w.end) == Some(today)
  {
    FormatDateRoundTrip(startDay);
    FormatDateRoundTrip(today);
    Window(FormatDate(startDay), FormatDate(today))
  }

  /** A call issued to the order gateway. */
  datatype Call =
    | ListOrders(status: string, window: Window)
    | OrdersByDate(window: Window, branch: Option<string>)
    | FetchOrder(id: Option<string>, branch: Option<string>)
    | UpdateStatus(id: Option<string>, newStatus: string)
    | UpdateEta(id: Option<string>, minutes: int)

  /** The screen's state: the selections, the fetched rows and counts, the
      banner, the open detail (`selected`, `selectedDetail`, the delay modal), and
      the signed-in user the auth context supplies. */
  datatype State = State(
    tab: Tab,
    typeFilter: TypeFilter,
    dateOffset: DateOffset,
    orders: seq<Row>,
    counts: Counts,
    loading: bool,
    error: string,
    selected: Option<Row>,
    detail: Option<RawOrder>,
    detailLoading: bool,
    delayOpen: bool,
    user: Option<AuthUser>)

  /** The state on mount, for the user the auth context holds: the New tab, every
      order type, today, nothing fetched or selected, and an empty list on show. */
  function Initial(user: Option<AuthUser>): (st: State)
    ensures st.tab == New && st.typeFilter == All && st.dateOffset == Today
    ensures st.orders == [] && st.counts == ZeroCounts && st.error == ""
    ensures st.selected.None? && st.detail.None? && !st.delayOpen
    ensures st.user == user
    ensures ViewOf(st) == ListView([])
  {
    State(New, All, Today, [], ZeroCounts, false, "", None, None, false, false, user)
  }

  /** The state a handler leaves behind and the gateway calls it made. */
  datatype Step = Step(state: State, calls: seq<Call>)

  /** What the screen shows while a list refresh is in flight. */
  function RefreshListPending(st: State, silent: bool): (r: State)
    ensures silent ==> r == st
    ensures !silent ==> r == st.(loading := true, error := "")
  {
    if silent then st else st.(loading := true, error := "")
  }

  /** `refreshListForTab(silent)`: fetches the current tab's orders and replaces the rows
      wholesale; on failure the rows stay, and only a non-silent refresh reports it. */
  function RefreshList(st: State, silent: bool, window: Window, reply: Reply<Option<seq<RawOrder>>>): (r: Step)
    ensures r.calls == [ListOrders(StatusParam(st.tab), window)]
    ensures r.state == st.(orders := r.state.orders, loading := r.state.loading, error := r.state.error)
    ensures silent ==> r.state.loading == st.loading && r.state.error == st.error
    ensures !silent ==> !r.state.loading
    ensures reply.Err? ==> r.state.orders == st.orders
    ensures !silent && reply.Err? ==> r.state.error == ErrorText(reply.failure, "Failed to load orders")
    ensures !silent && reply.Ok? ==> r.state.error == ""
    ensures reply.Ok? ==> r.state.orders == MapRows(OrdersService.FetchLiveOrders(reply).value, st.tab)
    ensures reply.Ok? ==> forall x | x in r.state.orders :: x.status == st.tab
  {
    var pending := RefreshListPending(st, silent);
    var done :=
      match OrdersService.FetchLiveOrders(reply)
      case Ok(xs) => pending.(orders := MapRows(xs, st.tab))
      case Err(f) => if silent then pending else pending.(error := ErrorText(f, "Failed to load orders"));
    Step(if silent then done else done.(loading := false), [ListOrders(StatusParam(st.tab), window)])
  }

  /** `refreshCounts`: the counts over every status in the user's branch's records of
      the window; a failure is swallowed. */
  function RefreshCounts(st: State, window: Window, reply: Reply<seq<RawOrder>>): (r: Step)
    ensures r.calls == [OrdersByDate(window, BranchParam(st.user))]
    ensures reply.Err? ==> r.state == st
    ensures reply.Ok? ==> r.state == st.(counts := PartitionCounts(reply.value))
    ensures r.state.counts.Sum() <= (if reply.Ok? then |reply.value| else st.counts.Sum())
  {
    match reply
    case Ok(xs) => Step(st.(counts := PartitionCounts(xs)), [OrdersByDate(window, BranchParam(st.user))])
    case Err(_) => Step(st, [OrdersByDate(window, BranchParam(st.user))])
  }

  /** `refreshAll(silent)`: the list and the counts requests run side by side. */
  function RefreshAll(st: State, silent: bool, window: Window,
                      listReply: Reply<Option<seq<RawOrder>>>, countsReply: Reply<seq<RawOrder>>): (r: Step)
    ensures r.calls == [ListOrders(StatusParam(st.tab), window), OrdersByDate(window, BranchParam(st.user))]
    ensures r.state.counts == (if countsReply.Ok? then PartitionCounts(countsReply.value) else st.counts)
    ensures r.state.orders == RefreshList(st, silent, window, listReply).state.orders
    ensures r.state.loading == RefreshList(st, silent, window, listReply).state.loading
    ensures r.state.error == RefreshList(st, silent, window, listReply).state.error
    ensures r.state.tab == st.tab && r.state.typeFilter == st.typeFilter && r.state.dateOffset == st.dateOffset
    ensures r.state.selected == st.selected && r.state.detail == st.detail
    ensures r.state.detailLoading == st.detailLoading && r.state.delayOpen == st.delayOpen
    ensures r.state.user == st.user
  {
    var a := RefreshList(st, silent, window, listReply);
    var b := RefreshCounts(a.state, window, countsReply);
    Step(b.state, a.calls + b.calls)
  }

  /** The two halves of a refresh write disjoint parts of the state, so whichever
      response lands first, the result is the same. */
  lemma RefreshOrderIrrelevant(st: State, silent: bool, window: Window,
                               listReply: Reply<Option<seq<RawOrder>>>, countsReply: Reply<seq<RawOrder>>)
    ensures RefreshList(RefreshCounts(st, window, countsReply).state, silent, window, listReply).state
         == RefreshAll(st, silent, window, listReply, countsReply).state
  {
  }

  /** A silent refresh repeated with the same server answers changes nothing more. */
  lemma SilentRefreshIdempotent(st: State, window: Window,
                                listReply: Reply<Option<seq<RawOrder>>>, countsReply: Reply<seq<RawOrder>>)
    ensures var once := RefreshAll(st, true, window, listReply, countsReply).state;
      RefreshAll(once, true, window, listReply, countsReply).state == once
  {
  }

  /** The `computeCounts` effect: the counts over the window's records whose
      `orderType` matches the type filter; it sends no branch id, and a failure is
      swallowed. Given the same reply under `All`, it writes what `refreshCounts` writes. */
  function ComputeCounts(st: State, window: Window, reply: Reply<seq<RawOrder>>): (r: Step)
    ensures r.calls == [OrdersByDate(window, None)]
    ensures reply.Err? ==> r.state == st
    ensures reply.Ok? ==> r.state == st.(counts := EffectCounts(reply.value, st.typeFilter))
    ensures reply.Ok? && st.typeFilter == All ==> r.state == RefreshCounts(st, window, reply).state
  {
    match reply
    case Ok(xs) => Step(st.(counts := EffectCounts(xs, st.typeFilter)), [OrdersByDate(window, None)])
    case Err(_) => Step(st, [OrdersByDate(window, None)])
  }

  /** The two writers of the badges ask different questions whenever the user has a
      branch id: `refreshCounts` scopes the window to the branch, `computeCounts`
      does not, so their replies, and the badges, can differ. */
  lemma CountsRequestsDiffer(st: State, window: Window, reply: Reply<seq<RawOrder>>)
    ensures RefreshCounts(st, window, reply).calls == ComputeCounts(st, window, reply).calls
      <==> BranchParam(st.user).None?
  {
  }

  /** The follow-up work a selection change schedules through its effect hooks. */
  datatype Effect = RefreshAllEffect | ComputeCountsEffect

  /** A state change and the effects it schedules. */
  datatype Change = Change(state: State, effects: set<Effect>)

  /** Pressing a tab: both effects depend on `tab`, and run only when it changes. */
  function SelectTab(st: State, tab: Tab): (r: Change)
    ensures r.state == st.(tab := tab)
    ensures r.effects == (if tab == st.tab then {} else {RefreshAllEffect, ComputeCountsEffect})
  {
    Change(st.(tab := tab), if tab == st.tab then {} else {RefreshAllEffect, ComputeCountsEffect})
  }

  /** Pressing a type chip: the list is filtered locally and is not refetched;
      only the counts effect depends on the filter. */
  function PressChip(st: State, chip: TypeFilter): (r: Change)
    requires chip != All
    ensures r.state == st.(typeFilter := ToggleChip(st.typeFilter, chip))
    ensures r.state.typeFilter != st.typeFilter
    ensures r.effects == {ComputeCountsEffect}
  {
    Change(st.(typeFilter := ToggleChip(st.typeFilter, chip)), {ComputeCountsEffect})
  }

  /** Picking a start day: both effects depend on the offset, and run only when it changes. */
  function SelectDateOffset(st: State, offset: DateOffset): (r: Change)
    ensures r.state == st.(dateOffset := offset)
    ensures r.effects == (if offset == st.dateOffset then {} else {RefreshAllEffect, ComputeCountsEffect})
  {
    Change(st.(dateOffset := offset), if offset == st.dateOffset then {} else {RefreshAllEffect, ComputeCountsEffect})
  }

  /** The outcome of handling one push message. */
  datatype EventStep = EventStep(step: Step, soundRequested: bool)

  /** `handleOrderEvent`: a creation message requests the alert sound (a synchronous
      throw from it is swallowed), and every message triggers a silent refresh. */
  function HandleOrderEvent(st: State, m: Message, window: Window,
                            listReply: Reply<Option<seq<RawOrder>>>, countsReply: Reply<seq<RawOrder>>): (r: EventStep)
    ensures r.soundRequested <==> IsOrderCreated(m)
    ensures r.step == RefreshAll(st, true, window, listReply, countsReply)
    ensures r.step.state.loading == st.loading && r.step.state.error == st.error
  {
    var sound := IsOrderCreated(m);
    EventStep(RefreshAll(st, true, window, listReply, countsReply), sound)
  }

  /** Tapping a row: clears the banner, marks the row selected and loads its detail. */
  function SelectOrder(st: State, row: Row, reply: Reply<RawOrder>): (r: Step)
    ensures r.calls == [FetchOrder(row.id, BranchParam(st.user))]
    ensures r.state.selected == Some(row) && !r.state.detailLoading
    ensures reply.Ok? ==> r.state == st.(selected := Some(row), detail := Some(reply.value), error := "", detailLoading := false)
    ensures reply.Err? ==> r.state == st.(selected := Some(row), error := ErrorText(reply.failure, "Failed to load order"), detailLoading := false)
  {
    var pending := st.(detailLoading := true, error := "", selected := Some(row));
    match reply
    case Ok(full) => Step(pending.(detail := Some(full), detailLoading := false), [FetchOrder(row.id, BranchParam(st.user))])
    case Err(f) => Step(pending.(error := ErrorText(f, "Failed to load order"), detailLoading := false), [FetchOrder(row.id, BranchParam(st.user))])
  }

  /** The replies one detail action awaits, in order: the mutation, the detail refetch,
      then the list and the counts of the refresh that follows. */
  datatype ActionReplies = ActionReplies(
    mutation: Reply<Unit>,
    refetch: Reply<RawOrder>,
    list: Reply<Option<seq<RawOrder>>>,
    counts: Reply<seq<RawOrder>>)

  /** The shared body of Accept, Ready and a confirmed Cancel: set the server status,
      refetch the detail, refresh everything, then close the detail. */
  function MutateStatus(st: State, target: string, fallback: string, window: Window, rp: ActionReplies): (r: Step)
    ensures st.detail.None? ==> r == Step(st, [])
    ensures st.detail.Some? ==> |r.calls| >= 1 && r.calls[0] == UpdateStatus(st.detail.value.id, target)
    ensures st.detail.Some? ==> !r.state.detailLoading
    ensures st.detail.Some? && rp.mutation.Err? ==>
      r.state == st.(error := ErrorText(rp.mutation.failure, fallback), detailLoading := false)
      && r.calls == [UpdateStatus(st.detail.value.id, target)]
    ensures st.detail.Some? && rp.mutation.Ok? && rp.refetch.Err? ==>
      r.state == st.(error := ErrorText(rp.refetch.failure, fallback), detailLoading := false)
    ensures st.detail.Some? && rp.mutation.Ok? && rp.refetch.Ok? ==>
      && r.state.selected.None? && r.state.detail.None? && !r.state.loading
      && r.state.orders == (if rp.list.Ok? then MapRows(OrdersService.FetchLiveOrders(rp.list).value, st.tab) else st.orders)
      && r.state.error == (if rp.list.Ok? then "" else ErrorText(rp.list.failure, "Failed to load orders"))
      && r.state.counts == (if rp.counts.Ok? then PartitionCounts(rp.counts.value) else st.counts)
      && r.state.tab == st.tab && r.state.typeFilter == st.typeFilter && r.state.dateOffset == st.dateOffset
      && r.state.delayOpen == st.delayOpen && r.state.user == st.user
    ensures st.detail.Some? && rp.mutation.Ok? ==> |r.calls| >= 2 && r.calls[1] == FetchOrder(st.detail.value.id, BranchParam(st.user))
    ensures st.detail.Some? && rp.mutation.Ok? && rp.refetch.Err? ==>
      r.calls == [UpdateStatus(st.detail.value.id, target), FetchOrder(st.detail.value.id, BranchParam(st.user))]
    ensures st.detail.Some? && rp.mutation.Ok? && rp.refetch.Ok? ==>
      r.calls == [UpdateStatus(st.detail.value.id, target), FetchOrder(st.detail.value.id, BranchParam(st.user)),
                  ListOrders(StatusParam(st.tab), window), OrdersByDate(window, BranchParam(st.user))]
  {
    match st.detail
    case None => Step(st, [])
    case Some(d) =>
      var busy := st.(detailLoading := true);
      var update := UpdateStatus(d.id, target);
      match rp.mutation
      case Err(f) => Step(busy.(error := ErrorText(f, fallback), detailLoading := false), [update])
      case Ok(_) =>
        match rp.refetch
        case Err(f) => Step(busy.(error := ErrorText(f, fallback), detailLoading := false), [update, FetchOrder(d.id, BranchParam(st.user))])
        case Ok(latest) =>
          var refreshed := RefreshAll(busy.(detail := Some(latest)), false, window, rp.list, rp.counts);
          Step(refreshed.state.(selected := None, detail := None, detailLoading := false),
               [update, FetchOrder(d.id, BranchParam(st.user))] + refreshed.calls)
  }

  /** Accept (new tab): moves the order to `processing`. */
  function Accept(st: State, window: Window, rp: ActionReplies): (r: Step)
    ensures st.detail.Some? ==> |r.calls| >= 1 && r.calls[0] == UpdateStatus(st.detail.value.id, "processing")
    ensures st.detail.Some? && rp.mutation.Err? ==> r.state.error == ErrorText(rp.mutation.failure, "Failed to accept order")
  {
    MutateStatus(st, "processing", "Failed to accept order", window, rp)
  }

  /** Ready (in-progress tab): moves the order to `completed`. */
  function Ready(st: State, window: Window, rp: ActionReplies): (r: Step)
    ensures st.detail.Some? ==> |r.calls| >= 1 && r.calls[0] == UpdateStatus(st.detail.value.id, "completed")
    ensures st.detail.Some? && rp.mutation.Err? ==> r.state.error == ErrorText(rp.mutation.failure, "Failed to mark ready")
  {
    MutateStatus(st, "completed", "Failed to mark ready", window, rp)
  }

  /** How the confirmation alert ends: "Yes, cancel", "No", or dismissed without
      pressing either (the alert is cancelable and has no dismiss handler). */
  datatype Answer = Confirmed | Declined | Dismissed

  /** Cancel (also Reject): asks for confirmation first. "No" returns before any
      gateway call and leaves the state as it was apart from the busy flag; a
      dismissal never resolves the confirmation, so the busy flag stays raised. */
  function Cancel(st: State, answer: Answer, window: Window, rp: ActionReplies): (r: Step)
    ensures st.detail.None? ==> r == Step(st, [])
    ensures st.detail.Some? && answer == Declined ==> r == Step(st.(detailLoading := false), [])
    ensures st.detail.Some? && answer == Dismissed ==> r == Step(st.(detailLoading := true), [])
    ensures st.detail.Some? && answer == Confirmed ==> |r.calls| >= 1 && r.calls[0] == UpdateStatus(st.detail.value.id, "cancelled")
    ensures st.detail.Some? && answer == Confirmed && rp.mutation.Err? ==>
      r.state.error == ErrorText(rp.mutation.failure, "Failed to cancel order") && r.state.detail == st.detail
    ensures st.detail.Some? && answer == Confirmed && rp.mutation.Ok? && rp.refetch.Ok? ==>
      r.state.selected.None? && r.state.detail.None? && !r.state.detailLoading
  {
    if st.detail.None? then Step(st, [])
    else
      match answer
      case Declined => Step(st.(detailLoading := false), [])
      case Dismissed => Step(st.(detailLoading := true), [])
      case Confirmed => MutateStatus(st, "cancelled", "Failed to cancel order", window, rp)
  }

  /** The detail's Back: closes the detail and refreshes (non-silently). */
  function Back(st: State, window: Window,
                listReply: Reply<Option<seq<RawOrder>>>, countsReply: Reply<seq<RawOrder>>): (r: Step)
    ensures r.state.selected.None? && r.state.detail.None?
    ensures r.calls == [ListOrders(StatusParam(st.tab), window), OrdersByDate(window, BranchParam(st.user))]
    ensures !r.state.loading && r.state.detailLoading == st.detailLoading
  {
    RefreshAll(st.(selected := None, detail := None), false, window, listReply, countsReply)
  }

  /** The delay button opens the minute menu; its Cancel closes it. */
  function OpenDelay(st: State): (r: State)
    ensures r.delayOpen && r.(delayOpen := st.delayOpen) == st
  {
    st.(delayOpen := true)
  }

  function CloseDelay(st: State): (r: State)
    ensures !r.delayOpen && r.(delayOpen := st.delayOpen) == st
  {
    st.(delayOpen := false)
  }

  /** `Number(selectedDetail?.estimatedTimeToComplete || 0)`: the stored estimate, 0 when absent
      (a stored 0 is falsy and reads as the same 0). */
  function StoredEta(d: RawOrder): (m: int)
    ensures d.estimatedTimeToComplete.Some? ==> m == d.estimatedTimeToComplete.value
    ensures d.estimatedTimeToComplete.None? ==> m == 0
  {
    d.estimatedTimeToComplete.GetOr(0)
  }

  /** A delay menu entry: sends the stored estimate plus the increment as the new
      absolute estimate; on success the detail stays open with the fresh payload
      and only the menu closes. */
  function Delay(st: State, minutes: int, window: Window, rp: ActionReplies): (r: Step)
    requires minutes in DelayMenu
    ensures st.detail.None? ==> r == Step(st, [])
    ensures st.detail.Some? ==>
      |r.calls| >= 1 && r.calls[0] == UpdateEta(st.detail.value.id, StoredEta(st.detail.value) + minutes)
    ensures st.detail.Some? ==> !r.state.detailLoading && r.state.selected == st.selected
    ensures st.detail.Some? && rp.mutation.Err? ==>
      r.state == st.(error := ErrorText(rp.mutation.failure, "Failed to update order"), detailLoading := false)
    ensures st.detail.Some? && rp.mutation.Ok? && rp.refetch.Err? ==>
      r.state == st.(error := ErrorText(rp.refetch.failure, "Failed to update order"), detailLoading := false)
    ensures st.detail.Some? && rp.mutation.Ok? ==> |r.calls| >= 2 && r.calls[1] == FetchOrder(st.detail.value.id, BranchParam(st.user))
    ensures st.detail.Some? && rp.mutation.Ok? && rp.refetch.Ok? ==>
      && r.state.detail == Some(rp.refetch.value) && !r.state.delayOpen && !r.state.loading
      && r.state.orders == (if rp.list.Ok? then MapRows(OrdersService.FetchLiveOrders(rp.list).value, st.tab) else st.orders)
      && r.state.error == (if rp.list.Ok? then "" else ErrorText(rp.list.failure, "Failed to load orders"))
      && r.state.counts == (if rp.counts.Ok? then PartitionCounts(rp.counts.value) else st.counts)
      && r.state.tab == st.tab && r.state.typeFilter == st.typeFilter && r.state.dateOffset == st.dateOffset
      && r.state.user == st.user
    ensures st.detail.Some? && rp.mutation.Err? ==>
      r.calls == [UpdateEta(st.detail.value.id, StoredEta(st.detail.value) + minutes)]
    ensures st.detail.Some? && rp.mutation.Ok? && rp.refetch.Err? ==>
      r.calls == [UpdateEta(st.detail.value.id, StoredEta(st.detail.value) + minutes), FetchOrder(st.detail.value.id, BranchParam(st.user))]
    ensures st.detail.Some? && rp.mutation.Ok? && rp.refetch.Ok? ==>
      r.calls == [UpdateEta(st.detail.value.id, StoredEta(st.detail.value) + minutes), FetchOrder(st.detail.value.id, BranchParam(st.user)),
                  ListOrders(StatusParam(st.tab), window), OrdersByDate(window, BranchParam(st.user))]
  {
    match st.detail
    case None => Step(st, [])
    case Some(d) =>
      var busy := st.(detailLoading := true);
      var update := UpdateEta(d.id, StoredEta(d) + minutes);
      match rp.mutation
      case Err(f) => Step(busy.(error := ErrorText(f, "Failed to update order"), detailLoading := false), [update])
      case Ok(_) =>
        match rp.refetch
        case Err(f) =>
          Step(busy.(error := ErrorText(f, "Failed to update order"), detailLoading := false), [update, FetchOrder(d.id, BranchParam(st.user))])
        case Ok(latest) =>
          var refreshed := RefreshAll(busy.(detail := Some(latest)), false, window, rp.list, rp.counts);
          Step(refreshed.state.(delayOpen := false, detailLoading := false), [update, FetchOrder(d.id, BranchParam(st.user))] + refreshed.calls)
  }

  /** Delays accumulate: when the refetched order carries the estimate just sent,
      the detail stays open and a second delay sends the stored estimate plus both
      increments. */
  lemma DelaysAccumulate(st: State, m1: int, m2: int, window: Window, rp1: ActionReplies, rp2: ActionReplies)
    requires m1 in DelayMenu && m2 in DelayMenu && st.detail.Some?
    requires rp1.mutation.Ok? && rp1.refetch.Ok?
    requires rp1.refetch.value == st.detail.value.(estimatedTimeToComplete := Some(StoredEta(st.detail.value) + m1))
    ensures var next := Delay(st, m1, window, rp1).state;
      && next.detail.Some?
      && Delay(next, m2, window, rp2).calls[0] == UpdateEta(st.detail.value.id, StoredEta(st.detail.value) + m1 + m2)
  {
  }

  // ------------------------------------------------------------ what is shown

  /** What the screen renders: the open detail, else the list's loading text, else
      the detail's loading text, else the filtered rows. */
  datatype View = DetailView(order: RawOrder) | LoadingList | LoadingOrder | ListView(rows: seq<Row>)

  function ViewOf(st: State): (v: View)
    ensures v.DetailView? <==> st.detail.Some?
    ensures v.ListView? <==> st.detail.None? && !st.loading && !st.detailLoading
    ensures v.LoadingOrder? <==> st.detail.None? && !st.loading && st.detailLoading
    ensures v.ListView? ==> forall x | x in v.rows :: x in st.orders && Keeps(x, st.tab, st.typeFilter)
  {
    if st.detail.Some? then DetailView(st.detail.value)
    else if st.loading then LoadingList
    else if st.detailLoading then LoadingOrder
    else ListView(Visible(st.orders, st.tab, st.typeFilter))
  }

  /** Dismissing the cancel alert strands the list: after Back, whatever the refresh
      returns, the screen shows "Loading order…" instead of the rows. */
  lemma DismissedCancelStrandsList(st: State, window: Window, rp: ActionReplies,
                                   listReply: Reply<Option<seq<RawOrder>>>, countsReply: Reply<seq<RawOrder>>)
    requires st.detail.Some?
    ensures var dismissed := Cancel(st, Dismissed, window, rp).state;
      ViewOf(Back(dismissed, window, listReply, countsReply).state) == LoadingOrder
  {
  }

  /** Every other way a detail handler settles lowers the busy flag, so the busy
      flag outlives a handler only after a dismissed cancel alert. */
  lemma SettledHandlersClearBusy(st: State, row: Row, reply: Reply<RawOrder>, answer: Answer,
                                 minutes: int, window: Window, rp: ActionReplies)
    requires st.detail.Some? && minutes in DelayMenu
    ensures !SelectOrder(st, row, reply).state.detailLoading
    ensures !Accept(st, window, rp).state.detailLoading && !Ready(st, window, rp).state.detailLoading
    ensures !Delay(st, minutes, window, rp).state.detailLoading
    ensures Cancel(st, answer, window, rp).state.detailLoading <==> answer == Dismissed
  {
  }

  /** A loaded order is what the screen shows next. */
  lemma SelectedOrderIsShown(st: State, row: Row, reply: Reply<RawOrder>)
    requires reply.Ok?
    ensures ViewOf(SelectOrder(st, row, reply).state) == DetailView(reply.value)
  {
  }

  /** A completed status change returns to the list, showing the refetched rows of
      the same tab under the same filter. */
  lemma ActionReturnsToList(st: State, target: string, fallback: string, window: Window, rp: ActionReplies)
    requires st.detail.Some? && rp.mutation.Ok? && rp.refetch.Ok? && rp.list.Ok?
    ensures ViewOf(MutateStatus(st, target, fallback, window, rp).state)
      == ListView(Visible(MapRows(OrdersService.FetchLiveOrders(rp.list).value, st.tab), st.tab, st.typeFilter))
  {
  }

  /** Re-selecting the current tab or start day schedules no work and changes nothing. */
  lemma ReselectSchedulesNothing(st: State, tab: Tab, offset: DateOffset)
    ensures var t := SelectTab(st, tab).state; SelectTab(t, tab) == Change(t, {})
    ensures var d := SelectDateOffset(st, offset).state; SelectDateOffset(d, offset) == Change(d, {})
  {
  }

  /** Pressing the same chip twice from `All`, or from that chip, restores the state. */
  lemma PressChipTwice(st: State, chip: TypeFilter)
    requires chip != All && (st.typeFilter == All || st.typeFilter == chip)
    ensures PressChip(PressChip(st, chip).state, chip).state == st
  {
    ToggleChipTwice(st.typeFilter, chip);
  }

  /** Push messages that meet the same server answers settle after the first: a
      second event leaves the state the first produced, and the open detail is
      never disturbed. */
  lemma RepeatedEventsSettle(st: State, m1: Message, m2: Message, window: Window,
                             listReply: Reply<Option<seq<RawOrder>>>, countsReply: Reply<seq<RawOrder>>)
    ensures var once := HandleOrderEvent(st, m1, window, listReply, countsReply).step.state;
      && HandleOrderEvent(once, m2, window, listReply, countsReply).step.state == once
      && once.detail == st.detail && once.selected == st.selected
  {
    SilentRefreshIdempotent(st, window, listReply, countsReply);
  }
}
