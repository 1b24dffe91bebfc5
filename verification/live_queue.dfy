/** The pure projections of the live order screen: which server status a tab asks
    for, how a fetched record becomes a list row, which rows are rendered, how the
    per-tab counts are derived, and how a push message is classified. */
module LiveQueue {
  import opened Wrappers
  import opened Text
  import opened Payload
  import OrdersService

  /** The screen's status tabs. */
  datatype Tab = New | InProgress | Complete

  /** The `status` query parameter each tab sends. */
  function StatusParam(tab: Tab): (s: string)
    ensures s == "pending" || s == "processing" || s == "completed"
  {
    match tab
    case New => "pending"
    case InProgress => "processing"
    case Complete => "completed"
  }

  /** The tab whose bucket a server status falls into, if any. */
  function TabOfStatus(s: string): (t: Option<Tab>)
    ensures t.Some? <==> (s == "pending" || s == "processing" || s == "completed")
    ensures t.Some? ==> StatusParam(t.value) == s
  {
    if s == "pending" then Some(New)
    else if s == "processing" then Some(InProgress)
    else if s == "completed" then Some(Complete)
    else None
  }

  /** The tab mapping is total and injective: it has `TabOfStatus` as its inverse. */
  lemma StatusParamInverse(tab: Tab)
    ensures TabOfStatus(StatusParam(tab)) == Some(tab)
  {
  }

  /** The type filter chips. */
  datatype TypeFilter = All | CollectionOnly | DeliveryOnly | Table

  /** Pressing a chip: selects it, or returns to `All` when it was already selected. */
  function ToggleChip(prev: TypeFilter, chip: TypeFilter): (r: TypeFilter)
    requires chip != All
    ensures r == All <==> prev == chip
    ensures r != All ==> r == chip
  {
    if prev == chip then All else chip
  }

  /** Pressing the same chip twice returns to `All`, unless it started selected. */
  lemma ToggleChipTwice(prev: TypeFilter, chip: TypeFilter)
    requires chip != All
    ensures ToggleChip(ToggleChip(prev, chip), chip) == (if prev == chip then chip else All)
  {
  }

  /** A list row of the live screen. */
  datatype Row = Row(
    id: Option<string>,
    customer: string,
    kind: Fulfilment,
    total: int,
    etaMins: int,
    status: Tab)

  /** The default estimate shown when the server sends none. */
  const DefaultEtaMins := 20

  /** `o.orderType === 'delivery' || o.deliveryMethod === 'delivery'`. */
  function ListKind(orderType: Option<string>, deliveryMethod: Option<string>): (k: Fulfilment)
    ensures k == Delivery <==> IsText(orderType, "delivery") || IsText(deliveryMethod, "delivery")
  {
    if IsText(orderType, "delivery") || IsText(deliveryMethod, "delivery") then Delivery else Collection
  }

  /** Maps a fetched record into a row of the tab that fetched it. */
  function MapRow(o: OrdersService.LiveOrder, tab: Tab): (r: Row)
    ensures r.id == o.id && r.status == tab
    ensures r.etaMins == FirstSome([o.estimatedTimeToComplete]).GetOr(DefaultEtaMins)
    ensures r.total == FirstSome([o.finalTotal, Some(o.total)]).GetOr(0)
    ensures r.kind == Delivery <==> IsText(o.orderType, "delivery") || IsText(o.deliveryMethod, "delivery")
    ensures var u := o.user;
      r.customer == NameOrEmail(
        if u.Some? then u.value.firstName else None,
        if u.Some? then u.value.lastName else None,
        if u.Some? then u.value.email else None,
        "Customer")
  {
    assert [o.finalTotal, Some(o.total)][1..] == [Some(o.total)];
    var u := o.user;
    Row(
      id := o.id,
      customer := NameOrEmail(
        if u.Some? then u.value.firstName else None,
        if u.Some? then u.value.lastName else None,
        if u.Some? then u.value.email else None,
        "Customer"),
      kind := ListKind(o.orderType, o.deliveryMethod),
      total := o.finalTotal.GetOr(o.total),
      etaMins := o.estimatedTimeToComplete.GetOr(DefaultEtaMins),
      status := tab)
  }

  /** The rows a list refresh stores: every fetched record, in order, as a row of the tab. */
  function MapRows(xs: seq<OrdersService.LiveOrder>, tab: Tab): (r: seq<Row>)
    ensures |r| == |xs|
    ensures forall i | 0 <= i < |r| :: r[i] == MapRow(xs[i], tab)
    ensures forall x | x in r :: x.status == tab
  {
    seq(|xs|, i requires 0 <= i < |xs| => MapRow(xs[i], tab))
  }

  /** End to end from the server record: the row's total is `finalTotal ?? totalAmount ??
      total ?? 0` and it is a delivery exactly when the raw `orderType` or `deliveryMethod`
      says so (normalisation copies `deliveryMethod` into an empty `orderType`). */
  lemma RowFromRaw(raw: RawOrder, tab: Tab)
    ensures var r := MapRow(OrdersService.Normalize(raw), tab);
      && r.total == FirstSome([raw.finalTotal, raw.totalAmount, raw.total]).GetOr(0)
      && (r.kind == Delivery <==> IsText(raw.orderType, "delivery") || IsText(raw.deliveryMethod, "delivery"))
  {
    var xs := [raw.finalTotal, raw.totalAmount, raw.total];
    assert xs[1..] == [raw.totalAmount, raw.total];
    assert xs[1..][1..] == [raw.total] && [raw.total][1..] == [];
    var ys := [raw.totalAmount, raw.total];
    assert ys[1..] == [raw.total];
    assert [raw.orderType, raw.deliveryMethod][1..] == [raw.deliveryMethod] && [raw.deliveryMethod][1..] == [];
  }

  /** Whether the rendered list keeps a row: it belongs to the tab and passes the type filter. */
  predicate Keeps(x: Row, tab: Tab, filter: TypeFilter) {
    x.status == tab
    && match filter
       case All => true
       case Table => false
       case CollectionOnly => x.kind == Collection
       case DeliveryOnly => x.kind == Delivery
  }

  /** `a` can be obtained from `b` by deleting elements. */
  predicate IsSubsequence<T(==)>(a: seq<T>, b: seq<T>)
    decreases |b|
  {
    if a == [] then true
    else if b == [] then false
    else if a[0] == b[0] then IsSubsequence(a[1..], b[1..])
    else IsSubsequence(a, b[1..])
  }

  /** The `filtered` list the screen renders. */
  function Visible(orders: seq<Row>, tab: Tab, filter: TypeFilter): (r: seq<Row>)
    ensures IsSubsequence(r, orders)
    ensures forall x :: multiset(r)[x] == if Keeps(x, tab, filter) then multiset(orders)[x] else 0
    ensures forall x :: x in r <==> x in orders && Keeps(x, tab, filter)
    ensures filter == Table ==> r == []
  {
    if orders == [] then []
    else
      var rest := Visible(orders[1..], tab, filter);
      assert orders == [orders[0]] + orders[1..];
      if Keeps(orders[0], tab, filter) then
        assert ([orders[0]] + rest)[1..] == rest;
        [orders[0]] + rest
      else
        assert rest == [] || rest[0] != orders[0] by {
          if rest != [] { assert rest[0] in rest; }
        }
        rest
  }

  /** Rows left over from another tab (a failed refresh after switching) are never shown. */
  lemma StaleRowsHidden(orders: seq<Row>, tab: Tab, filter: TypeFilter)
    requires forall x | x in orders :: x.status != tab
    ensures Visible(orders, tab, filter) == []
  {
  }

  /** The per-tab badge counts. */
  datatype Counts = Counts(newCount: nat, inProgressCount: nat, completeCount: nat) {
    function Sum(): nat {
      newCount + inProgressCount + completeCount
    }
  }

  const ZeroCounts := Counts(0, 0, 0)

  /** Number of records whose status is exactly `s`. */
  function CountStatus(orders: seq<RawOrder>, s: string): (n: nat)
    ensures n <= |orders|
  {
    if orders == [] then 0
    else (if orders[0].status == Some(s) then 1 else 0) + CountStatus(orders[1..], s)
  }

  /** Whether a record's status is one of the three tab statuses. */
  predicate Bucketed(o: RawOrder) {
    o.status.Some? && TabOfStatus(o.status.value).Some?
  }

  /** Number of records in no bucket (cancelled, missing or unknown status). */
  function CountUnbucketed(orders: seq<RawOrder>): (n: nat)
    ensures n <= |orders|
  {
    if orders == [] then 0
    else (if Bucketed(orders[0]) then 0 else 1) + CountUnbucketed(orders[1..])
  }

  /** The three buckets plus the unbucketed records account for every record once. */
  lemma {:induction false} PartitionSum(orders: seq<RawOrder>)
    ensures CountStatus(orders, "pending") + CountStatus(orders, "processing")
      + CountStatus(orders, "completed") + CountUnbucketed(orders) == |orders|
  {
    if orders != [] {
      PartitionSum(orders[1..]);
    }
  }

  /** `setCounts({new, inProgress, complete})` from the records of the date window:
      each bucket is the number of records with exactly that server status. */
  function PartitionCounts(orders: seq<RawOrder>): (c: Counts)
    ensures c.newCount == CountStatus(orders, StatusParam(New))
    ensures c.inProgressCount == CountStatus(orders, StatusParam(InProgress))
    ensures c.completeCount == CountStatus(orders, StatusParam(Complete))
    ensures c.Sum() + CountUnbucketed(orders) == |orders|
    ensures c.Sum() <= |orders|
  {
    PartitionSum(orders);
    Counts(
      CountStatus(orders, "pending"),
      CountStatus(orders, "processing"),
      CountStatus(orders, "completed"))
  }

  /** Counting distributes over concatenation. */
  lemma {:induction false} CountStatusAppend(a: seq<RawOrder>, b: seq<RawOrder>, s: string)
    ensures CountStatus(a + b, s) == CountStatus(a, s) + CountStatus(b, s)
  {
    if a != [] {
      assert (a + b)[1..] == a[1..] + b;
      CountStatusAppend(a[1..], b, s);
    } else {
      assert a + b == b;
    }
  }

  /** One more record raises exactly the bucket of its status, and none when its
      status is outside the three (a cancelled order changes no count). */
  lemma AddOneRecord(orders: seq<RawOrder>, o: RawOrder)
    ensures var before, after := PartitionCounts(orders), PartitionCounts(orders + [o]);
      && after.newCount == before.newCount + (if o.status == Some("pending") then 1 else 0)
      && after.inProgressCount == before.inProgressCount + (if o.status == Some("processing") then 1 else 0)
      && after.completeCount == before.completeCount + (if o.status == Some("completed") then 1 else 0)
      && (!Bucketed(o) ==> after == before)
  {
    CountStatusAppend(orders, [o], "pending");
    CountStatusAppend(orders, [o], "processing");
    CountStatusAppend(orders, [o], "completed");
    assert [o][1..] == [];
  }

  /** The server `orderType` value a chip selects (`All` selects everything). */
  function FilterName(filter: TypeFilter): string
    requires filter != All
  {
    match filter
    case CollectionOnly => "collection"
    case DeliveryOnly => "delivery"
    case Table => "table"
  }

  /** Whether the counts effect keeps a record under a filter. */
  predicate TypeMatches(o: RawOrder, filter: TypeFilter) {
    filter == All || o.orderType == Some(FilterName(filter))
  }

  /** The counts effect's pre-filter: `typeFilter === 'all' ? true : o.orderType === typeFilter`. */
  function ByOrderType(orders: seq<RawOrder>, filter: TypeFilter): (r: seq<RawOrder>)
    ensures |r| <= |orders|
    ensures IsSubsequence(r, orders)
    ensures forall x :: multiset(r)[x] == if TypeMatches(x, filter) then multiset(orders)[x] else 0
    ensures forall x :: x in r <==> x in orders && TypeMatches(x, filter)
    ensures filter == All ==> r == orders
  {
    if orders == [] then []
    else
      var rest := ByOrderType(orders[1..], filter);
      assert orders == [orders[0]] + orders[1..];
      if TypeMatches(orders[0], filter) then
        assert ([orders[0]] + rest)[1..] == rest;
        [orders[0]] + rest
      else
        assert rest == [] || rest[0] != orders[0] by {
          if rest != [] { assert rest[0] in rest; }
        }
        rest
  }

  /** Reference count for the filtered badges, read straight off the records: those
      with status `s` whose `orderType` passes the filter. */
  function CountWhere(orders: seq<RawOrder>, s: string, filter: TypeFilter): nat {
    if orders == [] then 0
    else (if orders[0].status == Some(s) && TypeMatches(orders[0], filter) then 1 else 0) + CountWhere(orders[1..], s, filter)
  }

  /** Counting a status after the type pre-filter is counting the records that
      match both. */
  lemma {:induction false} ByOrderTypeCount(orders: seq<RawOrder>, filter: TypeFilter, s: string)
    ensures CountStatus(ByOrderType(orders, filter), s) == CountWhere(orders, s, filter)
  {
    if orders != [] {
      ByOrderTypeCount(orders[1..], filter, s);
      var rest := ByOrderType(orders[1..], filter);
      if TypeMatches(orders[0], filter) {
        var r := [orders[0]] + rest;
        assert ByOrderType(orders, filter) == r;
        assert r[0] == orders[0] && r[1..] == rest;
        assert CountStatus(r, s) == (if orders[0].status == Some(s) then 1 else 0) + CountStatus(rest, s);
      } else {
        assert ByOrderType(orders, filter) == rest;
      }
    }
  }

  /** The counts `computeCounts` writes: each badge counts the window's records with
      that tab's status and an `orderType` the filter accepts. */
  function EffectCounts(orders: seq<RawOrder>, filter: TypeFilter): (c: Counts)
    ensures c.newCount == CountWhere(orders, "pending", filter)
    ensures c.inProgressCount == CountWhere(orders, "processing", filter)
    ensures c.completeCount == CountWhere(orders, "completed", filter)
    ensures filter == All ==> c == PartitionCounts(orders)
    ensures c.Sum() <= |orders|
  {
    ByOrderTypeCount(orders, filter, "pending");
    ByOrderTypeCount(orders, filter, "processing");
    ByOrderTypeCount(orders, filter, "completed");
    PartitionCounts(ByOrderType(orders, filter))
  }

  /** Filtering by type never raises a bucket above the unfiltered count. */
  lemma {:induction false} ByOrderTypeCountBound(orders: seq<RawOrder>, filter: TypeFilter, s: string)
    ensures CountStatus(ByOrderType(orders, filter), s) <= CountStatus(orders, s)
  {
    if orders != [] {
      ByOrderTypeCountBound(orders[1..], filter, s);
      var rest := ByOrderType(orders[1..], filter);
      if TypeMatches(orders[0], filter) {
        assert ([orders[0]] + rest)[1..] == rest;
      }
    }
  }

  /** Each bucket of the filtered counts is at most the unfiltered bucket. */
  lemma EffectCountsBounded(orders: seq<RawOrder>, filter: TypeFilter)
    ensures var e, p := EffectCounts(orders, filter), PartitionCounts(orders);
      e.newCount <= p.newCount && e.inProgressCount <= p.inProgressCount && e.completeCount <= p.completeCount
  {
    ByOrderTypeCountBound(orders, filter, "pending");
    ByOrderTypeCountBound(orders, filter, "processing");
    ByOrderTypeCountBound(orders, filter, "completed");
  }

  /** The `table` chip empties the list but not the badges: the counts effect keeps
      records whose `orderType` is 'table', while `Visible` drops every row. */
  lemma TableChipDisagreement(rows: seq<Row>, tab: Tab)
    ensures var o := EmptyOrder.(status := Some("pending"), orderType := Some("table"));
      EffectCounts([o], Table).newCount == 1 && Visible(rows, tab, Table) == []
  {
    var o := EmptyOrder.(status := Some("pending"), orderType := Some("table"));
    assert ByOrderType([o], Table) == [o] by {
      assert [o][1..] == [];
    }
    assert [o][1..] == [];
  }

  /** The minute increments the delay menu offers. */
  const DelayMenu: seq<int> := [5, 10, 15, 20, 25, 30, 35, 40, 50]

  /** An inbound push message: a bare string, an object with optional `event`
      and `type` fields, or anything else. */
  datatype Message = Text(text: string) | Object(event: Option<string>, kind: Option<string>) | Other

  /** `message?.event === 'order_created' || message?.type === 'order_created'
      || message === 'order_created'`. */
  predicate IsOrderCreated(m: Message) {
    match m
    case Text(s) => s == "order_created"
    case Object(e, k) => e == Some("order_created") || k == Some("order_created")
    case Other => false
  }
}
