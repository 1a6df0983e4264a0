/** OrderTask: the two scheduled sweeps over the order table. Each run reads the clock once,
    as now (in seconds). */
module OrderTask {
  import opened Common
  import opened Entities
  import opened Tables
  import opened OrderLifecycle
  import OrderService

  const TimeoutReason: string := "订单超时，自动取消"
  /** Fifteen minutes: an unpaid order older than this is cancelled. */
  const PaymentWindow: int := 15 * 60
  /** Sixty minutes: a delivery older than this is meant to be completed. */
  const DeliveryWindow: int := 60 * 60

  /** OrderMapper.getByStatusAndOrderTimeLT: the given status and an order time strictly
      before the threshold. */
  function StatusBefore(status: int, time: int): Order -> bool {
    (o: Order) => o.status == status && o.orderTime < time
  }

  predicate TimedOut(o: Order, now: int) {
    o.status == PendingPayment && o.orderTime < now - PaymentWindow
  }

  function TimeoutCancelled(o: Order, now: int): Order {
    o.(status := Cancelled, cancelReason := Some(TimeoutReason), cancelTime := Some(now))
  }

  /** The order table after processTimeoutOrder at time now. */
  function TimeoutSweep(m: map<int, Order>, now: int): (r: map<int, Order>)
    ensures r.Keys == m.Keys
    ensures forall k :: k in m && TimedOut(m[k], now) ==>
              r[k].status == Cancelled && r[k].cancelReason == Some(TimeoutReason) && r[k].cancelTime == Some(now)
    ensures forall k :: k in m && !TimedOut(m[k], now) ==> r[k] == m[k]
    ensures forall k :: k in m ==>
              r[k] == m[k].(status := r[k].status, cancelReason := r[k].cancelReason, cancelTime := r[k].cancelTime)
    ensures forall k :: k in r ==> !TimedOut(r[k], now)
    ensures AllWellFormed(m) ==> AllWellFormed(r)
  {
    map k | k in m :: if TimedOut(m[k], now) then TimeoutCancelled(m[k], now) else m[k]
  }

  /** A second sweep at the same time finds nothing to cancel and changes nothing. */
  lemma TimeoutSweepIdempotent(m: map<int, Order>, n: int, now: int)
    ensures Ids(TimeoutSweep(m, now), n, StatusBefore(PendingPayment, now - PaymentWindow)) == []
    ensures TimeoutSweep(TimeoutSweep(m, now), now) == TimeoutSweep(m, now)
  {
    NoIds(TimeoutSweep(m, now), n, StatusBefore(PendingPayment, now - PaymentWindow));
  }

  /** processTimeoutOrder: each selected order, as read, is cancelled with the timeout reason
      and written back. */
  method ProcessTimeoutOrder(db: Store, now: int)
    requires db.Valid()
    modifies db`orders
    ensures db.Valid()
    ensures db.orders == TimeoutSweep(old(db.orders), now)
  {
    var time := now - PaymentWindow;
    var ids := Ids(db.orders, db.nextOrderId, StatusBefore(PendingPayment, time));
    var ordersList := Rows(db.orders, ids);
    ghost var m := db.orders;
    for i := 0 to |ordersList|
      invariant db.Valid()
      invariant db.orders == CancelledAt(m, ids[..i], now)
    {
      var orders := ordersList[i];
      orders := orders.(status := Cancelled);
      orders := orders.(cancelReason := Some(TimeoutReason));
      orders := orders.(cancelTime := Some(now));
      CancelledAtStep(m, ids, i, now);
      db.UpdateOrder(ids[i], orders);
    }
    assert ids[..|ids|] == ids;
    SweepComplete(m, ids, db.nextOrderId, now);
  }

  /** The order table once the listed orders have been cancelled for timeout. */
  function CancelledAt(m: map<int, Order>, s: seq<int>, now: int): (r: map<int, Order>)
    ensures r.Keys == m.Keys
  {
    map k | k in m :: if k in s then TimeoutCancelled(m[k], now) else m[k]
  }

  lemma CancelledAtStep(m: map<int, Order>, ids: seq<int>, i: int, now: int)
    requires 0 <= i < |ids| && ids[i] in m
    ensures CancelledAt(m, ids[..i + 1], now) == CancelledAt(m, ids[..i], now)[ids[i] := TimeoutCancelled(m[ids[i]], now)]
  {
    assert ids[..i + 1] == ids[..i] + [ids[i]];
    SameTable(CancelledAt(m, ids[..i + 1], now), CancelledAt(m, ids[..i], now)[ids[i] := TimeoutCancelled(m[ids[i]], now)]);
  }

  /** Cancelling exactly the selected orders gives the sweep's table. */
  lemma SweepComplete(m: map<int, Order>, ids: seq<int>, n: int, now: int)
    requires ids == Ids(m, n, StatusBefore(PendingPayment, now - PaymentWindow)) && Below(m, n)
    ensures CancelledAt(m, ids, now) == TimeoutSweep(m, now)
  {
    var r := CancelledAt(m, ids, now);
    var t := TimeoutSweep(m, now);
    forall k | k in r
      ensures k in t && r[k] == t[k]
    {
      assert k in ids <==> TimedOut(m[k], now);
    }
    SameTable(r, t);
  }

  /** processDeliveryOrder, as written: the selected orders are set to COMPLETED in the
      returned copies only; no statement writes the order table. */
  method ProcessDeliveryOrder(db: Store, now: int) returns (ordersList: seq<Order>)
    requires db.Valid()
    ensures |ordersList| == |Ids(db.orders, db.nextOrderId, StatusBefore(DeliveryInProgress, now - DeliveryWindow))|
    ensures forall i :: 0 <= i < |ordersList| ==> ordersList[i].status == Completed
    ensures forall i :: 0 <= i < |ordersList| ==>
              var k := Ids(db.orders, db.nextOrderId, StatusBefore(DeliveryInProgress, now - DeliveryWindow))[i];
              ordersList[i] == db.orders[k].(status := Completed)
  {
    var time := now - DeliveryWindow;
    var ids := Ids(db.orders, db.nextOrderId, StatusBefore(DeliveryInProgress, time));
    ordersList := Rows(db.orders, ids);
    for i := 0 to |ordersList|
      invariant |ordersList| == |ids|
      invariant forall j :: 0 <= j < |ids| ==> ordersList[j] == if j < i then db.orders[ids[j]].(status := Completed) else db.orders[ids[j]]
    {
      ordersList := ordersList[i := ordersList[i].(status := Completed)];
    }
  }

  predicate DeliveryOverdue(o: Order, now: int) {
    o.status == DeliveryInProgress && o.orderTime < now - DeliveryWindow
  }

  /** processDeliveryOrder as evidently intended: the overdue deliveries are completed in the
      table, so none is left behind and nothing else changes. */
  function DeliverySweepPersisted(m: map<int, Order>, now: int): (r: map<int, Order>)
    ensures r.Keys == m.Keys
    ensures forall k :: k in r ==> !DeliveryOverdue(r[k], now)
    ensures forall k :: k in m && DeliveryOverdue(m[k], now) ==> r[k] == m[k].(status := Completed)
    ensures forall k :: k in m && !DeliveryOverdue(m[k], now) ==> r[k] == m[k]
    ensures AllWellFormed(m) ==> AllWellFormed(r)
  {
    map k | k in m :: if DeliveryOverdue(m[k], now) then m[k].(status := Completed) else m[k]
  }

  /** Any overdue delivery shows the difference: the persisted sweep completes it, while the
      sweep as written leaves the table, and so the order, as it was. */
  lemma OverdueDeliveryLeftInProgress(m: map<int, Order>, n: int, now: int, k: int)
    requires 0 <= k < n && k in m && DeliveryOverdue(m[k], now)
    ensures k in Ids(m, n, StatusBefore(DeliveryInProgress, now - DeliveryWindow))
    ensures m[k].status == DeliveryInProgress
    ensures DeliverySweepPersisted(m, now)[k].status == Completed
  {
  }

  /** One write the program makes to the order table: placing an order, a service call on one
      order (payment and paySuccess after the lookup by number), or a run of one of the
      scheduled tasks. */
  datatype OrderWrite =
    | Submit(id: int, dto: OrderService.OrdersSubmit, a: AddressBook, user: int, now: int, number: string)
    | RequestPayment(id: int)
    | Pay(id: int, now: int)
    | CancelByUser(id: int, now: int)
    | ConfirmOrder(id: int)
    | Reject(id: int, reason: Option<string>, now: int)
    | CancelByAdmin(id: int, reason: Option<string>, now: int)
    | Deliver(id: int)
    | CompleteOrder(id: int, now: int)
    | TimeoutTask(now: int)
    | DeliveryTask(now: int)

  /** The order table after one write; a call that fails leaves the table as it was. */
  function ApplyWrite(m: map<int, Order>, w: OrderWrite): (r: map<int, Order>)
    ensures AllWellFormed(m) ==> AllWellFormed(r)
  {
    match w
    case Submit(id, dto, a, user, now, number) =>
      if id in m then m else m[id := OrderService.NewOrder(dto, a, user, now, number)]
    case RequestPayment(id) => if id in m then Payment(m, id) else m
    case Pay(id, now) => if id in m then PaySuccess(m, id, now) else m
    case CancelByUser(id, now) => Written(m, UserCancel(m, id, now))
    case ConfirmOrder(id) => Confirm(m, id)
    case Reject(id, reason, now) => Written(m, Rejection(m, id, reason, now))
    case CancelByAdmin(id, reason, now) => Written(m, Cancel(m, id, reason, now))
    case Deliver(id) => Written(m, Delivery(m, id))
    case CompleteOrder(id, now) => Written(m, Complete(m, id, now))
    case TimeoutTask(now) => TimeoutSweep(m, now)
    // The task as written writes nothing (OverdueDeliveryLeftInProgress); the persisted sweep
    // writes more, so what holds after it also holds after the task as written.
    case DeliveryTask(now) => DeliverySweepPersisted(m, now)
  }

  function Written(m: map<int, Order>, r: Result<map<int, Order>>): map<int, Order> {
    if r.Success? then r.value else m
  }

  /** The order table after a run of writes, in order. */
  function ApplyWrites(m: map<int, Order>, ws: seq<OrderWrite>): map<int, Order>
    decreases |ws|
  {
    if ws == [] then m else ApplyWrites(ApplyWrite(m, ws[0]), ws[1..])
  }

  /** No run of writes, from a table of well-formed orders (the empty table among them), ever
      stores pay status REFUND. */
  lemma {:induction false} NoWritesRefund(m: map<int, Order>, ws: seq<OrderWrite>)
    requires AllWellFormed(m)
    ensures AllWellFormed(ApplyWrites(m, ws))
    ensures forall k :: k in ApplyWrites(m, ws) ==> ApplyWrites(m, ws)[k].payStatus != Refund
    decreases |ws|
  {
    if ws != [] {
      NoWritesRefund(ApplyWrite(m, ws[0]), ws[1..]);
    }
  }
}
