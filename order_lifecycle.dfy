/** What each order operation of OrderServiceImpl does to the order table, as functions of
    the table before the call. The methods of OrderService are proved to write exactly these
    tables; the properties of the lifecycle are proved here, about the functions. */
module OrderLifecycle {
  import opened Common
  import opened Entities
  import opened Tables

  /** A JSON scalar as the serializer writes it: a quoted string or a bare number. */
  datatype JsonScalar = JsonString(text: string) | JsonNumber(value: int)

  /** The message pushed to every connected admin client (a WebSocket broadcast); kind is the
      "type" member exactly as it is put into the map. */
  datatype Notification = Notification(kind: JsonScalar, orderId: int, content: string)

  /** OrderMapper.update(patch) for the row with the given id: a missing row is left alone. */
  function Patched(m: map<int, Order>, id: int, p: OrderPatch): (r: map<int, Order>)
    ensures r.Keys == m.Keys
    ensures forall k :: k in m && k != id ==> r[k] == m[k]
    ensures id in m ==> r[id] == ApplyPatch(m[id], p)
  {
    if id in m then m[id := ApplyPatch(m[id], p)] else m
  }

  /** The values the code ever stores in an order: a status constant, and in payStatus
      UN_PAID, PAID or the CANCELLED constant that userCancelById writes there. */
  predicate WellFormed(o: Order) {
    && PendingPayment <= o.status <= Cancelled
    && (o.payStatus == UnPaid || o.payStatus == Paid || o.payStatus == Cancelled)
  }

  predicate AllWellFormed(m: map<int, Order>) {
    forall k :: k in m ==> WellFormed(m[k])
  }

  /** The row of m with the given id changed as f says, every other row and the set of ids
      left as they were. */
  ghost predicate OnlyRowChanged(m: map<int, Order>, r: map<int, Order>, id: int) {
    && r.Keys == m.Keys
    && forall k :: k in m && k != id ==> r[k] == m[k]
  }

  function HasNumber(number: string, user: int): Order -> bool {
    (o: Order) => o.number == number && o.userId == user
  }

  /** A select of one row by the condition p, followed by a dereference of the result: no row
      is a NullPointerException, two rows are too many results for one object. */
  function FindOne(m: map<int, Order>, n: int, p: Order -> bool): (r: Result<int>)
    ensures r.Success? ==> r.value in m && p(m[r.value])
    ensures r.Failure? ==> r.error == NullPointer || r.error == TooManyResults
  {
    var ids := Ids(m, n, p);
    if |ids| == 0 then Failure(NullPointer)
    else if |ids| > 1 then Failure(TooManyResults)
    else
      assert ids[0] in ids;
      Success(ids[0])
  }

  /** OrderMapper.getByNumberAndUserId followed by ordersDB.getId(). */
  function FindByNumber(m: map<int, Order>, n: int, number: string, user: int): (r: Result<int>)
    ensures r.Success? ==> r.value in m && m[r.value].number == number && m[r.value].userId == user
    ensures r.Failure? ==> r.error == NullPointer || r.error == TooManyResults
  {
    FindOne(m, n, HasNumber(number, user))
  }

  function NumberIs(number: string): Order -> bool {
    (o: Order) => o.number == number
  }

  /** OrderMapper.getByNumber (any user's order) followed by byNumber.setStatus. */
  function FindByOrderNumber(m: map<int, Order>, n: int, number: string): (r: Result<int>)
    ensures r.Success? ==> r.value in m && m[r.value].number == number
    ensures r.Failure? ==> r.error == NullPointer || r.error == TooManyResults
  {
    FindOne(m, n, NumberIs(number))
  }

  /** The lookup is null exactly when the user has no order with that number, and finds the
      order when it is the only one. */
  lemma FindByNumberExact(m: map<int, Order>, n: int, number: string, user: int)
    requires Below(m, n)
    ensures (forall k :: k in m ==> !HasNumber(number, user)(m[k])) <==>
              FindByNumber(m, n, number, user) == Failure(NullPointer)
    ensures forall id :: id in m && HasNumber(number, user)(m[id])
                         && (forall k :: k in m && HasNumber(number, user)(m[k]) ==> k == id)
                         ==> FindByNumber(m, n, number, user) == Success(id)
  {
    var ids := Ids(m, n, HasNumber(number, user));
    if ids != [] {
      assert ids[0] in ids;
    }
    if |ids| > 1 {
      assert ids[0] in ids && ids[1] in ids && ids[0] < ids[1];
    }
  }

  /** paySuccess: the order becomes TO_BE_CONFIRMED and PAID, checked out now, whatever its
      status was. */
  function PaySuccess(m: map<int, Order>, id: int, now: int): (r: map<int, Order>)
    requires id in m
    ensures OnlyRowChanged(m, r, id)
    ensures r[id] == m[id].(status := ToBeConfirmed, payStatus := Paid, checkoutTime := Some(now))
    ensures AllWellFormed(m) ==> AllWellFormed(r)
  {
    Patched(m, id, NoChange.(status := Some(ToBeConfirmed), payStatus := Some(Paid), checkoutTime := Some(now)))
  }

  /** payment: the order read by its number is written back with status TO_BE_CONFIRMED and
      nothing else changed (its other non-null fields are the stored ones), whatever its status
      or pay status was. */
  function Payment(m: map<int, Order>, id: int): (r: map<int, Order>)
    requires id in m
    ensures OnlyRowChanged(m, r, id)
    ensures r[id] == m[id].(status := ToBeConfirmed)
    ensures AllWellFormed(m) ==> AllWellFormed(r)
  {
    Patched(m, id, NoChange.(status := Some(ToBeConfirmed)))
  }

  /** The status payment writes is the one paySuccess writes next, so payment followed by
      paySuccess leaves what paySuccess alone does. */
  lemma PaymentThenPaySuccess(m: map<int, Order>, id: int, now: int)
    requires id in m
    ensures PaySuccess(Payment(m, id), id, now) == PaySuccess(m, id, now)
  {
  }

  /** The broadcast after a payment: type "1" (a new order), put in as a string where the
      reminder puts a number, the order's id, and its number after the "order number" label. */
  function PaySuccessNotice(id: int, number: string): (r: Notification)
    ensures r.kind == JsonString("1") && r.orderId == id
    ensures |r.content| == |"订单号："| + |number| && r.content[|"订单号："|..] == number
  {
    Notification(JsonString("1"), id, "订单号：" + number)
  }

  const UserCancelReason: string := "用户取消"

  /** userCancelById as written: it stores the CANCELLED constant in payStatus, stamps
      orderTime and never sets status or cancelTime. */
  function UserCancel(m: map<int, Order>, id: int, now: int): (r: Result<map<int, Order>>)
    ensures id !in m ==> r == Failure(Business(OrderNotFound))
    ensures id in m && m[id].status > ToBeConfirmed ==> r == Failure(Business(OrderStatusError))
    ensures r.Success? <==> id in m && m[id].status <= ToBeConfirmed
    ensures r.Success? ==> OnlyRowChanged(m, r.value, id)
    ensures r.Success? ==> r.value[id] == m[id].(payStatus := Cancelled, cancelReason := Some(UserCancelReason), orderTime := now)
    ensures r.Success? && AllWellFormed(m) ==> AllWellFormed(r.value)
  {
    if id !in m then Failure(Business(OrderNotFound))
    else if m[id].status > 2 then Failure(Business(OrderStatusError))
    else
      // the REFUND written into the object is overwritten before the object is stored
      var p := NoChange.(payStatus := Some(Refund));
      var p := p.(payStatus := Some(Cancelled), cancelReason := Some(UserCancelReason), orderTime := Some(now));
      Success(Patched(m, id, p))
  }

  /** The refund that userCancelById asks the payment gateway for: keyed on the status, not
      on the pay status. */
  predicate UserCancelRefunds(o: Order) {
    o.status == ToBeConfirmed
  }

  /** confirm: no guard at all; a missing id writes nothing. */
  function Confirm(m: map<int, Order>, id: int): (r: map<int, Order>)
    ensures OnlyRowChanged(m, r, id)
    ensures id in m ==> r[id] == m[id].(status := Confirmed)
    ensures AllWellFormed(m) ==> AllWellFormed(r)
  {
    Patched(m, id, NoChange.(status := Some(Confirmed)))
  }

  /** rejection: only from TO_BE_CONFIRMED; the pay status is left as it was even when the
      order was paid and a refund was asked for. */
  function Rejection(m: map<int, Order>, id: int, reason: Option<string>, now: int): (r: Result<map<int, Order>>)
    ensures r.Success? <==> id in m && m[id].status == ToBeConfirmed
    ensures r.Failure? ==> r.error == Business(OrderStatusError)
    ensures r.Success? ==> OnlyRowChanged(m, r.value, id)
    ensures r.Success? ==> r.value[id] == m[id].(status := Cancelled, rejectionReason := OrKeep(reason, m[id].rejectionReason), cancelTime := Some(now))
    ensures r.Success? && AllWellFormed(m) ==> AllWellFormed(r.value)
  {
    if id !in m || m[id].status != ToBeConfirmed then Failure(Business(OrderStatusError))
    else Success(Patched(m, id, NoChange.(status := Some(Cancelled), rejectionReason := reason, cancelTime := Some(now))))
  }

  predicate PaidRefunds(o: Order) {
    o.payStatus == Paid
  }

  /** cancel (by the merchant): no status guard, a missing order is a NullPointerException,
      the pay status is left as it was. */
  function Cancel(m: map<int, Order>, id: int, reason: Option<string>, now: int): (r: Result<map<int, Order>>)
    ensures r.Failure? <==> id !in m
    ensures r.Failure? ==> r.error == NullPointer
    ensures r.Success? ==> OnlyRowChanged(m, r.value, id)
    ensures r.Success? ==> r.value[id] == m[id].(status := Cancelled, cancelReason := OrKeep(reason, m[id].cancelReason), cancelTime := Some(now))
    ensures r.Success? && AllWellFormed(m) ==> AllWellFormed(r.value)
  {
    if id !in m then Failure(NullPointer)
    else Success(Patched(m, id, NoChange.(status := Some(Cancelled), cancelReason := reason, cancelTime := Some(now))))
  }

  /** delivery: only from CONFIRMED, to DELIVERY_IN_PROGRESS. */
  function Delivery(m: map<int, Order>, id: int): (r: Result<map<int, Order>>)
    ensures r.Success? <==> id in m && m[id].status == Confirmed
    ensures r.Failure? ==> r.error == Business(OrderStatusError)
    ensures r.Success? ==> OnlyRowChanged(m, r.value, id)
    ensures r.Success? ==> r.value[id] == m[id].(status := DeliveryInProgress)
    ensures r.Success? && AllWellFormed(m) ==> AllWellFormed(r.value)
  {
    if id !in m || m[id].status != Confirmed then Failure(Business(OrderStatusError))
    else Success(Patched(m, id, NoChange.(status := Some(DeliveryInProgress))))
  }

  /** complete: only from DELIVERY_IN_PROGRESS, to COMPLETED with the delivery time set. */
  function Complete(m: map<int, Order>, id: int, now: int): (r: Result<map<int, Order>>)
    ensures r.Success? <==> id in m && m[id].status == DeliveryInProgress
    ensures r.Failure? ==> r.error == Business(OrderStatusError)
    ensures r.Success? ==> OnlyRowChanged(m, r.value, id)
    ensures r.Success? ==> r.value[id] == m[id].(status := Completed, deliveryTime := Some(now))
    ensures r.Success? && AllWellFormed(m) ==> AllWellFormed(r.value)
  {
    if id !in m || m[id].status != DeliveryInProgress then Failure(Business(OrderStatusError))
    else Success(Patched(m, id, NoChange.(status := Some(Completed), deliveryTime := Some(now))))
  }

  /** reminder: reads the order and pushes a message; a missing order is reported with the
      status-error message. */
  function Reminder(m: map<int, Order>, id: int): (r: Result<Notification>)
    ensures r.Failure? <==> id !in m
    ensures r.Failure? ==> r.error == Business(OrderStatusError)
    ensures r.Success? ==> r.value.kind == JsonNumber(2) && r.value.orderId == id && r.value.content == "订单号" + m[id].number
  {
    if id !in m then Failure(Business(OrderStatusError))
    else Success(Notification(JsonNumber(2), id, "订单号" + m[id].number))
  }

  // ---------------------------------------------------------------------------------------
  // The lifecycle as a whole

  /** The transitions the order lifecycle is designed to allow: forward along
      PENDING_PAYMENT, TO_BE_CONFIRMED, CONFIRMED, DELIVERY_IN_PROGRESS, COMPLETED, and
      to CANCELLED from the first two. */
  predicate DesignStep(from: int, to: int) {
    || (from == PendingPayment && to == ToBeConfirmed)
    || (from == ToBeConfirmed && to == Confirmed)
    || (from == Confirmed && to == DeliveryInProgress)
    || (from == DeliveryInProgress && to == Completed)
    || ((from == PendingPayment || from == ToBeConfirmed) && to == Cancelled)
  }

  /** The guarded transitions keep to the designed lifecycle. */
  lemma GuardedStepsFollowDesign(m: map<int, Order>, id: int, reason: Option<string>, now: int)
    requires id in m
    ensures Delivery(m, id).Success? ==> DesignStep(m[id].status, Delivery(m, id).value[id].status)
    ensures Complete(m, id, now).Success? ==> DesignStep(m[id].status, Complete(m, id, now).value[id].status)
    ensures Rejection(m, id, reason, now).Success? ==> DesignStep(m[id].status, Rejection(m, id, reason, now).value[id].status)
  {
  }

  /** Completed and cancelled are not terminal: confirm moves a completed order back to
      CONFIRMED and cancel cancels it. */
  lemma {:induction false} TerminalStatesReopen(m: map<int, Order>, id: int, now: int)
    requires id in m && m[id].status == Completed
    ensures Confirm(m, id)[id].status == Confirmed && !DesignStep(Completed, Confirmed)
    ensures Cancel(m, id, None, now).Success? && Cancel(m, id, None, now).value[id].status == Cancelled
    ensures !DesignStep(Completed, Cancelled)
  {
  }

  /** Payment has no guard: an order that is completed and paid goes back to
      TO_BE_CONFIRMED, a step the design does not have. */
  lemma PaymentReopens(m: map<int, Order>, id: int)
    requires id in m && m[id].status == Completed && m[id].payStatus == Paid
    ensures Payment(m, id)[id].status == ToBeConfirmed && Payment(m, id)[id].payStatus == Paid
    ensures !DesignStep(Completed, ToBeConfirmed)
  {
  }

  /** Merchant cancel has no guard and keeps the pay status: a paid order that is confirmed
      (or later) is cancelled and stays PAID, breaking NoCancelledPaid. */
  lemma CancelKeepsPaid(m: map<int, Order>, id: int, reason: Option<string>, now: int)
    requires id in m && m[id].status == Confirmed && m[id].payStatus == Paid
    ensures Cancel(m, id, reason, now).Success?
    ensures Cancel(m, id, reason, now).value[id].status == Cancelled
    ensures Cancel(m, id, reason, now).value[id].payStatus == Paid
    ensures !NoCancelledPaid(Cancel(m, id, reason, now).value)
    ensures !DesignStep(Confirmed, Cancelled)
  {
  }

  /** No order is ever stored with pay status REFUND: every write of REFUND is overwritten
      or missing. */
  lemma NoOrderIsRefunded(m: map<int, Order>, k: int)
    requires AllWellFormed(m) && k in m
    ensures m[k].payStatus != Refund
  {
  }

  /** A paid order that is rejected is CANCELLED and still PAID. */
  lemma RejectionKeepsPaid(m: map<int, Order>, id: int, reason: Option<string>, now: int)
    requires id in m && m[id].status == ToBeConfirmed && m[id].payStatus == Paid
    ensures PaidRefunds(m[id])
    ensures Rejection(m, id, reason, now).Success?
    ensures Rejection(m, id, reason, now).value[id].status == Cancelled
    ensures Rejection(m, id, reason, now).value[id].payStatus == Paid
  {
  }

  /** A user cancellation leaves the status where it was and the order still pending. */
  lemma UserCancelLeavesStatus(m: map<int, Order>, id: int, now: int)
    requires id in m && m[id].status <= ToBeConfirmed
    ensures UserCancel(m, id, now).Success?
    ensures UserCancel(m, id, now).value[id].status == m[id].status
    ensures UserCancel(m, id, now).value[id].payStatus == Cancelled
    ensures UserCancel(m, id, now).value[id].cancelTime == m[id].cancelTime
  {
  }

  // ---------------------------------------------------------------------------------------
  // The intended behaviour, next to the code as written

  /** No cancelled order is still marked paid. */
  predicate NoCancelledPaid(m: map<int, Order>) {
    forall k :: k in m && m[k].status == Cancelled ==> m[k].payStatus != Paid
  }

  /** userCancelById as evidently intended: the order is cancelled, its cancel time stamped,
      and a TO_BE_CONFIRMED (paid) order is marked refunded. */
  function UserCancelIntended(m: map<int, Order>, id: int, now: int): (r: Result<map<int, Order>>)
    ensures r.Success? <==> id in m && m[id].status <= ToBeConfirmed
    ensures r.Success? ==> OnlyRowChanged(m, r.value, id)
    ensures r.Success? ==> r.value[id].status == Cancelled && r.value[id].cancelTime == Some(now)
    ensures r.Success? ==> r.value[id].orderTime == m[id].orderTime
    ensures r.Success? ==> r.value[id].payStatus == if m[id].status == ToBeConfirmed then Refund else m[id].payStatus
    ensures r.Success? && NoCancelledPaid(m) && (m[id].payStatus == Paid ==> m[id].status == ToBeConfirmed) ==> NoCancelledPaid(r.value)
  {
    if id !in m then Failure(Business(OrderNotFound))
    else if m[id].status > 2 then Failure(Business(OrderStatusError))
    else
      var pay := if m[id].status == ToBeConfirmed then Some(Refund) else None;
      Success(Patched(m, id, NoChange.(status := Some(Cancelled), payStatus := pay,
                                       cancelReason := Some(UserCancelReason), cancelTime := Some(now))))
  }

  /** rejection as evidently intended: a paid order that is refunded is marked REFUND. */
  function RejectionIntended(m: map<int, Order>, id: int, reason: Option<string>, now: int): (r: Result<map<int, Order>>)
    ensures r.Success? <==> id in m && m[id].status == ToBeConfirmed
    ensures r.Success? ==> OnlyRowChanged(m, r.value, id) && r.value[id].status == Cancelled
    ensures r.Success? && m[id].payStatus == Paid ==> r.value[id].payStatus == Refund
    ensures r.Success? && NoCancelledPaid(m) ==> NoCancelledPaid(r.value)
  {
    if id !in m || m[id].status != ToBeConfirmed then Failure(Business(OrderStatusError))
    else
      var pay := if m[id].payStatus == Paid then Some(Refund) else None;
      Success(Patched(m, id, NoChange.(status := Some(Cancelled), payStatus := pay,
                                       rejectionReason := reason, cancelTime := Some(now))))
  }

  /** cancel (by the merchant) as evidently intended: a missing order is reported, only an
      order not yet confirmed can be cancelled, and a paid order, which is refunded, is marked
      REFUND. */
  function CancelIntended(m: map<int, Order>, id: int, reason: Option<string>, now: int): (r: Result<map<int, Order>>)
    ensures r.Success? <==> id in m && (m[id].status == PendingPayment || m[id].status == ToBeConfirmed)
    ensures id !in m ==> r == Failure(Business(OrderNotFound))
    ensures id in m && !r.Success? ==> r == Failure(Business(OrderStatusError))
    ensures r.Success? ==> OnlyRowChanged(m, r.value, id)
    ensures r.Success? ==> DesignStep(m[id].status, r.value[id].status) && r.value[id].cancelTime == Some(now)
    ensures r.Success? ==> r.value[id].payStatus == if m[id].payStatus == Paid then Refund else m[id].payStatus
    ensures r.Success? && NoCancelledPaid(m) ==> NoCancelledPaid(r.value)
  {
    if id !in m then Failure(Business(OrderNotFound))
    else if m[id].status != PendingPayment && m[id].status != ToBeConfirmed then Failure(Business(OrderStatusError))
    else
      var pay := if m[id].payStatus == Paid then Some(Refund) else None;
      Success(Patched(m, id, NoChange.(status := Some(Cancelled), payStatus := pay,
                                       cancelReason := reason, cancelTime := Some(now))))
  }

  /** payment as evidently intended by its "already paid" branch: a paid order is refused and
      left as it was. */
  function PaymentIntended(m: map<int, Order>, id: int): (r: Result<map<int, Order>>)
    requires id in m
    ensures r.Failure? <==> m[id].payStatus == Paid
    ensures r.Failure? ==> r.error == Business(OrderPaid)
    ensures r.Success? ==> OnlyRowChanged(m, r.value, id) && r.value[id] == m[id].(status := ToBeConfirmed)
  {
    if m[id].payStatus == Paid then Failure(Business(OrderPaid))
    else Success(Payment(m, id))
  }

  /** confirm as evidently intended: only a TO_BE_CONFIRMED order can be confirmed, so a
      second confirmation fails and changes nothing. */
  function ConfirmIntended(m: map<int, Order>, id: int): (r: Result<map<int, Order>>)
    ensures r.Success? <==> id in m && m[id].status == ToBeConfirmed
    ensures r.Success? ==> OnlyRowChanged(m, r.value, id) && r.value[id] == m[id].(status := Confirmed)
  {
    if id !in m || m[id].status != ToBeConfirmed then Failure(Business(OrderStatusError))
    else Success(Patched(m, id, NoChange.(status := Some(Confirmed))))
  }

  /** Confirming twice: the second confirmation fails and a completed order cannot be
      confirmed again. */
  lemma ConfirmIntendedOnce(m: map<int, Order>, id: int)
    requires ConfirmIntended(m, id).Success?
    ensures ConfirmIntended(ConfirmIntended(m, id).value, id) == Failure(Business(OrderStatusError))
  {
  }
}
