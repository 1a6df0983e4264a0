/** OrderServiceImpl: the order operations as methods on the store, each proved to leave
    the tables that the functions of OrderLifecycle describe. The refund call to the payment
    gateway is reported as a returned flag and the WebSocket push as a returned
    Notification. */
module OrderService {
  import opened Common
  import opened Entities
  import opened Tables
  import opened OrderLifecycle

  /** OrdersSubmitDTO: the fields the client sends when it places an order. */
  datatype OrdersSubmit = OrdersSubmit(
    addressBookId: int,
    payMethod: int,
    remark: Option<string>,
    estimatedDeliveryTime: Option<int>,
    deliveryStatus: Option<int>,
    tablewareNumber: int,
    tablewareStatus: Option<int>,
    packAmount: int,
    amount: int)

  /** OrderSubmitVO. */
  datatype OrderSubmitView = OrderSubmitView(orderTime: int, orderNumber: string, orderAmount: int)

  /** OrderStatisticsVO. */
  datatype OrderCounts = OrderCounts(toBeConfirmed: nat, confirmed: nat, deliveryInProgress: nat)

  /** The order submitOrder inserts: the submitted fields, then the pending/unpaid state,
      the clock, the number and the address record's detail, phone and consignee. */
  function NewOrder(dto: OrdersSubmit, a: AddressBook, user: int, now: int, number: string): (r: Order)
    ensures WellFormed(r)
    ensures r.status == PendingPayment && r.payStatus == UnPaid && r.checkoutTime == None
    ensures r.userId == user && r.orderTime == now && r.number == number
    ensures r.address == a.detail && r.phone == a.phone && r.consignee == a.consignee
  {
    Order(number := number, status := PendingPayment, userId := user, addressBookId := dto.addressBookId,
          orderTime := now, checkoutTime := None, payMethod := dto.payMethod, payStatus := UnPaid,
          amount := dto.amount, remark := dto.remark, phone := a.phone, address := a.detail,
          consignee := a.consignee, cancelReason := None, rejectionReason := None, cancelTime := None,
          estimatedDeliveryTime := dto.estimatedDeliveryTime, deliveryStatus := dto.deliveryStatus,
          deliveryTime := None, packAmount := dto.packAmount, tablewareNumber := dto.tablewareNumber,
          tablewareStatus := dto.tablewareStatus)
  }

  /** A cart line copied into an order detail of the given order. */
  function DetailOf(c: CartLine, orderId: int): OrderDetail {
    OrderDetail(c.name, orderId, c.dishId, c.setmealId, c.dishFlavor, c.number, c.amount, c.image)
  }

  /** An order detail copied back into a cart line of the given user (repetition). */
  function CartLineOf(d: OrderDetail, user: int, now: int): CartLine {
    CartLine(d.name, user, d.dishId, d.setmealId, d.dishFlavor, d.number, d.amount, d.image, now)
  }

  /** Re-ordering an order recreates the cart it was placed from, and placing an order from
      a re-ordered cart gives back the details. */
  lemma CartDetailRoundTrip(c: CartLine, d: OrderDetail, orderId: int, user: int, now: int)
    ensures CartLineOf(DetailOf(c, orderId), c.userId, c.createTime) == c
    ensures DetailOf(CartLineOf(d, user, now), d.orderId) == d
    ensures CartLineOf(d, user, now).userId == user && DetailOf(c, orderId).orderId == orderId
  {
  }

  function DetailsOf(cs: seq<CartLine>, orderId: int): (r: seq<OrderDetail>)
    ensures |r| == |cs| && forall j :: 0 <= j < |cs| ==> r[j] == DetailOf(cs[j], orderId)
  {
    seq(|cs|, j requires 0 <= j < |cs| => DetailOf(cs[j], orderId))
  }

  function CartLinesOf(ds: seq<OrderDetail>, user: int, now: int): (r: seq<CartLine>)
    ensures |r| == |ds| && forall j :: 0 <= j < |ds| ==> r[j] == CartLineOf(ds[j], user, now)
  {
    seq(|ds|, j requires 0 <= j < |ds| => CartLineOf(ds[j], user, now))
  }

  /** Outcome r and table after are what the lifecycle function's result res says: the new
      table on success, the old one and the same error on failure. */
  ghost predicate Committed(res: Result<map<int, Order>>, r: Outcome, after: map<int, Order>, before: map<int, Order>) {
    match res
    case Success(m) => r == Ok && after == m
    case Failure(e) => r == Fail(e) && after == before
  }

  /** The for-loop of submitOrder: one detail of the new order per cart line, in order. */
  method DetailsFromCart(shoppingCartList: seq<CartLine>, orderId: int) returns (orderDetailList: seq<OrderDetail>)
    ensures orderDetailList == DetailsOf(shoppingCartList, orderId)
  {
    orderDetailList := [];
    for i := 0 to |shoppingCartList|
      invariant orderDetailList == DetailsOf(shoppingCartList[..i], orderId)
    {
      orderDetailList := orderDetailList + [DetailOf(shoppingCartList[i], orderId)];
    }
    assert shoppingCartList[..|shoppingCartList|] == shoppingCartList;
  }

  /** submitOrder: the address is checked before the cart; on success one pending order is
      inserted, one detail per cart line of the user in cart order, and the user's cart is
      emptied. On failure nothing is written. */
  method SubmitOrder(db: Store, dto: OrdersSubmit, user: int, now: int, number: string) returns (r: Result<OrderSubmitView>)
    requires db.Valid()
    modifies db`orders, db`nextOrderId, db`details, db`nextDetailId, db`cart
    ensures db.Valid()
    ensures dto.addressBookId !in old(db.addresses) ==> r == Failure(Business(AddressBookIsNull))
    ensures dto.addressBookId in old(db.addresses) && Ids(old(db.cart), old(db.nextCartId), CartOfUser(user)) == []
            ==> r == Failure(Business(ShoppingCartIsNull))
    ensures r.Success? <==> dto.addressBookId in old(db.addresses) && Ids(old(db.cart), old(db.nextCartId), CartOfUser(user)) != []
    ensures r.Failure? ==> db.orders == old(db.orders) && db.details == old(db.details) && db.cart == old(db.cart)
    ensures r.Success? ==>
              && r.value == OrderSubmitView(now, number, dto.amount)
              && db.orders == old(db.orders)[old(db.nextOrderId) := NewOrder(dto, old(db.addresses)[dto.addressBookId], user, now, number)]
              && old(db.nextOrderId) !in old(db.orders)
    ensures r.Success? ==>
              var lines := Select(old(db.cart), old(db.nextCartId), CartOfUser(user));
              db.details == Appended(old(db.details), old(db.nextDetailId), DetailsOf(lines, old(db.nextOrderId)))
    ensures r.Success? ==> db.cart == WithoutUser(old(db.cart), user)
  {
    if dto.addressBookId !in db.addresses {
      return Failure(Business(AddressBookIsNull));
    }
    var addressBook := db.addresses[dto.addressBookId];
    var shoppingCartList := Select(db.cart, db.nextCartId, CartOfUser(user));
    if |shoppingCartList| == 0 {
      return Failure(Business(ShoppingCartIsNull));
    }
    var orders := NewOrder(dto, addressBook, user, now, number);
    var orderId := db.InsertOrder(orders);

    var orderDetailList := DetailsFromCart(shoppingCartList, orderId);
    db.InsertDetails(orderDetailList);
    db.DeleteCartOfUser(user);
    r := Success(OrderSubmitView(orders.orderTime, orders.number, orders.amount));
  }

  /** payment with the gateway call left out (it is commented out and its reply is an empty
      object, so the "already paid" branch is never taken): the order with that number, whoever
      placed it, is set to TO_BE_CONFIRMED. A missing number is a NullPointerException. */
  method Payment(db: Store, orderNumber: string) returns (r: Outcome)
    requires db.Valid()
    modifies db`orders
    ensures db.Valid()
    ensures var found := FindByOrderNumber(old(db.orders), old(db.nextOrderId), orderNumber);
            && (found.Failure? ==> r == Fail(found.error) && db.orders == old(db.orders))
            && (found.Success? ==> r == Ok && db.orders == OrderLifecycle.Payment(old(db.orders), found.value))
  {
    var byNumber := FindByOrderNumber(db.orders, db.nextOrderId, orderNumber);
    if byNumber.Failure? {
      return Fail(byNumber.error);
    }
    db.orders := Patched(db.orders, byNumber.value, NoChange.(status := Some(ToBeConfirmed)));
    r := Ok;
  }

  /** paySuccess: the current user's order with that number becomes paid and waiting for
      confirmation, and a payment notification is pushed. */
  method PaySuccess(db: Store, outTradeNo: string, user: int, now: int) returns (r: Result<Notification>)
    requires db.Valid()
    modifies db`orders
    ensures db.Valid()
    ensures var found := FindByNumber(old(db.orders), old(db.nextOrderId), outTradeNo, user);
            && (found.Failure? ==> r == Failure(found.error) && db.orders == old(db.orders))
            && (found.Success? ==> r == Success(PaySuccessNotice(found.value, outTradeNo))
                                   && db.orders == OrderLifecycle.PaySuccess(old(db.orders), found.value, now))
  {
    var ordersDB := FindByNumber(db.orders, db.nextOrderId, outTradeNo, user);
    if ordersDB.Failure? {
      return Failure(ordersDB.error);
    }
    var id := ordersDB.value;
    db.orders := Patched(db.orders, id, NoChange.(status := Some(ToBeConfirmed), payStatus := Some(Paid), checkoutTime := Some(now)));
    r := Success(PaySuccessNotice(id, outTradeNo));
  }

  /** userCancelById, as written (see OrderLifecycle.UserCancel). */
  method UserCancelById(db: Store, id: int, now: int) returns (r: Outcome, refund: bool)
    requires db.Valid()
    modifies db`orders
    ensures db.Valid()
    ensures Committed(UserCancel(old(db.orders), id, now), r, db.orders, old(db.orders))
    ensures refund <==> r == Ok && UserCancelRefunds(old(db.orders)[id])
  {
    if id !in db.orders {
      return Fail(Business(OrderNotFound)), false;
    }
    var ordersDB := db.orders[id];
    if ordersDB.status > 2 {
      return Fail(Business(OrderStatusError)), false;
    }
    var orders := NoChange;
    refund := false;
    if ordersDB.status == ToBeConfirmed {
      refund := true;
      orders := orders.(payStatus := Some(Refund));
    }
    orders := orders.(payStatus := Some(Cancelled), cancelReason := Some(UserCancelReason), orderTime := Some(now));
    db.orders := Patched(db.orders, id, orders);
    r := Ok;
  }

  /** repetition: every detail of the order, in id order, becomes a new cart line of the
      current user created now. */
  method Repetition(db: Store, id: int, user: int, now: int)
    requires db.Valid()
    modifies db`cart, db`nextCartId
    ensures db.Valid()
    ensures var lines := CartLinesOf(Select(old(db.details), old(db.nextDetailId), OfOrder(id)), user, now);
            && db.cart == Appended(old(db.cart), old(db.nextCartId), lines)
            && db.nextCartId == old(db.nextCartId) + |lines|
  {
    var orderDetailList := Select(db.details, db.nextDetailId, OfOrder(id));
    var shoppingCartList := CartLinesOf(orderDetailList, user, now);
    db.InsertCartLines(shoppingCartList);
  }

  /** getOrderDishesStr: "name*number;" for each detail, in order, joined. */
  function DishesText(ds: seq<OrderDetail>): (r: string)
    ensures r == [] <==> ds == []
    ensures ds != [] ==> r[|r| - 1] == ';'
  {
    if |ds| == 0 then "" else DishEntry(ds[0]) + DishesText(ds[1..])
  }

  function DishEntry(d: OrderDetail): string {
    d.name + "*" + IntToString(d.number) + ";"
  }

  /** The text of a list of details is the text of its parts joined, and one detail's
      text is its own entry: the text is the in-order concatenation of the entries. */
  lemma {:induction false} DishesTextJoin(a: seq<OrderDetail>, b: seq<OrderDetail>)
    ensures DishesText(a + b) == DishesText(a) + DishesText(b)
    decreases |a|
  {
    if |a| == 0 {
      assert a + b == b;
    } else {
      DishesTextJoin(a[1..], b);
      DishesTextCons(a, b);
    }
  }

  lemma DishesTextCons(a: seq<OrderDetail>, b: seq<OrderDetail>)
    requires |a| > 0
    ensures DishesText(a + b) == DishEntry(a[0]) + DishesText(a[1..] + b)
  {
    assert (a + b)[1..] == a[1..] + b;
  }

  lemma DishesTextSingle(d: OrderDetail)
    ensures DishesText([d]) == d.name + "*" + IntToString(d.number) + ";"
  {
    assert [d][1..] == [];
  }

  /** The dish text of an order is empty exactly when the order has no detail. */
  function GetOrderDishesStr(db: Store, orderId: int): (r: string)
    reads db
    ensures r == [] <==> forall k :: 0 <= k < db.nextDetailId && k in db.details ==> db.details[k].orderId != orderId
  {
    var ids := Ids(db.details, db.nextDetailId, OfOrder(orderId));
    assert ids != [] ==> ids[0] in ids;
    DishesText(Select(db.details, db.nextDetailId, OfOrder(orderId)))
  }

  /** OrderMapper.countStatus. */
  function CountStatus(m: map<int, Order>, status: int): (r: nat)
    ensures r <= |m|
    ensures r == 0 <==> forall k :: k in m ==> m[k].status != status
  {
    var s := set k | k in m && m[k].status == status;
    CardinalityOfSubset(s, m.Keys);
    assert forall k :: k in m && m[k].status == status ==> k in s;
    assert (forall k :: k in m ==> m[k].status != status) ==> s == {};
    |s|
  }

  /** statistics: the three counts are of disjoint sets of orders, so together they never
      exceed the number of orders. */
  function Statistics(m: map<int, Order>): (r: OrderCounts)
    ensures r.toBeConfirmed == |set k | k in m && m[k].status == ToBeConfirmed|
    ensures r.confirmed == |set k | k in m && m[k].status == Confirmed|
    ensures r.deliveryInProgress == |set k | k in m && m[k].status == DeliveryInProgress|
    ensures r.toBeConfirmed + r.confirmed + r.deliveryInProgress <= |m|
  {
    var a := set k | k in m && m[k].status == ToBeConfirmed;
    var b := set k | k in m && m[k].status == Confirmed;
    var c := set k | k in m && m[k].status == DeliveryInProgress;
    assert a !! b && (a + b) !! c;
    assert a + b + c <= m.Keys;
    CardinalityOfSubset(a + b + c, m.Keys);
    OrderCounts(CountStatus(m, ToBeConfirmed), CountStatus(m, Confirmed), CountStatus(m, DeliveryInProgress))
  }

  lemma CardinalityOfSubset<T>(s: set<T>, t: set<T>)
    requires s <= t
    ensures |s| <= |t|
  {
    assert t == s + (t - s);
  }

  /** confirm (no guard). */
  method Confirm(db: Store, id: int)
    requires db.Valid()
    modifies db`orders
    ensures db.Valid()
    ensures db.orders == OrderLifecycle.Confirm(old(db.orders), id)
  {
    db.orders := Patched(db.orders, id, NoChange.(status := Some(Confirmed)));
  }

  /** rejection; refund is the gateway call, made exactly for a paid order. */
  method Rejection(db: Store, id: int, reason: Option<string>, now: int) returns (r: Outcome, refund: bool)
    requires db.Valid()
    modifies db`orders
    ensures db.Valid()
    ensures Committed(OrderLifecycle.Rejection(old(db.orders), id, reason, now), r, db.orders, old(db.orders))
    ensures refund <==> r == Ok && PaidRefunds(old(db.orders)[id])
  {
    if id !in db.orders || db.orders[id].status != ToBeConfirmed {
      return Fail(Business(OrderStatusError)), false;
    }
    var ordersDB := db.orders[id];
    refund := ordersDB.payStatus == Paid;
    db.orders := Patched(db.orders, id, NoChange.(status := Some(Cancelled), rejectionReason := reason, cancelTime := Some(now)));
    r := Ok;
  }

  /** cancel by the merchant; refund is the gateway call, made exactly for a paid order. */
  method Cancel(db: Store, id: int, reason: Option<string>, now: int) returns (r: Outcome, refund: bool)
    requires db.Valid()
    modifies db`orders
    ensures db.Valid()
    ensures Committed(OrderLifecycle.Cancel(old(db.orders), id, reason, now), r, db.orders, old(db.orders))
    ensures refund <==> r == Ok && PaidRefunds(old(db.orders)[id])
  {
    if id !in db.orders {
      return Fail(NullPointer), false;
    }
    var ordersDB := db.orders[id];
    refund := ordersDB.payStatus == 1;
    db.orders := Patched(db.orders, id, NoChange.(status := Some(Cancelled), cancelReason := reason, cancelTime := Some(now)));
    r := Ok;
  }

  method Delivery(db: Store, id: int) returns (r: Outcome)
    requires db.Valid()
    modifies db`orders
    ensures db.Valid()
    ensures Committed(OrderLifecycle.Delivery(old(db.orders), id), r, db.orders, old(db.orders))
  {
    if id !in db.orders || db.orders[id].status != Confirmed {
      return Fail(Business(OrderStatusError));
    }
    db.orders := Patched(db.orders, id, NoChange.(status := Some(DeliveryInProgress)));
    r := Ok;
  }

  method Complete(db: Store, id: int, now: int) returns (r: Outcome)
    requires db.Valid()
    modifies db`orders
    ensures db.Valid()
    ensures Committed(OrderLifecycle.Complete(old(db.orders), id, now), r, db.orders, old(db.orders))
  {
    if id !in db.orders || db.orders[id].status != DeliveryInProgress {
      return Fail(Business(OrderStatusError));
    }
    db.orders := Patched(db.orders, id, NoChange.(status := Some(Completed), deliveryTime := Some(now)));
    r := Ok;
  }
}
