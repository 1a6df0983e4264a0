/** The rows of the tables the services read and write (the entity classes of sky-pojo),
    with their primary key left out: a table maps each id to its row. Amounts (BigDecimal)
    are integers in cents, times (LocalDateTime) are integer seconds. */
module Entities {
  import opened Common

  // Orders.status
  const PendingPayment: int := 1
  const ToBeConfirmed: int := 2
  const Confirmed: int := 3
  const DeliveryInProgress: int := 4
  const Completed: int := 5
  const Cancelled: int := 6

  // Orders.payStatus
  const UnPaid: int := 0
  const Paid: int := 1
  const Refund: int := 2

  datatype Order = Order(
    number: string,
    status: int,
    userId: int,
    addressBookId: int,
    orderTime: int,
    checkoutTime: Option<int>,
    payMethod: int,
    payStatus: int,
    amount: int,
    remark: Option<string>,
    phone: Option<string>,
    address: Option<string>,
    consignee: Option<string>,
    cancelReason: Option<string>,
    rejectionReason: Option<string>,
    cancelTime: Option<int>,
    estimatedDeliveryTime: Option<int>,
    deliveryStatus: Option<int>,
    deliveryTime: Option<int>,
    packAmount: int,
    tablewareNumber: int,
    tablewareStatus: Option<int>)

  /** The sparse Orders object handed to OrderMapper.update: only its non-null fields
      are written. */
  datatype OrderPatch = OrderPatch(
    status: Option<int>,
    payStatus: Option<int>,
    orderTime: Option<int>,
    checkoutTime: Option<int>,
    cancelReason: Option<string>,
    rejectionReason: Option<string>,
    cancelTime: Option<int>,
    deliveryTime: Option<int>)

  const NoChange: OrderPatch := OrderPatch(None, None, None, None, None, None, None, None)

  function OrDefault<T>(p: Option<T>, v: T): T {
    if p.Some? then p.value else v
  }

  function OrKeep<T>(p: Option<T>, v: Option<T>): Option<T> {
    if p.Some? then p else v
  }

  /** OrderMapper.update applied to one row. */
  function ApplyPatch(o: Order, p: OrderPatch): (r: Order)
    ensures p == NoChange ==> r == o
  {
    o.(status := OrDefault(p.status, o.status),
       payStatus := OrDefault(p.payStatus, o.payStatus),
       orderTime := OrDefault(p.orderTime, o.orderTime),
       checkoutTime := OrKeep(p.checkoutTime, o.checkoutTime),
       cancelReason := OrKeep(p.cancelReason, o.cancelReason),
       rejectionReason := OrKeep(p.rejectionReason, o.rejectionReason),
       cancelTime := OrKeep(p.cancelTime, o.cancelTime),
       deliveryTime := OrKeep(p.deliveryTime, o.deliveryTime))
  }

  datatype OrderDetail = OrderDetail(
    name: string,
    orderId: int,
    dishId: Option<int>,
    setmealId: Option<int>,
    dishFlavor: Option<string>,
    number: int,
    amount: int,
    image: Option<string>)

  datatype CartLine = CartLine(
    name: string,
    userId: int,
    dishId: Option<int>,
    setmealId: Option<int>,
    dishFlavor: Option<string>,
    number: int,
    amount: int,
    image: Option<string>,
    createTime: int)

  datatype AddressBook = AddressBook(
    userId: int,
    consignee: Option<string>,
    phone: Option<string>,
    sex: Option<string>,
    detail: Option<string>,
    addressLabel: Option<string>,
    isDefault: int)

  datatype Category = Category(
    kind: Option<int>,
    name: Option<string>,
    sort: Option<int>,
    status: Option<int>,
    createTime: Option<int>,
    updateTime: Option<int>,
    createUser: Option<int>,
    updateUser: Option<int>)

  datatype Dish = Dish(
    name: string,
    categoryId: Option<int>,
    price: int,
    image: Option<string>,
    description: Option<string>,
    status: Option<int>)

  datatype DishFlavor = DishFlavor(dishId: int, name: Option<string>, value: Option<string>)

  datatype Setmeal = Setmeal(
    categoryId: Option<int>,
    name: string,
    price: int,
    status: Option<int>,
    description: Option<string>,
    image: Option<string>)

  datatype SetmealDish = SetmealDish(
    setmealId: int,
    dishId: int,
    name: Option<string>,
    price: Option<int>,
    copies: Option<int>)

  datatype Employee = Employee(
    username: string,
    name: Option<string>,
    password: string,
    phone: Option<string>,
    sex: Option<string>,
    idNumber: Option<string>,
    status: Option<int>)
}
