/** ReportServiceImpl: per-day statistics over a range of dates. A date is an integer day
    number; day d covers the seconds DayStart(d) .. DayEnd(d), the LocalTime.MIN and
    LocalTime.MAX of that day. */
module ReportService {
  import opened Common
  import opened Entities
  import opened Tables

  const SecondsPerDay: int := 86400

  function DayStart(d: int): int {
    d * SecondsPerDay
  }

  function DayEnd(d: int): int {
    d * SecondsPerDay + SecondsPerDay - 1
  }

  /** The date-list loop shared by the statistics: begin, then one day more until end. When
      begin is after end the loop never stops, so callers must keep begin <= end. */
  method DateList(begin: int, end: int) returns (dateList: seq<int>)
    requires begin <= end
    ensures |dateList| == end - begin + 1
    ensures forall i :: 0 <= i < |dateList| ==> dateList[i] == begin + i
  {
    var day := begin;
    dateList := [day];
    while day != end
      invariant begin <= day <= end
      invariant |dateList| == day - begin + 1
      invariant forall i :: 0 <= i < |dateList| ==> dateList[i] == begin + i
      decreases end - day
    {
      day := day + 1;
      dateList := dateList + [day];
    }
  }

  /** The date-list loop as written, run for at most fuel steps from day: the dates it
      collects, or None when it has not stopped by then. */
  function DateLoop(day: int, end: int, fuel: nat): Option<seq<int>>
    decreases fuel
  {
    if day == end then Some([day])
    else if fuel == 0 then None
    else
      match DateLoop(day + 1, end, fuel - 1)
      case None => None
      case Some(rest) => Some([day] + rest)
  }

  /** With begin after end the loop as written never stops, however many steps it is given. */
  lemma {:induction false} DateLoopNeverStops(begin: int, end: int, fuel: nat)
    requires begin > end
    ensures DateLoop(begin, end, fuel) == None
    decreases fuel
  {
    if fuel > 0 {
      DateLoopNeverStops(begin + 1, end, fuel - 1);
    }
  }

  /** With begin <= end the loop as written stops after end - begin steps with the dates from
      begin to end. */
  lemma {:induction false} DateLoopStops(begin: int, end: int) returns (dates: seq<int>)
    requires begin <= end
    ensures DateLoop(begin, end, end - begin) == Some(dates)
    ensures |dates| == end - begin + 1
    ensures forall i :: 0 <= i < |dates| ==> dates[i] == begin + i
    decreases end - begin
  {
    if begin == end {
      dates := [begin];
    } else {
      var rest := DateLoopStops(begin + 1, end);
      dates := [begin] + rest;
    }
  }

  /** The date list with the range checked first: a begin after end is refused instead of
      looping. */
  method CheckedDateList(begin: int, end: int) returns (r: Option<seq<int>>)
    ensures r.None? <==> begin > end
    ensures r.Some? ==> |r.value| == end - begin + 1
    ensures r.Some? ==> forall i :: 0 <= i < |r.value| ==> r.value[i] == begin + i
  {
    if begin > end {
      r := None;
    } else {
      var dateList := DateList(begin, end);
      r := Some(dateList);
    }
  }

  /** The sum of a list of integers. */
  function Sum(s: seq<int>): int {
    if s == [] then 0 else Sum(s[..|s| - 1]) + s[|s| - 1]
  }

  /** A list no larger entry by entry than another has no larger sum. */
  lemma {:induction false} SumMonotone(a: seq<int>, b: seq<int>)
    requires |a| == |b| && forall i :: 0 <= i < |a| ==> a[i] <= b[i]
    ensures Sum(a) <= Sum(b)
  {
    if a != [] {
      SumMonotone(a[..|a| - 1], b[..|b| - 1]);
    }
  }

  /** The sum of non-negative entries is at least each entry. */
  lemma {:induction false} SumBoundsEntries(s: seq<int>)
    requires forall i :: 0 <= i < |s| ==> s[i] >= 0
    ensures Sum(s) >= 0
    ensures forall i :: 0 <= i < |s| ==> s[i] <= Sum(s)
  {
    if s != [] {
      SumBoundsEntries(s[..|s| - 1]);
    }
  }

  // Turnover

  function CompletedDuring(begin: int, end: int): Order -> bool {
    (o: Order) => o.status == Completed && begin <= o.orderTime <= end
  }

  function Amounts(orders: seq<Order>): (r: seq<int>)
    ensures |r| == |orders| && forall i :: 0 <= i < |r| ==> r[i] == orders[i].amount
  {
    seq(|orders|, i requires 0 <= i < |orders| => orders[i].amount)
  }

  /** OrderMapper.sumByMap over the completed orders placed in [begin, end]: the SQL sum,
      which is null when no row matches. */
  function SumByMap(m: map<int, Order>, n: int, begin: int, end: int): (r: Option<int>)
    requires Below(m, n)
    ensures r == None <==> forall k :: k in m ==> !CompletedDuring(begin, end)(m[k])
  {
    var ids := Ids(m, n, CompletedDuring(begin, end));
    if ids == [] then None
    else
      assert ids[0] in ids;
      Some(Sum(Amounts(Rows(m, ids))))
  }

  /** One day's turnover: the sum, with null read as 0. */
  function DayTurnover(m: map<int, Order>, n: int, d: int): (r: int)
    requires Below(m, n)
    ensures (forall k :: k in m ==> !CompletedDuring(DayStart(d), DayEnd(d))(m[k])) ==> r == 0
  {
    SumByMap(m, n, DayStart(d), DayEnd(d)).GetOr(0)
  }

  /** With non-negative amounts, each completed order of the day is covered by the day's
      turnover. */
  lemma TurnoverCoversEachOrder(m: map<int, Order>, n: int, d: int, k: int)
    requires Below(m, n)
    requires forall j :: j in m ==> m[j].amount >= 0
    requires k in m && CompletedDuring(DayStart(d), DayEnd(d))(m[k])
    ensures 0 <= m[k].amount <= DayTurnover(m, n, d)
  {
    var ids := Ids(m, n, CompletedDuring(DayStart(d), DayEnd(d)));
    var amounts := Amounts(Rows(m, ids));
    assert k in ids;
    var i :| 0 <= i < |ids| && ids[i] == k;
    assert amounts[i] == m[k].amount;
    SumBoundsEntries(amounts);
  }

  /** The turnover loop of getTurnoverStatistics, over the order table and its counter. */
  method TurnoverList(orders: map<int, Order>, n: int, dateList: seq<int>) returns (turnoverList: seq<int>)
    requires Below(orders, n)
    ensures |turnoverList| == |dateList|
    ensures forall i :: 0 <= i < |dateList| ==> turnoverList[i] == DayTurnover(orders, n, dateList[i])
  {
    turnoverList := [];
    for i := 0 to |dateList|
      invariant |turnoverList| == i
      invariant forall j :: 0 <= j < i ==> turnoverList[j] == DayTurnover(orders, n, dateList[j])
    {
      var turnover := DayQuery(orders, n, dateList[i]);
      turnoverList := turnoverList + [turnover];
    }
  }

  /** One pass of the turnover loop: the day's sum, a null sum read as 0. */
  method DayQuery(orders: map<int, Order>, n: int, date: int) returns (turnover: int)
    requires Below(orders, n)
    ensures turnover == DayTurnover(orders, n, date)
  {
    var sum := SumByMap(orders, n, DayStart(date), DayEnd(date));
    turnover := if sum == None then 0 else sum.value;
  }

  /** getTurnoverStatistics: one turnover per day of [begin, end]. */
  method TurnoverStatistics(db: Store, begin: int, end: int) returns (dateList: seq<int>, turnoverList: seq<int>)
    requires db.Valid() && begin <= end
    ensures |dateList| == end - begin + 1 && forall i :: 0 <= i < |dateList| ==> dateList[i] == begin + i
    ensures |turnoverList| == |dateList|
    ensures forall i :: 0 <= i < |dateList| ==> turnoverList[i] == DayTurnover(db.orders, db.nextOrderId, dateList[i])
  {
    dateList := DateList(begin, end);
    turnoverList := TurnoverList(db.orders, db.nextOrderId, dateList);
  }

  // Orders

  function PlacedDuring(begin: int, end: int, status: Option<int>): Order -> bool {
    (o: Order) => begin <= o.orderTime <= end && (status == None || o.status == status.value)
  }

  /** OrderMapper.countByMap: the orders placed in [begin, end], of the status if one is
      given. */
  function CountByMap(m: map<int, Order>, n: int, begin: int, end: int, status: Option<int>): nat {
    |Ids(m, n, PlacedDuring(begin, end, status))|
  }

  /** The count is the number of orders placed in [begin, end], of the given status when one is
      given. */
  lemma CountByMapCounts(m: map<int, Order>, n: int, begin: int, end: int, status: Option<int>)
    ensures CountByMap(m, n, begin, end, status)
            == |set k | 0 <= k < n && k in m && begin <= m[k].orderTime <= end
                        && (status == None || m[k].status == status.value)|
  {
    var placed := set k | 0 <= k < n && k in m && begin <= m[k].orderTime <= end
                          && (status == None || m[k].status == status.value);
    IdsCount(m, n, PlacedDuring(begin, end, status), placed);
  }

  /** The count is zero exactly when no order below the counter was placed in the range with
      the status. */
  lemma CountByMapZero(m: map<int, Order>, n: int, begin: int, end: int, status: Option<int>)
    ensures CountByMap(m, n, begin, end, status) == 0 <==>
              forall k :: 0 <= k < n && k in m ==>
                !(begin <= m[k].orderTime <= end && (status == None || m[k].status == status.value))
  {
    var ids := Ids(m, n, PlacedDuring(begin, end, status));
    assert ids != [] ==> ids[0] in ids;
  }

  /** A day never has more completed orders than orders. */
  lemma ValidWithinAll(m: map<int, Order>, n: int, begin: int, end: int)
    ensures CountByMap(m, n, begin, end, Some(Completed)) <= CountByMap(m, n, begin, end, None)
  {
    IdsMonotone(m, n, PlacedDuring(begin, end, Some(Completed)), PlacedDuring(begin, end, None));
  }

  /** One day of getOrderStatistics: all orders placed that day, and the completed ones. */
  method DayCounts(orders: map<int, Order>, n: int, date: int) returns (orderCount: int, validOrderCount: int)
    ensures orderCount == CountByMap(orders, n, DayStart(date), DayEnd(date), None)
    ensures validOrderCount == CountByMap(orders, n, DayStart(date), DayEnd(date), Some(Completed))
    ensures 0 <= validOrderCount <= orderCount
  {
    orderCount := CountByMap(orders, n, DayStart(date), DayEnd(date), None);
    validOrderCount := CountByMap(orders, n, DayStart(date), DayEnd(date), Some(Completed));
    ValidWithinAll(orders, n, DayStart(date), DayEnd(date));
  }

  /** The per-day loop of getOrderStatistics. */
  method OrderCountLists(db: Store, dateList: seq<int>) returns (orderCountList: seq<int>, validOrderCountList: seq<int>)
    ensures |orderCountList| == |dateList| && |validOrderCountList| == |dateList|
    ensures forall i :: 0 <= i < |dateList| ==>
              orderCountList[i] == CountByMap(db.orders, db.nextOrderId, DayStart(dateList[i]), DayEnd(dateList[i]), None)
    ensures forall i :: 0 <= i < |dateList| ==>
              validOrderCountList[i] == CountByMap(db.orders, db.nextOrderId, DayStart(dateList[i]), DayEnd(dateList[i]), Some(Completed))
    ensures forall i :: 0 <= i < |dateList| ==> 0 <= validOrderCountList[i] <= orderCountList[i]
  {
    orderCountList, validOrderCountList := [], [];
    for i := 0 to |dateList|
      invariant |orderCountList| == i && |validOrderCountList| == i
      invariant forall j :: 0 <= j < i ==>
                  orderCountList[j] == CountByMap(db.orders, db.nextOrderId, DayStart(dateList[j]), DayEnd(dateList[j]), None)
      invariant forall j :: 0 <= j < i ==>
                  validOrderCountList[j] == CountByMap(db.orders, db.nextOrderId, DayStart(dateList[j]), DayEnd(dateList[j]), Some(Completed))
      invariant forall j :: 0 <= j < i ==> 0 <= validOrderCountList[j] <= orderCountList[j]
    {
      var orderCount, validOrderCount := DayCounts(db.orders, db.nextOrderId, dateList[i]);
      orderCountList := orderCountList + [orderCount];
      validOrderCountList := validOrderCountList + [validOrderCount];
    }
  }

  /** getOrderStatistics without the completion rate: the per-day lists and their totals. */
  method OrderStatistics(db: Store, begin: int, end: int)
    returns (dateList: seq<int>, orderCountList: seq<int>, validOrderCountList: seq<int>,
             totalOrderCount: int, validOrderCount: int)
    requires db.Valid() && begin <= end
    ensures |dateList| == end - begin + 1 && forall i :: 0 <= i < |dateList| ==> dateList[i] == begin + i
    ensures |orderCountList| == |dateList| && |validOrderCountList| == |dateList|
    ensures forall i :: 0 <= i < |dateList| ==>
              orderCountList[i] == CountByMap(db.orders, db.nextOrderId, DayStart(dateList[i]), DayEnd(dateList[i]), None)
    ensures forall i :: 0 <= i < |dateList| ==>
              validOrderCountList[i] == CountByMap(db.orders, db.nextOrderId, DayStart(dateList[i]), DayEnd(dateList[i]), Some(Completed))
    ensures totalOrderCount == Sum(orderCountList) && validOrderCount == Sum(validOrderCountList)
    ensures 0 <= validOrderCount <= totalOrderCount
  {
    dateList := DateList(begin, end);
    orderCountList, validOrderCountList := OrderCountLists(db, dateList);
    totalOrderCount := Sum(orderCountList);
    validOrderCount := Sum(validOrderCountList);
    SumMonotone(validOrderCountList, orderCountList);
    SumBoundsEntries(validOrderCountList);
  }

  // Users

  /** UserMapper.countByMap with an end only: the users created by then. */
  function UsersUpTo(created: seq<int>, end: int): (r: nat)
    ensures r <= |created|
  {
    if created == [] then 0
    else UsersUpTo(created[..|created| - 1], end) + (if created[|created| - 1] <= end then 1 else 0)
  }

  /** UserMapper.countByMap with a begin and an end: the users created in [begin, end]. */
  function UsersBetween(created: seq<int>, begin: int, end: int): (r: nat)
    ensures r <= |created|
  {
    if created == [] then 0
    else UsersBetween(created[..|created| - 1], begin, end) + (if begin <= created[|created| - 1] <= end then 1 else 0)
  }

  /** The users created by the end of a day are those created by the end of the day before
      and those created during the day. */
  lemma {:induction false} UsersUpToNextDay(created: seq<int>, d: int)
    ensures UsersUpTo(created, DayEnd(d + 1)) == UsersUpTo(created, DayEnd(d)) + UsersBetween(created, DayStart(d + 1), DayEnd(d + 1))
  {
    if created != [] {
      UsersUpToNextDay(created[..|created| - 1], d);
    }
  }

  /** The users created during a day are among those created by its end. */
  lemma {:induction false} NewWithinTotal(created: seq<int>, d: int)
    ensures UsersBetween(created, DayStart(d), DayEnd(d)) <= UsersUpTo(created, DayEnd(d))
  {
    if created != [] {
      NewWithinTotal(created[..|created| - 1], d);
    }
  }

  /** The per-day loop of getUserStatistics: the result of the query with the end only and
      of the query with begin and end, for each day. */
  method UserCountLists(created: seq<int>, dateList: seq<int>) returns (upToList: seq<int>, duringList: seq<int>)
    ensures |upToList| == |dateList| && |duringList| == |dateList|
    ensures forall i :: 0 <= i < |dateList| ==> upToList[i] == UsersUpTo(created, DayEnd(dateList[i]))
    ensures forall i :: 0 <= i < |dateList| ==> duringList[i] == UsersBetween(created, DayStart(dateList[i]), DayEnd(dateList[i]))
  {
    upToList, duringList := [], [];
    for i := 0 to |dateList|
      invariant |upToList| == i && |duringList| == i
      invariant forall j :: 0 <= j < i ==> upToList[j] == UsersUpTo(created, DayEnd(dateList[j]))
      invariant forall j :: 0 <= j < i ==> duringList[j] == UsersBetween(created, DayStart(dateList[j]), DayEnd(dateList[j]))
    {
      upToList := upToList + [UsersUpTo(created, DayEnd(dateList[i]))];
      duringList := duringList + [UsersBetween(created, DayStart(dateList[i]), DayEnd(dateList[i]))];
    }
  }

  /** getUserStatistics as written: the count by the end of the day goes to newUserList and
      the count during the day to totalUserList. */
  method UserStatistics(created: seq<int>, begin: int, end: int)
    returns (dateList: seq<int>, newUserList: seq<int>, totalUserList: seq<int>)
    requires begin <= end
    ensures |dateList| == end - begin + 1 && forall i :: 0 <= i < |dateList| ==> dateList[i] == begin + i
    ensures |newUserList| == |dateList| && |totalUserList| == |dateList|
    ensures forall i :: 0 <= i < |dateList| ==> newUserList[i] == UsersUpTo(created, DayEnd(begin + i))
    ensures forall i :: 0 <= i < |dateList| ==> totalUserList[i] == UsersBetween(created, DayStart(begin + i), DayEnd(begin + i))
  {
    dateList := DateList(begin, end);
    var upTo, during := UserCountLists(created, dateList);
    totalUserList := during;
    newUserList := upTo;
  }

  /** One user created on day 0 and a report for day 1: as written the report shows one new
      user and a total of none. */
  lemma UserListsSwapped()
    ensures UsersUpTo([DayStart(0)], DayEnd(1)) == 1
    ensures UsersBetween([DayStart(0)], DayStart(1), DayEnd(1)) == 0
  {
    assert [DayStart(0)][..0] == [];
  }

  /** getUserStatistics as evidently intended: newUserList holds the users created during each
      day and totalUserList the users created by its end; then the new users never exceed the
      total, and each day's total is the day before's plus that day's new users. */
  method UserStatisticsIntended(created: seq<int>, begin: int, end: int)
    returns (dateList: seq<int>, newUserList: seq<int>, totalUserList: seq<int>)
    requires begin <= end
    ensures |dateList| == end - begin + 1 && forall i :: 0 <= i < |dateList| ==> dateList[i] == begin + i
    ensures |newUserList| == |dateList| && |totalUserList| == |dateList|
    ensures forall i :: 0 <= i < |dateList| ==> newUserList[i] == UsersBetween(created, DayStart(begin + i), DayEnd(begin + i))
    ensures forall i :: 0 <= i < |dateList| ==> 0 <= newUserList[i] <= totalUserList[i]
    ensures forall i :: 0 < i < |dateList| ==> totalUserList[i] == totalUserList[i - 1] + newUserList[i]
  {
    dateList := DateList(begin, end);
    var upTo, during := UserCountLists(created, dateList);
    newUserList := during;
    totalUserList := upTo;
    forall i | 0 <= i < |dateList|
      ensures 0 <= newUserList[i] <= totalUserList[i]
    {
      NewWithinTotal(created, begin + i);
    }
    forall i | 0 < i < |dateList|
      ensures totalUserList[i] == totalUserList[i - 1] + newUserList[i]
    {
      UsersUpToNextDay(created, begin + i - 1);
    }
  }

  // Top ten

  /** A row of OrderMapper.getSalesTop10: a dish or set-meal name and the copies sold. */
  datatype GoodsSales = GoodsSales(name: string, number: int)

  /** The name projection of getSalesTop10. */
  function Names(sales: seq<GoodsSales>): (r: seq<string>)
    ensures |r| == |sales|
  {
    if sales == [] then [] else [sales[0].name] + Names(sales[1..])
  }

  /** The number projection of getSalesTop10. */
  function Numbers(sales: seq<GoodsSales>): (r: seq<int>)
    ensures |r| == |sales|
  {
    if sales == [] then [] else [sales[0].number] + Numbers(sales[1..])
  }

  function Zip(names: seq<string>, numbers: seq<int>): seq<GoodsSales>
    requires |names| == |numbers|
  {
    if names == [] then [] else [GoodsSales(names[0], numbers[0])] + Zip(names[1..], numbers[1..])
  }

  /** The two lists are aligned: zipped back together they are the query's rows. */
  lemma {:induction false} ProjectionsAligned(sales: seq<GoodsSales>)
    ensures Zip(Names(sales), Numbers(sales)) == sales
  {
    if sales != [] {
      ProjectionsAligned(sales[1..]);
    }
  }
}
