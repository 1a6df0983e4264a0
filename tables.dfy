/** The database as the services see it: one map per table from id to row, and the
    auto-increment counter that gives the next inserted row its id. */
module Tables {
  import opened Entities

  /** The ids below n of the rows of m that satisfy p, in ascending order: what a
      mapper's select returns for the condition p. */
  function Ids<T>(m: map<int, T>, n: int, p: T -> bool): (r: seq<int>)
    ensures forall k :: k in r <==> 0 <= k < n && k in m && p(m[k])
    ensures forall i, j :: 0 <= i < j < |r| ==> r[i] < r[j]
    decreases n
  {
    if n <= 0 then []
    else
      var prefix := Ids(m, n - 1, p);
      assert forall i :: 0 <= i < |prefix| ==> prefix[i] in prefix;
      prefix + (if n - 1 in m && p(m[n - 1]) then [n - 1] else [])
  }

  /** A select with no matching row returns nothing. */
  lemma {:induction false} NoIds<T>(m: map<int, T>, n: int, p: T -> bool)
    requires forall k :: 0 <= k < n && k in m ==> !p(m[k])
    ensures Ids(m, n, p) == []
    decreases n
  {
    if n > 0 {
      NoIds(m, n - 1, p);
    }
  }

  /** A select only sees the rows below n and the condition on them: two tables that agree
      there give the same ids. */
  lemma {:induction false} IdsFrame<T>(m1: map<int, T>, m2: map<int, T>, n: int, p: T -> bool)
    requires forall k :: 0 <= k < n ==> (k in m1 <==> k in m2)
    requires forall k :: 0 <= k < n && k in m1 ==> p(m1[k]) == p(m2[k])
    ensures Ids(m1, n, p) == Ids(m2, n, p)
    decreases n
  {
    if n > 0 {
      IdsFrame(m1, m2, n - 1, p);
    }
  }

  /** A stricter condition selects no more rows. */
  lemma {:induction false} IdsMonotone<T>(m: map<int, T>, n: int, p: T -> bool, q: T -> bool)
    requires forall x :: p(x) ==> q(x)
    ensures |Ids(m, n, p)| <= |Ids(m, n, q)|
    decreases n
  {
    if n > 0 {
      IdsMonotone(m, n - 1, p, q);
    }
  }

  /** The rows with the given ids, in the same order. */
  /** A strictly ascending sequence has as many elements as its set of elements. */
  lemma {:induction false} AscendingCard(s: seq<int>)
    requires forall i, j :: 0 <= i < j < |s| ==> s[i] < s[j]
    ensures |set x | x in s| == |s|
    decreases |s|
  {
    if s != [] {
      var t := s[1..];
      AscendingCard(t);
      assert (set x | x in s) == {s[0]} + (set x | x in t);
      assert s[0] !in (set x | x in t);
    }
  }

  /** A select returns one id per matching row: as many as there are rows that satisfy the
      condition. */
  lemma IdsCount<T>(m: map<int, T>, n: int, p: T -> bool, matching: set<int>)
    requires forall k :: k in matching <==> 0 <= k < n && k in m && p(m[k])
    ensures |Ids(m, n, p)| == |matching|
  {
    var ids := Ids(m, n, p);
    AscendingCard(ids);
    var elements := set x | x in ids;
    forall k ensures k in elements <==> k in matching {
      assert k in elements <==> k in ids;
    }
    assert elements == matching;
  }

  function Rows<T>(m: map<int, T>, ids: seq<int>): (r: seq<T>)
    requires forall i :: 0 <= i < |ids| ==> ids[i] in m
    ensures |r| == |ids| && forall i :: 0 <= i < |ids| ==> r[i] == m[ids[i]]
  {
    seq(|ids|, i requires 0 <= i < |ids| => m[ids[i]])
  }

  /** Every row below n that satisfies the condition is among the selected rows. */
  lemma SelectComplete<T>(m: map<int, T>, n: int, p: T -> bool, k: int)
    requires 0 <= k < n && k in m && p(m[k])
    ensures m[k] in Rows(m, Ids(m, n, p))
  {
    var ids := Ids(m, n, p);
    assert k in ids;
    var j :| 0 <= j < |ids| && ids[j] == k;
    assert Rows(m, ids)[j] == m[k];
  }

  /** The rows of m that satisfy p, in ascending id order. */
  function Select<T>(m: map<int, T>, n: int, p: T -> bool): (r: seq<T>)
    ensures forall x :: x in r ==> p(x)
  {
    var ids := Ids(m, n, p);
    var r := Rows(m, ids);
    assert forall x :: x in r ==> exists i :: 0 <= i < |ids| && x == m[ids[i]];
    r
  }

  /** A batch insert: the rows are given the ids n, n + 1, ... in order. */
  function Appended<T>(m: map<int, T>, n: int, rows: seq<T>): (r: map<int, T>)
    ensures forall k :: k in r <==> k in m || n <= k < n + |rows|
    ensures forall j :: 0 <= j < |rows| ==> r[n + j] == rows[j]
    ensures forall k :: k in m && !(n <= k < n + |rows|) ==> r[k] == m[k]
    decreases |rows|
  {
    if |rows| == 0 then m
    else Appended(m, n, rows[..|rows| - 1])[n + |rows| - 1 := rows[|rows| - 1]]
  }

  /** Two tables with the same ids and the same row under each id are equal. */
  lemma SameTable<T>(a: map<int, T>, b: map<int, T>)
    requires forall k :: k in a ==> k in b && a[k] == b[k]
    requires forall k :: k in b ==> k in a
    ensures a == b
  {
    forall k | k in a
      ensures k in b && a[k] == b[k]
    {
    }
    forall k | k in b
      ensures k in a
    {
    }
    assert a.Keys <= b.Keys;
    assert b.Keys <= a.Keys;
  }

  /** One more row of a batch insert, under the next id. */
  lemma AppendStep<T>(m: map<int, T>, n: int, rows: seq<T>, i: int)
    requires 0 <= i < |rows|
    requires Below(Appended(m, n, rows[..i]), n + i)
    ensures Appended(m, n, rows[..i + 1]) == Appended(m, n, rows[..i])[n + i := rows[i]]
    ensures Below(Appended(m, n, rows[..i])[n + i := rows[i]], n + i + 1)
  {
    assert rows[..i + 1][..i] == rows[..i];
  }

  /** The statement behind every insertBatch: each row in turn under the next id. */
  method AppendRows<T>(m: map<int, T>, n: int, rows: seq<T>) returns (r: map<int, T>, next: int)
    requires Below(m, n)
    ensures r == Appended(m, n, rows) && next == n + |rows|
    ensures Below(r, next)
  {
    r, next := m, n;
    for i := 0 to |rows|
      invariant next == n + i
      invariant r == Appended(m, n, rows[..i])
      invariant Below(r, next)
    {
      AppendStep(m, n, rows, i);
      r := r[next := rows[i]];
      next := next + 1;
    }
    assert rows[..|rows|] == rows;
  }

  /** The condition of ShoppingCartMapper.list for a user's whole cart. */
  function CartOfUser(user: int): CartLine -> bool {
    (c: CartLine) => c.userId == user
  }

  /** ShoppingCartMapper.deleteByUserId. */
  function WithoutUser(cart: map<int, CartLine>, user: int): (r: map<int, CartLine>)
    ensures forall k :: k in r <==> k in cart && cart[k].userId != user
    ensures forall k :: k in r ==> r[k] == cart[k]
  {
    map k | k in cart && cart[k].userId != user :: cart[k]
  }

  /** The condition of OrderDetailMapper.getByOrderId. */
  function OfOrder(orderId: int): OrderDetail -> bool {
    (d: OrderDetail) => d.orderId == orderId
  }

  /** DishFlavorMapper.deleteByDishId. */
  function WithoutFlavorsOf(flavors: map<int, DishFlavor>, dishId: int): (r: map<int, DishFlavor>)
    ensures forall k :: k in r <==> k in flavors && flavors[k].dishId != dishId
    ensures forall k :: k in r ==> r[k] == flavors[k]
  {
    map k | k in flavors && flavors[k].dishId != dishId :: flavors[k]
  }

  /** SetmealDishMapper.deleteByDishId: the links whose dish id is the given id go. */
  function WithoutLinksOfDish(links: map<int, SetmealDish>, dishId: int): (r: map<int, SetmealDish>)
    ensures forall k :: k in r <==> k in links && links[k].dishId != dishId
    ensures forall k :: k in r ==> r[k] == links[k]
  {
    map k | k in links && links[k].dishId != dishId :: links[k]
  }

  /** Every key of m is a valid id (ids start at 1) below the table's counter. */
  predicate Below<T>(m: map<int, T>, n: int) {
    && 1 <= n
    && forall k :: k in m ==> 1 <= k < n
  }

  class Store {
    var orders: map<int, Order>
    var nextOrderId: int
    var details: map<int, OrderDetail>
    var nextDetailId: int
    var cart: map<int, CartLine>
    var nextCartId: int
    var addresses: map<int, AddressBook>
    var nextAddressId: int
    var categories: map<int, Category>
    var nextCategoryId: int
    var dishes: map<int, Dish>
    var nextDishId: int
    var flavors: map<int, DishFlavor>
    var nextFlavorId: int
    var setmeals: map<int, Setmeal>
    var nextSetmealId: int
    var links: map<int, SetmealDish>
    var nextLinkId: int
    var employees: map<int, Employee>
    var nextEmployeeId: int

    ghost predicate Valid()
      reads this
    {
      && Below(orders, nextOrderId)
      && Below(details, nextDetailId)
      && Below(cart, nextCartId)
      && Below(addresses, nextAddressId)
      && Below(categories, nextCategoryId)
      && Below(dishes, nextDishId)
      && Below(flavors, nextFlavorId)
      && Below(setmeals, nextSetmealId)
      && Below(links, nextLinkId)
      && Below(employees, nextEmployeeId)
    }

    constructor ()
      ensures Valid()
      ensures orders == map[] && details == map[] && cart == map[] && addresses == map[]
      ensures categories == map[] && dishes == map[] && flavors == map[]
      ensures setmeals == map[] && links == map[] && employees == map[]
    {
      orders, nextOrderId := map[], 1;
      details, nextDetailId := map[], 1;
      cart, nextCartId := map[], 1;
      addresses, nextAddressId := map[], 1;
      categories, nextCategoryId := map[], 1;
      dishes, nextDishId := map[], 1;
      flavors, nextFlavorId := map[], 1;
      setmeals, nextSetmealId := map[], 1;
      links, nextLinkId := map[], 1;
      employees, nextEmployeeId := map[], 1;
    }

    // The mapper statements the services issue, one method per statement.

    /** OrderMapper.insert: the new order gets the next id. */
    method InsertOrder(o: Order) returns (id: int)
      requires Valid()
      modifies this`orders, this`nextOrderId
      ensures Valid()
      ensures id == old(nextOrderId) && id !in old(orders)
      ensures orders == old(orders)[id := o] && nextOrderId == id + 1
    {
      id := nextOrderId;
      orders := orders[id := o];
      nextOrderId := id + 1;
    }

    /** OrderDetailMapper.insertBatch. */
    method InsertDetails(rows: seq<OrderDetail>)
      requires Valid()
      modifies this`details, this`nextDetailId
      ensures Valid()
      ensures details == Appended(old(details), old(nextDetailId), rows)
      ensures nextDetailId == old(nextDetailId) + |rows|
    {
      details, nextDetailId := AppendRows(details, nextDetailId, rows);
    }

    /** ShoppingCartMapper.insertBatch. */
    method InsertCartLines(rows: seq<CartLine>)
      requires Valid()
      modifies this`cart, this`nextCartId
      ensures Valid()
      ensures cart == Appended(old(cart), old(nextCartId), rows)
      ensures nextCartId == old(nextCartId) + |rows|
    {
      cart, nextCartId := AppendRows(cart, nextCartId, rows);
    }

    /** ShoppingCartMapper.deleteByUserId. */
    method DeleteCartOfUser(user: int)
      requires Valid()
      modifies this`cart
      ensures Valid()
      ensures cart == WithoutUser(old(cart), user)
    {
      cart := WithoutUser(cart, user);
    }

    /** OrderMapper.update with an object read from the table: the row is replaced. */
    method UpdateOrder(id: int, o: Order)
      requires Valid() && id in orders
      modifies this`orders
      ensures Valid()
      ensures orders == old(orders)[id := o]
    {
      orders := orders[id := o];
    }

    /** ShoppingCartMapper.insert. */
    method InsertCartLine(c: CartLine) returns (id: int)
      requires Valid()
      modifies this`cart, this`nextCartId
      ensures Valid()
      ensures id == old(nextCartId) && id !in old(cart)
      ensures cart == old(cart)[id := c] && nextCartId == id + 1
    {
      id := nextCartId;
      cart := cart[id := c];
      nextCartId := id + 1;
    }

    /** ShoppingCartMapper.updateNumberById. */
    method UpdateCartNumber(id: int, number: int)
      requires Valid()
      modifies this`cart
      ensures Valid()
      ensures cart == if id in old(cart) then old(cart)[id := old(cart)[id].(number := number)] else old(cart)
    {
      if id in cart {
        cart := cart[id := cart[id].(number := number)];
      }
    }

    /** ShoppingCartMapper.deleteById. */
    method DeleteCartLine(id: int)
      requires Valid()
      modifies this`cart
      ensures Valid()
      ensures cart == old(cart) - {id}
    {
      cart := cart - {id};
    }

    /** DishMapper.insert. */
    method InsertDish(d: Dish) returns (id: int)
      requires Valid()
      modifies this`dishes, this`nextDishId
      ensures Valid()
      ensures id == old(nextDishId) && id !in old(dishes)
      ensures dishes == old(dishes)[id := d] && nextDishId == id + 1
    {
      id := nextDishId;
      dishes := dishes[id := d];
      nextDishId := id + 1;
    }

    /** DishFlavorMapper.insertBatch. */
    method InsertFlavors(rows: seq<DishFlavor>)
      requires Valid()
      modifies this`flavors, this`nextFlavorId
      ensures Valid()
      ensures flavors == Appended(old(flavors), old(nextFlavorId), rows)
      ensures nextFlavorId == old(nextFlavorId) + |rows|
    {
      flavors, nextFlavorId := AppendRows(flavors, nextFlavorId, rows);
    }

    /** SetmealMapper.insert. */
    method InsertSetmeal(s: Setmeal) returns (id: int)
      requires Valid()
      modifies this`setmeals, this`nextSetmealId
      ensures Valid()
      ensures id == old(nextSetmealId) && id !in old(setmeals)
      ensures setmeals == old(setmeals)[id := s] && nextSetmealId == id + 1
    {
      id := nextSetmealId;
      setmeals := setmeals[id := s];
      nextSetmealId := id + 1;
    }

    /** EmployeeMapper.insert. */
    method InsertEmployee(e: Employee) returns (id: int)
      requires Valid()
      modifies this`employees, this`nextEmployeeId
      ensures Valid()
      ensures id == old(nextEmployeeId) && id !in old(employees)
      ensures employees == old(employees)[id := e] && nextEmployeeId == id + 1
    {
      id := nextEmployeeId;
      employees := employees[id := e];
      nextEmployeeId := id + 1;
    }

    /** SetmealDishMapper.insertBatch. */
    method InsertLinks(rows: seq<SetmealDish>)
      requires Valid()
      modifies this`links, this`nextLinkId
      ensures Valid()
      ensures links == Appended(old(links), old(nextLinkId), rows)
      ensures nextLinkId == old(nextLinkId) + |rows|
    {
      links, nextLinkId := AppendRows(links, nextLinkId, rows);
    }
  }
}
