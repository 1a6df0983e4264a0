/** ShoppingCartServiceImpl: a user's cart is the set of cart lines carrying their user id;
    adding an item bumps its line or inserts one with quantity 1, subtracting lowers it or
    deletes it at 1. */
module ShoppingCartService {
  import opened Common
  import opened Entities
  import opened Tables

  /** ShoppingCartDTO: the item a request adds or subtracts. */
  datatype CartItem = CartItem(dishId: Option<int>, setmealId: Option<int>, dishFlavor: Option<string>)

  /** The condition ShoppingCartMapper.list builds from a cart object: the user, and each of
      dish, set meal and flavour that is set. */
  function Matching(item: CartItem, user: int): CartLine -> bool {
    (c: CartLine) =>
      && c.userId == user
      && (item.dishId.None? || c.dishId == item.dishId)
      && (item.setmealId.None? || c.setmealId == item.setmealId)
      && (item.dishFlavor.None? || c.dishFlavor == item.dishFlavor)
  }

  /** The line addShoppingCart inserts for an item not yet in the cart: name, image and price
      come from the dish when a dish id is given, else from the set meal; a missing dish or
      set meal (or no id at all) is a NullPointerException. */
  function NewLine(item: CartItem, user: int, now: int, dishes: map<int, Dish>, setmeals: map<int, Setmeal>): (r: Result<CartLine>)
    ensures r.Failure? <==> if item.dishId.Some? then item.dishId.value !in dishes
                            else item.setmealId.None? || item.setmealId.value !in setmeals
    ensures r.Failure? ==> r.error == NullPointer
    ensures r.Success? ==> Matching(item, user)(r.value) && r.value.number == 1 && r.value.createTime == now
    ensures r.Success? && item.dishId.Some? ==>
              var d := dishes[item.dishId.value];
              r.value.name == d.name && r.value.image == d.image && r.value.amount == d.price
    ensures r.Success? && item.dishId.None? ==>
              var s := setmeals[item.setmealId.value];
              r.value.name == s.name && r.value.image == s.image && r.value.amount == s.price
  {
    if item.dishId.Some? then
      if item.dishId.value !in dishes then Failure(NullPointer)
      else
        var d := dishes[item.dishId.value];
        Success(CartLine(d.name, user, item.dishId, item.setmealId, item.dishFlavor, 1, d.price, d.image, now))
    else if item.setmealId.None? || item.setmealId.value !in setmeals then Failure(NullPointer)
    else
      var s := setmeals[item.setmealId.value];
      Success(CartLine(s.name, user, item.dishId, item.setmealId, item.dishFlavor, 1, s.price, s.image, now))
  }

  /** The cart after addShoppingCart: exactly one matching line is bumped by one, otherwise a
      new line is inserted under the next id. */
  function AddToCart(cart: map<int, CartLine>, n: int, item: CartItem, user: int, now: int,
                     dishes: map<int, Dish>, setmeals: map<int, Setmeal>): (r: Result<map<int, CartLine>>)
    ensures var ids := Ids(cart, n, Matching(item, user));
            && (|ids| == 1 ==> r.Success? && r.value == cart[ids[0] := cart[ids[0]].(number := cart[ids[0]].number + 1)])
            && (|ids| != 1 ==> r.Failure? == NewLine(item, user, now, dishes, setmeals).Failure?)
            && (|ids| != 1 && r.Success? ==> r.value == cart[n := NewLine(item, user, now, dishes, setmeals).value])
    ensures r.Failure? ==> r.error == NullPointer
  {
    var ids := Ids(cart, n, Matching(item, user));
    if |ids| == 1 then
      assert ids[0] in ids;
      Success(cart[ids[0] := cart[ids[0]].(number := cart[ids[0]].number + 1)])
    else
      var line := NewLine(item, user, now, dishes, setmeals);
      if line.Failure? then Failure(line.error) else Success(cart[n := line.value])
  }

  /** The cart after subShoppingCart: the first matching line is deleted at quantity 1 and
      lowered by one otherwise; with no matching line nothing changes. */
  function SubFromCart(cart: map<int, CartLine>, n: int, item: CartItem, user: int): (r: map<int, CartLine>)
    ensures var ids := Ids(cart, n, Matching(item, user));
            && (ids == [] ==> r == cart)
            && (ids != [] && cart[ids[0]].number == 1 ==> r == cart - {ids[0]})
            && (ids != [] && cart[ids[0]].number != 1 ==> r == cart[ids[0] := cart[ids[0]].(number := cart[ids[0]].number - 1)])
  {
    var ids := Ids(cart, n, Matching(item, user));
    if ids == [] then cart
    else
      assert ids[0] in ids;
      var c := cart[ids[0]];
      if c.number == 1 then cart - {ids[0]} else cart[ids[0] := c.(number := c.number - 1)]
  }

  /** Subtracting an item just added as a new line removes that line again. */
  lemma AddNewThenSubRestores(cart: map<int, CartLine>, n: int, item: CartItem, user: int, now: int,
                              dishes: map<int, Dish>, setmeals: map<int, Setmeal>)
    requires Below(cart, n) && Ids(cart, n, Matching(item, user)) == []
    requires NewLine(item, user, now, dishes, setmeals).Success?
    ensures AddToCart(cart, n, item, user, now, dishes, setmeals).Success?
    ensures SubFromCart(AddToCart(cart, n, item, user, now, dishes, setmeals).value, n + 1, item, user) == cart
  {
    var p := Matching(item, user);
    var line := NewLine(item, user, now, dishes, setmeals).value;
    var added := cart[n := line];
    assert AddToCart(cart, n, item, user, now, dishes, setmeals) == Success(added);
    IdsFrame(added, cart, n, p);
    assert p(line) && line.number == 1;
    assert Ids(added, n + 1, p) == Ids(added, n, p) + [n];
    assert n !in cart;
    SameTable(added - {n}, cart);
  }

  /** Subtracting an item whose line was just bumped lowers it back. */
  lemma AddExistingThenSubRestores(cart: map<int, CartLine>, n: int, item: CartItem, user: int, now: int,
                                   dishes: map<int, Dish>, setmeals: map<int, Setmeal>)
    requires |Ids(cart, n, Matching(item, user))| == 1
    requires cart[Ids(cart, n, Matching(item, user))[0]].number != 0
    ensures AddToCart(cart, n, item, user, now, dishes, setmeals).Success?
    ensures SubFromCart(AddToCart(cart, n, item, user, now, dishes, setmeals).value, n, item, user) == cart
  {
    var p := Matching(item, user);
    var ids := Ids(cart, n, p);
    assert ids[0] in ids;
    var id := ids[0];
    var added := cart[id := cart[id].(number := cart[id].number + 1)];
    assert AddToCart(cart, n, item, user, now, dishes, setmeals) == Success(added);
    assert p(added[id]) == p(cart[id]);
    IdsFrame(added, cart, n, p);
    assert Ids(added, n, p) == ids;
    assert added[id].number != 1;
    assert SubFromCart(added, n, item, user) == added[id := added[id].(number := added[id].number - 1)];
    SameTable(added[id := added[id].(number := added[id].number - 1)], cart);
  }

  /** addShoppingCart. */
  method AddShoppingCart(db: Store, item: CartItem, user: int, now: int) returns (r: Outcome)
    requires db.Valid()
    modifies db`cart, db`nextCartId
    ensures db.Valid()
    ensures match AddToCart(old(db.cart), old(db.nextCartId), item, user, now, db.dishes, db.setmeals)
            case Success(m) => r == Ok && db.cart == m
            case Failure(e) => r == Fail(e) && db.cart == old(db.cart)
  {
    var ids := Ids(db.cart, db.nextCartId, Matching(item, user));
    if |ids| == 1 {
      assert ids[0] in ids;
      var shoppingCart := db.cart[ids[0]];
      shoppingCart := shoppingCart.(number := shoppingCart.number + 1);
      db.UpdateCartNumber(ids[0], shoppingCart.number);
      return Ok;
    }
    var name, image, amount;
    if item.dishId.Some? {
      if item.dishId.value !in db.dishes {
        return Fail(NullPointer);
      }
      var dish := db.dishes[item.dishId.value];
      name, image, amount := dish.name, dish.image, dish.price;
    } else {
      if item.setmealId.None? || item.setmealId.value !in db.setmeals {
        return Fail(NullPointer);
      }
      var setmeal := db.setmeals[item.setmealId.value];
      name, image, amount := setmeal.name, setmeal.image, setmeal.price;
    }
    var id := db.InsertCartLine(CartLine(name, user, item.dishId, item.setmealId, item.dishFlavor, 1, amount, image, now));
    r := Ok;
  }

  /** showShoppingCart: the current user's lines, and all of them. */
  method ShowShoppingCart(db: Store, user: int) returns (list: seq<CartLine>)
    requires db.Valid()
    ensures forall c :: c in list ==> c.userId == user
    ensures forall k :: k in db.cart && db.cart[k].userId == user ==> db.cart[k] in list
  {
    var ids := Ids(db.cart, db.nextCartId, CartOfUser(user));
    list := Rows(db.cart, ids);
    forall k | k in db.cart && db.cart[k].userId == user
      ensures db.cart[k] in list
    {
      SelectComplete(db.cart, db.nextCartId, CartOfUser(user), k);
    }
  }

  /** cleanShoppingCart: every line of the current user goes, every other line stays. */
  method CleanShoppingCart(db: Store, user: int)
    requires db.Valid()
    modifies db`cart
    ensures db.Valid()
    ensures forall k :: k in db.cart ==> db.cart[k].userId != user
    ensures forall k :: k in old(db.cart) && old(db.cart)[k].userId != user ==> k in db.cart && db.cart[k] == old(db.cart)[k]
    ensures db.cart.Keys <= old(db.cart).Keys
  {
    db.DeleteCartOfUser(user);
  }

  /** subShoppingCart. */
  method SubShoppingCart(db: Store, item: CartItem, user: int)
    requires db.Valid()
    modifies db`cart
    ensures db.Valid()
    ensures db.cart == SubFromCart(old(db.cart), db.nextCartId, item, user)
  {
    var list := Ids(db.cart, db.nextCartId, Matching(item, user));
    if |list| > 0 {
      assert list[0] in list;
      var shoppingCart := db.cart[list[0]];
      var number := shoppingCart.number;
      if number == 1 {
        db.DeleteCartLine(list[0]);
      } else {
        shoppingCart := shoppingCart.(number := shoppingCart.number - 1);
        db.UpdateCartNumber(list[0], shoppingCart.number);
      }
    }
  }
}
