/** DishServiceImpl: dishes with their flavours. A dish on sale or used by a set meal cannot be
    deleted, and taking a dish off sale takes every set meal containing it off sale. */
module DishService {
  import opened Common
  import opened Entities
  import opened Tables

  /** The dish fields of a DishDTO that saveWithFlavor inserts. */
  datatype DishInput = DishInput(
    name: string,
    categoryId: Option<int>,
    price: int,
    image: Option<string>,
    description: Option<string>,
    status: Option<int>)

  /** The dish fields of a DishDTO that updateWithFlavor writes where set. */
  datatype DishPatch = DishPatch(
    id: int,
    name: Option<string>,
    categoryId: Option<int>,
    price: Option<int>,
    image: Option<string>,
    description: Option<string>,
    status: Option<int>)

  function NewDish(d: DishInput): Dish {
    Dish(d.name, d.categoryId, d.price, d.image, d.description, d.status)
  }

  /** DishMapper.update: the non-null fields of the patch. */
  function PatchDish(d: Dish, p: DishPatch): Dish {
    Dish(OrDefault(p.name, d.name), OrKeep(p.categoryId, d.categoryId), OrDefault(p.price, d.price),
         OrKeep(p.image, d.image), OrKeep(p.description, d.description), OrKeep(p.status, d.status))
  }

  /** The flavours with their dish id set to the given dish. */
  function WithDishId(flavors: seq<DishFlavor>, dishId: int): (r: seq<DishFlavor>)
    ensures |r| == |flavors| && forall i :: 0 <= i < |r| ==> r[i] == flavors[i].(dishId := dishId)
  {
    seq(|flavors|, i requires 0 <= i < |flavors| => flavors[i].(dishId := dishId))
  }

  /** The forEach that sets the dish id on each flavour of the request. */
  method AssignDishId(flavors: seq<DishFlavor>, dishId: int) returns (r: seq<DishFlavor>)
    ensures r == WithDishId(flavors, dishId)
  {
    r := flavors;
    for i := 0 to |r|
      invariant |r| == |flavors|
      invariant forall j :: 0 <= j < |r| ==> r[j] == if j < i then flavors[j].(dishId := dishId) else flavors[j]
    {
      r := r[i := r[i].(dishId := dishId)];
    }
  }

  /** saveWithFlavor: the dish is inserted, then every supplied flavour under the new dish's
      id. */
  method SaveWithFlavor(db: Store, dish: DishInput, flavors: seq<DishFlavor>) returns (dishId: int)
    requires db.Valid()
    modifies db`dishes, db`nextDishId, db`flavors, db`nextFlavorId
    ensures db.Valid()
    ensures dishId == old(db.nextDishId) && dishId !in old(db.dishes)
    ensures db.dishes == old(db.dishes)[dishId := NewDish(dish)]
    ensures db.flavors == Appended(old(db.flavors), old(db.nextFlavorId), WithDishId(flavors, dishId))
    ensures db.nextDishId == old(db.nextDishId) + 1 && db.nextFlavorId == old(db.nextFlavorId) + |flavors|
  {
    dishId := db.InsertDish(NewDish(dish));
    if |flavors| > 0 {
      var rows := AssignDishId(flavors, dishId);
      db.InsertFlavors(rows);
    }
  }

  /** The checking loop of deleteBatch: the first listed dish that is missing (a
      NullPointerException) or on sale stops it. */
  function CheckDeletable(dishes: map<int, Dish>, ids: seq<int>): (r: Outcome)
    ensures r == Ok || r == Fail(NullPointer) || r == Fail(Business(DishOnSale))
  {
    if ids == [] then Ok
    else if ids[0] !in dishes then Fail(NullPointer)
    else if dishes[ids[0]].status == Some(Enable) then Fail(Business(DishOnSale))
    else CheckDeletable(dishes, ids[1..])
  }

  /** The check passes exactly when every listed dish exists and is not on sale. */
  lemma {:induction false} CheckDeletableOk(dishes: map<int, Dish>, ids: seq<int>)
    ensures CheckDeletable(dishes, ids) == Ok <==>
              forall j :: 0 <= j < |ids| ==> ids[j] in dishes && dishes[ids[j]].status != Some(Enable)
  {
    if ids != [] {
      CheckDeletableOk(dishes, ids[1..]);
      assert forall j :: 1 <= j < |ids| ==> ids[j] == ids[1..][j - 1];
    }
  }

  function LinksOfDishes(ids: seq<int>): SetmealDish -> bool {
    (l: SetmealDish) => l.dishId in ids
  }

  /** SetmealDishMapper.getSetmealIdsByDishIds: the set meals of the links to any listed
      dish. */
  function SetmealIdsByDishIds(links: map<int, SetmealDish>, n: int, ids: seq<int>): (r: seq<int>)
    ensures |r| == |Ids(links, n, LinksOfDishes(ids))|
    ensures forall s :: s in r ==> exists k :: k in links && links[k].dishId in ids && links[k].setmealId == s
  {
    var found := Ids(links, n, LinksOfDishes(ids));
    var r := seq(|found|, i requires 0 <= i < |found| => links[found[i]].setmealId);
    assert forall i :: 0 <= i < |found| ==> found[i] in found;
    r
  }

  predicate UsedBySetmeal(links: map<int, SetmealDish>, ids: seq<int>) {
    exists k :: k in links && links[k].dishId in ids
  }

  /** DishMapper.deleteById for each listed dish. */
  function WithoutDishes(dishes: map<int, Dish>, ids: seq<int>): (r: map<int, Dish>)
    ensures forall k :: k in r <==> k in dishes && k !in ids
    ensures forall k :: k in r ==> r[k] == dishes[k]
  {
    map k | k in dishes && k !in ids :: dishes[k]
  }

  /** DishFlavorMapper.deleteByDishId for each listed dish. */
  function WithoutFlavorsOfDishes(flavors: map<int, DishFlavor>, ids: seq<int>): (r: map<int, DishFlavor>)
    ensures forall k :: k in r <==> k in flavors && flavors[k].dishId !in ids
    ensures forall k :: k in r ==> r[k] == flavors[k]
  {
    map k | k in flavors && flavors[k].dishId !in ids :: flavors[k]
  }

  /** The dish and flavour tables after deleteBatch: refused if a listed dish is missing or on
      sale (whichever comes first), then if a set meal uses any of them; otherwise the listed
      dishes and all their flavours go, and nothing else. */
  function DeleteDishes(dishes: map<int, Dish>, flavors: map<int, DishFlavor>, links: map<int, SetmealDish>, ids: seq<int>)
    : (r: Result<(map<int, Dish>, map<int, DishFlavor>)>)
    ensures CheckDeletable(dishes, ids).Fail? ==> r == Failure(CheckDeletable(dishes, ids).error)
    ensures CheckDeletable(dishes, ids) == Ok && UsedBySetmeal(links, ids) ==> r == Failure(Business(DishRelatedBySetmeal))
    ensures r.Success? <==> CheckDeletable(dishes, ids) == Ok && !UsedBySetmeal(links, ids)
    ensures r.Success? ==> forall j :: 0 <= j < |ids| ==> ids[j] in dishes && dishes[ids[j]].status != Some(Enable)
    ensures r.Success? ==> forall k :: k in r.value.0 <==> k in dishes && k !in ids
    ensures r.Success? ==> forall k :: k in r.value.0 ==> r.value.0[k] == dishes[k]
    ensures r.Success? ==> forall k :: k in r.value.1 <==> k in flavors && flavors[k].dishId !in ids
    ensures r.Success? ==> forall k :: k in r.value.1 ==> r.value.1[k] == flavors[k]
  {
    CheckDeletableOk(dishes, ids);
    if CheckDeletable(dishes, ids).Fail? then Failure(CheckDeletable(dishes, ids).error)
    else if UsedBySetmeal(links, ids) then Failure(Business(DishRelatedBySetmeal))
    else
      Success((WithoutDishes(dishes, ids), WithoutFlavorsOfDishes(flavors, ids)))
  }

  /** The checking loop of deleteBatch over the dish table. */
  method CheckDishes(db: Store, ids: seq<int>) returns (r: Outcome)
    ensures r == CheckDeletable(db.dishes, ids)
  {
    for i := 0 to |ids|
      invariant CheckDeletable(db.dishes, ids) == CheckDeletable(db.dishes, ids[i..])
    {
      assert ids[i..][1..] == ids[i + 1..];
      if ids[i] !in db.dishes {
        return Fail(NullPointer);
      }
      var dish := db.dishes[ids[i]];
      if dish.status == Some(Enable) {
        return Fail(Business(DishOnSale));
      }
    }
    assert ids[|ids|..] == [];
    r := Ok;
  }

  /** getSetmealIdsByDishIds is non-empty exactly when a set meal uses one of the dishes. */
  lemma SetmealIdsNonEmpty(links: map<int, SetmealDish>, n: int, ids: seq<int>)
    requires Below(links, n)
    ensures |SetmealIdsByDishIds(links, n, ids)| > 0 <==> UsedBySetmeal(links, ids)
  {
    if UsedBySetmeal(links, ids) {
      var k :| k in links && links[k].dishId in ids;
      assert k in Ids(links, n, LinksOfDishes(ids));
    }
    var r := SetmealIdsByDishIds(links, n, ids);
    if |r| > 0 {
      assert r[0] in r;
    }
  }

  /** One more dish of the list deleted. */
  lemma WithoutDishesStep(dishes: map<int, Dish>, ids: seq<int>, i: int)
    requires 0 <= i < |ids|
    ensures WithoutDishes(dishes, ids[..i + 1]) == WithoutDishes(dishes, ids[..i]) - {ids[i]}
  {
    assert ids[..i + 1] == ids[..i] + [ids[i]];
    SameTable(WithoutDishes(dishes, ids[..i + 1]), WithoutDishes(dishes, ids[..i]) - {ids[i]});
  }

  /** The flavours of one more dish of the list deleted. */
  lemma WithoutFlavorsStep(flavors: map<int, DishFlavor>, ids: seq<int>, i: int)
    requires 0 <= i < |ids|
    ensures WithoutFlavorsOfDishes(flavors, ids[..i + 1]) == WithoutFlavorsOf(WithoutFlavorsOfDishes(flavors, ids[..i]), ids[i])
  {
    assert ids[..i + 1] == ids[..i] + [ids[i]];
    SameTable(WithoutFlavorsOfDishes(flavors, ids[..i + 1]), WithoutFlavorsOf(WithoutFlavorsOfDishes(flavors, ids[..i]), ids[i]));
  }

  /** The deleting loop of deleteBatch: each dish and then its flavours. */
  method DeleteDishesAndFlavors(db: Store, ids: seq<int>)
    requires db.Valid()
    modifies db`dishes, db`flavors
    ensures db.Valid()
    ensures db.dishes == WithoutDishes(old(db.dishes), ids)
    ensures db.flavors == WithoutFlavorsOfDishes(old(db.flavors), ids)
  {
    var dishes, flavors := db.dishes, db.flavors;
    ghost var dishes0, flavors0 := dishes, flavors;
    SameTable(WithoutDishes(dishes, ids[..0]), dishes);
    SameTable(WithoutFlavorsOfDishes(flavors, ids[..0]), flavors);
    for i := 0 to |ids|
      invariant dishes == WithoutDishes(dishes0, ids[..i])
      invariant flavors == WithoutFlavorsOfDishes(flavors0, ids[..i])
    {
      WithoutDishesStep(dishes0, ids, i);
      WithoutFlavorsStep(flavors0, ids, i);
      dishes := dishes - {ids[i]};
      flavors := WithoutFlavorsOf(flavors, ids[i]);
    }
    assert ids[..|ids|] == ids;
    db.dishes, db.flavors := dishes, flavors;
  }

  /** deleteBatch. */
  method DeleteBatch(db: Store, ids: seq<int>) returns (r: Outcome)
    requires db.Valid()
    modifies db`dishes, db`flavors
    ensures db.Valid()
    ensures match DeleteDishes(old(db.dishes), old(db.flavors), db.links, ids)
            case Success(t) => r == Ok && db.dishes == t.0 && db.flavors == t.1
            case Failure(e) => r == Fail(e) && db.dishes == old(db.dishes) && db.flavors == old(db.flavors)
  {
    ghost var outcome := DeleteDishes(db.dishes, db.flavors, db.links, ids);
    r := CheckDishes(db, ids);
    if r.Fail? {
      assert outcome == Failure(r.error);
      return;
    }
    var setmealIds := SetmealIdsByDishIds(db.links, db.nextLinkId, ids);
    SetmealIdsNonEmpty(db.links, db.nextLinkId, ids);
    if |setmealIds| > 0 {
      assert outcome == Failure(Business(DishRelatedBySetmeal));
      return Fail(Business(DishRelatedBySetmeal));
    }
    assert outcome == Success((WithoutDishes(db.dishes, ids), WithoutFlavorsOfDishes(db.flavors, ids)));
    DeleteDishesAndFlavors(db, ids);
  }

  /** updateWithFlavor: the dish's set fields are written; a non-empty flavour list replaces
      the dish's flavours, an empty one keeps them. */
  method UpdateWithFlavor(db: Store, dish: DishPatch, flavors: seq<DishFlavor>)
    requires db.Valid()
    modifies db`dishes, db`flavors, db`nextFlavorId
    ensures db.Valid()
    ensures db.dishes == if dish.id in old(db.dishes) then old(db.dishes)[dish.id := PatchDish(old(db.dishes)[dish.id], dish)] else old(db.dishes)
    ensures |flavors| == 0 ==> db.flavors == old(db.flavors) && db.nextFlavorId == old(db.nextFlavorId)
    ensures |flavors| > 0 ==> db.flavors == Appended(WithoutFlavorsOf(old(db.flavors), dish.id), old(db.nextFlavorId), WithDishId(flavors, dish.id))
    ensures |flavors| > 0 ==> db.nextFlavorId == old(db.nextFlavorId) + |flavors|
  {
    if dish.id in db.dishes {
      db.dishes := db.dishes[dish.id := PatchDish(db.dishes[dish.id], dish)];
    }
    if |flavors| > 0 {
      db.flavors := WithoutFlavorsOf(db.flavors, dish.id);
      var rows := AssignDishId(flavors, dish.id);
      db.InsertFlavors(rows);
    }
  }

  /** After updateWithFlavor with a non-empty list the dish's flavour rows are exactly the new
      ones, each under its own new id, in the order given. */
  lemma FlavorsReplaced(flavors: map<int, DishFlavor>, n: int, dishId: int, rows: seq<DishFlavor>)
    requires Below(flavors, n)
    ensures var r := Appended(WithoutFlavorsOf(flavors, dishId), n, WithDishId(rows, dishId));
            && (forall k :: k in r && r[k].dishId == dishId <==> n <= k < n + |rows|)
            && (forall j :: 0 <= j < |rows| ==> r[n + j] == rows[j].(dishId := dishId))
  {
    var kept := WithoutFlavorsOf(flavors, dishId);
    var added := WithDishId(rows, dishId);
    var r := Appended(kept, n, added);
    forall k | n <= k < n + |rows|
      ensures k in r && r[k].dishId == dishId
    {
      assert r[n + (k - n)] == added[k - n];
    }
  }

  /** The set-meal table after the cascade of startOrStop(DISABLE): every listed set meal is
      taken off sale. */
  function DisableAll(setmeals: map<int, Setmeal>, ids: seq<int>): (r: map<int, Setmeal>)
    ensures r.Keys == setmeals.Keys
    ensures forall k :: k in setmeals ==> r[k] == if k in ids then setmeals[k].(status := Some(Disable)) else setmeals[k]
  {
    map k | k in setmeals :: if k in ids then setmeals[k].(status := Some(Disable)) else setmeals[k]
  }

  /** Disabling a dish disables every set meal with a link to it and no other. */
  lemma CascadeReachesEverySetmeal(setmeals: map<int, Setmeal>, links: map<int, SetmealDish>, n: int, dishId: int)
    requires Below(links, n)
    ensures var r := DisableAll(setmeals, SetmealIdsByDishIds(links, n, [dishId]));
            && (forall k :: k in links && links[k].dishId == dishId && links[k].setmealId in setmeals ==>
                  r[links[k].setmealId].status == Some(Disable))
            && (forall s :: s in setmeals && (forall k :: k in links && links[k].setmealId == s ==> links[k].dishId != dishId) ==>
                  r[s] == setmeals[s])
  {
    var found := Ids(links, n, LinksOfDishes([dishId]));
    var ids := SetmealIdsByDishIds(links, n, [dishId]);
    forall k | k in links && links[k].dishId == dishId
      ensures links[k].setmealId in ids
    {
      assert k in found;
      var i :| 0 <= i < |found| && found[i] == k;
      assert ids[i] == links[k].setmealId;
    }
  }

  /** One more set meal of the cascade disabled (a missing one changes nothing). */
  lemma DisableAllStep(setmeals: map<int, Setmeal>, ids: seq<int>, i: int)
    requires 0 <= i < |ids|
    ensures var before := DisableAll(setmeals, ids[..i]);
            DisableAll(setmeals, ids[..i + 1])
              == if ids[i] in before then before[ids[i] := before[ids[i]].(status := Some(Disable))] else before
  {
    assert ids[..i + 1] == ids[..i] + [ids[i]];
    var before := DisableAll(setmeals, ids[..i]);
    SameTable(DisableAll(setmeals, ids[..i + 1]),
              if ids[i] in before then before[ids[i] := before[ids[i]].(status := Some(Disable))] else before);
  }

  /** The cascade of startOrStop(DISABLE): SetmealMapper.update with status DISABLE for each
      set meal id in turn (a missing set meal changes nothing). */
  method DisableSetmeals(db: Store, setmealIds: seq<int>)
    requires db.Valid()
    modifies db`setmeals
    ensures db.Valid()
    ensures db.setmeals == DisableAll(old(db.setmeals), setmealIds)
  {
    var setmeals := db.setmeals;
    ghost var setmeals0 := setmeals;
    SameTable(DisableAll(setmeals, setmealIds[..0]), setmeals);
    for i := 0 to |setmealIds|
      invariant setmeals == DisableAll(setmeals0, setmealIds[..i])
    {
      DisableAllStep(setmeals0, setmealIds, i);
      if setmealIds[i] in setmeals {
        setmeals := setmeals[setmealIds[i] := setmeals[setmealIds[i]].(status := Some(Disable))];
      }
    }
    assert setmealIds[..|setmealIds|] == setmealIds;
    db.setmeals := setmeals;
  }

  /** startOrStop: the dish's status is written; DISABLE also disables, one by one, every set
      meal linked to the dish. */
  method StartOrStop(db: Store, status: int, id: int)
    requires db.Valid()
    modifies db`dishes, db`setmeals
    ensures db.Valid()
    ensures db.dishes == if id in old(db.dishes) then old(db.dishes)[id := old(db.dishes)[id].(status := Some(status))] else old(db.dishes)
    ensures status == Disable ==> db.setmeals == DisableAll(old(db.setmeals), SetmealIdsByDishIds(db.links, db.nextLinkId, [id]))
    ensures status != Disable ==> db.setmeals == old(db.setmeals)
  {
    if id in db.dishes {
      db.dishes := db.dishes[id := db.dishes[id].(status := Some(status))];
    }
    if status == Disable {
      var setmealIds := SetmealIdsByDishIds(db.links, db.nextLinkId, [id]);
      DisableSetmeals(db, setmealIds);
    }
  }

  /** list: the dishes on sale, of the category when one is given (a null category drops that
      condition), and all of them. */
  method List(db: Store, categoryId: Option<int>) returns (list: seq<Dish>)
    requires db.Valid()
    ensures forall d :: d in list ==> (categoryId == None || d.categoryId == categoryId) && d.status == Some(Enable)
    ensures forall k :: k in db.dishes && (categoryId == None || db.dishes[k].categoryId == categoryId)
                        && db.dishes[k].status == Some(Enable)
              ==> db.dishes[k] in list
  {
    var p := (d: Dish) => (categoryId == None || d.categoryId == categoryId) && d.status == Some(Enable);
    var ids := Ids(db.dishes, db.nextDishId, p);
    list := Rows(db.dishes, ids);
    forall k | k in db.dishes && p(db.dishes[k])
      ensures db.dishes[k] in list
    {
      SelectComplete(db.dishes, db.nextDishId, p, k);
    }
  }
}
