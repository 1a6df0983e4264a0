/** SetmealServiceImpl: set meals and their links to dishes. A set meal on sale cannot be
    deleted, and one that contains a disabled dish cannot be put on sale.

    Only the set-meal mapper field of the service is injected; the set-meal-dish and dish
    mapper fields are plain fields left null, and the service is not transactional. The
    `Wiring` parameter says which of the two fields hold a mapper: a call through an unwired
    one raises a NullPointerException, and whatever was written before it stays written. */
module SetmealService {
  import opened Common
  import opened Entities
  import opened Tables

  datatype Wiring = Wiring(setmealDishMapper: bool, dishMapper: bool)

  /** The fields as declared: neither of the two is injected. */
  const AsWritten := Wiring(false, false)
  /** Both fields injected, as the service evidently intends. */
  const FullyWired := Wiring(true, true)

  /** The set-meal fields of a SetmealDTO. */
  datatype SetmealInput = SetmealInput(
    categoryId: Option<int>,
    name: string,
    price: int,
    status: Option<int>,
    description: Option<string>,
    image: Option<string>)

  /** The set-meal fields of a SetmealDTO that update writes where set. */
  datatype SetmealPatch = SetmealPatch(
    id: int,
    categoryId: Option<int>,
    name: Option<string>,
    price: Option<int>,
    status: Option<int>,
    description: Option<string>,
    image: Option<string>)

  function NewSetmeal(s: SetmealInput): Setmeal {
    Setmeal(s.categoryId, s.name, s.price, s.status, s.description, s.image)
  }

  /** SetmealMapper.update: the non-null fields of the patch. */
  function PatchSetmeal(s: Setmeal, p: SetmealPatch): Setmeal {
    Setmeal(OrKeep(p.categoryId, s.categoryId), OrDefault(p.name, s.name), OrDefault(p.price, s.price),
            OrKeep(p.status, s.status), OrKeep(p.description, s.description), OrKeep(p.image, s.image))
  }

  /** The links with their set-meal id set to the given set meal. */
  function WithSetmealId(links: seq<SetmealDish>, setmealId: int): (r: seq<SetmealDish>)
    ensures |r| == |links| && forall i :: 0 <= i < |r| ==> r[i] == links[i].(setmealId := setmealId)
  {
    seq(|links|, i requires 0 <= i < |links| => links[i].(setmealId := setmealId))
  }

  /** The forEach that sets the set-meal id on each link of the request. */
  method AssignSetmealId(setmealDishes: seq<SetmealDish>, setmealId: int) returns (r: seq<SetmealDish>)
    ensures r == WithSetmealId(setmealDishes, setmealId)
  {
    r := setmealDishes;
    for i := 0 to |r|
      invariant |r| == |setmealDishes|
      invariant forall j :: 0 <= j < |r| ==> r[j] == if j < i then setmealDishes[j].(setmealId := setmealId) else setmealDishes[j]
    {
      r := r[i := r[i].(setmealId := setmealId)];
    }
  }

  /** saveWithDish: the set meal is inserted; then every supplied link, under the new set
      meal's id, goes through the set-meal-dish mapper. */
  method SaveWithDish(db: Store, w: Wiring, setmeal: SetmealInput, setmealDishes: seq<SetmealDish>)
    returns (r: Outcome, setmealId: int)
    requires db.Valid()
    modifies db`setmeals, db`nextSetmealId, db`links, db`nextLinkId
    ensures db.Valid()
    ensures setmealId == old(db.nextSetmealId) && setmealId !in old(db.setmeals)
    ensures db.setmeals == old(db.setmeals)[setmealId := NewSetmeal(setmeal)]
    ensures db.nextSetmealId == old(db.nextSetmealId) + 1
    ensures w.setmealDishMapper ==>
              r == Ok && db.links == Appended(old(db.links), old(db.nextLinkId), WithSetmealId(setmealDishes, setmealId))
              && db.nextLinkId == old(db.nextLinkId) + |setmealDishes|
    ensures !w.setmealDishMapper ==>
              r == Fail(NullPointer) && db.links == old(db.links) && db.nextLinkId == old(db.nextLinkId)
  {
    setmealId := db.InsertSetmeal(NewSetmeal(setmeal));
    var rows := AssignSetmealId(setmealDishes, setmealId);
    if !w.setmealDishMapper {
      return Fail(NullPointer), setmealId;
    }
    db.InsertLinks(rows);
    r := Ok;
  }

  /** The checking forEach of deleteBatch: the first listed set meal that is missing (a
      NullPointerException) or on sale stops it. */
  function CheckDeletable(setmeals: map<int, Setmeal>, ids: seq<int>): (r: Outcome)
    ensures r == Ok || r == Fail(NullPointer) || r == Fail(Business(SetmealOnSale))
  {
    if ids == [] then Ok
    else if ids[0] !in setmeals then Fail(NullPointer)
    else if setmeals[ids[0]].status == Some(Enable) then Fail(Business(SetmealOnSale))
    else CheckDeletable(setmeals, ids[1..])
  }

  /** The check passes exactly when every listed set meal exists and is not on sale. */
  lemma {:induction false} CheckDeletableOk(setmeals: map<int, Setmeal>, ids: seq<int>)
    ensures CheckDeletable(setmeals, ids) == Ok <==>
              forall j :: 0 <= j < |ids| ==> ids[j] in setmeals && setmeals[ids[j]].status != Some(Enable)
  {
    if ids != [] {
      CheckDeletableOk(setmeals, ids[1..]);
      assert forall j :: 1 <= j < |ids| ==> ids[j] == ids[1..][j - 1];
    }
  }

  /** SetmealMapper.deleteById for each listed set meal. */
  function WithoutSetmeals(setmeals: map<int, Setmeal>, ids: seq<int>): (r: map<int, Setmeal>)
    ensures forall k :: k in r <==> k in setmeals && k !in ids
    ensures forall k :: k in r ==> r[k] == setmeals[k]
  {
    map k | k in setmeals && k !in ids :: setmeals[k]
  }

  /** SetmealDishMapper.deleteByDishId called with each listed id: the links whose DISH id is
      one of them go. */
  function WithoutLinksOfDishes(links: map<int, SetmealDish>, ids: seq<int>): (r: map<int, SetmealDish>)
    ensures forall k :: k in r <==> k in links && links[k].dishId !in ids
    ensures forall k :: k in r ==> r[k] == links[k]
  {
    map k | k in links && links[k].dishId !in ids :: links[k]
  }

  /** The outcome of a service call that may stop part-way, with the set-meal and link tables
      it leaves. */
  datatype SetmealStep = SetmealStep(outcome: Outcome, setmeals: map<int, Setmeal>, links: map<int, SetmealDish>)

  /** deleteBatch as written. After the check, each listed set meal is deleted and then
      deleteByDishId is called with its id; with the set-meal-dish mapper unwired, the first
      deletion stays and the call after it raises a NullPointerException. */
  function DeleteSetmeals(setmeals: map<int, Setmeal>, links: map<int, SetmealDish>, ids: seq<int>, w: Wiring)
    : (r: SetmealStep)
    ensures CheckDeletable(setmeals, ids).Fail? ==>
              r == SetmealStep(CheckDeletable(setmeals, ids), setmeals, links)
    ensures r.outcome == Ok <==> CheckDeletable(setmeals, ids) == Ok && (w.setmealDishMapper || ids == [])
    ensures r.outcome == Ok ==>
              forall j :: 0 <= j < |ids| ==> ids[j] in setmeals && setmeals[ids[j]].status != Some(Enable)
    ensures r.outcome == Ok ==> forall k :: k in r.setmeals <==> k in setmeals && k !in ids
    ensures r.outcome == Ok ==> forall k :: k in r.links <==> k in links && links[k].dishId !in ids
    ensures r.outcome == Ok ==> forall k :: k in r.setmeals ==> r.setmeals[k] == setmeals[k]
    ensures r.outcome == Ok ==> forall k :: k in r.links ==> r.links[k] == links[k]
    ensures CheckDeletable(setmeals, ids) == Ok && !w.setmealDishMapper && ids != [] ==>
              r == SetmealStep(Fail(NullPointer), setmeals - {ids[0]}, links)
  {
    CheckDeletableOk(setmeals, ids);
    if CheckDeletable(setmeals, ids).Fail? then SetmealStep(CheckDeletable(setmeals, ids), setmeals, links)
    else if ids == [] then SetmealStep(Ok, setmeals, links)
    else if !w.setmealDishMapper then SetmealStep(Fail(NullPointer), setmeals - {ids[0]}, links)
    else SetmealStep(Ok, WithoutSetmeals(setmeals, ids), WithoutLinksOfDishes(links, ids))
  }

  /** The checking forEach of deleteBatch over the set-meal table. */
  method CheckSetmeals(db: Store, ids: seq<int>) returns (r: Outcome)
    ensures r == CheckDeletable(db.setmeals, ids)
  {
    for i := 0 to |ids|
      invariant CheckDeletable(db.setmeals, ids) == CheckDeletable(db.setmeals, ids[i..])
    {
      assert ids[i..][1..] == ids[i + 1..];
      if ids[i] !in db.setmeals {
        return Fail(NullPointer);
      }
      var setmeal := db.setmeals[ids[i]];
      if setmeal.status == Some(Enable) {
        return Fail(Business(SetmealOnSale));
      }
    }
    assert ids[|ids|..] == [];
    r := Ok;
  }

  /** One more set meal of the list deleted. */
  lemma WithoutSetmealsStep(setmeals: map<int, Setmeal>, ids: seq<int>, i: int)
    requires 0 <= i < |ids|
    ensures WithoutSetmeals(setmeals, ids[..i + 1]) == WithoutSetmeals(setmeals, ids[..i]) - {ids[i]}
  {
    assert ids[..i + 1] == ids[..i] + [ids[i]];
    SameTable(WithoutSetmeals(setmeals, ids[..i + 1]), WithoutSetmeals(setmeals, ids[..i]) - {ids[i]});
  }

  /** One more deleteByDishId call of the list. */
  lemma WithoutLinksOfDishesStep(links: map<int, SetmealDish>, ids: seq<int>, i: int)
    requires 0 <= i < |ids|
    ensures WithoutLinksOfDishes(links, ids[..i + 1]) == WithoutLinksOfDish(WithoutLinksOfDishes(links, ids[..i]), ids[i])
  {
    assert ids[..i + 1] == ids[..i] + [ids[i]];
    SameTable(WithoutLinksOfDishes(links, ids[..i + 1]), WithoutLinksOfDish(WithoutLinksOfDishes(links, ids[..i]), ids[i]));
  }

  /** The deleting forEach of deleteBatch with the set-meal-dish mapper wired. */
  method DeleteSetmealsAndLinks(db: Store, ids: seq<int>)
    requires db.Valid()
    modifies db`setmeals, db`links
    ensures db.Valid()
    ensures db.setmeals == WithoutSetmeals(old(db.setmeals), ids)
    ensures db.links == WithoutLinksOfDishes(old(db.links), ids)
  {
    var setmeals, links := db.setmeals, db.links;
    ghost var setmeals0, links0 := setmeals, links;
    SameTable(WithoutSetmeals(setmeals, ids[..0]), setmeals);
    SameTable(WithoutLinksOfDishes(links, ids[..0]), links);
    for i := 0 to |ids|
      invariant setmeals == WithoutSetmeals(setmeals0, ids[..i])
      invariant links == WithoutLinksOfDishes(links0, ids[..i])
    {
      WithoutSetmealsStep(setmeals0, ids, i);
      WithoutLinksOfDishesStep(links0, ids, i);
      setmeals := setmeals - {ids[i]};
      links := WithoutLinksOfDish(links, ids[i]);
    }
    assert ids[..|ids|] == ids;
    db.setmeals, db.links := setmeals, links;
  }

  /** deleteBatch. */
  method DeleteBatch(db: Store, w: Wiring, ids: seq<int>) returns (r: Outcome)
    requires db.Valid()
    modifies db`setmeals, db`links
    ensures db.Valid()
    ensures var step := DeleteSetmeals(old(db.setmeals), old(db.links), ids, w);
            r == step.outcome && db.setmeals == step.setmeals && db.links == step.links
  {
    r := CheckSetmeals(db, ids);
    if r.Fail? {
      return;
    }
    if |ids| == 0 {
      return;
    }
    if !w.setmealDishMapper {
      db.setmeals := db.setmeals - {ids[0]};
      return Fail(NullPointer);
    }
    DeleteSetmealsAndLinks(db, ids);
  }

  /** The links of the given set meal. */
  predicate LinkedTo(links: map<int, SetmealDish>, setmealId: int, k: int) {
    k in links && links[k].setmealId == setmealId
  }

  /** A link whose dish id names a set meal that is not listed and whose set meal is listed:
      deleteBatch (wired) keeps it although its set meal is gone. */
  lemma DeleteKeepsOwnLinks(setmeals: map<int, Setmeal>, links: map<int, SetmealDish>, ids: seq<int>, k: int)
    requires CheckDeletable(setmeals, ids) == Ok
    requires k in links && links[k].setmealId in ids && links[k].dishId !in ids
    ensures var r := DeleteSetmeals(setmeals, links, ids, FullyWired);
            k in r.links && r.links[k].setmealId !in r.setmeals
  {
  }

  /** The smallest instance: deleting set meal 1, which is off sale and holds dish 7, leaves its
      link behind, and a link of set meal 2 that holds dish 1 is deleted instead. */
  lemma DeleteBatchOrphansLinks()
    ensures var setmeals := map[1 := Setmeal(None, "A", 10, Some(Disable), None, None),
                                2 := Setmeal(None, "B", 20, Some(Disable), None, None)];
            var links := map[1 := SetmealDish(1, 7, None, None, None), 2 := SetmealDish(2, 1, None, None, None)];
            var r := DeleteSetmeals(setmeals, links, [1], FullyWired);
            && r.outcome == Ok
            && 1 in r.links && r.links[1].setmealId !in r.setmeals
            && 2 !in r.links && 2 in r.setmeals
  {
    var setmeals := map[1 := Setmeal(None, "A", 10, Some(Disable), None, None),
                        2 := Setmeal(None, "B", 20, Some(Disable), None, None)];
    assert CheckDeletable(setmeals, [1]) == CheckDeletable(setmeals, [1][1..]);
    assert [1][1..] == [];
  }

  /** Every link names an existing set meal. */
  predicate LinksResolve(setmeals: map<int, Setmeal>, links: map<int, SetmealDish>) {
    forall k :: k in links ==> links[k].setmealId in setmeals
  }

  /** SetmealDishMapper deletion by set-meal id, as the service evidently intends. */
  function WithoutLinksOfSetmeals(links: map<int, SetmealDish>, ids: seq<int>): (r: map<int, SetmealDish>)
    ensures forall k :: k in r <==> k in links && links[k].setmealId !in ids
    ensures forall k :: k in r ==> r[k] == links[k]
  {
    map k | k in links && links[k].setmealId !in ids :: links[k]
  }

  /** deleteBatch as evidently intended: the set meals and their own links go, so links still
      name existing set meals, and the links of other set meals are kept. */
  function DeleteSetmealsIntended(setmeals: map<int, Setmeal>, links: map<int, SetmealDish>, ids: seq<int>)
    : (r: SetmealStep)
    ensures r.outcome == Ok <==> CheckDeletable(setmeals, ids) == Ok
    ensures r.outcome.Fail? ==> r.setmeals == setmeals && r.links == links
    ensures r.outcome == Ok ==> forall k :: k in r.setmeals <==> k in setmeals && k !in ids
    ensures r.outcome == Ok ==> forall k :: k in r.links <==> k in links && links[k].setmealId !in ids
    ensures LinksResolve(setmeals, links) ==> LinksResolve(r.setmeals, r.links)
  {
    if CheckDeletable(setmeals, ids).Fail? then SetmealStep(CheckDeletable(setmeals, ids), setmeals, links)
    else SetmealStep(Ok, WithoutSetmeals(setmeals, ids), WithoutLinksOfSetmeals(links, ids))
  }

  /** update: the set meal's set fields are written; then its links are replaced through the
      set-meal-dish mapper (deleteByDishId with the set meal's id, as written, then the new
      links under that id). */
  method Update(db: Store, w: Wiring, setmeal: SetmealPatch, setmealDishes: seq<SetmealDish>) returns (r: Outcome)
    requires db.Valid()
    modifies db`setmeals, db`links, db`nextLinkId
    ensures db.Valid()
    ensures db.setmeals == if setmeal.id in old(db.setmeals)
                           then old(db.setmeals)[setmeal.id := PatchSetmeal(old(db.setmeals)[setmeal.id], setmeal)]
                           else old(db.setmeals)
    ensures !w.setmealDishMapper ==>
              r == Fail(NullPointer) && db.links == old(db.links) && db.nextLinkId == old(db.nextLinkId)
    ensures w.setmealDishMapper ==>
              && r == Ok
              && db.links == Appended(WithoutLinksOfDish(old(db.links), setmeal.id), old(db.nextLinkId),
                                      WithSetmealId(setmealDishes, setmeal.id))
              && db.nextLinkId == old(db.nextLinkId) + |setmealDishes|
  {
    if setmeal.id in db.setmeals {
      db.setmeals := db.setmeals[setmeal.id := PatchSetmeal(db.setmeals[setmeal.id], setmeal)];
    }
    var setmealId := setmeal.id;
    if !w.setmealDishMapper {
      return Fail(NullPointer);
    }
    db.links := WithoutLinksOfDish(db.links, setmealId);
    var rows := AssignSetmealId(setmealDishes, setmealId);
    db.InsertLinks(rows);
    r := Ok;
  }

  /** The links of a set meal after update (wired) replaced them. */
  function UpdatedLinks(links: map<int, SetmealDish>, n: int, setmealId: int, rows: seq<SetmealDish>): map<int, SetmealDish> {
    Appended(WithoutLinksOfDish(links, setmealId), n, WithSetmealId(rows, setmealId))
  }

  /** As written, update keeps the set meal's old links next to the new ones: a link of the set
      meal to any dish whose id is not the set meal's own id survives. */
  lemma UpdateKeepsOldLinks(links: map<int, SetmealDish>, n: int, setmealId: int, rows: seq<SetmealDish>, k: int)
    requires Below(links, n)
    requires LinkedTo(links, setmealId, k) && links[k].dishId != setmealId
    ensures LinkedTo(UpdatedLinks(links, n, setmealId, rows), setmealId, k)
  {
  }

  /** update's link replacement as evidently intended: the set meal's own links go and the
      new ones take their place. */
  function UpdatedLinksIntended(links: map<int, SetmealDish>, n: int, setmealId: int, rows: seq<SetmealDish>)
    : (r: map<int, SetmealDish>)
    ensures forall k :: k in links && links[k].setmealId != setmealId && !(n <= k < n + |rows|) ==> k in r && r[k] == links[k]
  {
    Appended(WithoutLinksOfSetmeals(links, [setmealId]), n, WithSetmealId(rows, setmealId))
  }

  /** After the intended update the set meal's links are exactly the new rows, in order. */
  lemma UpdateIntendedReplaces(links: map<int, SetmealDish>, n: int, setmealId: int, rows: seq<SetmealDish>)
    requires Below(links, n)
    ensures var r := UpdatedLinksIntended(links, n, setmealId, rows);
            && (forall k :: LinkedTo(r, setmealId, k) <==> n <= k < n + |rows|)
            && (forall j :: 0 <= j < |rows| ==> r[n + j] == rows[j].(setmealId := setmealId))
  {
    var added := WithSetmealId(rows, setmealId);
    var r := UpdatedLinksIntended(links, n, setmealId, rows);
    forall k | n <= k < n + |rows|
      ensures LinkedTo(r, setmealId, k)
    {
      assert r[n + (k - n)] == added[k - n];
    }
  }

  /** Some dish of the set meal is off sale: a link of the set meal names an existing dish whose
      status is DISABLE. */
  predicate EnableBlocked(dishes: map<int, Dish>, links: map<int, SetmealDish>, setmealId: int) {
    exists k :: k in links && links[k].setmealId == setmealId && links[k].dishId in dishes
                && dishes[links[k].dishId].status == Some(Disable)
  }

  function OfSetmeal(setmealId: int): SetmealDish -> bool {
    (l: SetmealDish) => l.setmealId == setmealId
  }

  /** DishMapper.getBySetmealId: the dishes named by the set meal's links, in link order (a
      link to a missing dish contributes nothing). */
  function DishesOfSetmeal(dishes: map<int, Dish>, links: map<int, SetmealDish>, n: int, setmealId: int): (r: seq<Dish>)
    requires Below(links, n)
    ensures forall d :: d in r ==> exists k :: LinkedTo(links, setmealId, k) && links[k].dishId in dishes && dishes[links[k].dishId] == d
  {
    DishesOfSetmealLinked(dishes, links, n, setmealId);
    JoinDishes(dishes, Rows(links, Ids(links, n, OfSetmeal(setmealId))))
  }

  lemma DishesOfSetmealLinked(dishes: map<int, Dish>, links: map<int, SetmealDish>, n: int, setmealId: int)
    requires Below(links, n)
    ensures forall d :: d in JoinDishes(dishes, Rows(links, Ids(links, n, OfSetmeal(setmealId)))) ==>
              exists k :: LinkedTo(links, setmealId, k) && links[k].dishId in dishes && dishes[links[k].dishId] == d
  {
    var ids := Ids(links, n, OfSetmeal(setmealId));
    var rows := Rows(links, ids);
    forall d | d in JoinDishes(dishes, rows)
      ensures exists k :: LinkedTo(links, setmealId, k) && links[k].dishId in dishes && dishes[links[k].dishId] == d
    {
      var i :| 0 <= i < |rows| && rows[i].dishId in dishes && dishes[rows[i].dishId] == d;
      assert ids[i] in ids;
      assert LinkedTo(links, setmealId, ids[i]);
    }
  }

  /** The set meal's dish list holds a disabled dish exactly when the set meal is blocked. */
  lemma DishesOfSetmealBlocked(dishes: map<int, Dish>, links: map<int, SetmealDish>, n: int, setmealId: int)
    requires Below(links, n)
    ensures (exists d :: d in DishesOfSetmeal(dishes, links, n, setmealId) && d.status == Some(Disable))
            <==> EnableBlocked(dishes, links, setmealId)
  {
    if EnableBlocked(dishes, links, setmealId) {
      var ids := Ids(links, n, OfSetmeal(setmealId));
      var k :| k in links && links[k].setmealId == setmealId && links[k].dishId in dishes
               && dishes[links[k].dishId].status == Some(Disable);
      assert OfSetmeal(setmealId)(links[k]);
      assert k in ids;
      var i :| 0 <= i < |ids| && ids[i] == k;
      assert Rows(links, ids)[i] == links[k];
      assert dishes[links[k].dishId] in DishesOfSetmeal(dishes, links, n, setmealId);
    }
  }

  /** The inner join of links with the dish table. */
  function JoinDishes(dishes: map<int, Dish>, ls: seq<SetmealDish>): (r: seq<Dish>)
    ensures forall d :: d in r <==> exists i :: 0 <= i < |ls| && ls[i].dishId in dishes && dishes[ls[i].dishId] == d
  {
    if ls == [] then []
    else
      var rest := JoinDishes(dishes, ls[1..]);
      assert forall i :: 1 <= i < |ls| ==> ls[i] == ls[1..][i - 1];
      assert forall i :: 0 <= i < |ls[1..]| ==> ls[1..][i] == ls[i + 1];
      (if ls[0].dishId in dishes then [dishes[ls[0].dishId]] else []) + rest
  }

  /** The set-meal table and outcome of startOrStop as written: ENABLE goes through the dish
      mapper (a NullPointerException when unwired) and is refused while a dish of the set
      meal is off sale; otherwise the status is written. */
  function SetStatus(setmeals: map<int, Setmeal>, dishes: map<int, Dish>, links: map<int, SetmealDish>,
                     w: Wiring, status: int, id: int): (r: (Outcome, map<int, Setmeal>))
    ensures r.0 == Ok <==> status != Enable || (w.dishMapper && !EnableBlocked(dishes, links, id))
    ensures status == Enable && !w.dishMapper ==> r.0 == Fail(NullPointer)
    ensures status == Enable && w.dishMapper && EnableBlocked(dishes, links, id) ==> r.0 == Fail(Business(SetmealEnableFailed))
    ensures r.0.Fail? ==> r.1 == setmeals
    ensures r.0 == Ok ==> r.1.Keys == setmeals.Keys
    ensures r.0 == Ok && id in setmeals ==> r.1[id] == setmeals[id].(status := Some(status))
    ensures forall k :: k in setmeals && k != id ==> r.1[k] == setmeals[k]
  {
    if status == Enable && !w.dishMapper then (Fail(NullPointer), setmeals)
    else if status == Enable && EnableBlocked(dishes, links, id) then (Fail(Business(SetmealEnableFailed)), setmeals)
    else (Ok, if id in setmeals then setmeals[id := setmeals[id].(status := Some(status))] else setmeals)
  }

  /** The checking forEach of startOrStop over the set meal's dishes. */
  method CheckDishesOnSale(dishList: seq<Dish>) returns (r: Outcome)
    ensures r == Ok <==> forall d :: d in dishList ==> d.status != Some(Disable)
    ensures r.Fail? ==> r == Fail(Business(SetmealEnableFailed))
  {
    for i := 0 to |dishList|
      invariant forall j :: 0 <= j < i ==> dishList[j].status != Some(Disable)
    {
      if dishList[i].status == Some(Disable) {
        return Fail(Business(SetmealEnableFailed));
      }
    }
    r := Ok;
  }

  /** startOrStop. */
  method StartOrStop(db: Store, w: Wiring, status: int, id: int) returns (r: Outcome)
    requires db.Valid()
    modifies db`setmeals
    ensures db.Valid()
    ensures (r, db.setmeals) == SetStatus(old(db.setmeals), db.dishes, db.links, w, status, id)
  {
    if status == Enable {
      if !w.dishMapper {
        return Fail(NullPointer);
      }
      var dishList := DishesOfSetmeal(db.dishes, db.links, db.nextLinkId, id);
      DishesOfSetmealBlocked(db.dishes, db.links, db.nextLinkId, id);
      if |dishList| > 0 {
        r := CheckDishesOnSale(dishList);
        if r.Fail? {
          return;
        }
      }
    }
    if id in db.setmeals {
      db.setmeals := db.setmeals[id := db.setmeals[id].(status := Some(status))];
    }
    r := Ok;
  }

  /** As written, no set meal can be put on sale: ENABLE always fails, and the table stays as
      it was. DISABLE still works. */
  lemma UnwiredEnableAlwaysFails(setmeals: map<int, Setmeal>, dishes: map<int, Dish>, links: map<int, SetmealDish>, id: int)
    ensures SetStatus(setmeals, dishes, links, AsWritten, Enable, id) == (Fail(NullPointer), setmeals)
    ensures id in setmeals ==>
              SetStatus(setmeals, dishes, links, AsWritten, Disable, id).1[id].status == Some(Disable)
  {
  }

  /** With both mappers wired, a set meal put on sale contains no disabled dish, and one that
      contains a disabled dish stays as it was. */
  lemma WiredEnableGuard(setmeals: map<int, Setmeal>, dishes: map<int, Dish>, links: map<int, SetmealDish>, id: int)
    requires id in setmeals
    ensures var r := SetStatus(setmeals, dishes, links, FullyWired, Enable, id);
            && (r.0 == Ok <==> !EnableBlocked(dishes, links, id))
            && (r.0 == Ok ==> r.1[id].status == Some(Enable))
            && (r.0.Fail? ==> r.1[id] == setmeals[id])
  {
  }
}
