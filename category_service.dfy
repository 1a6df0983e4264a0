/** CategoryServiceImpl: dish and set-meal categories, which cannot be deleted while a dish or
    a set meal refers to them. */
module CategoryService {
  import opened Common
  import opened Entities
  import opened Tables

  /** CategoryDTO. */
  datatype CategoryInput = CategoryInput(id: int, kind: Option<int>, name: Option<string>, sort: Option<int>)

  /** DishMapper.countByCategoryId(id) > 0. */
  predicate DishRefers(dishes: map<int, Dish>, id: int) {
    exists k :: k in dishes && dishes[k].categoryId == Some(id)
  }

  /** SetmealMapper.countByCategoryId(id) > 0. */
  predicate SetmealRefers(setmeals: map<int, Setmeal>, id: int) {
    exists k :: k in setmeals && setmeals[k].categoryId == Some(id)
  }

  /** Every category a dish or a set meal names exists. */
  predicate ReferencesResolve(categories: map<int, Category>, dishes: map<int, Dish>, setmeals: map<int, Setmeal>) {
    && (forall k :: k in dishes && dishes[k].categoryId.Some? ==> dishes[k].categoryId.value in categories)
    && (forall k :: k in setmeals && setmeals[k].categoryId.Some? ==> setmeals[k].categoryId.value in categories)
  }

  /** The category table after deleteById: refused while a dish refers to the category (checked
      first), then while a set meal does; otherwise exactly that category goes. */
  function DeleteCategory(categories: map<int, Category>, dishes: map<int, Dish>, setmeals: map<int, Setmeal>, id: int)
    : (r: Result<map<int, Category>>)
    ensures DishRefers(dishes, id) ==> r == Failure(Business(CategoryRelatedByDish))
    ensures !DishRefers(dishes, id) && SetmealRefers(setmeals, id) ==> r == Failure(Business(CategoryRelatedBySetmeal))
    ensures r.Success? <==> !DishRefers(dishes, id) && !SetmealRefers(setmeals, id)
    ensures r.Success? ==> r.value.Keys == categories.Keys - {id} && forall k :: k in r.value ==> r.value[k] == categories[k]
    ensures r.Success? && ReferencesResolve(categories, dishes, setmeals) ==> ReferencesResolve(r.value, dishes, setmeals)
  {
    if DishRefers(dishes, id) then Failure(Business(CategoryRelatedByDish))
    else if SetmealRefers(setmeals, id) then Failure(Business(CategoryRelatedBySetmeal))
    else Success(categories - {id})
  }

  /** save: a new category is disabled, stamped with the clock and the current user. */
  method Save(db: Store, c: CategoryInput, user: int, now: int) returns (id: int)
    requires db.Valid()
    modifies db`categories, db`nextCategoryId
    ensures db.Valid()
    ensures id == old(db.nextCategoryId) && id !in old(db.categories)
    ensures db.categories == old(db.categories)[id := Category(c.kind, c.name, c.sort, Some(Disable), Some(now), Some(now), Some(user), Some(user))]
  {
    var category := Category(c.kind, c.name, c.sort, Some(Disable), Some(now), Some(now), Some(user), Some(user));
    id := db.nextCategoryId;
    db.categories := db.categories[id := category];
    db.nextCategoryId := id + 1;
  }

  /** deleteById. */
  method DeleteById(db: Store, id: int) returns (r: Outcome)
    requires db.Valid()
    modifies db`categories
    ensures db.Valid()
    ensures match DeleteCategory(old(db.categories), db.dishes, db.setmeals, id)
            case Success(m) => r == Ok && db.categories == m
            case Failure(e) => r == Fail(e) && db.categories == old(db.categories)
  {
    if DishRefers(db.dishes, id) {
      return Fail(Business(CategoryRelatedByDish));
    }
    if SetmealRefers(db.setmeals, id) {
      return Fail(Business(CategoryRelatedBySetmeal));
    }
    db.categories := db.categories - {id};
    r := Ok;
  }

  /** update: the fields the request sets, and the update stamp; a missing id writes
      nothing. */
  method Update(db: Store, c: CategoryInput, user: int, now: int)
    requires db.Valid()
    modifies db`categories
    ensures db.Valid()
    ensures db.categories.Keys == old(db.categories).Keys
    ensures forall k :: k in old(db.categories) && k != c.id ==> db.categories[k] == old(db.categories)[k]
    ensures c.id in old(db.categories) ==>
              var row := old(db.categories)[c.id];
              db.categories[c.id] == row.(kind := OrKeep(c.kind, row.kind), name := OrKeep(c.name, row.name),
                                          sort := OrKeep(c.sort, row.sort), updateTime := Some(now), updateUser := Some(user))
  {
    if c.id in db.categories {
      var row := db.categories[c.id];
      db.categories := db.categories[c.id := row.(kind := OrKeep(c.kind, row.kind), name := OrKeep(c.name, row.name),
                                                 sort := OrKeep(c.sort, row.sort), updateTime := Some(now), updateUser := Some(user))];
    }
  }

  /** startOrStop: only that category's status and update stamp change. */
  method StartOrStop(db: Store, status: int, id: int, user: int, now: int)
    requires db.Valid()
    modifies db`categories
    ensures db.Valid()
    ensures db.categories.Keys == old(db.categories).Keys
    ensures forall k :: k in old(db.categories) && k != id ==> db.categories[k] == old(db.categories)[k]
    ensures id in old(db.categories) ==>
              db.categories[id] == old(db.categories)[id].(status := Some(status), updateTime := Some(now), updateUser := Some(user))
  {
    if id in db.categories {
      db.categories := db.categories[id := db.categories[id].(status := Some(status), updateTime := Some(now), updateUser := Some(user))];
    }
  }
}
