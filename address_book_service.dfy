/** AddressBookServiceImpl: a user's delivery addresses, at most one of them the default. */
module AddressBookService {
  import opened Common
  import opened Entities
  import opened Tables

  /** The address object of a request: its id and the address fields the client set. */
  datatype AddressInput = AddressInput(
    id: int,
    consignee: Option<string>,
    phone: Option<string>,
    sex: Option<string>,
    detail: Option<string>,
    addressLabel: Option<string>)

  /** AddressBookMapper.update: the non-null fields of the object, written to the row with its
      id; the owner and the default mark are written only when the object carries them. No
      other row changes, and a missing id changes nothing. */
  function UpdateAddress(m: map<int, AddressBook>, a: AddressInput, userId: Option<int>, isDefault: Option<int>): (r: map<int, AddressBook>)
    ensures r.Keys == m.Keys
    ensures forall k :: k in m && k != a.id ==> r[k] == m[k]
    ensures a.id in m ==> r[a.id].userId == (if userId.Some? then userId.value else m[a.id].userId)
    ensures a.id in m ==> r[a.id].isDefault == (if isDefault.Some? then isDefault.value else m[a.id].isDefault)
    ensures a.id in m ==> r[a.id].consignee == (if a.consignee.Some? then a.consignee else m[a.id].consignee)
    ensures a.id in m ==> r[a.id].phone == (if a.phone.Some? then a.phone else m[a.id].phone)
    ensures a.id in m ==> r[a.id].sex == (if a.sex.Some? then a.sex else m[a.id].sex)
    ensures a.id in m ==> r[a.id].detail == (if a.detail.Some? then a.detail else m[a.id].detail)
    ensures a.id in m ==> r[a.id].addressLabel == (if a.addressLabel.Some? then a.addressLabel else m[a.id].addressLabel)
  {
    if a.id !in m then m
    else
      var row := m[a.id];
      m[a.id := row.(userId := OrDefault(userId, row.userId), isDefault := OrDefault(isDefault, row.isDefault),
                      consignee := OrKeep(a.consignee, row.consignee), phone := OrKeep(a.phone, row.phone),
                      sex := OrKeep(a.sex, row.sex), detail := OrKeep(a.detail, row.detail),
                      addressLabel := OrKeep(a.addressLabel, row.addressLabel))]
  }

  /** No user has two default addresses. */
  predicate AtMostOneDefault(m: map<int, AddressBook>) {
    forall j, k :: j in m && k in m && m[j].isDefault == 1 && m[k].isDefault == 1 && m[j].userId == m[k].userId ==> j == k
  }

  /** An update that carries neither an owner nor a default mark keeps every user at one
      default at most; one that carries them can give a user a second default. */
  lemma UpdateKeepsOneDefault(m: map<int, AddressBook>, a: AddressInput)
    requires AtMostOneDefault(m)
    ensures AtMostOneDefault(UpdateAddress(m, a, None, None))
  {
  }

  /** A second default through update: two addresses of one user, the first the default, and
      an update that sets the mark on the second. */
  lemma UpdateCanAddSecondDefault()
    ensures var m := map[1 := AddressBook(7, None, None, None, None, None, 1),
                         2 := AddressBook(7, None, None, None, None, None, 0)];
            AtMostOneDefault(m)
            && !AtMostOneDefault(UpdateAddress(m, AddressInput(2, None, None, None, None, None), None, Some(1)))
  {
    var m := map[1 := AddressBook(7, None, None, None, None, None, 1),
                 2 := AddressBook(7, None, None, None, None, None, 0)];
    var r := UpdateAddress(m, AddressInput(2, None, None, None, None, None), None, Some(1));
    assert r[1].isDefault == 1 && r[2].isDefault == 1 && r[1].userId == r[2].userId;
  }

  /** AddressBookMapper.updateIsDefaultByUserId. */
  function ClearDefaults(m: map<int, AddressBook>, user: int): (r: map<int, AddressBook>)
    ensures r.Keys == m.Keys
    ensures forall k :: k in m ==> r[k] == if m[k].userId == user then m[k].(isDefault := 0) else m[k]
  {
    map k | k in m :: if m[k].userId == user then m[k].(isDefault := 0) else m[k]
  }

  /** The address table after setDefault: the chosen address, now owned by the current user,
      is that user's one default; the user's other addresses are not defaults; no other
      user's address changes. A missing id leaves the user without a default. */
  function SetDefault(m: map<int, AddressBook>, a: AddressInput, user: int): (r: map<int, AddressBook>)
    ensures r.Keys == m.Keys
    ensures a.id in m ==> r[a.id].isDefault == 1 && r[a.id].userId == user
    ensures forall k :: k in r && k != a.id && r[k].userId == user ==> r[k].isDefault == 0
    ensures forall k :: k in m && k != a.id && m[k].userId != user ==> r[k] == m[k]
    ensures forall k :: k in m && k != a.id ==> r[k] == m[k].(isDefault := r[k].isDefault)
    ensures a.id !in m ==> forall k :: k in r && r[k].userId == user ==> r[k].isDefault == 0
  {
    UpdateAddress(ClearDefaults(m, user), a, Some(user), Some(1))
  }

  /** Exactly one default: after setDefault on an existing address, the user's defaults are
      that address and no other. */
  lemma SetDefaultUnique(m: map<int, AddressBook>, a: AddressInput, user: int)
    requires a.id in m
    ensures (set k | k in SetDefault(m, a, user) && SetDefault(m, a, user)[k].userId == user
                     && SetDefault(m, a, user)[k].isDefault == 1) == {a.id}
  {
    var r := SetDefault(m, a, user);
    var d := set k | k in r && r[k].userId == user && r[k].isDefault == 1;
    assert a.id in d;
    assert forall k :: k in d ==> k == a.id;
  }

  /** setDefault keeps every user at one default at most. */
  lemma SetDefaultKeepsOneDefault(m: map<int, AddressBook>, a: AddressInput, user: int)
    requires AtMostOneDefault(m)
    ensures AtMostOneDefault(SetDefault(m, a, user))
  {
  }

  /** save: the address is stored for the current user, not as the default. */
  method Save(db: Store, a: AddressInput, user: int) returns (id: int)
    requires db.Valid()
    modifies db`addresses, db`nextAddressId
    ensures db.Valid()
    ensures id == old(db.nextAddressId) && id !in old(db.addresses)
    ensures db.addresses == old(db.addresses)[id := AddressBook(user, a.consignee, a.phone, a.sex, a.detail, a.addressLabel, 0)]
  {
    var addressBook := AddressBook(user, a.consignee, a.phone, a.sex, a.detail, a.addressLabel, 0);
    id := db.nextAddressId;
    db.addresses := db.addresses[id := addressBook];
    db.nextAddressId := id + 1;
  }

  /** getById. */
  method GetById(db: Store, id: int) returns (r: Option<AddressBook>)
    ensures r.Some? <==> id in db.addresses
    ensures r.Some? ==> r.value == db.addresses[id]
  {
    r := if id in db.addresses then Some(db.addresses[id]) else None;
  }

  /** update: the client's address object written over the stored row, with the owner and the
      default mark it carries, if any. */
  method Update(db: Store, a: AddressInput, userId: Option<int>, isDefault: Option<int>)
    requires db.Valid()
    modifies db`addresses
    ensures db.Valid()
    ensures db.addresses == UpdateAddress(old(db.addresses), a, userId, isDefault)
  {
    db.addresses := UpdateAddress(db.addresses, a, userId, isDefault);
  }

  /** setDefault: two successive updates, first every address of the user, then the chosen
      one. */
  method SetDefaultAddress(db: Store, a: AddressInput, user: int)
    requires db.Valid()
    modifies db`addresses
    ensures db.Valid()
    ensures db.addresses == SetDefault(old(db.addresses), a, user)
  {
    db.addresses := ClearDefaults(db.addresses, user);
    db.addresses := UpdateAddress(db.addresses, a, Some(user), Some(1));
  }

  /** deleteById: exactly that address goes. */
  method DeleteById(db: Store, id: int)
    requires db.Valid()
    modifies db`addresses
    ensures db.Valid()
    ensures db.addresses.Keys == old(db.addresses).Keys - {id}
    ensures forall k :: k in db.addresses ==> db.addresses[k] == old(db.addresses)[k]
  {
    db.addresses := db.addresses - {id};
  }
}
