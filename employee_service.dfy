/** EmployeeServiceImpl: staff accounts. Passwords are stored as the MD5 hex digest of the
    plain text; the digest is a parameter `hash` of the operations that use it. */
module EmployeeService {
  import opened Common
  import opened Entities
  import opened Tables

  /** The fields of an EmployeeDTO that save copies. */
  datatype EmployeeInput = EmployeeInput(
    username: string,
    name: Option<string>,
    phone: Option<string>,
    sex: Option<string>,
    idNumber: Option<string>)

  /** The fields an update writes: those of an EmployeeDTO (update) or the status alone
      (startOrStop); null fields are left as they are. */
  datatype EmployeePatch = EmployeePatch(
    id: int,
    username: Option<string>,
    name: Option<string>,
    phone: Option<string>,
    sex: Option<string>,
    idNumber: Option<string>,
    status: Option<int>)

  /** The text getById puts in place of the stored password. */
  const Mask: string := "****"

  function HasUsername(username: string): Employee -> bool {
    (e: Employee) => e.username == username
  }

  /** EmployeeMapper.getByUsername: a select of at most one row; a missing row is null and
      several rows are too many results for one object. */
  function FindByUsername(employees: map<int, Employee>, n: int, username: string): (r: Result<int>)
    ensures r.Success? ==> r.value in employees && employees[r.value].username == username
    ensures r.Failure? ==> r.error == NullPointer || r.error == TooManyResults
  {
    var ids := Ids(employees, n, HasUsername(username));
    if |ids| == 0 then Failure(NullPointer)
    else if |ids| > 1 then Failure(TooManyResults)
    else
      assert ids[0] in ids;
      Success(ids[0])
  }

  /** The lookup finds the one employee with the username, and nothing when there is none. */
  lemma FindByUsernameExact(employees: map<int, Employee>, n: int, username: string)
    requires Below(employees, n)
    ensures (forall k :: k in employees ==> employees[k].username != username) <==>
              FindByUsername(employees, n, username) == Failure(NullPointer)
    ensures forall id :: id in employees && employees[id].username == username
                         && (forall k :: k in employees && employees[k].username == username ==> k == id)
                         ==> FindByUsername(employees, n, username) == Success(id)
  {
    var ids := Ids(employees, n, HasUsername(username));
    if ids != [] {
      assert ids[0] in ids;
    }
    if |ids| > 1 {
      assert ids[0] in ids && ids[1] in ids && ids[0] < ids[1];
    }
  }

  /** login: an unknown username, then a wrong password, then a locked account are refused,
      in that order; otherwise the stored employee is returned. */
  function Login(employees: map<int, Employee>, n: int, username: string, password: string,
                 hash: string -> string): (r: Result<Employee>)
    ensures r.Success? ==> exists k :: k in employees && employees[k] == r.value && r.value.username == username
    ensures r.Success? ==> r.value.password == hash(password) && r.value.status != Some(Disable)
    ensures r.Failure? ==> r.error in {Business(AccountNotFound), Business(PasswordError), Business(AccountLocked), TooManyResults}
  {
    match FindByUsername(employees, n, username)
    case Failure(NullPointer) => Failure(Business(AccountNotFound))
    case Failure(e) => Failure(e)
    case Success(id) =>
      var employee := employees[id];
      if hash(password) != employee.password then Failure(Business(PasswordError))
      else if employee.status == Some(Disable) then Failure(Business(AccountLocked))
      else Success(employee)
  }

  /** Login succeeds exactly when one employee has the username, the password hashes to the
      stored digest and the account is not disabled. */
  lemma LoginSucceeds(employees: map<int, Employee>, n: int, username: string, password: string,
                      hash: string -> string, id: int)
    requires Below(employees, n)
    requires id in employees && employees[id].username == username
    requires forall k :: k in employees && employees[k].username == username ==> k == id
    ensures Login(employees, n, username, password, hash) ==
              if hash(password) != employees[id].password then Failure(Business(PasswordError))
              else if employees[id].status == Some(Disable) then Failure(Business(AccountLocked))
              else Success(employees[id])
  {
    FindByUsernameExact(employees, n, username);
  }

  /** An unknown username is refused as such, whatever the password. */
  lemma LoginUnknownUser(employees: map<int, Employee>, n: int, username: string, password: string,
                         hash: string -> string)
    requires Below(employees, n)
    requires forall k :: k in employees ==> employees[k].username != username
    ensures Login(employees, n, username, password, hash) == Failure(Business(AccountNotFound))
  {
    FindByUsernameExact(employees, n, username);
  }

  /** The employee save stores: enabled, with the digest of the default password. */
  function NewEmployee(e: EmployeeInput, hash: string -> string): (r: Employee)
    ensures r.status == Some(Enable) && r.password == hash(DefaultPassword)
    ensures r.username == e.username && r.name == e.name && r.phone == e.phone
    ensures r.sex == e.sex && r.idNumber == e.idNumber
  {
    Employee(e.username, e.name, hash(DefaultPassword), e.phone, e.sex, e.idNumber, Some(Enable))
  }

  /** save. */
  method Save(db: Store, employee: EmployeeInput, hash: string -> string) returns (id: int)
    requires db.Valid()
    modifies db`employees, db`nextEmployeeId
    ensures db.Valid()
    ensures id == old(db.nextEmployeeId) && id !in old(db.employees)
    ensures db.employees == old(db.employees)[id := NewEmployee(employee, hash)]
  {
    id := db.InsertEmployee(NewEmployee(employee, hash));
  }

  /** A new employee whose username is not taken can log in with the default password. */
  lemma SavedEmployeeCanLogIn(employees: map<int, Employee>, n: int, e: EmployeeInput, hash: string -> string)
    requires Below(employees, n)
    requires forall k :: k in employees ==> employees[k].username != e.username
    ensures Login(employees[n := NewEmployee(e, hash)], n + 1, e.username, DefaultPassword, hash)
              == Success(NewEmployee(e, hash))
  {
    LoginSucceeds(employees[n := NewEmployee(e, hash)], n + 1, e.username, DefaultPassword, hash, n);
  }

  /** EmployeeMapper.update: the non-null fields of the patch. */
  function PatchEmployee(e: Employee, p: EmployeePatch): Employee {
    Employee(OrDefault(p.username, e.username), OrKeep(p.name, e.name), e.password, OrKeep(p.phone, e.phone),
             OrKeep(p.sex, e.sex), OrKeep(p.idNumber, e.idNumber), OrKeep(p.status, e.status))
  }

  /** The table after EmployeeMapper.update: the row with the patch's id, if any, patched. */
  function Updated(employees: map<int, Employee>, p: EmployeePatch): (r: map<int, Employee>)
    ensures r.Keys == employees.Keys
    ensures forall k :: k in employees && k != p.id ==> r[k] == employees[k]
    ensures p.id in employees ==> r[p.id].password == employees[p.id].password
  {
    if p.id in employees then employees[p.id := PatchEmployee(employees[p.id], p)] else employees
  }

  /** startOrStop: an update carrying only the id and the status. */
  method StartOrStop(db: Store, status: int, id: int)
    requires db.Valid()
    modifies db`employees
    ensures db.Valid()
    ensures db.employees == Updated(old(db.employees), EmployeePatch(id, None, None, None, None, None, Some(status)))
  {
    if id in db.employees {
      db.employees := db.employees[id := db.employees[id].(status := Some(status))];
    }
  }

  /** Only the status changes: the account keeps its credentials and details. */
  lemma StartOrStopChangesOnlyStatus(employees: map<int, Employee>, status: int, id: int)
    requires id in employees
    ensures Updated(employees, EmployeePatch(id, None, None, None, None, None, Some(status)))[id]
              == employees[id].(status := Some(status))
  {
  }

  /** A disabled account is refused at login even with the right password, and enabling it
      again lets it in. */
  lemma DisabledCannotLogIn(employees: map<int, Employee>, n: int, id: int, password: string, hash: string -> string)
    requires Below(employees, n)
    requires id in employees && hash(password) == employees[id].password
    requires forall k :: k in employees && employees[k].username == employees[id].username ==> k == id
    ensures var off := Updated(employees, EmployeePatch(id, None, None, None, None, None, Some(Disable)));
            Login(off, n, employees[id].username, password, hash) == Failure(Business(AccountLocked))
    ensures var on := Updated(employees, EmployeePatch(id, None, None, None, None, None, Some(Enable)));
            Login(on, n, employees[id].username, password, hash).Success?
  {
    var u := employees[id].username;
    var off := Updated(employees, EmployeePatch(id, None, None, None, None, None, Some(Disable)));
    var on := Updated(employees, EmployeePatch(id, None, None, None, None, None, Some(Enable)));
    LoginSucceeds(off, n, u, password, hash, id);
    LoginSucceeds(on, n, u, password, hash, id);
  }

  /** getById: the stored employee with its password overwritten by the mask; a missing id
      is a NullPointerException. */
  method GetById(db: Store, id: int) returns (r: Result<Employee>)
    ensures r.Success? <==> id in db.employees
    ensures r.Failure? ==> r.error == NullPointer
    ensures r.Success? ==> r.value.password == Mask && r.value.(password := db.employees[id].password) == db.employees[id]
  {
    if id !in db.employees {
      return Failure(NullPointer);
    }
    var employee := db.employees[id];
    employee := employee.(password := Mask);
    r := Success(employee);
  }

  /** The EmployeeDTO that update receives: it has no password and no status. */
  datatype EmployeeDto = EmployeeDto(
    id: int,
    username: Option<string>,
    name: Option<string>,
    phone: Option<string>,
    sex: Option<string>,
    idNumber: Option<string>)

  /** The employee update copies out of the DTO. */
  function FromDto(d: EmployeeDto): (p: EmployeePatch)
    ensures p.status == None
  {
    EmployeePatch(d.id, d.username, d.name, d.phone, d.sex, d.idNumber, None)
  }

  /** update: the DTO's non-null fields are written. */
  method Update(db: Store, employee: EmployeeDto)
    requires db.Valid()
    modifies db`employees
    ensures db.Valid()
    ensures db.employees == Updated(old(db.employees), FromDto(employee))
  {
    var patch := FromDto(employee);
    if patch.id in db.employees {
      db.employees := db.employees[patch.id := PatchEmployee(db.employees[patch.id], patch)];
    }
  }

  /** update never changes an account's password or whether it is enabled. */
  lemma UpdateKeepsCredentials(employees: map<int, Employee>, d: EmployeeDto, id: int)
    requires id in employees
    ensures var r := Updated(employees, FromDto(d));
            r[id].password == employees[id].password && r[id].status == employees[id].status
  {
  }
}
