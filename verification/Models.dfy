/** The backend's records and an in-memory stand-in for its database. Each
    table is kept as the routes query it: shopping items by primary key,
    budgets and users as rows searched with `.first()`, expense logs as rows
    in insertion order. Ids the database would assign come from counters. */
module Models {
  import opened Wrappers

  datatype User = User(id: int, username: string, hashedPassword: string)

  datatype ShoppingItem = ShoppingItem(id: int, itemName: string, quantity: Option<string>, userId: int)

  datatype Budget = Budget(amount: real, userId: int)

  /** `timestamp` is the server's clock when the row was inserted. */
  datatype ExpenseLog = ExpenseLog(id: int, itemName: string, quantity: Option<string>, price: real, timestamp: int)

  datatype Db = Db(
    users: seq<User>,
    items: map<int, ShoppingItem>, nextItemId: int,
    budgets: seq<Budget>,
    expenses: seq<ExpenseLog>, nextExpenseId: int)

  /** FastAPI's `HTTPException`: status code, `detail` and extra headers. */
  datatype HttpError = HttpError(status: int, detail: string, headers: map<string, string>)

  /** A route's effect on the database together with its response. */
  datatype Response<T> = Response(db: Db, result: Result<T, HttpError>)

  /** What an uncaught exception inside a route turns into. */
  const InternalError := HttpError(500, "Internal Server Error", map[])

  /** Row `i` is the first one whose username is `name`. */
  ghost predicate FirstUserAt(users: seq<User>, name: string, i: int) {
    && 0 <= i < |users| && users[i].username == name
    && forall k :: 0 <= k < i ==> users[k].username != name
  }

  /** `db.query(User).filter(User.username == name).first()`. */
  function FindUser(users: seq<User>, name: string): (r: Option<User>)
    ensures r.None? <==> forall i :: 0 <= i < |users| ==> users[i].username != name
    ensures r.Some? ==> exists i :: FirstUserAt(users, name, i) && users[i] == r.value
    decreases |users|
  {
    if users == [] then None
    else if users[0].username == name then
      assert FirstUserAt(users, name, 0);
      Some(users[0])
    else
      var r := FindUser(users[1..], name);
      ShiftFirstUser(users, name, r);
      r
  }

  lemma ShiftFirstUser(users: seq<User>, name: string, r: Option<User>)
    requires |users| > 0 && users[0].username != name
    requires r.Some? ==> exists i :: FirstUserAt(users[1..], name, i) && users[1..][i] == r.value
    ensures r.Some? ==> exists i :: FirstUserAt(users, name, i) && users[i] == r.value
  {
  }

  /** The caller's row. Every route reads `user.id` right after the lookup,
      so a username without a row fails with a server error. */
  function CurrentUser(db: Db, username: string): (r: Result<User, HttpError>)
    ensures r.Failure? <==> FindUser(db.users, username).None?
    ensures r.Failure? ==> r.error == InternalError
    ensures r.Success? ==> Some(r.value) == FindUser(db.users, username)
    ensures r.Success? ==> r.value.username == username && r.value in db.users
  {
    match FindUser(db.users, username)
    case Some(u) => Success(u)
    case None => Failure(InternalError)
  }
}
