/** The expense routes: logging stores the fields as given, and listing
    returns every stored expense newest first. Neither route takes a user,
    so neither filters by one. */
module ExpenseRoutes {
  import opened Wrappers
  import opened Models

  datatype ExpenseCreate = ExpenseCreate(itemName: string, quantity: Option<string>, price: real)

  /** Every stored id is below the next id to assign. */
  ghost predicate ExpenseIdsBelow(db: Db) {
    forall i :: 0 <= i < |db.expenses| ==> db.expenses[i].id < db.nextExpenseId
  }

  /** `POST /expenses/` at server time `now`: exactly one row is added, with
      `item_name`, `quantity` and `price` as given, the next id and the
      current time; it is returned with those assigned fields. */
  function LogExpense(db: Db, expense: ExpenseCreate, now: int): (r: Response<ExpenseLog>)
    ensures r.result.Success?
    ensures var e := r.result.value;
      && e.itemName == expense.itemName && e.quantity == expense.quantity && e.price == expense.price
      && e.id == db.nextExpenseId && e.timestamp == now
      && r.db == db.(expenses := db.expenses + [e], nextExpenseId := db.nextExpenseId + 1)
      && multiset(r.db.expenses) == multiset(db.expenses) + multiset{e}
    ensures ExpenseIdsBelow(db) ==> ExpenseIdsBelow(r.db)
    ensures ExpenseIdsBelow(db) ==> forall i :: 0 <= i < |db.expenses| ==> db.expenses[i].id != r.result.value.id
  {
    var e := ExpenseLog(db.nextExpenseId, expense.itemName, expense.quantity, expense.price, now);
    Response(db.(expenses := db.expenses + [e], nextExpenseId := db.nextExpenseId + 1), Success(e))
  }

  /** Timestamps do not increase along the list. */
  ghost predicate NewestFirst(s: seq<ExpenseLog>) {
    forall i, j :: 0 <= i < j < |s| ==> s[i].timestamp >= s[j].timestamp
  }

  /** `e` placed into a newest-first list before the first row older than it. */
  function Insert(e: ExpenseLog, s: seq<ExpenseLog>): (r: seq<ExpenseLog>)
    requires NewestFirst(s)
    ensures NewestFirst(r)
    ensures multiset(r) == multiset(s) + multiset{e}
    ensures |r| == |s| + 1
    ensures r[0] == e || (|s| > 0 && r[0] == s[0])
    decreases |s|
  {
    if s == [] || e.timestamp >= s[0].timestamp then
      [e] + s
    else
      var rest := Insert(e, s[1..]);
      assert s == [s[0]] + s[1..];
      [s[0]] + rest
  }

  /** The rows ordered by timestamp, newest first: a permutation of the input. */
  function SortNewestFirst(s: seq<ExpenseLog>): (r: seq<ExpenseLog>)
    ensures NewestFirst(r)
    ensures multiset(r) == multiset(s)
    decreases |s|
  {
    if s == [] then []
    else
      assert s == [s[0]] + s[1..];
      Insert(s[0], SortNewestFirst(s[1..]))
  }

  /** `GET /expenses/`: every stored expense, of every user, newest first. */
  function GetExpenses(db: Db): (r: seq<ExpenseLog>)
    ensures multiset(r) == multiset(db.expenses)
    ensures |r| == |db.expenses|
    ensures NewestFirst(r)
  {
    var r := SortNewestFirst(db.expenses);
    assert |r| == |multiset(r)| == |multiset(db.expenses)| == |db.expenses|;
    r
  }

  /** A logged expense shows up in the next listing. */
  lemma LoggedExpenseIsListed(db: Db, expense: ExpenseCreate, now: int)
    ensures var logged := LogExpense(db, expense, now);
      logged.result.value in GetExpenses(logged.db)
  {
    var logged := LogExpense(db, expense, now);
    assert logged.result.value in multiset(logged.db.expenses);
  }
}
