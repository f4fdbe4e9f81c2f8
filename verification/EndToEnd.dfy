/** The client screens against the backend routes: the request a screen
    sends is answered by the route it names, and the route's result becomes
    the outcome the screen settles on. */
module EndToEnd {
  import opened Wrappers
  import opened Models
  import opened Client
  import Text
  import ShoppingRoutes
  import ShoppingListScreen
  import BudgetRoutes
  import BudgetScreen

  /** How a route's result reaches the client: a success is an OK response
      whose JSON body the client reads through `body`; an `HTTPException` is
      a non-OK response whose JSON carries its `detail`. */
  function Reply<T, U>(r: Result<T, HttpError>, body: T -> U): (o: Outcome<U>)
    ensures o.Ok? <==> r.Success?
    ensures r.Success? ==> o.data == body(r.value)
    ensures r.Failure? ==> o == NotOk(Some(r.error.detail))
  {
    match r
    case Success(v) => Ok(body(v))
    case Failure(e) => NotOk(Some(e.detail))
  }

  /** A `ShoppingItemOut` as the list screen's `ShoppingItem` type reads it. */
  function ToItem(o: ShoppingRoutes.ShoppingItemOut): ShoppingListScreen.Item {
    ShoppingListScreen.Item(o.id, o.itemName, o.quantity)
  }

  /** `rows` is a JSON list of exactly the rows of `outs`, in some order: the
      list route has no ORDER BY. */
  ghost predicate ListsExactly(rows: seq<ShoppingListScreen.Item>, outs: set<ShoppingRoutes.ShoppingItemOut>) {
    && (forall o :: o in outs ==> ToItem(o) in rows)
    && (forall i :: 0 <= i < |rows| ==> exists o :: o in outs && rows[i] == ToItem(o))
  }

  /** The add round against the server: the screen sends a non-blank name
      with its quantity, the route's success is an OK reply, and that reply
      clears and hides the form and refetches the list. */
  lemma AddRoundRefetches(db: Db, username: string, s: ShoppingListScreen.State, token: Option<string>)
    requires ShoppingRoutes.ItemsValid(db)
    requires CurrentUser(db, username).Success?
    requires !Text.IsBlank(s.itemName)
    ensures ShoppingListScreen.SubmitAdd(s, token).effects
      == [Send(PostShoppingItem(s.itemName, s.quantity), Some(BearerHeader(token)))]
    ensures var added := ShoppingRoutes.AddItem(db, username, ShoppingRoutes.ShoppingItemCreate(s.itemName, Some(s.quantity)));
      var settled := ShoppingListScreen.SettleAdd(s, Reply(added.result, (x: ShoppingRoutes.ShoppingItemOut) => ()), token);
      && settled.effects == ShoppingListScreen.Refetch(token)
      && settled.state.itemName == "" && settled.state.quantity == "" && !settled.state.showAddForm
  {
  }

  /** The refetch after an add: the list the server returns, shown by the
      screen, holds the new row with the name and quantity sent and every
      row shown before. */
  lemma AddedRowIsListed(
    db: Db, username: string, s: ShoppingListScreen.State,
    before: seq<ShoppingListScreen.Item>, rows: seq<ShoppingListScreen.Item>)
    requires ShoppingRoutes.ItemsValid(db)
    requires CurrentUser(db, username).Success?
    requires ListsExactly(before, ShoppingRoutes.GetItems(db, username).value)
    requires ListsExactly(rows, ShoppingRoutes.GetItems(
      ShoppingRoutes.AddItem(db, username, ShoppingRoutes.ShoppingItemCreate(s.itemName, Some(s.quantity))).db,
      username).value)
    ensures ShoppingListScreen.Item(db.nextItemId, s.itemName, Some(s.quantity))
      in ShoppingListScreen.SettleFetch(s, Ok(rows)).items
    ensures forall x :: x in before ==> x in ShoppingListScreen.SettleFetch(s, Ok(rows)).items
  {
    var item := ShoppingRoutes.ShoppingItemCreate(s.itemName, Some(s.quantity));
    var added := ShoppingRoutes.AddItem(db, username, item);
    ShoppingRoutes.ListAfterAdd(db, username, item);
    assert added.result.value in ShoppingRoutes.GetItems(added.db, username).value;
    assert ToItem(added.result.value) == ShoppingListScreen.Item(db.nextItemId, s.itemName, Some(s.quantity));
    forall x | x in before
      ensures x in rows
    {
      var i :| 0 <= i < |before| && before[i] == x;
      var o :| o in ShoppingRoutes.GetItems(db, username).value && before[i] == ToItem(o);
      assert o in ShoppingRoutes.GetItems(added.db, username).value;
    }
  }

  /** A budget saved from the screen and fetched again shows the parsed
      amount's text. */
  lemma SavedBudgetIsShown(
    db: Db, username: string, s: BudgetScreen.State, later: BudgetScreen.State, token: Option<string>,
    isNumber: string -> bool, parseFloat: string -> real, show: real -> string)
    requires CurrentUser(db, username).Success?
    requires BudgetScreen.SaveAllowed(s.budget, isNumber)
    ensures var sent := BudgetScreen.SubmitSave(s, token, isNumber, parseFloat).effects;
      sent == [Send(PutBudget(parseFloat(s.budget)), Some(BearerHeader(token)))]
    ensures var stored := BudgetRoutes.UpdateBudget(db, username, parseFloat(s.budget)).db;
      var fetched := BudgetScreen.SettleFetch(later, Reply(BudgetRoutes.GetBudget(stored, username), (a: real) => a), show);
      fetched.state.budget == show(parseFloat(s.budget)) && fetched.effects == []
  {
    BudgetRoutes.GetAfterPut(db, username, parseFloat(s.budget));
  }

  /** A user without a budget sees an empty input after the fetch, without
      an alert. */
  lemma MissingBudgetShowsEmpty(db: Db, username: string, s: BudgetScreen.State, show: real -> string)
    requires CurrentUser(db, username).Success?
    requires !BudgetRoutes.HasBudget(db.budgets, CurrentUser(db, username).value.id)
    ensures var fetched := BudgetScreen.SettleFetch(s, Reply(BudgetRoutes.GetBudget(db, username), (a: real) => a), show);
      fetched.state.budget == "" && fetched.effects == [] && !fetched.state.fetching
  {
  }
}
