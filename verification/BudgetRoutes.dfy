/** The budget routes: read, upsert, and the over/within comparison against
    a spent total. Amounts are `real`s standing for Python floats. */
module BudgetRoutes {
  import opened Wrappers
  import opened Models

  const NoBudgetFound := HttpError(404, "No budget found.", map[])
  const NoBudgetSet := HttpError(404, "No budget set", map[])

  /** At most one budget row per user. */
  ghost predicate OnePerUser(budgets: seq<Budget>) {
    forall i, j :: 0 <= i < j < |budgets| ==> budgets[i].userId != budgets[j].userId
  }

  ghost predicate HasBudget(budgets: seq<Budget>, uid: int) {
    exists i :: 0 <= i < |budgets| && budgets[i].userId == uid
  }

  /** Row `i` is the first budget row of `uid`. */
  ghost predicate FirstBudgetAt(budgets: seq<Budget>, uid: int, i: int) {
    && 0 <= i < |budgets| && budgets[i].userId == uid
    && forall k :: 0 <= k < i ==> budgets[k].userId != uid
  }

  /** `db.query(Budget).filter(Budget.user_id == uid).first()`, as a row index. */
  function FirstBudget(budgets: seq<Budget>, uid: int): (r: Option<nat>)
    ensures r.None? <==> !HasBudget(budgets, uid)
    ensures r.Some? ==> r.value < |budgets| && budgets[r.value].userId == uid
    ensures r.Some? ==> forall k :: 0 <= k < r.value ==> budgets[k].userId != uid
    decreases |budgets|
  {
    if budgets == [] then None
    else if budgets[0].userId == uid then Some(0)
    else
      match FirstBudget(budgets[1..], uid)
      case None =>
        assert forall i :: 1 <= i < |budgets| ==> budgets[i] == budgets[1..][i - 1];
        None
      case Some(k) => Some(k + 1)
  }

  /** `GET /budget/`: the caller's amount, or 404 when there is none. */
  function GetBudget(db: Db, username: string): (r: Result<real, HttpError>)
    ensures CurrentUser(db, username).Failure? ==> r == Failure(InternalError)
    ensures CurrentUser(db, username).Success? ==>
      var uid := CurrentUser(db, username).value.id;
      && (!HasBudget(db.budgets, uid) <==> r == Failure(NoBudgetFound))
      && (r.Success? ==> exists i :: 0 <= i < |db.budgets| && db.budgets[i] == Budget(r.value, uid))
    ensures CurrentUser(db, username).Success? && HasBudget(db.budgets, CurrentUser(db, username).value.id) ==>
      r == Success(db.budgets[FirstBudget(db.budgets, CurrentUser(db, username).value.id).value].amount)
  {
    match CurrentUser(db, username)
    case Failure(e) => Failure(e)
    case Success(user) =>
      match FirstBudget(db.budgets, user.id)
      case None => Failure(NoBudgetFound)
      case Some(i) => Success(db.budgets[i].amount)
  }

  /** `PUT /budget/`: without a budget a row with the amount is added,
      otherwise the caller's row is overwritten in place; no other row and
      no other table changes, so at most one budget per user is kept. */
  function UpdateBudget(db: Db, username: string, amount: real): (r: Response<real>)
    ensures CurrentUser(db, username).Failure? ==> r == Response(db, Failure(InternalError))
    ensures CurrentUser(db, username).Success? ==>
      var uid := CurrentUser(db, username).value.id;
      && r.result == Success(amount)
      && r.db == db.(budgets := r.db.budgets)
      && (!HasBudget(db.budgets, uid) ==> r.db.budgets == db.budgets + [Budget(amount, uid)])
      && (HasBudget(db.budgets, uid) ==>
            exists i :: FirstBudgetAt(db.budgets, uid, i) && r.db.budgets == db.budgets[i := Budget(amount, uid)])
      && (HasBudget(db.budgets, uid) && OnePerUser(db.budgets) ==>
            |r.db.budgets| == |db.budgets| &&
            forall i :: 0 <= i < |db.budgets| ==>
              r.db.budgets[i] == if db.budgets[i].userId == uid then Budget(amount, uid) else db.budgets[i])
    ensures OnePerUser(db.budgets) ==> OnePerUser(r.db.budgets)
  {
    match CurrentUser(db, username)
    case Failure(e) => Response(db, Failure(e))
    case Success(user) =>
      match FirstBudget(db.budgets, user.id)
      case None => Response(db.(budgets := db.budgets + [Budget(amount, user.id)]), Success(amount))
      case Some(i) =>
        UpdateInPlace(db.budgets, user.id, i, amount);
        assert FirstBudgetAt(db.budgets, user.id, i);
        Response(db.(budgets := db.budgets[i := Budget(amount, user.id)]), Success(amount))
  }

  /** Overwriting the first row of `uid` changes every row of `uid` when
      there is only one of them; without `OnePerUser` only the first. */
  lemma UpdateInPlace(budgets: seq<Budget>, uid: int, i: nat, amount: real)
    requires FirstBudget(budgets, uid) == Some(i)
    ensures OnePerUser(budgets) ==> OnePerUser(budgets[i := Budget(amount, uid)])
    ensures OnePerUser(budgets) ==> forall k :: 0 <= k < |budgets| ==>
      budgets[i := Budget(amount, uid)][k] == if budgets[k].userId == uid then Budget(amount, uid) else budgets[k]
  {
  }

  /** A put followed by a get of the same user reads back the amount put. */
  lemma {:induction false} GetAfterPut(db: Db, username: string, amount: real)
    requires CurrentUser(db, username).Success?
    ensures GetBudget(UpdateBudget(db, username, amount).db, username) == Success(amount)
  {
    var uid := CurrentUser(db, username).value.id;
    var after := UpdateBudget(db, username, amount).db;
    assert after.users == db.users;
    match FirstBudget(db.budgets, uid)
    case None =>
      FirstBudgetOfAppended(db.budgets, uid, Budget(amount, uid));
    case Some(i) =>
      assert FirstBudget(after.budgets, uid) == Some(i) by {
        FirstBudgetAfterWrite(db.budgets, uid, i, Budget(amount, uid));
      }
  }

  lemma {:induction false} FirstBudgetOfAppended(budgets: seq<Budget>, uid: int, b: Budget)
    requires !HasBudget(budgets, uid) && b.userId == uid
    ensures FirstBudget(budgets + [b], uid) == Some(|budgets|)
    decreases |budgets|
  {
    if budgets != [] {
      assert (budgets + [b])[1..] == budgets[1..] + [b];
      assert !HasBudget(budgets[1..], uid) by {
        assert forall i :: 0 <= i < |budgets[1..]| ==> budgets[1..][i] == budgets[i + 1];
      }
      FirstBudgetOfAppended(budgets[1..], uid, b);
    }
  }

  lemma FirstBudgetAfterWrite(budgets: seq<Budget>, uid: int, i: nat, b: Budget)
    requires FirstBudget(budgets, uid) == Some(i) && b.userId == uid
    ensures FirstBudget(budgets[i := b], uid) == Some(i)
  {
    var w := budgets[i := b];
    var f := FirstBudget(w, uid);
    assert HasBudget(w, uid) by { assert w[i].userId == uid; }
    assert f.Some?;
    assert !(f.value < i) by { assert forall k :: 0 <= k < i ==> w[k] == budgets[k]; }
    assert !(f.value > i) by { assert w[i].userId == uid; }
  }

  datatype ThresholdStatus = Over | Within

  /** The JSON object `check_budget_threshold` returns. */
  datatype ThresholdReport = ThresholdReport(status: ThresholdStatus, message: string, spent: real, budget: real)

  const OverMessage := "\U{26A0}\U{FE0F} You have exceeded your budget!"
  const WithinMessage := "\U{2705} You are within your budget."

  /** `GET /budget/check-threshold` with the summed expense prices passed in
      (None when the sum is SQL NULL, which `or 0` turns into 0): 404 without
      a budget; "over" exactly when the total exceeds the budget, "within"
      otherwise, equality included; both numbers are echoed. */
  function CheckBudgetThreshold(db: Db, username: string, total: Option<real>)
    : (r: Result<ThresholdReport, HttpError>)
    ensures CurrentUser(db, username).Failure? ==> r == Failure(InternalError)
    ensures CurrentUser(db, username).Success? ==>
      (!HasBudget(db.budgets, CurrentUser(db, username).value.id) <==> r == Failure(NoBudgetSet))
    ensures CurrentUser(db, username).Success? && HasBudget(db.budgets, CurrentUser(db, username).value.id) ==>
      r.Success?
    ensures r.Success? ==>
      && GetBudget(db, username) == Success(r.value.budget)
      && r.value.spent == total.GetOr(0.0)
      && (r.value.status == Over <==> r.value.spent > r.value.budget)
      && (r.value.status == Over ==> r.value.message == OverMessage)
      && (r.value.status == Within ==> r.value.message == WithinMessage)
  {
    match CurrentUser(db, username)
    case Failure(e) => Failure(e)
    case Success(user) =>
      match FirstBudget(db.budgets, user.id)
      case None => Failure(NoBudgetSet)
      case Some(i) =>
        var budget := db.budgets[i].amount;
        var spent := total.GetOr(0.0);
        if spent > budget then Success(ThresholdReport(Over, OverMessage, spent, budget))
        else Success(ThresholdReport(Within, WithinMessage, spent, budget))
  }
}
