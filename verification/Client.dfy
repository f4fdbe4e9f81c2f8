/** What the client screens share: the abstract outcome of a `fetch`, the
    requests they issue, the effects a handler produces instead of doing
    I/O, and the key-value store the token lives in. */
module Client {
  import opened Wrappers

  /** How an awaited request settled: an OK response with its parsed body, a
      non-OK response whose JSON body may carry a `detail`, or an exception
      (no connection, or a body that is not JSON). */
  datatype Outcome<T> = Ok(data: T) | NotOk(detail: Option<string>) | TransportFailure

  /** The request bodies the screens send, one constructor per endpoint. */
  datatype Request =
    | PostSignup(username: string, password: string, fullName: string, email: string, phone: string)
    | PostResetPassword(username: string, newPassword: string)
    | PostLogin(username: string, password: string)
    | GetShoppingList
    | PostShoppingItem(itemName: string, quantity: string)
      /** `target` is the screen's `editingItemId`, which may be null. */
    | PutShoppingItem(target: Option<int>, itemName: string, quantity: string)
    | DeleteShoppingItem(itemId: int)
    | GetBudget
    | PutBudget(amount: real)
    | PostExpense(itemName: string, price: real)

  /** An observable action of a handler. `Send` carries the value of the
      `Authorization` header, if the request has one. */
  datatype Effect =
    | Alert(title: string, message: string)
    | Navigate(route: string)
    | Send(request: Request, authorization: Option<string>)
    | StoreItem(key: string, value: string)
    | HideSplash

  /** A handler's result: the next screen state and its effects in order. */
  datatype Step<S> = Step(state: S, effects: seq<Effect>)

  /** The storage key under which the access token is kept. */
  const TokenKey := "jwt"

  /** The header built by the template `Bearer ${token}`: a missing token is
      interpolated as the text "null" and the request is still sent. */
  function BearerHeader(token: Option<string>): (h: string)
    ensures token.Some? ==> h == "Bearer " + token.value
    ensures token.None? ==> h == "Bearer null"
  {
    "Bearer " + token.GetOr("null")
  }

  /** `errorData.detail || fallback`: an absent or empty detail is falsy. */
  function DetailOr(detail: Option<string>, fallback: string): (m: string)
    ensures detail.Some? && detail.value != "" ==> m == detail.value
    ensures detail.None? || detail.value == "" ==> m == fallback
  {
    if detail.Some? && detail.value != "" then detail.value else fallback
  }

  predicate NoRequest(effects: seq<Effect>) {
    forall i :: 0 <= i < |effects| ==> !effects[i].Send?
  }

  predicate NavigatesTo(effects: seq<Effect>, route: string) {
    exists i :: 0 <= i < |effects| && effects[i] == Navigate(route)
  }

  /** A navigation occurs in a concatenation exactly when it occurs in one
      of the parts. */
  lemma NavigatesToAppend(a: seq<Effect>, b: seq<Effect>, route: string)
    ensures NavigatesTo(a + b, route) <==> NavigatesTo(a, route) || NavigatesTo(b, route)
  {
    if NavigatesTo(a + b, route) {
      var i :| 0 <= i < |a + b| && (a + b)[i] == Navigate(route);
      if i >= |a| {
        assert b[i - |a|] == Navigate(route);
      }
    }
    if NavigatesTo(a, route) {
      var i :| 0 <= i < |a| && a[i] == Navigate(route);
      assert (a + b)[i] == Navigate(route);
    }
    if NavigatesTo(b, route) {
      var i :| 0 <= i < |b| && b[i] == Navigate(route);
      assert (a + b)[|a| + i] == Navigate(route);
    }
  }

  /** The reply to a request whose success sends the user back to the login
      screen (sign-up, password reset): an OK response alerts `okText` and
      opens "/LoginScreen"; a non-OK one alerts the server's detail or
      `fallback` under `failTitle`; an exception alerts the connection error.
      No outcome sends a further request. */
  function BackToLogin(o: Outcome<()>, okText: string, failTitle: string, fallback: string): (effects: seq<Effect>)
    ensures NoRequest(effects)
    ensures NavigatesTo(effects, "/LoginScreen") <==> o.Ok?
    ensures o.Ok? ==> effects == [Alert("Success", okText), Navigate("/LoginScreen")]
    ensures o.NotOk? ==> effects == [Alert(failTitle, DetailOr(o.detail, fallback))]
    ensures o.TransportFailure? ==> effects == [Alert("Error", "Unable to connect to server")]
  {
    if o.Ok? then
      var effects := [Alert("Success", okText), Navigate("/LoginScreen")];
      assert effects[1] == Navigate("/LoginScreen");
      effects
    else if o.NotOk? then
      [Alert(failTitle, DetailOr(o.detail, fallback))]
    else
      [Alert("Error", "Unable to connect to server")]
  }

  predicate StoresNothing(effects: seq<Effect>) {
    forall i :: 0 <= i < |effects| ==> !effects[i].StoreItem?
  }

  /** The device's persisted key-value storage. */
  type Storage = map<string, string>

  /** `AsyncStorage.getItem("jwt")`: null when the key was never set. */
  function StoredToken(storage: Storage): (t: Option<string>)
    ensures t.Some? <==> TokenKey in storage
    ensures t.Some? ==> t.value == storage[TokenKey]
  {
    if TokenKey in storage then Some(storage[TokenKey]) else None
  }

  /** The storage after the effects' writes, applied in order. */
  function ApplyStorage(storage: Storage, effects: seq<Effect>): (r: Storage)
    ensures StoresNothing(effects) ==> r == storage
    ensures forall k :: k in storage ==> k in r
    decreases |effects|
  {
    if effects == [] then storage
    else
      var next := if effects[0].StoreItem? then storage[effects[0].key := effects[0].value] else storage;
      ApplyStorage(next, effects[1..])
  }
}
