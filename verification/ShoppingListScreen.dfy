/** The shopping-list screen: the add form, inline editing of one row,
    deletion, and the list refetch that follows each of them. */
module ShoppingListScreen {
  import opened Wrappers
  import opened Text
  import opened Client

  /** An item as the list endpoint returns it. */
  datatype Item = Item(id: int, itemName: string, quantity: Option<string>)

  datatype State = State(
    items: seq<Item>,
    itemName: string, quantity: string, showAddForm: bool,
    editingItemId: Option<int>, editedName: string, editedQty: string)

  const Initial := State([], "", "", false, None, "", "")

  /** While no row is being edited the edit buffers are empty. */
  ghost predicate EditBuffersClear(s: State) {
    s.editingItemId.None? ==> s.editedName == "" && s.editedQty == ""
  }

  /** A row is rendered as the edit form exactly when its id is the one
      being edited. */
  predicate InEditMode(s: State, item: Item) {
    s.editingItemId == Some(item.id)
  }

  ghost predicate DistinctIds(items: seq<Item>) {
    forall i, j :: 0 <= i < j < |items| ==> items[i].id != items[j].id
  }

  /** With distinct ids, at most one row of the list is in edit mode. */
  lemma AtMostOneRowInEditMode(s: State, i: int, j: int)
    requires DistinctIds(s.items)
    requires 0 <= i < |s.items| && 0 <= j < |s.items|
    requires InEditMode(s, s.items[i]) && InEditMode(s, s.items[j])
    ensures i == j
  {
  }

  /** `fetchItems`: the list request, with the token read from storage. */
  function Refetch(token: Option<string>): (effects: seq<Effect>)
    ensures effects == [Send(GetShoppingList, Some(BearerHeader(token)))]
  {
    [Send(GetShoppingList, Some(BearerHeader(token)))]
  }

  /** The list response replaces the rows. A failed fetch leaves them, since
      `fetchItems` has no handler of its own. */
  function SettleFetch(s: State, o: Outcome<seq<Item>>): (r: State)
    ensures o.Ok? ==> r == s.(items := o.data)
    ensures !o.Ok? ==> r == s
    ensures EditBuffersClear(s) ==> EditBuffersClear(r)
    ensures forall item :: InEditMode(r, item) <==> InEditMode(s, item)
  {
    if o.Ok? then s.(items := o.data) else s
  }

  /** The first render and the effect with no dependencies: no rows, an
      empty hidden form, no row in edit mode, and one list fetch. */
  function Mount(token: Option<string>): (r: Step<State>)
    ensures r.state.items == [] && r.state.itemName == "" && r.state.quantity == "" && !r.state.showAddForm
    ensures EditBuffersClear(r.state) && forall item :: !InEditMode(r.state, item)
    ensures r.effects == Refetch(token)
  {
    Step(Initial, Refetch(token))
  }

  /** The mount fetch settles into a screen showing exactly the server's rows,
      still with no row in edit mode; a failed fetch leaves the list empty. */
  lemma MountThenFetch(token: Option<string>, o: Outcome<seq<Item>>)
    ensures var shown := SettleFetch(Mount(token).state, o);
      && shown.items == (if o.Ok? then o.data else [])
      && EditBuffersClear(shown)
      && forall item :: !InEditMode(shown, item)
  {
  }

  /** The "Add Item"/"Cancel" button. */
  function ToggleAddForm(s: State): (r: State)
    ensures r.showAddForm != s.showAddForm
    ensures r.(showAddForm := s.showAddForm) == s
    ensures EditBuffersClear(s) ==> EditBuffersClear(r)
  {
    s.(showAddForm := !s.showAddForm)
  }

  /** Saving the add form: a blank name alerts and sends nothing; otherwise
      the name and quantity are sent as typed. The state does not change. */
  function SubmitAdd(s: State, token: Option<string>): (r: Step<State>)
    ensures r.state == s
    ensures NoRequest(r.effects) <==> IsBlank(s.itemName)
    ensures IsBlank(s.itemName) ==> r.effects == [Alert("Validation Error", "Item name is required.")]
    ensures !IsBlank(s.itemName) ==>
      r.effects == [Send(PostShoppingItem(s.itemName, s.quantity), Some(BearerHeader(token)))]
  {
    if IsBlank(s.itemName) then Step(s, [Alert("Validation Error", "Item name is required.")])
    else
      var effects := [Send(PostShoppingItem(s.itemName, s.quantity), Some(BearerHeader(token)))];
      assert effects[0].Send?;
      Step(s, effects)
  }

  /** The add response: success clears the form, hides it and refetches;
      a failure keeps the name, quantity and form visibility. An exception
      from `fetch` is not caught, so it has no effect at all. */
  function SettleAdd(s: State, o: Outcome<()>, token: Option<string>): (r: Step<State>)
    ensures o.Ok? ==> r.state == s.(itemName := "", quantity := "", showAddForm := false)
    ensures o.Ok? ==> r.effects == Refetch(token)
    ensures !o.Ok? ==> r.state == s
    ensures o.NotOk? ==> r.effects == [Alert("Error", "Failed to add item")]
    ensures o.TransportFailure? ==> r.effects == []
    ensures EditBuffersClear(s) ==> EditBuffersClear(r.state)
  {
    match o
    case Ok(_) => Step(s.(itemName := "", quantity := "", showAddForm := false), Refetch(token))
    case NotOk(_) => Step(s, [Alert("Error", "Failed to add item")])
    case TransportFailure => Step(s, [])
  }

  /** The "Delete" link: the delete request for that id. */
  function SubmitDelete(s: State, id: int, token: Option<string>): (r: Step<State>)
    ensures r.state == s
    ensures r.effects == [Send(DeleteShoppingItem(id), Some(BearerHeader(token)))]
  {
    Step(s, [Send(DeleteShoppingItem(id), Some(BearerHeader(token)))])
  }

  /** The delete response is not inspected: any response, OK or not,
      refetches the list; only an exception from `fetch` skips it. */
  function SettleDelete(s: State, o: Outcome<()>, token: Option<string>): (r: Step<State>)
    ensures r.state == s
    ensures !o.TransportFailure? ==> r.effects == Refetch(token)
    ensures o.TransportFailure? ==> r.effects == []
  {
    if o.TransportFailure? then Step(s, []) else Step(s, Refetch(token))
  }

  /** The "Edit" link: the row's id, name and quantity move into the edit
      buffers, a missing or empty quantity becoming "". */
  function StartEdit(s: State, item: Item): (r: State)
    ensures r.editingItemId == Some(item.id)
    ensures r.editedName == item.itemName
    ensures item.quantity.Some? ==> r.editedQty == item.quantity.value
    ensures item.quantity.None? ==> r.editedQty == ""
    ensures r.(editingItemId := s.editingItemId, editedName := s.editedName, editedQty := s.editedQty) == s
    ensures InEditMode(r, item) && EditBuffersClear(r)
  {
    s.(editingItemId := Some(item.id), editedName := item.itemName, editedQty := item.quantity.GetOr(""))
  }

  /** The "Save" button of the edit row. Nothing is validated: the edited
      name goes out even when empty, and the id is whatever is being edited. */
  function SubmitSaveEdit(s: State, token: Option<string>): (r: Step<State>)
    ensures r.state == s
    ensures r.effects == [Send(PutShoppingItem(s.editingItemId, s.editedName, s.editedQty), Some(BearerHeader(token)))]
  {
    Step(s, [Send(PutShoppingItem(s.editingItemId, s.editedName, s.editedQty), Some(BearerHeader(token)))])
  }

  /** The update response: success leaves edit mode, empties both buffers
      and refetches; a failure keeps the edit state intact. */
  function SettleSaveEdit(s: State, o: Outcome<()>, token: Option<string>): (r: Step<State>)
    ensures o.Ok? ==> r.state == s.(editingItemId := None, editedName := "", editedQty := "")
    ensures o.Ok? ==> r.effects == Refetch(token)
    ensures !o.Ok? ==> r.state == s
    ensures o.NotOk? ==> r.effects == [Alert("Error", "Failed to update item")]
    ensures o.TransportFailure? ==> r.effects == []
    ensures EditBuffersClear(s) ==> EditBuffersClear(r.state)
    ensures o.Ok? ==> forall item :: !InEditMode(r.state, item)
  {
    match o
    case Ok(_) => Step(s.(editingItemId := None, editedName := "", editedQty := ""), Refetch(token))
    case NotOk(_) => Step(s, [Alert("Error", "Failed to update item")])
    case TransportFailure => Step(s, [])
  }

  /** A delete round leaves the screen state as it was; the delete request
      for that id goes out, then the list is fetched again after any response
      with the same stored token, and only an exception skips the refetch. */
  lemma DeleteRound(s: State, id: int, o: Outcome<()>, token: Option<string>)
    ensures var sent := SubmitDelete(s, id, token);
      var settled := SettleDelete(sent.state, o, token);
      && settled.state == s
      && sent.effects + settled.effects
        == [Send(DeleteShoppingItem(id), Some(BearerHeader(token)))]
           + (if o.TransportFailure? then [] else [Send(GetShoppingList, Some(BearerHeader(token)))])
  {
  }

  /** A save-edit round: whatever the edited name, the empty string
      included, one update request goes out for the row being edited with
      both buffers as typed; a non-OK reply or an exception leaves the state
      from before the press, and an OK reply leaves edit mode with the rows
      and the add form untouched. */
  lemma SaveEditRound(s: State, o: Outcome<()>, token: Option<string>)
    ensures var sent := SubmitSaveEdit(s, token);
      sent.effects == [Send(PutShoppingItem(s.editingItemId, s.editedName, s.editedQty), Some(BearerHeader(token)))]
    ensures var settled := SettleSaveEdit(SubmitSaveEdit(s, token).state, o, token);
      !o.Ok? ==> settled.state == s
    ensures var settled := SettleSaveEdit(SubmitSaveEdit(s, token).state, o, token);
      o.Ok? ==> && settled.state.editingItemId.None? && EditBuffersClear(settled.state)
                && settled.state.items == s.items && settled.state.showAddForm == s.showAddForm
  {
  }

  /** Saving right after "Edit" without typing sends the row's own id, name
      and quantity back, a missing quantity as "". */
  lemma EditThenSaveSendsRow(s: State, item: Item, token: Option<string>)
    ensures SubmitSaveEdit(StartEdit(s, item), token).effects
      == [Send(PutShoppingItem(Some(item.id), item.itemName, item.quantity.GetOr("")), Some(BearerHeader(token)))]
  {
  }
}
