/** The manual expense entry screen: a description and an amount, checked
    before any request, then posted as a new expense. `isNumber(t)` stands
    for `!isNaN(Number(t))` and `parseFloat` for JavaScript's `parseFloat`. */
module ManualEntryScreen {
  import opened Wrappers
  import opened Text
  import opened Client

  datatype State = State(description: string, amount: string)

  predicate SubmitAllowed(s: State, isNumber: string -> bool) {
    !IsBlank(s.description) && !IsBlank(s.amount) && isNumber(s.amount)
  }

  /** Pressing "Save": a blank description, a blank amount or a non-numeric
      amount alerts and sends nothing; otherwise the description as typed
      (untrimmed) goes out as `item_name` and the parsed amount as `price`. */
  function Submit(s: State, token: Option<string>, isNumber: string -> bool, parseFloat: string -> real)
    : (r: Step<State>)
    ensures r.state == s
    ensures NoRequest(r.effects) <==> IsBlank(s.description) || IsBlank(s.amount) || !isNumber(s.amount)
    ensures !SubmitAllowed(s, isNumber) ==> r.effects == [Alert("Error", "Please enter valid item and amount")]
    ensures SubmitAllowed(s, isNumber) ==>
      r.effects == [Send(PostExpense(s.description, parseFloat(s.amount)), Some(BearerHeader(token)))]
  {
    if !SubmitAllowed(s, isNumber) then
      Step(s, [Alert("Error", "Please enter valid item and amount")])
    else
      var effects := [Send(PostExpense(s.description, parseFloat(s.amount)), Some(BearerHeader(token)))];
      assert effects[0].Send?;
      Step(s, effects)
  }

  /** The create response: success empties both fields and returns home;
      a server error or an exception keeps both fields and alerts. */
  function Settle(s: State, o: Outcome<()>): (r: Step<State>)
    ensures o.Ok? ==> r.state == State("", "")
    ensures !o.Ok? ==> r.state == s
    ensures NavigatesTo(r.effects, "/") <==> o.Ok?
    ensures o.Ok? ==> r.effects == [Alert("\U{2705} Saved", "Expense saved successfully!"), Navigate("/")]
    ensures o.NotOk? ==> r.effects == [Alert("Failed", DetailOr(o.detail, "Something went wrong"))]
    ensures o.TransportFailure? ==> r.effects == [Alert("Error", "Failed to connect to server")]
  {
    if o.Ok? then
      var effects := [Alert("\U{2705} Saved", "Expense saved successfully!"), Navigate("/")];
      assert effects[1] == Navigate("/");
      Step(State("", ""), effects)
    else if o.NotOk? then
      Step(s, [Alert("Failed", DetailOr(o.detail, "Something went wrong"))])
    else
      Step(s, [Alert("Error", "Failed to connect to server")])
  }
}
