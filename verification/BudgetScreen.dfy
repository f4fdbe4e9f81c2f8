/** The budget screen: the fetched amount fills the input, and saving
    validates the input text before the update request. JavaScript's number
    conversions are parameters: `isNumber(t)` stands for
    `!isNaN(Number(t))`, `parseFloat` for `parseFloat`, and `show` for
    `Number.prototype.toString`. */
module BudgetScreen {
  import opened Wrappers
  import opened Text
  import opened Client

  /** `budget` is the input text; `fetching` shows the spinner until the
      first fetch settles. */
  datatype State = State(budget: string, loading: bool, fetching: bool)

  const Initial := State("", false, true)

  /** The fetch request sent on mount. */
  function SubmitFetch(s: State, token: Option<string>): (r: Step<State>)
    ensures r.state == s
    ensures r.effects == [Send(GetBudget, Some(BearerHeader(token)))]
  {
    Step(s, [Send(GetBudget, Some(BearerHeader(token)))])
  }

  /** The fetch response, whose OK body carries the amount: the input shows
      the amount's text, a non-OK response empties it, and an exception keeps
      it and alerts. The spinner stops on every outcome. */
  function SettleFetch(s: State, o: Outcome<real>, show: real -> string): (r: Step<State>)
    ensures !r.state.fetching && r.state.loading == s.loading
    ensures o.Ok? ==> r.state.budget == show(o.data) && r.effects == []
    ensures o.NotOk? ==> r.state.budget == "" && r.effects == []
    ensures o.TransportFailure? ==> r.state.budget == s.budget
    ensures o.TransportFailure? ==> r.effects == [Alert("Error", "Could not fetch budget")]
  {
    match o
    case Ok(amount) => Step(s.(budget := show(amount), fetching := false), [])
    case NotOk(_) => Step(s.(budget := "", fetching := false), [])
    case TransportFailure => Step(s.(fetching := false), [Alert("Error", "Could not fetch budget")])
  }

  /** The gate of `saveBudget`: non-blank after trimming and numeric. There is
      no sign check. */
  predicate SaveAllowed(text: string, isNumber: string -> bool) {
    !IsBlank(text) && isNumber(text)
  }

  /** Pressing "Save Budget": an invalid input alerts and sends nothing;
      otherwise loading starts and the parsed amount is sent. The input text
      is never modified. */
  function SubmitSave(s: State, token: Option<string>, isNumber: string -> bool, parseFloat: string -> real)
    : (r: Step<State>)
    ensures r.state.budget == s.budget && r.state.fetching == s.fetching
    ensures NoRequest(r.effects) <==> IsBlank(s.budget) || !isNumber(s.budget)
    ensures !SaveAllowed(s.budget, isNumber) ==>
      r.state == s && r.effects == [Alert("Invalid Input", "Please enter a valid number.")]
    ensures SaveAllowed(s.budget, isNumber) ==> r.state.loading
    ensures SaveAllowed(s.budget, isNumber) ==>
      r.effects == [Send(PutBudget(parseFloat(s.budget)), Some(BearerHeader(token)))]
  {
    if !SaveAllowed(s.budget, isNumber) then
      Step(s, [Alert("Invalid Input", "Please enter a valid number.")])
    else
      var effects := [Send(PutBudget(parseFloat(s.budget)), Some(BearerHeader(token)))];
      assert effects[0].Send?;
      Step(s.(loading := true), effects)
  }

  /** The update response: loading ends false on every outcome and the input
      text is kept. */
  function SettleSave(s: State, o: Outcome<()>): (r: Step<State>)
    ensures r.state == s.(loading := false)
    ensures o.Ok? ==> r.effects == [Alert("Success", "Budget updated successfully")]
    ensures o.NotOk? ==> r.effects == [Alert("Error", "Failed to update budget")]
    ensures o.TransportFailure? ==> r.effects == [Alert("Error", "Something went wrong")]
  {
    match o
    case Ok(_) => Step(s.(loading := false), [Alert("Success", "Budget updated successfully")])
    case NotOk(_) => Step(s.(loading := false), [Alert("Error", "Failed to update budget")])
    case TransportFailure => Step(s.(loading := false), [Alert("Error", "Something went wrong")])
  }

  /** A negative amount that parses passes the gate and is sent unchanged. */
  lemma NegativeAmountIsSent(
    s: State, token: Option<string>, isNumber: string -> bool, parseFloat: string -> real)
    requires !IsBlank(s.budget) && isNumber(s.budget) && parseFloat(s.budget) < 0.0
    ensures SubmitSave(s, token, isNumber, parseFloat).effects
      == [Send(PutBudget(parseFloat(s.budget)), Some(BearerHeader(token)))]
  {
  }

  /** Whatever the save response, a save that sent a request ends with
      loading false and the input text as typed. */
  lemma SaveRoundKeepsInput(
    s: State, o: Outcome<()>, token: Option<string>, isNumber: string -> bool, parseFloat: string -> real)
    ensures var sent := SubmitSave(s, token, isNumber, parseFloat);
      !NoRequest(sent.effects) ==>
        !SettleSave(sent.state, o).state.loading && SettleSave(sent.state, o).state.budget == s.budget
  {
  }

  /** The fetch on mount: the spinner shows from the first render until the
      single budget request settles, whatever its outcome, and the save
      spinner is never started by it. */
  lemma MountFetch(token: Option<string>, o: Outcome<real>, show: real -> string)
    ensures Initial.fetching && !Initial.loading && Initial.budget == ""
    ensures SubmitFetch(Initial, token).effects == [Send(GetBudget, Some(BearerHeader(token)))]
    ensures var settled := SettleFetch(SubmitFetch(Initial, token).state, o, show).state;
      !settled.fetching && !settled.loading
    ensures var settled := SettleFetch(SubmitFetch(Initial, token).state, o, show).state;
      settled.budget == (if o.Ok? then show(o.data) else "")
  {
  }
}
