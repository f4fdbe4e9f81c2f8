/** The password-reset screen: three checks in a fixed order, the reset
    request, and the handling of its response. */
module ForgotPasswordScreen {
  import opened Wrappers
  import opened Client

  datatype State = State(username: string, newPassword: string, confirmPassword: string, loading: bool)

  const UsernameEmpty := "Username cannot be empty"
  const PasswordsDiffer := "Passwords do not match"
  const PasswordEmpty := "Password cannot be empty"

  /** The message of the first check that fails. None of the checks trims:
      only the exact empty string is empty. */
  function FirstFailure(s: State): (r: Option<string>)
    ensures r.None? <==> s.username != "" && s.newPassword == s.confirmPassword && s.newPassword != ""
    ensures r == Some(UsernameEmpty) <==> s.username == ""
    ensures r == Some(PasswordsDiffer) <==> s.username != "" && s.newPassword != s.confirmPassword
    ensures r == Some(PasswordEmpty) <==> s.username != "" && s.newPassword == "" && s.confirmPassword == ""
  {
    if s.username == "" then Some(UsernameEmpty)
    else if s.newPassword != s.confirmPassword then Some(PasswordsDiffer)
    else if s.newPassword == "" then Some(PasswordEmpty)
    else None
  }

  /** Pressing "Reset Password": a failed check alerts and changes nothing;
      otherwise loading starts and `{username, new_password}` is sent. */
  function Submit(s: State): (r: Step<State>)
    ensures !NoRequest(r.effects) <==> s.username != "" && s.newPassword == s.confirmPassword && s.newPassword != ""
    ensures FirstFailure(s).Some? ==> r.state == s && r.effects == [Alert("Error", FirstFailure(s).value)]
    ensures FirstFailure(s).None? ==>
      r.state == s.(loading := true) && r.effects == [Send(PostResetPassword(s.username, s.newPassword), None)]
  {
    match FirstFailure(s)
    case Some(message) => Step(s, [Alert("Error", message)])
    case None =>
      var effects := [Send(PostResetPassword(s.username, s.newPassword), None)];
      assert effects[0].Send?;
      Step(s.(loading := true), effects)
  }

  /** The awaited reset response: loading ends false on every outcome; only
      an OK response goes to login. */
  function Settle(s: State, o: Outcome<()>): (r: Step<State>)
    ensures r.state == s.(loading := false)
    ensures NoRequest(r.effects)
    ensures NavigatesTo(r.effects, "/LoginScreen") <==> o.Ok?
    ensures o.Ok? ==> r.effects == [Alert("Success", "Password updated. Please login."), Navigate("/LoginScreen")]
    ensures o.NotOk? ==> r.effects == [Alert("Error", DetailOr(o.detail, "Failed to reset password"))]
    ensures o.TransportFailure? ==> r.effects == [Alert("Error", "Unable to connect to server")]
  {
    Step(s.(loading := false), BackToLogin(o, "Password updated. Please login.", "Error", "Failed to reset password"))
  }


  /** Every path of the handler that issued a request ends with loading false,
      and a path that issued none leaves the state untouched. */
  lemma LoadingEndsFalse(s: State, o: Outcome<()>)
    ensures var sent := Submit(s);
      if NoRequest(sent.effects) then sent.state == s else !Settle(sent.state, o).state.loading
  {
  }
}
