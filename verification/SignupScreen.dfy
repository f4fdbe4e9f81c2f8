/** The sign-up screen: per-field validation into an error map, the gate
    that issues the sign-up request only for a valid form, error clearing
    on edit, and the handling of the response. */
module SignupScreen {
  import opened Wrappers
  import opened Text
  import opened Client

  datatype Field = FullName | Email | Phone | Username | Password | ConfirmPassword

  datatype Form = Form(
    fullName: string, email: string, phone: string,
    username: string, password: string, confirmPassword: string)

  /** The screen's error object. A key absent from the map was never flagged;
      a key mapped to "" was flagged and then cleared by typing. */
  type Errors = map<Field, string>

  datatype State = State(form: Form, errors: Errors, loading: bool)

  const FullNameRequired := "Full Name is required"
  const EmailRequired := "Email is required"
  const EmailInvalid := "Invalid email format"
  const PhoneRequired := "Phone number is required"
  const PhoneInvalid := "Phone number must be 10 digits"
  const UsernameRequired := "Username is required"
  const PasswordRequired := "Password is required"
  const PasswordTooShort := "Password must be at least 6 characters"
  const PasswordsDiffer := "Passwords do not match"
  const MinPasswordLength := 6

  /** What `/^\S+@\S+\.\S+$/` accepts: no white space anywhere, an '@' with a
      non-empty prefix, and a later '.' with a non-empty gap after the '@'
      and a non-empty suffix. The `\S+` runs may themselves contain '@' and
      '.', so any such pair of positions will do. */
  ghost predicate EmailPattern(s: string) {
    && NoWhitespace(s)
    && exists i, j :: 1 <= i && i + 2 <= j && j + 2 <= |s| && s[i] == '@' && s[j] == '.'
  }

  /** A single forward scan deciding the email pattern: take the first '@'
      after position 0, then look for a '.' far enough past it. */
  predicate IsEmailFormat(s: string) {
    && NoWhitespace(s)
    && |s| >= 1
    && var at := IndexOf(s, '@', 1);
       at + 2 <= |s| && IndexOf(s, '.', at + 2) + 2 <= |s|
  }

  lemma EmailFormatMatchesPattern(s: string)
    ensures IsEmailFormat(s) <==> EmailPattern(s)
  {
  }

  /** What `/^[0-9]{10}$/` accepts. Digits are single UTF-16 code units, so
      ten code units are ten characters. */
  predicate PhonePattern(s: string) {
    |s| == 10 && forall i :: 0 <= i < |s| ==> IsDigit(s[i])
  }

  /** A string with no white space and at least one character is not blank. */
  lemma NonBlankWithoutWhitespace(s: string)
    ensures NoWhitespace(s) && |s| > 0 ==> !IsBlank(s)
  {
    if NoWhitespace(s) && |s| > 0 {
      assert !IsWhitespace(s[0]);
    }
  }

  function EmailError(email: string): (r: Option<string>)
    ensures r == Some(EmailRequired) <==> IsBlank(email)
    ensures r == Some(EmailInvalid) <==> !IsBlank(email) && !EmailPattern(email)
    ensures r == None <==> EmailPattern(email)
  {
    EmailFormatMatchesPattern(email);
    NonBlankWithoutWhitespace(email);
    if IsBlank(email) then Some(EmailRequired)
    else if !IsEmailFormat(email) then Some(EmailInvalid)
    else None
  }

  function PhoneError(phone: string): (r: Option<string>)
    ensures r == Some(PhoneRequired) <==> IsBlank(phone)
    ensures r == Some(PhoneInvalid) <==> !IsBlank(phone) && !PhonePattern(phone)
    ensures r == None <==> PhonePattern(phone)
  {
    NonBlankWithoutWhitespace(phone);
    if IsBlank(phone) then Some(PhoneRequired)
    else if !PhonePattern(phone) then Some(PhoneInvalid)
    else None
  }

  /** The password is checked as typed, without trimming, and its length is
      JavaScript's `length`. */
  function PasswordError(password: string): (r: Option<string>)
    ensures r == Some(PasswordRequired) <==> password == ""
    ensures r == Some(PasswordTooShort) <==> password != "" && Utf16Length(password) < MinPasswordLength
    ensures r == None <==> Utf16Length(password) >= MinPasswordLength
  {
    if password == "" then Some(PasswordRequired)
    else if Utf16Length(password) < MinPasswordLength then Some(PasswordTooShort)
    else None
  }

  /** The form the sign-up request may be sent for, stated field by field
      through the patterns rather than through the error messages. */
  ghost predicate FormValid(f: Form) {
    && !IsBlank(f.fullName)
    && EmailPattern(f.email)
    && PhonePattern(f.phone)
    && !IsBlank(f.username)
    && Utf16Length(f.password) >= MinPasswordLength
    && f.confirmPassword == f.password
  }

  /** The error object `validateFields` assembles, one optional entry per field. */
  function Collect(
    fullName: Option<string>, email: Option<string>, phone: Option<string>,
    username: Option<string>, password: Option<string>, confirm: Option<string>): (r: Errors)
    ensures FullName in r <==> fullName.Some?
    ensures Email in r <==> email.Some?
    ensures Phone in r <==> phone.Some?
    ensures Username in r <==> username.Some?
    ensures Password in r <==> password.Some?
    ensures ConfirmPassword in r <==> confirm.Some?
    ensures FullName in r ==> r[FullName] == fullName.value
    ensures Email in r ==> r[Email] == email.value
    ensures Phone in r ==> r[Phone] == phone.value
    ensures Username in r ==> r[Username] == username.value
    ensures Password in r ==> r[Password] == password.value
    ensures ConfirmPassword in r ==> r[ConfirmPassword] == confirm.value
    ensures r == map[] <==> fullName.None? && email.None? && phone.None? && username.None? && password.None? && confirm.None?
  {
    var r1 := if fullName.Some? then map[FullName := fullName.value] else map[];
    var r2 := if email.Some? then r1[Email := email.value] else r1;
    var r3 := if phone.Some? then r2[Phone := phone.value] else r2;
    var r4 := if username.Some? then r3[Username := username.value] else r3;
    var r5 := if password.Some? then r4[Password := password.value] else r4;
    var r6 := if confirm.Some? then r5[ConfirmPassword := confirm.value] else r5;
    assert r6.Keys == (if fullName.Some? then {FullName} else {}) + (if email.Some? then {Email} else {})
      + (if phone.Some? then {Phone} else {}) + (if username.Some? then {Username} else {})
      + (if password.Some? then {Password} else {}) + (if confirm.Some? then {ConfirmPassword} else {});
    r6
  }

  /** `validateFields`: one entry per failing field, each check independent of
      the others, and an empty map exactly for a valid form. */
  function ValidateFields(f: Form): (errors: Errors)
    ensures FullName in errors <==> IsBlank(f.fullName)
    ensures Email in errors <==> !EmailPattern(f.email)
    ensures Phone in errors <==> !PhonePattern(f.phone)
    ensures Username in errors <==> IsBlank(f.username)
    ensures Password in errors <==> Utf16Length(f.password) < MinPasswordLength
    ensures ConfirmPassword in errors <==> f.confirmPassword != f.password
    ensures FullName in errors ==> errors[FullName] == FullNameRequired
    ensures Email in errors ==> Some(errors[Email]) == EmailError(f.email)
    ensures Phone in errors ==> Some(errors[Phone]) == PhoneError(f.phone)
    ensures Username in errors ==> errors[Username] == UsernameRequired
    ensures Password in errors ==> Some(errors[Password]) == PasswordError(f.password)
    ensures ConfirmPassword in errors ==> errors[ConfirmPassword] == PasswordsDiffer
    ensures errors == map[] <==> FormValid(f)
  {
    Collect(
      if IsBlank(f.fullName) then Some(FullNameRequired) else None,
      EmailError(f.email),
      PhoneError(f.phone),
      if IsBlank(f.username) then Some(UsernameRequired) else None,
      PasswordError(f.password),
      if f.confirmPassword != f.password then Some(PasswordsDiffer) else None)
  }

  /** An error is displayed under its field when its entry is truthy. */
  predicate Shown(errors: Errors, g: Field) {
    g in errors && errors[g] != ""
  }

  function FieldValue(f: Form, g: Field): string {
    match g
    case FullName => f.fullName
    case Email => f.email
    case Phone => f.phone
    case Username => f.username
    case Password => f.password
    case ConfirmPassword => f.confirmPassword
  }

  function WithField(f: Form, g: Field, text: string): Form {
    match g
    case FullName => f.(fullName := text)
    case Email => f.(email := text)
    case Phone => f.(phone := text)
    case Username => f.(username := text)
    case Password => f.(password := text)
    case ConfirmPassword => f.(confirmPassword := text)
  }

  /** Typing into field `g`: its text changes, and a displayed error for `g`
      is overwritten with "" (the key stays); every other field and every
      other error entry is left exactly as it was. */
  function EditField(s: State, g: Field, text: string): (r: State)
    ensures FieldValue(r.form, g) == text
    ensures forall h :: h != g ==> FieldValue(r.form, h) == FieldValue(s.form, h)
    ensures !Shown(r.errors, g)
    ensures g in r.errors <==> g in s.errors
    ensures forall h :: h != g ==> (h in r.errors <==> h in s.errors)
    ensures forall h :: h != g && h in s.errors ==> r.errors[h] == s.errors[h]
    ensures r.loading == s.loading
  {
    var errors := if Shown(s.errors, g) then s.errors[g := ""] else s.errors;
    State(WithField(s.form, g, text), errors, s.loading)
  }

  /** Pressing "Sign Up": the errors are replaced by a fresh validation; only
      a valid form starts loading and sends the request, with the fields
      exactly as typed. */
  function Submit(s: State): (r: Step<State>)
    ensures r.state.form == s.form
    ensures r.state.errors == ValidateFields(s.form)
    ensures r.state.errors != map[] ==> r.effects == [] && r.state.loading == s.loading
    ensures r.state.errors == map[] ==> r.state.loading && r.effects == [Send(PostSignup(
      s.form.username, s.form.password, s.form.fullName, s.form.email, s.form.phone), None)]
  {
    var errors := ValidateFields(s.form);
    if errors != map[] then
      Step(s.(errors := errors), [])
    else
      var f := s.form;
      var effects := [Send(PostSignup(f.username, f.password, f.fullName, f.email, f.phone), None)];
      assert effects[0].Send?;
      Step(State(f, errors, true), effects)
  }

  /** The request goes out exactly when every field passes its rule. */
  lemma SubmitSendsIffValid(s: State)
    ensures !NoRequest(Submit(s).effects) <==> FormValid(s.form)
    ensures NoRequest(Submit(s).effects) ==> Submit(s).state == s.(errors := ValidateFields(s.form))
  {
    var r := Submit(s);
    if r.state.errors == map[] {
      assert r.effects[0].Send?;
    }
  }

  /** The awaited sign-up response: loading ends false on every outcome and
      nothing else in the state changes; only an OK response goes to login. */
  function Settle(s: State, o: Outcome<()>): (r: Step<State>)
    ensures r.state == s.(loading := false)
    ensures NoRequest(r.effects)
    ensures NavigatesTo(r.effects, "/LoginScreen") <==> o.Ok?
    ensures o.Ok? ==> r.effects == [Alert("Success", "Account created! Please login."), Navigate("/LoginScreen")]
    ensures o.NotOk? ==> r.effects == [Alert("Signup Failed", DetailOr(o.detail, "Unable to sign up"))]
    ensures o.TransportFailure? ==> r.effects == [Alert("Error", "Unable to connect to server")]
  {
    Step(s.(loading := false), BackToLogin(o, "Account created! Please login.", "Signup Failed", "Unable to sign up"))
  }

}
