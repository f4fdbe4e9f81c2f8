/** The login screen: the request is sent for whatever was typed, and the
    access token is persisted only from an OK response. */
module LoginScreen {
  import opened Wrappers
  import opened Client

  datatype State = State(username: string, password: string, loading: bool)

  const HomeRoute := "/(drawer)"

  /** Pressing "Login": there is no client-side validation, so every state
      starts loading and sends the credentials as typed. */
  function Submit(s: State): (r: Step<State>)
    ensures r.state == s.(loading := true)
    ensures r.effects == [Send(PostLogin(s.username, s.password), None)]
  {
    Step(s.(loading := true), [Send(PostLogin(s.username, s.password), None)])
  }

  /** The awaited login response, whose OK body carries `access_token`:
      loading ends false on every outcome, and the token is stored under
      "jwt" and the home route opened only for an OK response. */
  function Settle(s: State, o: Outcome<string>): (r: Step<State>)
    ensures r.state == s.(loading := false)
    ensures NoRequest(r.effects)
    ensures StoresNothing(r.effects) <==> !o.Ok?
    ensures NavigatesTo(r.effects, HomeRoute) <==> o.Ok?
    ensures o.Ok? ==> r.effects == [StoreItem(TokenKey, o.data), Navigate(HomeRoute)]
    ensures o.NotOk? ==> r.effects == [Alert("Login Failed", DetailOr(o.detail, "Invalid credentials"))]
    ensures o.TransportFailure? ==> r.effects == [Alert("Error", "Unable to connect to server")]
  {
    if o.Ok? then
      var effects := [StoreItem(TokenKey, o.data), Navigate(HomeRoute)];
      assert effects[0].StoreItem? && effects[1] == Navigate(HomeRoute);
      Step(s.(loading := false), effects)
    else if o.NotOk? then
      Step(s.(loading := false), [Alert("Login Failed", DetailOr(o.detail, "Invalid credentials"))])
    else
      Step(s.(loading := false), [Alert("Error", "Unable to connect to server")])
  }

  /** What the device storage holds after a login attempt: the new token
      after an OK response, the previous contents otherwise. */
  lemma SettleStorage(s: State, o: Outcome<string>, storage: Storage)
    ensures var after := ApplyStorage(storage, Settle(s, o).effects);
      (o.Ok? ==> StoredToken(after) == Some(o.data)) && (!o.Ok? ==> after == storage)
  {
  }

  /** A login round: exactly one login request, with the credentials as
      typed and no authorization; loading ends false; the storage changes
      only on an OK response, which writes the server's token under "jwt". */
  lemma LoginRound(s: State, o: Outcome<string>, storage: Storage)
    ensures var sent := Submit(s);
      var settled := Settle(sent.state, o);
      && sent.effects == [Send(PostLogin(s.username, s.password), None)]
      && NoRequest(settled.effects)
      && settled.state == s.(loading := false)
    ensures var sent := Submit(s);
      var after := ApplyStorage(storage, sent.effects + Settle(sent.state, o).effects);
      && (o.Ok? ==> after == storage[TokenKey := o.data])
      && (!o.Ok? ==> after == storage)
  {
  }
}
