/** The root layout's authentication gate: the stored token is checked once
    the fonts are loaded, nothing is rendered until the result is known, and
    a rendered layout of a logged-out user is sent to the login screen. */
module RootLayout {
  import opened Wrappers
  import opened Client
  import LoginScreen

  /** `isLoggedIn` is None while the token check has not completed. */
  datatype State = State(fontsLoaded: bool, isLoggedIn: Option<bool>, layoutReady: bool)

  const Initial := State(false, None, false)

  /** What can happen to the layout: the font finishes loading, the token
      read started by `checkAuth` completes, or the rendered view reports its
      layout. */
  datatype Event = FontsLoaded | TokenRead(token: Option<string>) | LayoutMeasured

  /** The layout renders nothing while the fonts are loading or the login
      status is unknown. */
  predicate RendersNothing(s: State) {
    !s.fontsLoaded || s.isLoggedIn.None?
  }

  const LoginRoute := "/LoginScreen"

  /** The condition of the redirect effect: a status of exactly false on a
      layout that has been measured. */
  predicate RedirectsToLogin(s: State) {
    s.isLoggedIn == Some(false) && s.layoutReady
  }

  /** The effect keyed on `[isLoggedIn, layoutReady]` reruns after a render
      in which either value changed. Its condition pins both values, so it
      navigates exactly on a step from a state that does not meet the
      condition into one that does. */
  function Redirect(before: State, after: State): seq<Effect> {
    if RedirectsToLogin(after) && !RedirectsToLogin(before) then [Navigate(LoginRoute)] else []
  }

  /** `!!token`: a missing token and an empty token both mean logged out. */
  predicate HasToken(token: Option<string>) {
    token.Some? && token.value != ""
  }

  /** One event. The token check is only started once the fonts are loaded,
      so a read completes only then; `onLayout` belongs to the rendered view,
      so it fires only when something is rendered. Loading the fonts hides
      the splash screen, and a step into a logged-out, measured layout
      replaces the route with the login screen. */
  function Apply(s: State, e: Event): (r: Step<State>)
    ensures e.FontsLoaded? ==> r.state == s.(fontsLoaded := true) && r.effects == [HideSplash]
    ensures e.TokenRead? && s.fontsLoaded ==> r.state == s.(isLoggedIn := Some(HasToken(e.token)))
    ensures e.TokenRead? && !s.fontsLoaded ==> r.state == s
    ensures e.LayoutMeasured? ==> r.state.layoutReady == (s.layoutReady || !RendersNothing(s))
    ensures e.LayoutMeasured? ==> r.state.(layoutReady := s.layoutReady) == s
    ensures NavigatesTo(r.effects, LoginRoute) <==> RedirectsToLogin(r.state) && !RedirectsToLogin(s)
    ensures !e.FontsLoaded? ==> |r.effects| <= 1 && forall i :: 0 <= i < |r.effects| ==> r.effects[i] == Navigate(LoginRoute)
  {
    var next :=
      match e
      case FontsLoaded => s.(fontsLoaded := true)
      case TokenRead(token) => if s.fontsLoaded then s.(isLoggedIn := Some(HasToken(token))) else s
      case LayoutMeasured => if RendersNothing(s) then s else s.(layoutReady := true);
    var splash := if e.FontsLoaded? then [HideSplash] else [];
    var effects := splash + Redirect(s, next);
    assert Redirect(s, next) != [] ==> effects[|splash|] == Navigate(LoginRoute);
    Step(next, effects)
  }

  /** A layout that already knows the user is logged out is sent to login
      as soon as it is measured. */
  lemma MeasuredLoggedOutLayoutRedirects()
    ensures Apply(State(true, Some(false), false), LayoutMeasured).effects == [Navigate(LoginRoute)]
  {
  }

  /** The state after a sequence of events from app start. */
  function Run(events: seq<Event>): State
    decreases |events|
  {
    if events == [] then Initial
    else Apply(Run(events[..|events| - 1]), events[|events| - 1]).state
  }

  /** Every effect the layout emits over a sequence of events, in order. */
  function Emitted(events: seq<Event>): seq<Effect>
    decreases |events|
  {
    if events == [] then []
    else
      var before := events[..|events| - 1];
      Emitted(before) + Apply(Run(before), events[|events| - 1]).effects
  }

  /** What every reachable state satisfies: a known status implies loaded
      fonts, and a measured layout implies something was rendered. */
  ghost predicate Reachable(s: State) {
    && (s.isLoggedIn.Some? ==> s.fontsLoaded)
    && (s.layoutReady ==> !RendersNothing(s))
  }

  lemma ApplyKeepsReachable(s: State, e: Event)
    requires Reachable(s)
    ensures Reachable(Apply(s, e).state)
  {
  }

  lemma {:induction false} RunIsReachable(events: seq<Event>)
    ensures Reachable(Run(events))
    decreases |events|
  {
    if events != [] {
      RunIsReachable(events[..|events| - 1]);
      ApplyKeepsReachable(Run(events[..|events| - 1]), events[|events| - 1]);
    }
  }

  /** After the first `k` events the layout is rendered, measured, and its
      token check found no token. */
  ghost predicate LoggedOutAfter(events: seq<Event>, k: int) {
    && 0 < k <= |events|
    && Run(events[..k]).isLoggedIn == Some(false)
    && Run(events[..k]).layoutReady
    && !RendersNothing(Run(events[..k]))
  }

  /** Over any run, the login redirect is emitted only by a step into a
      rendered, measured layout whose token check found no token, so an
      unknown or true status never redirects; and a run that ends in a
      logged-out, measured layout has emitted the redirect. */
  lemma {:induction false} RedirectOnlyWhenLoggedOut(events: seq<Event>)
    ensures NavigatesTo(Emitted(events), LoginRoute) ==> exists k :: LoggedOutAfter(events, k)
    ensures RedirectsToLogin(Run(events)) ==> NavigatesTo(Emitted(events), LoginRoute)
    decreases |events|
  {
    if events != [] {
      var n := |events| - 1;
      var before := events[..n];
      var step := Apply(Run(before), events[n]);
      assert Run(events) == step.state;
      assert Emitted(events) == Emitted(before) + step.effects;
      RedirectOnlyWhenLoggedOut(before);
      NavigatesToAppend(Emitted(before), step.effects, LoginRoute);
      if NavigatesTo(Emitted(before), LoginRoute) {
        var k :| LoggedOutAfter(before, k);
        assert events[..k] == before[..k];
        assert LoggedOutAfter(events, k);
      } else if NavigatesTo(step.effects, LoginRoute) {
        RunIsReachable(events);
        assert events[..|events|] == events;
        assert LoggedOutAfter(events, |events|);
      }
    }
  }

  /** After an OK login, the next app start (fonts load, token read from the
      storage the login wrote) finds the user logged in exactly when the
      server's token is non-empty; after a failed login it sees whatever the
      storage already held. */
  lemma LoginThenRestart(login: LoginScreen.State, o: Outcome<string>, storage: Storage)
    ensures var after := ApplyStorage(storage, LoginScreen.Settle(login, o).effects);
      var s := Run([FontsLoaded, TokenRead(StoredToken(after))]);
      && (o.Ok? ==> s.isLoggedIn == Some(o.data != ""))
      && (!o.Ok? ==> s.isLoggedIn == Some(HasToken(StoredToken(storage))))
  {
  }
}
