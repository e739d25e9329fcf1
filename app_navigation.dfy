/** The app's top-level navigation: the start route chosen from the role
    the splash screen found, the routing after a successful sign-in, and
    the logout that returns to the sign-in screen. The Compose state
    (`hasLoggedOut`, `splashToken`, `splashRole`) and the navigation back
    stack are the fields of `AppNavigation`. */
module AppNavigations {
  import opened Results

  datatype Route = AUTH | MAIN_SCREEN | PSYCHOLOGIST_MAIN_SCREEN

  const USER_ROLE: string := "user"
  const PSYCHOLOGIST_ROLE: string := "psychologist"

  /** The main screen a signed-in role lands on, if the role is one the app
      knows. */
  function HomeOf(role: string): (r: Option<Route>)
    ensures r == Some(MAIN_SCREEN) <==> role == USER_ROLE
    ensures r == Some(PSYCHOLOGIST_MAIN_SCREEN) <==> role == PSYCHOLOGIST_ROLE
    ensures r != Some(AUTH)
  {
    if role == USER_ROLE then Some(MAIN_SCREEN)
    else if role == PSYCHOLOGIST_ROLE then Some(PSYCHOLOGIST_MAIN_SCREEN)
    else None
  }

  /** `startDestination`: the home of a known splash role, otherwise (no
      role, or one the app does not know) the sign-in screen. */
  function StartDestination(splashRole: Option<string>): (r: Route)
    ensures r == MAIN_SCREEN <==> splashRole == Some(USER_ROLE)
    ensures r == PSYCHOLOGIST_MAIN_SCREEN <==> splashRole == Some(PSYCHOLOGIST_ROLE)
    ensures r == AUTH <==> splashRole.None? || HomeOf(splashRole.value).None?
  {
    match splashRole
    case None => AUTH
    case Some(role) => HomeOf(role).OrElse(AUTH)
  }

  /** `popUpTo(route) { inclusive = true }`: drop the topmost entry for
      `route` and everything above it; a route not on the stack pops
      nothing. */
  function PopUpToInclusive(stack: seq<Route>, route: Route): (r: seq<Route>)
    ensures r <= stack
    ensures route !in stack ==> r == stack
    ensures route in stack ==> |r| < |stack| && stack[|r|] == route && route !in stack[|r| + 1..]
    decreases |stack|
  {
    if stack == [] then []
    else if stack[|stack| - 1] == route then stack[..|stack| - 1]
    else
      var rest := PopUpToInclusive(stack[..|stack| - 1], route);
      if route in stack[..|stack| - 1] then rest else stack
  }

  /** The saved navigation state, as one value. */
  datatype NavState = NavState(
    hasLoggedOut: bool,
    splashToken: Option<string>,
    splashRole: Option<string>,
    backStack: seq<Route>)
  {
    function Current(): Route {
      if backStack == [] then AUTH else backStack[|backStack| - 1]
    }
  }

  /** The launch state: the splash values copied into the saved state, the
      start route alone on the stack. */
  function Initial(tokenFromSplash: Option<string>, roleFromSplash: Option<string>): (s: NavState)
    ensures !s.hasLoggedOut && s.splashToken == tokenFromSplash && s.splashRole == roleFromSplash
    ensures s.backStack == [StartDestination(roleFromSplash)]
  {
    NavState(false, tokenFromSplash, roleFromSplash, [StartDestination(roleFromSplash)])
  }

  /** The splash token and role handed to `AuthScreen`: the launch values,
      unless the user has logged out since. */
  function AuthScreenArgs(s: NavState, tokenFromSplash: Option<string>, roleFromSplash: Option<string>)
    : (args: (Option<string>, Option<string>))
    ensures s.hasLoggedOut ==> args == (None, None)
    ensures !s.hasLoggedOut ==> args == (tokenFromSplash, roleFromSplash)
  {
    if s.hasLoggedOut then (None, None) else (tokenFromSplash, roleFromSplash)
  }

  /** The role each main screen is given: the splash role, or the screen's
      own role when there is none. */
  function MainScreenRole(s: NavState): (role: string)
    ensures s.splashRole.None? ==> role == USER_ROLE
    ensures s.splashRole.Some? ==> role == s.splashRole.value
  {
    s.splashRole.OrElse(USER_ROLE)
  }

  function PsychologistMainScreenRole(s: NavState): (role: string)
    ensures s.splashRole.None? ==> role == PSYCHOLOGIST_ROLE
    ensures s.splashRole.Some? ==> role == s.splashRole.value
  {
    s.splashRole.OrElse(PSYCHOLOGIST_ROLE)
  }

  /** A callback fired by the screen on top of the stack. */
  datatype NavEvent = AuthSucceeded(authenticatedRole: string) | LoggedOut

  /** `onSuccess`: the flag is cleared for every role; a known role replaces
      the sign-in entry with its home screen, any other role stays put. */
  function OnAuthSuccess(s: NavState, role: string): NavState {
    var s1 := s.(hasLoggedOut := false);
    match HomeOf(role)
    case None => s1
    case Some(home) => s1.(backStack := PopUpToInclusive(s.backStack, AUTH) + [home])
  }

  /** `onLogout` of either main screen: raise the flag, forget the splash
      values and return to a stack holding only the sign-in screen. */
  function OnLogout(s: NavState): (r: NavState)
    ensures r.hasLoggedOut && r.splashToken.None? && r.splashRole.None? && r.backStack == [AUTH]
  {
    NavState(true, None, None, [AUTH])
  }

  /** A callback only exists while its screen is the current destination:
      `onSuccess` on the sign-in screen, `onLogout` on a main screen. */
  function Step(s: NavState, e: NavEvent): NavState {
    match e
    case AuthSucceeded(role) => if s.Current() == AUTH then OnAuthSuccess(s, role) else s
    case LoggedOut => if s.Current() != AUTH then OnLogout(s) else s
  }

  function Run(s: NavState, es: seq<NavEvent>): NavState
    decreases |es|
  {
    if es == [] then s else Step(Run(s, es[..|es| - 1]), es[|es| - 1])
  }

  lemma RunSnoc(s: NavState, es: seq<NavEvent>, e: NavEvent)
    ensures Run(s, es + [e]) == Step(Run(s, es), e)
  {
    assert (es + [e])[..|es + [e]| - 1] == es;
  }

  /** Signing in from the sign-in screen: a known role ends with exactly its
      home screen on top and no sign-in entry left (the stack below the
      sign-in entry is kept); an unknown role leaves the stack alone. */
  lemma AuthSuccessRouting(s: NavState, role: string)
    requires s.Current() == AUTH && s.backStack != []
    ensures !Step(s, AuthSucceeded(role)).hasLoggedOut
    ensures HomeOf(role).Some? ==> Step(s, AuthSucceeded(role)).backStack
                                   == PopUpToInclusive(s.backStack, AUTH) + [HomeOf(role).value]
    ensures HomeOf(role).Some? && AUTH !in s.backStack[..|s.backStack| - 1]
            ==> AUTH !in Step(s, AuthSucceeded(role)).backStack
    ensures HomeOf(role).None? ==> Step(s, AuthSucceeded(role)).backStack == s.backStack
    ensures Step(s, AuthSucceeded(role)).splashToken == s.splashToken
            && Step(s, AuthSucceeded(role)).splashRole == s.splashRole
  {
    var b := s.backStack;
    assert b == b[..|b| - 1] + [AUTH];
    assert PopUpToInclusive(b, AUTH) == b[..|b| - 1];
  }

  /** After a logout the sign-in screen is shown alone and is handed no
      splash credentials. */
  lemma LogoutHidesLaunchCredentials(s: NavState, tokenFromSplash: Option<string>, roleFromSplash: Option<string>)
    requires s.Current() != AUTH
    ensures Step(s, LoggedOut).backStack == [AUTH]
    ensures AuthScreenArgs(Step(s, LoggedOut), tokenFromSplash, roleFromSplash) == (None, None)
    ensures MainScreenRole(Step(s, LoggedOut)) == USER_ROLE
            && PsychologistMainScreenRole(Step(s, LoggedOut)) == PSYCHOLOGIST_ROLE
  {
  }

  /** The invariant behind `RolesMatchScreens`: a splash role still held
      means nothing has happened since launch on that role's home. */
  ghost predicate SplashRoleConsistent(s: NavState) {
    s.backStack != []
    && (s.splashRole.Some? ==> HomeOf(s.splashRole.value).Some? && s.backStack == [HomeOf(s.splashRole.value).value])
  }

  /** Launched with no role or a known one, every main screen is always
      given its own role. */
  lemma {:induction false} RolesMatchScreens(tokenFromSplash: Option<string>, roleFromSplash: Option<string>,
                                              es: seq<NavEvent>)
    requires roleFromSplash.None? || HomeOf(roleFromSplash.value).Some?
    ensures var s := Run(Initial(tokenFromSplash, roleFromSplash), es);
            SplashRoleConsistent(s)
            && (s.Current() == MAIN_SCREEN ==> MainScreenRole(s) == USER_ROLE)
            && (s.Current() == PSYCHOLOGIST_MAIN_SCREEN ==> PsychologistMainScreenRole(s) == PSYCHOLOGIST_ROLE)
    decreases |es|
  {
    if es != [] {
      RolesMatchScreens(tokenFromSplash, roleFromSplash, es[..|es| - 1]);
      var pre := Run(Initial(tokenFromSplash, roleFromSplash), es[..|es| - 1]);
      var e := es[|es| - 1];
      if e.AuthSucceeded? && pre.Current() == AUTH {
        assert pre.splashRole.None?;
        var home := HomeOf(e.authenticatedRole);
        if home.Some? {
          assert Step(pre, e).backStack == PopUpToInclusive(pre.backStack, AUTH) + [home.value];
        }
      }
    }
  }

  /** As written, a launch role the app does not know survives into the
      main screen: launched with role "admin", the sign-in screen is shown,
      and after signing in as a user the main screen is given "admin". */
  lemma UnknownSplashRoleReachesMainScreen(token: Option<string>)
    ensures var s := Run(Initial(token, Some("admin")), [AuthSucceeded(USER_ROLE)]);
            s.Current() == MAIN_SCREEN && MainScreenRole(s) == "admin"
  {
    var s0 := Initial(token, Some("admin"));
    assert [AuthSucceeded(USER_ROLE)][..0] == [];
    assert s0.backStack == [AUTH];
    assert PopUpToInclusive(s0.backStack, AUTH) == [];
  }

  /** As written, a successful sign-in with a role the app does not know
      clears `hasLoggedOut` without leaving the sign-in screen, so after a
      logout the sign-in screen is handed the launch credentials again. */
  lemma UnknownRoleAfterLogoutRestoresLaunchCredentials(token: Option<string>)
    ensures var s := Run(Initial(token, Some(USER_ROLE)), [LoggedOut, AuthSucceeded("admin")]);
            s.Current() == AUTH && AuthScreenArgs(s, token, Some(USER_ROLE)) == (token, Some(USER_ROLE))
  {
    var es := [LoggedOut, AuthSucceeded("admin")];
    assert es[..1] == [LoggedOut] && es[..1][..0] == [];
    var s0 := Initial(token, Some(USER_ROLE));
    assert s0.Current() == MAIN_SCREEN;
    assert Run(s0, es[..1]) == Step(Run(s0, []), LoggedOut);
    assert Run(s0, es[..1]) == OnLogout(s0);
  }

  /** The navigation host and its saved state. The `tokenFromSplash` and
      `roleFromSplash` parameters are fixed for the composable's lifetime. */
  class AppNavigation {
    const tokenFromSplash: Option<string>
    const roleFromSplash: Option<string>
    var hasLoggedOut: bool
    var splashToken: Option<string>
    var splashRole: Option<string>
    var backStack: seq<Route>
    /** Every callback handled since launch. */
    ghost var history: seq<NavEvent>

    function State(): NavState
      reads this
    {
      NavState(hasLoggedOut, splashToken, splashRole, backStack)
    }

    ghost predicate Valid()
      reads this
    {
      State() == Run(Initial(tokenFromSplash, roleFromSplash), history)
    }

    constructor(tokenFromSplash: Option<string>, roleFromSplash: Option<string>)
      ensures Valid() && history == []
      ensures this.tokenFromSplash == tokenFromSplash && this.roleFromSplash == roleFromSplash
      ensures !hasLoggedOut && splashToken == tokenFromSplash && splashRole == roleFromSplash
      ensures backStack == [StartDestination(roleFromSplash)]
    {
      this.tokenFromSplash := tokenFromSplash;
      this.roleFromSplash := roleFromSplash;
      hasLoggedOut := false;
      splashToken := tokenFromSplash;
      splashRole := roleFromSplash;
      backStack := [StartDestination(roleFromSplash)];
      history := [];
    }

    method Record(ghost before: NavState, e: NavEvent)
      requires before == Run(Initial(tokenFromSplash, roleFromSplash), history)
      requires State() == Step(before, e)
      modifies this`history
      ensures Valid() && history == old(history) + [e]
    {
      RunSnoc(Initial(tokenFromSplash, roleFromSplash), history, e);
      history := history + [e];
    }

    /** The splash arguments the sign-in screen is composed with. */
    function AuthScreenArguments(): (args: (Option<string>, Option<string>))
      reads this
      ensures hasLoggedOut ==> args == (None, None)
      ensures !hasLoggedOut ==> args == (tokenFromSplash, roleFromSplash)
    {
      AuthScreenArgs(State(), tokenFromSplash, roleFromSplash)
    }

    /** `onSuccess(authenticatedRole)`, fired by the sign-in screen. */
    method OnSuccess(authenticatedRole: string)
      requires Valid() && State().Current() == AUTH
      modifies this
      ensures Valid() && history == old(history) + [AuthSucceeded(authenticatedRole)]
      ensures !hasLoggedOut && splashToken == old(splashToken) && splashRole == old(splashRole)
      ensures HomeOf(authenticatedRole).Some?
              ==> backStack == PopUpToInclusive(old(backStack), AUTH) + [HomeOf(authenticatedRole).value]
      ensures HomeOf(authenticatedRole).None? ==> backStack == old(backStack)
    {
      ghost var before := State();
      hasLoggedOut := false;
      if authenticatedRole == USER_ROLE {
        backStack := PopUpToInclusive(backStack, AUTH) + [MAIN_SCREEN];
      } else if authenticatedRole == PSYCHOLOGIST_ROLE {
        backStack := PopUpToInclusive(backStack, AUTH) + [PSYCHOLOGIST_MAIN_SCREEN];
      }
      Record(before, AuthSucceeded(authenticatedRole));
    }

    /** `onLogout`, fired by either main screen. */
    method OnLogout()
      requires Valid() && State().Current() != AUTH
      modifies this
      ensures Valid() && history == old(history) + [LoggedOut]
      ensures hasLoggedOut && splashToken == None && splashRole == None && backStack == [AUTH]
      ensures AuthScreenArguments() == (None, None)
    {
      ghost var before := State();
      hasLoggedOut := true;
      splashToken := None;
      splashRole := None;
      backStack := [AUTH];
      Record(before, LoggedOut);
    }
  }
}
