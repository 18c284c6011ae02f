/**
 * `App`: the application shell. It moves from the splash animation to the
 * login form to the main view, holds the signed-in user, the active screen
 * and the language, and offers the translation lookup `t` through the
 * application context.
 *
 * The translation table is defined outside this model; it is a parameter:
 * one map from translation key to text per language.
 */
module App {

  import opened Wrappers
  import opened Types

  datatype AppState = Splash | Login | Main

  /** The context every screen reads through `useApp`. */
  datatype AppContext = AppContext(language: Language, user: Option<User>)

  const UseAppError := "useApp must be used within an AppProvider"

  /** `useApp`: the provided context, or the error it throws outside the provider. */
  function UseApp(provided: Option<AppContext>): (r: Result<AppContext, string>)
    ensures r.Ok? <==> provided.Some?
    ensures r.Ok? ==> r.value == provided.value
    ensures r.Err? ==> r.error == UseAppError
  {
    match provided
    case Some(context) => Ok(context)
    case None => Err(UseAppError)
  }

  /** `translations[language][key] || key`: a missing or empty entry shows the key itself. */
  function Translate(table: map<string, string>, key: string): string {
    if key in table && table[key] != "" then table[key] else key
  }

  /**
   * A key with a non-empty entry shows the entry; a missing key and an empty
   * entry both show the key; so a non-empty key never shows as blank.
   */
  lemma TranslateFallback(table: map<string, string>, key: string)
    ensures key in table && table[key] != "" ==> Translate(table, key) == table[key]
    ensures key !in table ==> Translate(table, key) == key
    ensures key in table && table[key] == "" ==> Translate(table, key) == key
    ensures key != "" ==> Translate(table, key) != ""
  {
  }

  /** `renderCurrentScreen`: the screen named by the id, and Home for any other id. */
  function ScreenFor(id: string): (screen: Screen)
    ensures (exists s: Screen :: s.Id() == id) ==> screen.Id() == id
    ensures (forall s: Screen :: s.Id() != id) ==> screen == Home
  {
    if id == "home" then Home
    else if id == "notes" then Notes
    else if id == "quiz" then Quiz
    else if id == "chat" then Chat
    else if id == "qna" then QnA
    else if id == "profile" then Profile
    else Home
  }

  /** Every screen renders itself when it is the active one. */
  lemma ScreenForId(s: Screen)
    ensures ScreenFor(s.Id()) == s
  {
  }

  /** What `renderAppContent` puts on screen. */
  datatype Content = SplashContent | LoginContent | MainContent(screen: Screen, bottomNav: bool)

  function RenderAppContent(state: AppState, activeScreen: string): (c: Content)
    ensures c.MainContent? <==> state == Main
    ensures c.MainContent? ==> c.bottomNav && c.screen == ScreenFor(activeScreen)
    ensures state == Splash ==> c == SplashContent
    ensures state == Login ==> c == LoginContent
  {
    match state
    case Splash => SplashContent
    case Login => LoginContent
    case Main => MainContent(ScreenFor(activeScreen), true)
  }

  /** The bottom navigation is on screen exactly in the main state. */
  lemma BottomNavOnlyInMain(state: AppState, activeScreen: string)
    ensures var c := RenderAppContent(state, activeScreen);
      (c.MainContent? && c.bottomNav) <==> state == Main
  {
  }

  /** The shell's four state fields as one value. */
  datatype Shell = Shell(appState: AppState, user: Option<User>, activeScreen: string, language: Language)

  const InitialShell := Shell(Splash, None, "home", En)

  /**
   * What the user and the screens can cause. Each is offered only by a
   * screen that is on display: the animation end by the splash screen, the
   * sign-in by the login form, navigation and the language picker by the
   * main view.
   */
  datatype Event = AnimationEnd | SignIn(user: User) | Navigate(id: string) | PickLanguage(language: Language)

  predicate Offered(s: Shell, e: Event) {
    match e
    case AnimationEnd => s.appState == Splash
    case SignIn(_) => s.appState == Login
    case Navigate(_) => s.appState == Main
    case PickLanguage(_) => s.appState == Main
  }

  function Step(s: Shell, e: Event): Shell {
    match e
    case AnimationEnd => s.(appState := Login)
    case SignIn(u) => s.(user := Some(u), appState := Main)
    case Navigate(id) => s.(activeScreen := id)
    case PickLanguage(l) => s.(language := l)
  }

  function Run(s: Shell, events: seq<Event>): Shell
    decreases |events|
  {
    if events == [] then s
    else Run(if Offered(s, events[0]) then Step(s, events[0]) else s, events[1..])
  }

  function Rank(state: AppState): nat {
    match state
    case Splash => 0
    case Login => 1
    case Main => 2
  }

  /** The main view always has a signed-in user. */
  predicate SignedInWhenMain(s: Shell) {
    s.appState == Main ==> s.user.Some?
  }

  /** One offered event never moves back, and once in the main view the user no longer changes. */
  lemma StepForward(s: Shell, e: Event)
    requires SignedInWhenMain(s) && Offered(s, e)
    ensures SignedInWhenMain(Step(s, e))
    ensures Rank(Step(s, e).appState) >= Rank(s.appState)
    ensures s.appState == Main ==> Step(s, e).appState == Main && Step(s, e).user == s.user
  {
  }

  /**
   * From the initial shell, whatever happens: the state never moves back,
   * the main view always has a user, and once the main view is reached the
   * user stays the one who signed in.
   */
  lemma {:induction false} RunForward(s: Shell, events: seq<Event>)
    requires SignedInWhenMain(s)
    ensures SignedInWhenMain(Run(s, events))
    ensures Rank(Run(s, events).appState) >= Rank(s.appState)
    ensures s.appState == Main ==> Run(s, events).user == s.user
    decreases |events|
  {
    if events != [] {
      var next := if Offered(s, events[0]) then Step(s, events[0]) else s;
      if Offered(s, events[0]) {
        StepForward(s, events[0]);
      }
      RunForward(next, events[1..]);
    }
  }

  /** The shell starts in the splash state, with nobody signed in, on Home, in English. */
  lemma InitialShellState()
    ensures SignedInWhenMain(InitialShell)
    ensures RenderAppContent(InitialShell.appState, InitialShell.activeScreen) == SplashContent
    ensures ScreenFor(InitialShell.activeScreen) == Home && InitialShell.language.Code() == "en"
  {
  }

  class App {
    var appState: AppState
    var user: Option<User>
    var activeScreen: string
    var language: Language
    /** `translations`, one table per language. */
    const translations: Language -> map<string, string>

    function State(): Shell
      reads this
    {
      Shell(appState, user, activeScreen, language)
    }

    ghost predicate Valid()
      reads this
    {
      SignedInWhenMain(State())
    }

    constructor (translations: Language -> map<string, string>)
      ensures this.translations == translations
      ensures State() == InitialShell && Valid()
    {
      this.translations := translations;
      appState := Splash;
      user := None;
      activeScreen := "home";
      language := En;
    }

    /** `handleAnimationEnd`, called by the splash screen. */
    method HandleAnimationEnd()
      requires Valid() && appState == Splash
      modifies this
      ensures Valid() && State() == Step(old(State()), AnimationEnd)
    {
      appState := Login;
    }

    /** `handleLogin`, called by the login form. */
    method HandleLogin(userData: User)
      requires Valid() && appState == Login
      modifies this
      ensures Valid() && State() == Step(old(State()), SignIn(userData))
    {
      user := Some(userData);
      appState := Main;
    }

    /** `setActiveScreen`, called by the home screen and the bottom navigation. */
    method SetActiveScreen(id: string)
      requires Valid() && appState == Main
      modifies this
      ensures Valid() && State() == Step(old(State()), Navigate(id))
    {
      activeScreen := id;
    }

    /** `handleSetLanguage`, called by the profile screen. */
    method HandleSetLanguage(lang: Language)
      requires Valid() && appState == Main
      modifies this
      ensures Valid() && State() == Step(old(State()), PickLanguage(lang))
    {
      language := lang;
    }

    /** `t`: the current language's text for the key, or the key itself. */
    function T(key: string): string
      reads this
    {
      Translate(translations(language), key)
    }

    /** The context value handed to every screen. */
    function Context(): AppContext
      reads this
    {
      AppContext(language, user)
    }

    function Content(): Content
      reads this
    {
      RenderAppContent(appState, activeScreen)
    }
  }
}
