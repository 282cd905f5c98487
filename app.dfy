/**
 * The application shell (App.tsx): session tracking, the readiness probe of the
 * catalog tables, the setup assistant, and the chain of checks that picks the
 * screen. The backend calls are not modelled; their outcomes are parameters.
 */
module App {
  import opened Types

  /** What the probe `from('products').select('id').limit(1)` comes back with. */
  datatype ProbeOutcome = ProbeOk | TableError(code: string, message: string) | ProbeThrew

  /** What `auth.getSession()` comes back with; a thrown `Error` carries its message. */
  datatype SessionOutcome = GotSession(session: Option<User>) | SessionThrew(errorMessage: Option<string>)

  /** The Postgres error code for "relation does not exist". */
  const MissingRelation := "42P01"

  const SetupFailedMessage := "Failed to fetch setup script."

  function ConnectionErrorMessage(message: string): (r: string)
    ensures r != ""
  {
    "Connection Error: " + message
  }

  function UnreachableMessage(url: string): (r: string)
    ensures r != ""
  {
    "Unable to connect to Supabase at " + url
      + ". This is a local development URL which cannot be accessed from the cloud."
  }

  function AuthFailedMessage(errorMessage: Option<string>): (r: string)
    ensures r != ""
  {
    "Authentication failed: " + match errorMessage case Some(m) => m case None => "Unknown error"
  }

  /** The five screens the shell can render. */
  datatype Screen =
    | AuthScreen
    | LoadingScreen
    | ErrorScreen(message: string)
    | SetupScreen(script: Option<string>, fetchingScript: bool)
    | StoreScreen

  /**
   * The render chain. The second `!user` test of the source follows the loading
   * test and can never fire; `isReady` is not consulted at all. A falsy error or
   * script string counts as absent.
   */
  function Render(user: Option<User>, isLoading: bool, error: Option<string>, needsSetup: bool,
                  setupSql: Option<string>, isSettingUp: bool): (r: Screen)
    ensures r == AuthScreen <==> user.None?
    ensures r == LoadingScreen <==> user.Some? && isLoading
    ensures r.ErrorScreen? <==> user.Some? && !isLoading && Truthy(error) && !needsSetup
    ensures r.ErrorScreen? ==> Some(r.message) == error
    ensures r.SetupScreen? <==> user.Some? && !isLoading && needsSetup
    ensures r.SetupScreen? ==> r.script == (if Truthy(setupSql) then setupSql else None)
                               && r.fetchingScript == isSettingUp
    ensures r == StoreScreen <==> user.Some? && !isLoading && !needsSetup && !Truthy(error)
  {
    if user.None? then AuthScreen
    else if isLoading then LoadingScreen
    else if user.None? then AuthScreen
    else if Truthy(error) && !needsSetup then ErrorScreen(error.value)
    else if needsSetup then SetupScreen(if Truthy(setupSql) then setupSql else None, isSettingUp)
    else StoreScreen
  }

  /** The component's state hooks, updated step by step by its async handlers. */
  class AppComponent {
    const supabaseUrl: string
    var user: Option<User>
    var isReady: bool
    var error: Option<string>
    var needsSetup: bool
    var isSettingUp: bool
    var setupSql: Option<string>
    var isLoading: bool

    /** Every error message the shell sets is non-empty, so an error is shown whenever it is set. */
    ghost predicate Valid()
      reads this
    {
      error != Some("")
    }

    function View(): Screen
      reads this
    {
      Render(user, isLoading, error, needsSetup, setupSql, isSettingUp)
    }

    constructor (supabaseUrl: string)
      ensures Valid()
      ensures this.supabaseUrl == supabaseUrl
      ensures user == None && !isReady && error == None && !needsSetup
      ensures !isSettingUp && setupSql == None && isLoading
      ensures View() == AuthScreen
    {
      this.supabaseUrl := supabaseUrl;
      user := None;
      isReady := false;
      error := None;
      needsSetup := false;
      isSettingUp := false;
      setupSql := None;
      isLoading := true;
    }

    /** The first step of `checkConnection`, before the probe is awaited. */
    method StartProbe()
      requires Valid()
      modifies this
      ensures Valid()
      ensures isLoading
      ensures user == old(user) && isReady == old(isReady) && error == old(error)
      ensures needsSetup == old(needsSetup) && isSettingUp == old(isSettingUp) && setupSql == old(setupSql)
      ensures user.Some? ==> View() == LoadingScreen
    {
      isLoading := true;
    }

    /** The rest of `checkConnection`: classify the probe's outcome, then stop loading. */
    method CompleteProbe(outcome: ProbeOutcome)
      requires Valid()
      modifies this
      ensures Valid()
      ensures !isLoading
      ensures user == old(user) && isSettingUp == old(isSettingUp) && setupSql == old(setupSql)
      ensures outcome == ProbeOk ==> isReady && !needsSetup && error == None
      ensures outcome.TableError? && outcome.code == MissingRelation ==>
        needsSetup && error == None && isReady == old(isReady)
      ensures outcome.TableError? && outcome.code != MissingRelation ==>
        && error == Some(ConnectionErrorMessage(outcome.message))
        && needsSetup == old(needsSetup) && isReady == old(isReady)
      ensures outcome == ProbeThrew ==>
        error == Some(UnreachableMessage(supabaseUrl)) && needsSetup == old(needsSetup) && isReady == old(isReady)
      // What the signed-in user then sees.
      ensures user.Some? && outcome == ProbeOk ==> View() == StoreScreen
      ensures user.Some? && outcome.TableError? && outcome.code == MissingRelation ==> View().SetupScreen?
      ensures user.Some? && outcome.TableError? && outcome.code != MissingRelation && needsSetup ==>
        View().SetupScreen?
      ensures user.Some? && outcome.TableError? && outcome.code != MissingRelation && !needsSetup ==>
        View() == ErrorScreen(ConnectionErrorMessage(outcome.message))
    {
      match outcome {
        case TableError(code, message) =>
          if code == MissingRelation {
            needsSetup := true;
            error := None;
          } else {
            error := Some(ConnectionErrorMessage(message));
          }
        case ProbeOk =>
          isReady := true;
          needsSetup := false;
          error := None;
        case ProbeThrew =>
          error := Some(UnreachableMessage(supabaseUrl));
      }
      isLoading := false;
    }

    /** `initAuth` up to the probe it may start; `probeStarted` tells whether it did. */
    method InitAuth(outcome: SessionOutcome) returns (probeStarted: bool)
      requires Valid()
      modifies this
      ensures Valid()
      ensures probeStarted <==> outcome.GotSession? && outcome.session.Some?
      ensures outcome.GotSession? ==> user == outcome.session && error == old(error)
      ensures outcome.SessionThrew? ==>
        user == old(user) && error == Some(AuthFailedMessage(outcome.errorMessage))
      ensures isLoading == probeStarted
      ensures isReady == old(isReady) && needsSetup == old(needsSetup)
      ensures isSettingUp == old(isSettingUp) && setupSql == old(setupSql)
    {
      probeStarted := false;
      match outcome {
        case GotSession(session) =>
          user := session;
          if session.Some? {
            StartProbe();
            probeStarted := true;
          } else {
            isLoading := false;
          }
        case SessionThrew(message) =>
          error := Some(AuthFailedMessage(message));
          isLoading := false;
      }
    }

    /** The `onAuthStateChange` callback: track the session; re-probe only when there is one. */
    method OnAuthStateChange(session: Option<User>) returns (probeStarted: bool)
      requires Valid()
      modifies this
      ensures Valid()
      ensures user == session
      ensures probeStarted <==> session.Some?
      ensures isLoading == (probeStarted || old(isLoading))
      ensures isReady == old(isReady) && error == old(error) && needsSetup == old(needsSetup)
      ensures isSettingUp == old(isSettingUp) && setupSql == old(setupSql)
      ensures session.None? ==> View() == AuthScreen
    {
      user := session;
      probeStarted := session.Some?;
      if probeStarted {
        StartProbe();
      }
    }

    /** The first step of `handleSetup`, before the script is awaited. */
    method StartSetup()
      requires Valid()
      modifies this
      ensures Valid()
      ensures isSettingUp
      ensures user == old(user) && isReady == old(isReady) && error == old(error)
      ensures needsSetup == old(needsSetup) && setupSql == old(setupSql) && isLoading == old(isLoading)
    {
      isSettingUp := true;
    }

    /**
     * The rest of `handleSetup`: `script` is the fetched script, or `None` when
     * fetching it threw. Either way the setup page stays up while the schema is
     * missing; a failure is recorded in `error` but not shown on it.
     */
    method CompleteSetup(script: Option<string>)
      requires Valid()
      modifies this
      ensures Valid()
      ensures !isSettingUp
      ensures script.Some? ==> setupSql == script && error == old(error)
      ensures script.None? ==> setupSql == old(setupSql) && error == Some(SetupFailedMessage)
      ensures user == old(user) && isReady == old(isReady)
      ensures needsSetup == old(needsSetup) && isLoading == old(isLoading)
      ensures user.Some? && !isLoading && needsSetup ==> View().SetupScreen?
    {
      match script {
        case Some(sql) =>
          setupSql := Some(sql);
        case None =>
          error := Some(SetupFailedMessage);
      }
      isSettingUp := false;
    }
  }

  /**
   * With the shell's invariant (no empty error message), the storefront is shown
   * exactly when someone is signed in, nothing is loading, the schema is present
   * and there is no error.
   */
  lemma StoreShownIff(user: Option<User>, isLoading: bool, error: Option<string>, needsSetup: bool,
                      setupSql: Option<string>, isSettingUp: bool)
    requires error != Some("")
    ensures Render(user, isLoading, error, needsSetup, setupSql, isSettingUp) == StoreScreen
        <==> user.Some? && !isLoading && !needsSetup && error == None
  {
  }

  /**
   * What a caller can conclude from the contracts alone: sign-in on a fresh
   * database, a failed script fetch, a successful re-check, then sign-out.
   */
  method SignInScenario(url: string, u: User)
  {
    var app := new AppComponent(url);
    var started := app.OnAuthStateChange(Some(u));
    assert started && app.View() == LoadingScreen;
    app.CompleteProbe(TableError(MissingRelation, "relation does not exist"));
    assert app.View().SetupScreen?;
    app.StartSetup();
    app.CompleteSetup(None);
    assert app.View().SetupScreen? && app.error == Some(SetupFailedMessage);
    app.StartProbe();
    app.CompleteProbe(ProbeOk);
    assert app.View() == StoreScreen;
    started := app.OnAuthStateChange(None);
    assert !started && app.View() == AuthScreen;
  }
}
