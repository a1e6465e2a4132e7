/**
 * The per-platform join and account-reconciliation state machine of
 * platform_handlers.py, as pure functions from one handler session to the
 * next. The Handlers module runs the same steps imperatively on a
 * MeetingHandler object and proves each method equal to its function here.
 *
 * The browser is not driven: every wait for an element asks the remote
 * surface whether the element is there after the actions taken so far, and
 * a missing element plays the part of Selenium's TimeoutException. The
 * session log records every action the handler takes on the outside world.
 */
module HandlerSpec {
  import opened Wrappers
  import opened Text

  // ---------------------------------------------------------------- the world around a handler

  /** The two handler classes that exist: ZoomHandler and TeamsHandler. */
  datatype HandlerKind = ZoomHandler | TeamsHandler

  /** A Selenium locator: `(By.CSS_SELECTOR, s)` or `(By.ID, s)`. */
  datatype Locator = Css(selector: string) | Id(name: string)

  /** What a handler does to the outside world. */
  datatype Action =
    | StartBrowser
    | QuitBrowser
    | Navigate(url: string)
    | Click(target: Locator)
    | Clear(target: Locator)
    | Type(target: Locator, text: string)
    | DeleteCookies
    | Spawn(argv: seq<string>)

  /** The remote surface: what the browser shows after a given history of actions. */
  datatype Surface = Surface(
    present: (seq<Action>, Locator) -> bool,
    textOf: (seq<Action>, Locator) -> string,
    cookies: seq<Action> -> set<string>,
    googleAuthCompletes: seq<Action> -> bool)

  /** The host: `sys.platform`, `os.path.expandvars` and `os.path.exists`. */
  datatype Host = Host(sysPlatform: string, expandVars: string -> string, pathExists: string -> bool)

  /** The three buttons of the account-mismatch dialog. */
  datatype Decision = Switch | Keep | Cancel

  /** The keyring: (service, account) to stored secret. */
  type Secrets = map<(string, string), string>

  /** The mutable fields of a MeetingHandler (`wait` is present exactly when `driver` is). */
  datatype Session = Session(driver: bool, useBrowser: bool, appInstalled: bool, log: seq<Action>)

  /** A step that answers true or false, and the session after it. */
  datatype Step = Step(ok: bool, after: Session)

  /** The e-mail read from the profile page, if any, and the session after reading it. */
  datatype Probe = Probe(email: Option<string>, after: Session)

  datatype Route = ViaApp | ViaBrowser

  /** The path `join_meeting` took; `ok` is false where the browser join raised. */
  datatype Joined = Joined(route: Route, ok: bool, after: Session)

  /** A freshly constructed handler. */
  const Initial := Session(false, false, false, [])

  function Do(s: Session, a: Action): Session {
    s.(log := s.log + [a])
  }

  /** `r` continues `s`: the preference flags are kept and the log only grows. */
  ghost predicate Extends(s: Session, r: Session) {
    r.useBrowser == s.useBrowser && r.appInstalled == s.appInstalled && s.log <= r.log
  }

  // ---------------------------------------------------------------- per-platform constants

  function ServiceName(k: HandlerKind): string {
    match k
    case ZoomHandler => "meeting_automator_zoom"
    case TeamsHandler => "meeting_automator_teams"
  }

  function PlatformName(k: HandlerKind): string {
    match k
    case ZoomHandler => "zoom"
    case TeamsHandler => "teams"
  }

  function PlatformUrl(k: HandlerKind): string {
    match k
    case ZoomHandler => "https://zoom.us"
    case TeamsHandler => "https://teams.microsoft.com"
  }

  /** Both the profile page that is probed and the logout page. */
  function VerifyUrl(k: HandlerKind): string {
    match k
    case ZoomHandler => "https://zoom.us/profile"
    case TeamsHandler => "https://teams.microsoft.com/_#/profile"
  }

  function LoggedInIndicator(k: HandlerKind): Locator {
    match k
    case ZoomHandler => Css(".profile-info")
    case TeamsHandler => Css(".profile-card")
  }

  function SessionCookieNames(k: HandlerKind): set<string> {
    match k
    case ZoomHandler => {"_zm_ssid", "_zm_chtaid"}
    case TeamsHandler => {"MSTS", "TSAUTH"}
  }

  function LogoutButton(k: HandlerKind): Locator {
    match k
    case ZoomHandler => Css("[aria-label='Sign Out']")
    case TeamsHandler => Css("[data-tid='logout-button']")
  }

  function SignInUrl(k: HandlerKind): string {
    match k
    case ZoomHandler => "https://zoom.us/signin"
    case TeamsHandler => "https://teams.microsoft.com/signin"
  }

  const ProfileEmail := Css(".profile-email")
  const SubmitButton := Css("[type='submit']")

  const ZoomEmailInput := Id("email")
  const ZoomPasswordInput := Id("password")
  const GoogleAuthUrl := "https://zoom.us/google/oauth"
  const GoogleButton := Css("[data-google-signin]")

  const TeamsEmailInput := Css("[type='email']")
  const TeamsPasswordInput := Css("[type='password']")
  const TeamsStaySignedIn := Css("[value='Yes']")

  const ZoomJoinByIdUrl := "https://zoom.us/j/"
  const ZoomDesktopJoinButton := Css("[data-test-id='joinButtonDesktop']")
  const ZoomNameInput := Id("inputname")
  const ZoomPasscodeInput := Id("inputpasscode")
  const ZoomJoinSubmit := Css("button[type='submit']")
  const DisplayName := "Meeting Automator"

  const TeamsJoinButton := Css("button[data-tid='join-btn']")

  // ---------------------------------------------------------------- app paths

  datatype OsKey = Windows | Mac | Linux

  /** The key of the path table chosen from `sys.platform`. */
  function OsKeyOf(sysPlatform: string): OsKey {
    if StartsWith(sysPlatform, "win") then Windows
    else if StartsWith(sysPlatform, "darwin") then Mac
    else Linux
  }

  function PathTable(k: HandlerKind, os: OsKey): string {
    match (k, os)
    case (ZoomHandler, Windows) => "C:\\Users\\%USERNAME%\\AppData\\Roaming\\Zoom\\bin\\Zoom.exe"
    case (ZoomHandler, Mac) => "/Applications/zoom.us.app"
    case (ZoomHandler, Linux) => "/usr/bin/zoom"
    case (TeamsHandler, Windows) => "C:\\Users\\%USERNAME%\\AppData\\Local\\Microsoft\\Teams\\current\\Teams.exe"
    case (TeamsHandler, Mac) => "/Applications/Microsoft Teams.app"
    case (TeamsHandler, Linux) => "/usr/bin/teams"
  }

  /** `get_app_path`: the table entry for the host's OS; only the Windows entry has its variables expanded. */
  function AppPath(k: HandlerKind, host: Host): string {
    var os := OsKeyOf(host.sysPlatform);
    if os == Windows then host.expandVars(PathTable(k, os)) else PathTable(k, os)
  }

  /** A Windows host gets the expanded Windows entry; every other host a fixed, unexpanded entry. */
  lemma AppPathSelection(k: HandlerKind, host: Host)
    ensures StartsWith(host.sysPlatform, "win") ==> AppPath(k, host) == host.expandVars(PathTable(k, Windows))
    ensures StartsWith(host.sysPlatform, "darwin") ==> AppPath(k, host) == PathTable(k, Mac)
    ensures !StartsWith(host.sysPlatform, "win") && !StartsWith(host.sysPlatform, "darwin") ==>
      AppPath(k, host) == PathTable(k, Linux)
    ensures forall e :: !StartsWith(host.sysPlatform, "win") ==> AppPath(k, host) == AppPath(k, host.(expandVars := e))
  {
    if StartsWith(host.sysPlatform, "darwin") {
      assert host.sysPlatform[0] == 'd';
      assert !StartsWith(host.sysPlatform, "win");
    }
  }

  // ---------------------------------------------------------------- the browser handle

  /** `_setup_driver`: starts a browser only when none is running. */
  function SetupDriver(s: Session): (r: Session)
    ensures r.driver && Extends(s, r)
  {
    if s.driver then s else Do(s, StartBrowser).(driver := true)
  }

  /** `_cleanup`: quits a running browser; afterwards there is none. */
  function Cleanup(s: Session): (r: Session)
    ensures !r.driver && Extends(s, r)
  {
    if s.driver then Do(s, QuitBrowser).(driver := false) else s
  }

  /** Setting up twice starts one browser, and cleaning up twice quits it once. */
  lemma DriverLifecycle(s: Session)
    ensures SetupDriver(SetupDriver(s)) == SetupDriver(s)
    ensures SetupDriver(s).log == s.log + (if s.driver then [] else [StartBrowser])
    ensures Cleanup(Cleanup(s)) == Cleanup(s)
    ensures Cleanup(s).log == s.log + (if s.driver then [QuitBrowser] else [])
  {
  }

  // ---------------------------------------------------------------- session probes

  /** `_verify_session`: opens the profile page and looks for the logged-in indicator. */
  function VerifySession(k: HandlerKind, s: Session, surface: Surface): (r: Step)
    ensures Extends(s, r.after) && r.after.driver == s.driver
    ensures r.ok <==> s.driver && surface.present(Do(s, Navigate(VerifyUrl(k))).log, LoggedInIndicator(k))
    ensures r.ok ==> Verified(k, r.after, surface)
  {
    if !s.driver then Step(false, s)
    else
      var s1 := Do(s, Navigate(VerifyUrl(k)));
      Step(surface.present(s1.log, LoggedInIndicator(k)), s1)
  }

  /** A login that ends by finding the logged-in indicator on a freshly opened profile page. */
  ghost predicate Verified(k: HandlerKind, s: Session, surface: Surface) {
    |s.log| > 0 && s.log[|s.log| - 1] == Navigate(VerifyUrl(k)) && surface.present(s.log, LoggedInIndicator(k))
  }

  /** `check_existing_session`: a known session cookie on the platform page, then `_verify_session`. */
  function CheckExistingSession(k: HandlerKind, s: Session, surface: Surface): (r: Step)
    ensures Extends(s, r.after) && r.after.driver
    ensures var s1 := Do(SetupDriver(s), Navigate(PlatformUrl(k)));
      r.ok <==> surface.cookies(s1.log) * SessionCookieNames(k) != {}
                && surface.present(Do(s1, Navigate(VerifyUrl(k))).log, LoggedInIndicator(k))
    ensures r.ok ==> Verified(k, r.after, surface)
  {
    var s1 := Do(SetupDriver(s), Navigate(PlatformUrl(k)));
    if surface.cookies(s1.log) * SessionCookieNames(k) != {} then VerifySession(k, s1, surface)
    else Step(false, s1)
  }

  /** `_get_logged_in_email`: the text of the profile e-mail element; nothing without a browser. */
  function LoggedInEmail(k: HandlerKind, s: Session, surface: Surface): (r: Probe)
    ensures Extends(s, r.after) && r.after.driver == s.driver
    ensures !s.driver ==> r == Probe(None, s)
    ensures s.driver ==> r.after == Do(s, Navigate(VerifyUrl(k)))
    ensures s.driver ==> (r.email.Some? <==> surface.present(r.after.log, ProfileEmail))
    ensures r.email.Some? ==> r.email.value == surface.textOf(r.after.log, ProfileEmail)
  {
    if !s.driver then Probe(None, s)
    else
      var s1 := Do(s, Navigate(VerifyUrl(k)));
      if surface.present(s1.log, ProfileEmail) then Probe(Some(surface.textOf(s1.log, ProfileEmail)), s1)
      else Probe(None, s1)
  }

  /** `_logout`: the logout button on the profile page, then the cookies are deleted. */
  function Logout(k: HandlerKind, s: Session, surface: Surface): (r: Step)
    ensures Extends(s, r.after) && r.after.driver
    ensures var s1 := Do(SetupDriver(s), Navigate(VerifyUrl(k)));
      r.ok <==> surface.present(s1.log, LogoutButton(k))
    ensures r.ok ==> |r.after.log| > 0 && r.after.log[|r.after.log| - 1] == DeleteCookies
  {
    var s1 := Do(SetupDriver(s), Navigate(VerifyUrl(k)));
    if surface.present(s1.log, LogoutButton(k)) then Step(true, Do(Do(s1, Click(LogoutButton(k))), DeleteCookies))
    else Step(false, s1)
  }

  // ---------------------------------------------------------------- login

  /**
   * `sign_in_with_google` as written: after clicking the Google button it
   * calls `_handle_google_auth`, which no class defines, so the resulting
   * AttributeError is caught and the answer is always false.
   */
  function SignInWithGoogleAsWritten(s: Session, surface: Surface): Step {
    var s1 := Do(SetupDriver(s), Navigate(GoogleAuthUrl));
    if !surface.present(s1.log, GoogleButton) then Step(false, s1)
    else Step(false, Do(s1, Click(GoogleButton)))
  }

  /** As written, the Google fallback never signs in, whatever the surface shows. */
  lemma SignInWithGoogleAsWrittenNeverSucceeds(s: Session, surface: Surface)
    ensures !SignInWithGoogleAsWritten(s, surface).ok
    ensures SignInWithGoogleAsWritten(s, surface).after == SignInWithGoogle(s, surface).after
  {
  }

  /** `sign_in_with_google` as intended: the Google flow after the button decides the answer. */
  function SignInWithGoogle(s: Session, surface: Surface): (r: Step)
    ensures Extends(s, r.after) && r.after.driver
    ensures r.ok <==>
      var s1 := Do(SetupDriver(s), Navigate(GoogleAuthUrl));
      surface.present(s1.log, GoogleButton) && surface.googleAuthCompletes(Do(s1, Click(GoogleButton)).log)
  {
    var s1 := Do(SetupDriver(s), Navigate(GoogleAuthUrl));
    if !surface.present(s1.log, GoogleButton) then Step(false, s1)
    else
      var s2 := Do(s1, Click(GoogleButton));
      Step(surface.googleAuthCompletes(s2.log), s2)
  }

  /** The e-mail/password form of the Zoom sign-in page; any missing element falls back to Google. */
  function ZoomPasswordFlow(s: Session, email: string, password: string, surface: Surface): (r: Step)
    requires s.driver
    ensures Extends(s, r.after) && r.after.driver
  {
    if !surface.present(s.log, ZoomEmailInput) then SignInWithGoogle(s, surface)
    else
      var s1 := Do(s, Type(ZoomEmailInput, email));
      if !surface.present(s1.log, ZoomPasswordInput) then SignInWithGoogle(s1, surface)
      else
        var s2 := Do(s1, Type(ZoomPasswordInput, password));
        if !surface.present(s2.log, SubmitButton) then SignInWithGoogle(s2, surface)
        else VerifySession(ZoomHandler, Do(s2, Click(SubmitButton)), surface)
  }

  /** The two-page Teams sign-in; a missing required element ends the login with false. */
  function TeamsPasswordFlow(s: Session, email: string, password: string, surface: Surface): (r: Step)
    requires s.driver
    ensures Extends(s, r.after) && r.after.driver
  {
    if !surface.present(s.log, TeamsEmailInput) then Step(false, s)
    else
      var s1 := Do(s, Type(TeamsEmailInput, email));
      if !surface.present(s1.log, SubmitButton) then Step(false, s1)
      else
        var s2 := Do(s1, Click(SubmitButton));
        if !surface.present(s2.log, TeamsPasswordInput) then Step(false, s2)
        else
          var s3 := Do(s2, Type(TeamsPasswordInput, password));
          if !surface.present(s3.log, SubmitButton) then Step(false, s3)
          else
            var s4 := Do(s3, Click(SubmitButton));
            var s5 := if surface.present(s4.log, TeamsStaySignedIn) then Do(s4, Click(TeamsStaySignedIn)) else s4;
            VerifySession(TeamsHandler, s5, surface)
  }

  /** The secret stored for `email` under this platform's service, if a non-empty one exists. */
  function StoredSecret(k: HandlerKind, secrets: Secrets, email: string): Option<string> {
    var key := (ServiceName(k), email);
    if key in secrets && secrets[key] != "" then Some(secrets[key]) else None
  }

  /** `_handle_login`: needs a stored secret, opens the sign-in page and runs the platform's flow. */
  function Login(k: HandlerKind, s: Session, email: string, secrets: Secrets, surface: Surface): (r: Step)
    ensures Extends(s, r.after)
  {
    match StoredSecret(k, secrets, email)
    case None => Step(false, s)
    case Some(password) =>
      var s1 := Do(SetupDriver(s), Navigate(SignInUrl(k)));
      match k
      case ZoomHandler => ZoomPasswordFlow(s1, email, password, surface)
      case TeamsHandler => TeamsPasswordFlow(s1, email, password, surface)
  }

  /**
   * `set_credentials` stores under the handler's own service: afterwards the
   * login for that e-mail finds the new secret when it is non-empty, and no
   * other platform or e-mail sees a change.
   */
  lemma StoredSecretAfterSet(k: HandlerKind, secrets: Secrets, email: string, password: string,
                             k2: HandlerKind, email2: string)
    ensures var after := secrets[(ServiceName(k), email) := password];
      && StoredSecret(k, after, email) == (if password != "" then Some(password) else None)
      && ((k2, email2) != (k, email) ==> StoredSecret(k2, after, email2) == StoredSecret(k2, secrets, email2))
  {
    if (k2, email2) != (k, email) {
      assert ServiceName(k2) != ServiceName(k) || email2 != email;
    }
  }

  /** Without a stored secret the login fails at once: the session is left exactly as it was. */
  lemma LoginWithoutSecret(k: HandlerKind, s: Session, email: string, secrets: Secrets, surface: Surface)
    requires (ServiceName(k), email) !in secrets || secrets[(ServiceName(k), email)] == ""
    ensures Login(k, s, email, secrets, surface) == Step(false, s)
  {
  }

  /** With a stored secret, the login first opens the platform's sign-in page. */
  lemma LoginOpensSignInPage(k: HandlerKind, s: Session, email: string, secrets: Secrets, surface: Surface)
    requires StoredSecret(k, secrets, email).Some?
    ensures var r := Login(k, s, email, secrets, surface);
      var n := |SetupDriver(s).log|;
      n < |r.after.log| && r.after.log[n] == Navigate(SignInUrl(k)) && r.after.driver
  {
    var r := Login(k, s, email, secrets, surface);
    var s1 := Do(SetupDriver(s), Navigate(SignInUrl(k)));
    assert s1.log <= r.after.log;
    assert s1.log[|SetupDriver(s).log|] == Navigate(SignInUrl(k));
  }

  /**
   * A successful login ends by seeing the logged-in indicator on the
   * profile page, except for Zoom, where it may have come from the Google
   * fallback after the Google button was clicked.
   */
  lemma LoginSuccessIsVerified(k: HandlerKind, s: Session, email: string, secrets: Secrets, surface: Surface)
    ensures var r := Login(k, s, email, secrets, surface);
      r.ok ==> Verified(k, r.after, surface) || (k == ZoomHandler && Click(GoogleButton) in r.after.log)
  {
    var r := Login(k, s, email, secrets, surface);
    if r.ok {
      var password := StoredSecret(k, secrets, email).value;
      var s1 := Do(SetupDriver(s), Navigate(SignInUrl(k)));
      if k == TeamsHandler {
        TeamsFlowVerified(s1, email, password, surface);
      } else {
        ZoomFlowVerified(s1, email, password, surface);
      }
    }
  }

  lemma GoogleClicked(s: Session, surface: Surface)
    requires SignInWithGoogle(s, surface).ok
    ensures Click(GoogleButton) in SignInWithGoogle(s, surface).after.log
  {
    var s1 := Do(SetupDriver(s), Navigate(GoogleAuthUrl));
    var s2 := Do(s1, Click(GoogleButton));
    assert s2.log[|s2.log| - 1] == Click(GoogleButton);
  }

  lemma ZoomFlowVerified(s: Session, email: string, password: string, surface: Surface)
    requires s.driver
    ensures var r := ZoomPasswordFlow(s, email, password, surface);
      r.ok ==> Verified(ZoomHandler, r.after, surface) || Click(GoogleButton) in r.after.log
  {
    var r := ZoomPasswordFlow(s, email, password, surface);
    if r.ok {
      var s1 := Do(s, Type(ZoomEmailInput, email));
      var s2 := Do(s1, Type(ZoomPasswordInput, password));
      if !surface.present(s.log, ZoomEmailInput) {
        GoogleClicked(s, surface);
      } else if !surface.present(s1.log, ZoomPasswordInput) {
        GoogleClicked(s1, surface);
      } else if !surface.present(s2.log, SubmitButton) {
        GoogleClicked(s2, surface);
      }
    }
  }

  lemma TeamsFlowVerified(s: Session, email: string, password: string, surface: Surface)
    requires s.driver
    ensures var r := TeamsPasswordFlow(s, email, password, surface);
      r.ok ==> Verified(TeamsHandler, r.after, surface)
  {
  }

  /** When the Zoom sign-in page has no e-mail field, the login is exactly the Google fallback. */
  lemma ZoomLoginFallsBackToGoogle(s: Session, email: string, secrets: Secrets, surface: Surface)
    requires StoredSecret(ZoomHandler, secrets, email).Some?
    requires !surface.present(Do(SetupDriver(s), Navigate(SignInUrl(ZoomHandler))).log, ZoomEmailInput)
    ensures Login(ZoomHandler, s, email, secrets, surface)
         == SignInWithGoogle(Do(SetupDriver(s), Navigate(SignInUrl(ZoomHandler))), surface)
  {
  }

  /** With a stored secret, the login opens the sign-in page and runs that platform's own form with the secret. */
  lemma LoginRunsPlatformFlow(k: HandlerKind, s: Session, email: string, secrets: Secrets, surface: Surface)
    requires StoredSecret(k, secrets, email).Some?
    ensures var s1 := Do(SetupDriver(s), Navigate(SignInUrl(k)));
      var password := StoredSecret(k, secrets, email).value;
      && (k == ZoomHandler ==> Login(k, s, email, secrets, surface) == ZoomPasswordFlow(s1, email, password, surface))
      && (k == TeamsHandler ==> Login(k, s, email, secrets, surface) == TeamsPasswordFlow(s1, email, password, surface))
  {
  }

  /**
   * Each of the three Zoom form elements that is missing sends the login to
   * the Google sign-in, from the state reached just before it.
   */
  lemma ZoomFlowFallsBackToGoogle(s: Session, email: string, password: string, surface: Surface)
    requires s.driver
    ensures var r := ZoomPasswordFlow(s, email, password, surface);
      var s1 := Do(s, Type(ZoomEmailInput, email));
      var s2 := Do(s1, Type(ZoomPasswordInput, password));
      && (!surface.present(s.log, ZoomEmailInput) ==> r == SignInWithGoogle(s, surface))
      && (surface.present(s.log, ZoomEmailInput) && !surface.present(s1.log, ZoomPasswordInput) ==>
            r == SignInWithGoogle(s1, surface))
      && (surface.present(s.log, ZoomEmailInput) && surface.present(s1.log, ZoomPasswordInput)
          && !surface.present(s2.log, SubmitButton) ==>
            r == SignInWithGoogle(s2, surface))
  {
  }

  /**
   * When the whole Zoom form is there, the e-mail and the password are typed,
   * the form is submitted, and the answer is exactly whether the profile
   * page opened next shows the logged-in indicator.
   */
  lemma ZoomFormSubmitted(s: Session, email: string, password: string, surface: Surface)
    requires s.driver
    requires surface.present(s.log, ZoomEmailInput)
    requires surface.present(Do(s, Type(ZoomEmailInput, email)).log, ZoomPasswordInput)
    requires surface.present(Do(Do(s, Type(ZoomEmailInput, email)), Type(ZoomPasswordInput, password)).log, SubmitButton)
    ensures var r := ZoomPasswordFlow(s, email, password, surface);
      var submitted := s.log + [Type(ZoomEmailInput, email), Type(ZoomPasswordInput, password), Click(SubmitButton)];
      && r.after == s.(log := submitted + [Navigate(VerifyUrl(ZoomHandler))])
      && (r.ok <==> surface.present(r.after.log, LoggedInIndicator(ZoomHandler)))
  {
    var s3 := Do(Do(Do(s, Type(ZoomEmailInput, email)), Type(ZoomPasswordInput, password)), Click(SubmitButton));
    assert s3.log == s.log + [Type(ZoomEmailInput, email), Type(ZoomPasswordInput, password), Click(SubmitButton)];
  }

  /** The Teams login succeeds only if every required element of its two pages was there. */
  lemma TeamsFormRequired(s: Session, email: string, password: string, surface: Surface)
    requires s.driver
    ensures var r := TeamsPasswordFlow(s, email, password, surface);
      var s1 := Do(s, Type(TeamsEmailInput, email));
      var s2 := Do(s1, Click(SubmitButton));
      var s3 := Do(s2, Type(TeamsPasswordInput, password));
      r.ok ==>
        && surface.present(s.log, TeamsEmailInput) && surface.present(s1.log, SubmitButton)
        && surface.present(s2.log, TeamsPasswordInput) && surface.present(s3.log, SubmitButton)
  {
  }

  /**
   * When every required Teams element is there, both pages are filled in and
   * submitted, the "stay signed in" prompt is accepted if it appears, and the
   * answer is exactly whether the profile page then shows the indicator.
   */
  lemma TeamsFormSubmitted(s: Session, email: string, password: string, surface: Surface)
    requires s.driver
    requires var s1 := Do(s, Type(TeamsEmailInput, email));
      var s2 := Do(s1, Click(SubmitButton));
      var s3 := Do(s2, Type(TeamsPasswordInput, password));
      && surface.present(s.log, TeamsEmailInput) && surface.present(s1.log, SubmitButton)
      && surface.present(s2.log, TeamsPasswordInput) && surface.present(s3.log, SubmitButton)
    ensures var r := TeamsPasswordFlow(s, email, password, surface);
      var s4 := s.(log := s.log + [Type(TeamsEmailInput, email), Click(SubmitButton),
                                   Type(TeamsPasswordInput, password), Click(SubmitButton)]);
      var s5 := if surface.present(s4.log, TeamsStaySignedIn) then Do(s4, Click(TeamsStaySignedIn)) else s4;
      && r.after == Do(s5, Navigate(VerifyUrl(TeamsHandler)))
      && (r.ok <==> surface.present(r.after.log, LoggedInIndicator(TeamsHandler)))
  {
    var s4 := Do(Do(Do(Do(s, Type(TeamsEmailInput, email)), Click(SubmitButton)), Type(TeamsPasswordInput, password)),
                 Click(SubmitButton));
    assert s4.log == s.log + [Type(TeamsEmailInput, email), Click(SubmitButton),
                              Type(TeamsPasswordInput, password), Click(SubmitButton)];
  }

  // ---------------------------------------------------------------- account reconciliation

  /** `_handle_account_switch`, with the dialog's answer given. */
  function AccountSwitch(k: HandlerKind, s: Session, required: string, secrets: Secrets, surface: Surface,
                         decision: Decision): (r: Step)
    ensures Extends(s, r.after)
  {
    match decision
    case Switch =>
      var out := Logout(k, s, surface);
      if out.ok then Login(k, out.after, required, secrets, surface) else Step(false, out.after)
    case Keep => Step(true, s)
    case Cancel => Step(false, s)
  }

  /** Keep accepts and Cancel refuses without touching anything; Switch succeeds only by logging out and in. */
  lemma AccountSwitchOutcomes(k: HandlerKind, s: Session, required: string, secrets: Secrets, surface: Surface)
    ensures AccountSwitch(k, s, required, secrets, surface, Keep) == Step(true, s)
    ensures AccountSwitch(k, s, required, secrets, surface, Cancel) == Step(false, s)
    ensures var r := AccountSwitch(k, s, required, secrets, surface, Switch);
      r.ok ==> Logout(k, s, surface).ok && r == Login(k, Logout(k, s, surface).after, required, secrets, surface)
    ensures !Logout(k, s, surface).ok ==> !AccountSwitch(k, s, required, secrets, surface, Switch).ok
    ensures var out := Logout(k, s, surface);
      AccountSwitch(k, s, required, secrets, surface, Switch)
        == (if out.ok then Login(k, out.after, required, secrets, surface) else Step(false, out.after))
  {
  }

  /** The probed e-mail names an account: Python treats `None` and `""` alike as no account. */
  predicate NamesAccount(e: Option<string>) {
    e.Some? && e.value != ""
  }

  /** `verify_account_match`: log in, reconcile a different account, or accept the same one. */
  function VerifyAccountMatch(k: HandlerKind, s: Session, required: string, secrets: Secrets, surface: Surface,
                              decision: Decision): (r: Step)
    ensures Extends(s, r.after)
  {
    var p := LoggedInEmail(k, s, surface);
    if !NamesAccount(p.email) then Login(k, p.after, required, secrets, surface)
    else if Lower(p.email.value) != Lower(required) then AccountSwitch(k, p.after, required, secrets, surface, decision)
    else Step(true, p.after)
  }

  /**
   * The four ways verification goes: with no browser there is never an
   * account to read, so it always logs in; with no account on the profile
   * page it logs in; with the required account (ignoring case) it accepts
   * after one probe and no login; with another account the dialog decides.
   */
  lemma VerifyAccountMatchCases(k: HandlerKind, s: Session, required: string, secrets: Secrets, surface: Surface,
                                decision: Decision)
    ensures !s.driver ==> VerifyAccountMatch(k, s, required, secrets, surface, decision)
                          == Login(k, s, required, secrets, surface)
    ensures var p := LoggedInEmail(k, s, surface);
      && (!NamesAccount(p.email) ==>
            VerifyAccountMatch(k, s, required, secrets, surface, decision) == Login(k, p.after, required, secrets, surface))
      && (NamesAccount(p.email) && Lower(p.email.value) == Lower(required) ==>
            VerifyAccountMatch(k, s, required, secrets, surface, decision) == Step(true, Do(s, Navigate(VerifyUrl(k)))))
      && (NamesAccount(p.email) && Lower(p.email.value) != Lower(required) ==>
            VerifyAccountMatch(k, s, required, secrets, surface, decision)
            == AccountSwitch(k, p.after, required, secrets, surface, decision))
  {
  }

  /** The dialog is consulted only on a mismatch: otherwise its answer changes nothing. */
  lemma DecisionOnlyOnMismatch(k: HandlerKind, s: Session, required: string, secrets: Secrets, surface: Surface,
                               d1: Decision, d2: Decision)
    requires var p := LoggedInEmail(k, s, surface);
      !NamesAccount(p.email) || Lower(p.email.value) == Lower(required)
    ensures VerifyAccountMatch(k, s, required, secrets, surface, d1)
         == VerifyAccountMatch(k, s, required, secrets, surface, d2)
  {
  }

  // ---------------------------------------------------------------- joining

  /** The command line `_join_via_app` launches, if it launches anything. */
  function AppCommand(k: HandlerKind, path: string, url: Option<string>, meetingId: Option<string>,
                      password: Option<string>): Option<seq<string>>
  {
    match k
    case ZoomHandler =>
      if Truthy(url) then Some([path, "--url=" + url.value])
      else if Truthy(meetingId) then
        Some([path, "--join", "--meetingid", meetingId.value]
             + (if Truthy(password) then ["--password", password.value] else []))
      else None
    case TeamsHandler =>
      if Truthy(url) then Some([path, "--url", url.value]) else None
  }

  /** What a launched app is asked to join. */
  datatype AppTarget = UrlTarget(url: string) | IdTarget(meetingId: string, password: Option<string>)

  /** How the app reads the arguments after its path. */
  function ReadAppArgs(k: HandlerKind, args: seq<string>): Option<AppTarget> {
    match k
    case ZoomHandler =>
      if |args| == 1 && StartsWith(args[0], "--url=") then Some(UrlTarget(args[0][6..]))
      else if |args| == 3 && args[0] == "--join" && args[1] == "--meetingid" then Some(IdTarget(args[2], None))
      else if |args| == 5 && args[0] == "--join" && args[1] == "--meetingid" && args[3] == "--password" then
        Some(IdTarget(args[2], Some(args[4])))
      else None
    case TeamsHandler =>
      if |args| == 2 && args[0] == "--url" then Some(UrlTarget(args[1])) else None
  }

  /**
   * The app is launched exactly when there is a url, or a meeting id for
   * Zoom; it is started from `path` and is told the url if there is one,
   * otherwise the meeting id together with the password if one is given.
   */
  lemma AppCommandRoundTrip(k: HandlerKind, path: string, url: Option<string>, meetingId: Option<string>,
                            password: Option<string>)
    ensures AppCommand(k, path, url, meetingId, password).None? <==>
      !Truthy(url) && (k == TeamsHandler || !Truthy(meetingId))
    ensures var c := AppCommand(k, path, url, meetingId, password);
      c.Some? ==>
        && |c.value| > 1 && c.value[0] == path
        && ReadAppArgs(k, c.value[1..]) == Some(
             if Truthy(url) then UrlTarget(url.value)
             else IdTarget(meetingId.value, if Truthy(password) then password else None))
  {
    var c := AppCommand(k, path, url, meetingId, password);
    if c.Some? && k == ZoomHandler && Truthy(url) {
      var arg := "--url=" + url.value;
      assert c.value[1..] == [arg];
      assert arg[..6] == "--url=";
      assert arg[6..] == url.value;
    } else if c.Some? && k == ZoomHandler {
      if Truthy(password) {
        assert c.value[1..] == ["--join", "--meetingid", meetingId.value, "--password", password.value];
      } else {
        assert c.value[1..] == ["--join", "--meetingid", meetingId.value];
      }
    } else if c.Some? {
      assert c.value[1..] == ["--url", url.value];
    }
  }

  /** `_join_via_app`: launches the app command, if any. */
  function JoinViaApp(k: HandlerKind, s: Session, url: Option<string>, meetingId: Option<string>,
                      password: Option<string>, host: Host): (r: Session)
    ensures Extends(s, r) && r.driver == s.driver
  {
    match AppCommand(k, AppPath(k, host), url, meetingId, password)
    case None => s
    case Some(argv) => Do(s, Spawn(argv))
  }

  /** Python's `f"{x}"` of an optional string. */
  function PyStr(x: Option<string>): string {
    if x.Some? then x.value else "None"
  }

  /** Where the Zoom browser join navigates: the url, else the join-by-id page of the meeting id. */
  function ZoomJoinTarget(url: Option<string>, meetingId: Option<string>): string {
    if Truthy(url) then url.value else ZoomJoinByIdUrl + PyStr(meetingId)
  }

  /** The Zoom browser join up to the final submit: navigation and the three optional steps. */
  function ZoomPrepareJoin(s: Session, url: Option<string>, meetingId: Option<string>, password: Option<string>,
                           surface: Surface): (r: Session)
    ensures Extends(s, r) && r.driver
  {
    var s1 := Do(SetupDriver(s), Navigate(ZoomJoinTarget(url, meetingId)));
    var s2 := if surface.present(s1.log, ZoomDesktopJoinButton) then Do(s1, Click(ZoomDesktopJoinButton)) else s1;
    var s3 := if surface.present(s2.log, ZoomNameInput)
      then Do(Do(s2, Clear(ZoomNameInput)), Type(ZoomNameInput, DisplayName)) else s2;
    if Truthy(password) && surface.present(s3.log, ZoomPasscodeInput)
    then Do(s3, Type(ZoomPasscodeInput, password.value)) else s3
  }

  /** `_join_via_browser` of each handler; `ok` is false where it cleaned up and re-raised. */
  function JoinViaBrowser(k: HandlerKind, s: Session, url: Option<string>, meetingId: Option<string>,
                          password: Option<string>, surface: Surface): (r: Step)
    ensures Extends(s, r.after)
  {
    match k
    case ZoomHandler =>
      var s4 := ZoomPrepareJoin(s, url, meetingId, password, surface);
      if surface.present(s4.log, ZoomJoinSubmit) then Step(true, Do(s4, Click(ZoomJoinSubmit)))
      else Step(false, Cleanup(s4))
    case TeamsHandler =>
      var s1 := SetupDriver(s);
      if !Truthy(url) then Step(false, Cleanup(s1))
      else
        var s2 := Do(s1, Navigate(url.value));
        if surface.present(s2.log, TeamsJoinButton) then Step(true, Do(s2, Click(TeamsJoinButton)))
        else Step(false, Cleanup(s2))
  }

  /** The browser stays open exactly when the browser join succeeded: it is torn down on failure only. */
  lemma BrowserJoinTeardown(k: HandlerKind, s: Session, url: Option<string>, meetingId: Option<string>,
                            password: Option<string>, surface: Surface)
    ensures JoinViaBrowser(k, s, url, meetingId, password, surface).after.driver
         == JoinViaBrowser(k, s, url, meetingId, password, surface).ok
  {
  }

  /**
   * The Zoom browser join opens its target right after the browser is up;
   * the optional elements never decide the outcome: it fails exactly when
   * the final submit button is missing, and a passcode is typed only when
   * a password was given, and then it is that password.
   */
  lemma ZoomBrowserJoinSteps(s: Session, url: Option<string>, meetingId: Option<string>, password: Option<string>,
                             surface: Surface)
    ensures var r := JoinViaBrowser(ZoomHandler, s, url, meetingId, password, surface);
      var n := |SetupDriver(s).log|;
      var pre := ZoomPrepareJoin(s, url, meetingId, password, surface);
      && n < |r.after.log| && r.after.log[n] == Navigate(ZoomJoinTarget(url, meetingId))
      && (r.ok <==> surface.present(pre.log, ZoomJoinSubmit))
      && (forall i :: |s.log| <= i < |r.after.log| && r.after.log[i].Type? && r.after.log[i].target == ZoomPasscodeInput
            ==> Truthy(password) && r.after.log[i].text == password.value)
  {
    var r := JoinViaBrowser(ZoomHandler, s, url, meetingId, password, surface);
    var s0 := SetupDriver(s);
    var s1 := Do(s0, Navigate(ZoomJoinTarget(url, meetingId)));
    var pre := ZoomPrepareJoin(s, url, meetingId, password, surface);
    assert s1.log <= pre.log <= r.after.log;
    assert s1.log[|s0.log|] == Navigate(ZoomJoinTarget(url, meetingId));
    assert forall i :: |s.log| <= i < |s0.log| ==> s0.log[i] == StartBrowser;
  }

  /** A Teams browser join without a url fails before any navigation and leaves no browser open. */
  lemma TeamsBrowserJoinNeedsUrl(s: Session, url: Option<string>, meetingId: Option<string>, password: Option<string>,
                                 surface: Surface)
    requires !Truthy(url)
    ensures var r := JoinViaBrowser(TeamsHandler, s, url, meetingId, password, surface);
      !r.ok && !r.after.driver && forall a :: a in r.after.log[|s.log|..] ==> a == StartBrowser || a == QuitBrowser
  {
    var r := JoinViaBrowser(TeamsHandler, s, url, meetingId, password, surface);
    assert r.after.log[|s.log|..] == (if s.driver then [QuitBrowser] else [StartBrowser, QuitBrowser]);
  }

  /**
   * With a url, the Teams browser join opens it right after the browser is
   * up, and succeeds exactly when the page then shows the join button, which
   * is then clicked last.
   */
  lemma TeamsBrowserJoinWithUrl(s: Session, url: Option<string>, meetingId: Option<string>, password: Option<string>,
                                surface: Surface)
    requires Truthy(url)
    ensures var r := JoinViaBrowser(TeamsHandler, s, url, meetingId, password, surface);
      var n := |SetupDriver(s).log|;
      var page := Do(SetupDriver(s), Navigate(url.value));
      && n < |r.after.log| && r.after.log[n] == Navigate(url.value)
      && (r.ok <==> surface.present(page.log, TeamsJoinButton))
      && (r.ok ==> r.after.log[|r.after.log| - 1] == Click(TeamsJoinButton))
  {
    var r := JoinViaBrowser(TeamsHandler, s, url, meetingId, password, surface);
    var page := Do(SetupDriver(s), Navigate(url.value));
    assert page.log <= r.after.log;
    assert page.log[|SetupDriver(s).log|] == Navigate(url.value);
  }

  /** The session after the account check of `join_meeting`: a failed check sets `use_browser`. */
  function AfterAccountCheck(k: HandlerKind, s: Session, required: Option<string>, secrets: Secrets, surface: Surface,
                             decision: Decision): (r: Session)
    ensures r.appInstalled == s.appInstalled && s.log <= r.log
    ensures s.useBrowser ==> r.useBrowser
  {
    if Truthy(required) && s.appInstalled then
      var v := VerifyAccountMatch(k, s, required.value, secrets, surface, decision);
      if v.ok then v.after else v.after.(useBrowser := true)
    else s
  }

  /** `join_meeting`: detects the app, checks the account when both an e-mail and the app are there, then routes. */
  function Join(k: HandlerKind, s: Session, url: Option<string>, meetingId: Option<string>, password: Option<string>,
                required: Option<string>, secrets: Secrets, surface: Surface, decision: Decision, host: Host): (r: Joined)
    ensures s.log <= r.after.log
  {
    var s1 := s.(appInstalled := host.pathExists(AppPath(k, host)));
    var s2 := AfterAccountCheck(k, s1, required, secrets, surface, decision);
    JoinByRoute(k, s2, url, meetingId, password, surface, host)
  }

  /** The last part of `join_meeting`: the browser when asked for or when there is no app, else the app. */
  function JoinByRoute(k: HandlerKind, s: Session, url: Option<string>, meetingId: Option<string>,
                       password: Option<string>, surface: Surface, host: Host): (r: Joined)
    ensures s.log <= r.after.log && r.after.appInstalled == s.appInstalled && r.after.useBrowser == s.useBrowser
  {
    if s.useBrowser || !s.appInstalled then
      var b := JoinViaBrowser(k, s, url, meetingId, password, surface);
      Joined(ViaBrowser, b.ok, b.after)
    else Joined(ViaApp, true, JoinViaApp(k, s, url, meetingId, password, host))
  }

  /**
   * The browser is used exactly when `use_browser` was already set, the app
   * is missing, or the account check (run only with an e-mail and the app)
   * failed; `use_browser` is never cleared, and it is set afterwards exactly
   * when it was set before or the account check failed.
   */
  lemma JoinRoute(k: HandlerKind, s: Session, url: Option<string>, meetingId: Option<string>, password: Option<string>,
                  required: Option<string>, secrets: Secrets, surface: Surface, decision: Decision, host: Host)
    ensures var installed := host.pathExists(AppPath(k, host));
      var checkFailed := Truthy(required) && installed
        && !VerifyAccountMatch(k, s.(appInstalled := true), required.value, secrets, surface, decision).ok;
      var r := Join(k, s, url, meetingId, password, required, secrets, surface, decision, host);
      && (r.route == ViaBrowser <==> s.useBrowser || !installed || checkFailed)
      && r.after.appInstalled == installed
      && (r.after.useBrowser <==> s.useBrowser || checkFailed)
  {
  }

  /** The browser is left open after a browser join exactly when it succeeded; the app path never closes it. */
  lemma JoinTeardown(k: HandlerKind, s: Session, url: Option<string>, meetingId: Option<string>, password: Option<string>,
                     required: Option<string>, secrets: Secrets, surface: Surface, decision: Decision, host: Host)
    ensures var r := Join(k, s, url, meetingId, password, required, secrets, surface, decision, host);
      var s2 := AfterAccountCheck(k, s.(appInstalled := host.pathExists(AppPath(k, host))), required, secrets,
                                  surface, decision);
      && (r.route == ViaBrowser ==> r.after.driver == r.ok)
      && (r.route == ViaApp ==> r.ok && r.after.driver == s2.driver)
  {
    var s2 := AfterAccountCheck(k, s.(appInstalled := host.pathExists(AppPath(k, host))), required, secrets,
                                surface, decision);
    BrowserJoinTeardown(k, s2, url, meetingId, password, surface);
  }

  /** Without a required e-mail the mismatch dialog is never consulted: its answer changes nothing. */
  lemma JoinWithoutEmailIgnoresDecision(k: HandlerKind, s: Session, url: Option<string>, meetingId: Option<string>,
                                        password: Option<string>, required: Option<string>, secrets: Secrets,
                                        surface: Surface, host: Host, d1: Decision, d2: Decision)
    requires !Truthy(required)
    ensures Join(k, s, url, meetingId, password, required, secrets, surface, d1, host)
         == Join(k, s, url, meetingId, password, required, secrets, surface, d2, host)
  {
  }

  /**
   * A Zoom meeting given by id, with no app installed, is joined in the
   * browser on the join-by-id page of that id, and the join succeeds when
   * the prepared page shows the submit button.
   */
  lemma ZoomJoinByIdInBrowser(s: Session, secrets: Secrets, surface: Surface, decision: Decision, host: Host,
                              required: Option<string>)
    requires !host.pathExists(AppPath(ZoomHandler, host))
    ensures var r := Join(ZoomHandler, s, None, Some("123456789"), Some("pw"), required, secrets, surface, decision, host);
      && r.route == ViaBrowser
      && Navigate("https://zoom.us/j/123456789") in r.after.log
      && (surface.present(ZoomPrepareJoin(s.(appInstalled := false), None, Some("123456789"), Some("pw"), surface).log,
                          ZoomJoinSubmit)
          ==> r.ok)
  {
    var s1 := s.(appInstalled := false);
    assert AfterAccountCheck(ZoomHandler, s1, required, secrets, surface, decision) == s1;
    var b := JoinViaBrowser(ZoomHandler, s1, None, Some("123456789"), Some("pw"), surface);
    assert JoinByRoute(ZoomHandler, s1, None, Some("123456789"), Some("pw"), surface, host)
      == Joined(ViaBrowser, b.ok, b.after);
    ZoomBrowserJoinSteps(s1, None, Some("123456789"), Some("pw"), surface);
    assert ZoomJoinTarget(None, Some("123456789")) == "https://zoom.us/j/123456789";
    assert b.after.log[|SetupDriver(s1).log|] in b.after.log;
  }

  /**
   * With the app installed, another account signed in and the answer
   * Switch, a missing stored secret makes the account check fail right after the
   * logout, with no login attempted; the join then goes to the browser.
   */
  lemma SwitchWithoutSecretGoesToBrowser(k: HandlerKind, s: Session, url: Option<string>, meetingId: Option<string>,
                                          password: Option<string>, required: string, secrets: Secrets,
                                          surface: Surface, host: Host)
    requires host.pathExists(AppPath(k, host)) && required != ""
    requires StoredSecret(k, secrets, required).None?
    requires var p := LoggedInEmail(k, s.(appInstalled := true), surface);
      NamesAccount(p.email) && Lower(p.email.value) != Lower(required)
    ensures var s1 := s.(appInstalled := true);
      VerifyAccountMatch(k, s1, required, secrets, surface, Switch)
      == Step(false, Logout(k, Do(s1, Navigate(VerifyUrl(k))), surface).after)
    ensures Join(k, s, url, meetingId, password, Some(required), secrets, surface, Switch, host).route == ViaBrowser
  {
    JoinRoute(k, s, url, meetingId, password, Some(required), secrets, surface, Switch, host);
  }

  // ---------------------------------------------------------------- the factory

  /** `get_handler`: the handler class for a platform name, ignoring case; Google Meet has none. */
  function HandlerFor(platform: string): (r: Option<HandlerKind>)
    ensures r == Some(ZoomHandler) <==> Lower(platform) == "zoom"
    ensures r == Some(TeamsHandler) <==> Lower(platform) == "teams"
    ensures r.None? <==> Lower(platform) != "zoom" && Lower(platform) != "teams"
  {
    var p := Lower(platform);
    if p == "zoom" then Some(ZoomHandler)
    else if p == "teams" then Some(TeamsHandler)
    else None
  }

  /** Each handler is found under its own platform name, in any case, and Google Meet names none. */
  lemma HandlerForNames(k: HandlerKind)
    ensures HandlerFor(PlatformName(k)) == Some(k)
    ensures HandlerFor(Lower(PlatformName(k))) == Some(k)
    ensures HandlerFor("google_meet").None? && HandlerFor("Google Meet").None? && HandlerFor("google").None?
    ensures HandlerFor("ZOOM") == Some(ZoomHandler) && HandlerFor("Teams") == Some(TeamsHandler)
  {
    assert Lower("ZOOM") == "zoom";
    assert Lower("Teams") == "teams";
    assert Lower("google_meet") != "zoom";
  }
}
