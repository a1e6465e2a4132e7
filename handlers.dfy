/**
 * The handler objects of platform_handlers.py. A MeetingHandler keeps the
 * fields the source mutates (`driver`/`wait`, `use_browser`,
 * `app_installed`) plus the log of what it has done to the outside world;
 * each method updates them step by step and is proved to end in the state
 * that the matching HandlerSpec function computes.
 */
module Handlers {
  import opened Wrappers
  import Text
  import Spec = HandlerSpec

  /** The system keyring, reached through `keyring.set_password` and `keyring.get_password`. */
  class Keyring {
    var secrets: Spec.Secrets

    constructor()
      ensures secrets == map[]
    {
      secrets := map[];
    }

    method SetPassword(service: string, account: string, password: string)
      modifies this
      ensures secrets == old(secrets)[(service, account) := password]
    {
      secrets := secrets[(service, account) := password];
    }

    /** The stored secret, or `None` when nothing is stored for the pair. */
    method GetPassword(service: string, account: string) returns (r: Option<string>)
      ensures r.Some? <==> (service, account) in secrets
      ensures r.Some? ==> r.value == secrets[(service, account)]
    {
      if (service, account) in secrets {
        r := Some(secrets[(service, account)]);
      } else {
        r := None;
      }
    }
  }

  /**
   * `PlatformManager.detect_installed_apps`: for each platform, whether
   * its app exists at the path chosen for this host.
   */
  method DetectInstalledApps(host: Spec.Host) returns (installed: map<string, bool>)
    ensures installed.Keys == {"zoom", "teams"}
    ensures installed["zoom"] == host.pathExists(Spec.AppPath(Spec.ZoomHandler, host))
    ensures installed["teams"] == host.pathExists(Spec.AppPath(Spec.TeamsHandler, host))
  {
    var kinds := [Spec.ZoomHandler, Spec.TeamsHandler];
    installed := map[];
    var i := 0;
    while i < |kinds|
      invariant 0 <= i <= |kinds|
      invariant installed.Keys == (if i == 0 then {} else if i == 1 then {"zoom"} else {"zoom", "teams"})
      invariant i > 0 ==> installed["zoom"] == host.pathExists(Spec.AppPath(Spec.ZoomHandler, host))
      invariant i > 1 ==> installed["teams"] == host.pathExists(Spec.AppPath(Spec.TeamsHandler, host))
    {
      var k := kinds[i];
      var path;
      if Text.StartsWith(host.sysPlatform, "win") {
        path := host.expandVars(Spec.PathTable(k, Spec.Windows));
        assert Spec.OsKeyOf(host.sysPlatform) == Spec.Windows;
      } else if Text.StartsWith(host.sysPlatform, "darwin") {
        path := Spec.PathTable(k, Spec.Mac);
        assert Spec.OsKeyOf(host.sysPlatform) == Spec.Mac;
      } else {
        path := Spec.PathTable(k, Spec.Linux);
        assert Spec.OsKeyOf(host.sysPlatform) == Spec.Linux;
      }
      assert path == Spec.AppPath(k, host);
      installed := installed[Spec.PlatformName(k) := host.pathExists(path)];
      i := i + 1;
    }
  }

  /** `detect_installed_apps().get(platform_name, False)` for the platform of handler kind `k`. */
  method AppInstalledFor(k: Spec.HandlerKind, host: Spec.Host) returns (found: bool)
    ensures found == host.pathExists(Spec.AppPath(k, host))
  {
    var apps := DetectInstalledApps(host);
    var name := Spec.PlatformName(k);
    if k == Spec.ZoomHandler {
      assert name == "zoom";
    } else {
      assert name == "teams";
    }
    found := if name in apps then apps[name] else false;
  }

  /** The command line `_join_via_app` of handler kind `k` builds, or `None` where it launches nothing. */
  method AppCommand(k: Spec.HandlerKind, appPath: string, url: Option<string>, meetingId: Option<string>,
                    password: Option<string>) returns (cmd: Option<seq<string>>)
    ensures cmd == Spec.AppCommand(k, appPath, url, meetingId, password)
  {
    match k
    case ZoomHandler =>
      if Truthy(url) {
        cmd := Some([appPath, "--url=" + url.value]);
      } else if Truthy(meetingId) {
        var argv := [appPath, "--join"];
        argv := argv + ["--meetingid", meetingId.value];
        if Truthy(password) {
          argv := argv + ["--password", password.value];
        }
        assert argv == [appPath, "--join", "--meetingid", meetingId.value]
                       + (if Truthy(password) then ["--password", password.value] else []);
        cmd := Some(argv);
      } else {
        cmd := None;
      }
    case TeamsHandler =>
      if Truthy(url) {
        cmd := Some([appPath, "--url", url.value]);
      } else {
        cmd := None;
      }
  }

  class MeetingHandler {
    const kind: Spec.HandlerKind
    var driver: bool
    var wait: bool
    var useBrowser: bool
    var appInstalled: bool
    /** What this handler has done to the browser, the apps and the keyring's users, in order. */
    var log: seq<Spec.Action>

    /** A wait object exists exactly when a browser does. */
    ghost predicate Valid()
      reads this
    {
      wait == driver
    }

    function State(): Spec.Session
      reads this
    {
      Spec.Session(driver, useBrowser, appInstalled, log)
    }

    constructor(k: Spec.HandlerKind)
      ensures kind == k && Valid() && State() == Spec.Initial
    {
      kind := k;
      driver := false;
      wait := false;
      useBrowser := false;
      appInstalled := false;
      log := [];
    }

    method Act(a: Spec.Action)
      modifies this
      ensures State() == Spec.Do(old(State()), a) && wait == old(wait)
    {
      log := log + [a];
    }

    method SetupDriver()
      requires Valid()
      modifies this
      ensures Valid() && State() == Spec.SetupDriver(old(State()))
    {
      if !driver {
        Act(Spec.StartBrowser);
        driver := true;
        wait := true;
      }
    }

    method Cleanup()
      requires Valid()
      modifies this
      ensures Valid() && State() == Spec.Cleanup(old(State()))
    {
      if driver {
        Act(Spec.QuitBrowser);
        driver := false;
        wait := false;
      }
    }

    method CheckExistingSession(surface: Spec.Surface) returns (ok: bool)
      requires Valid()
      modifies this
      ensures Valid() && Spec.Step(ok, State()) == Spec.CheckExistingSession(kind, old(State()), surface)
    {
      SetupDriver();
      Act(Spec.Navigate(Spec.PlatformUrl(kind)));
      var cookies := surface.cookies(log);
      if cookies * Spec.SessionCookieNames(kind) != {} {
        ok := VerifySession(surface);
      } else {
        ok := false;
      }
    }

    method VerifySession(surface: Spec.Surface) returns (ok: bool)
      requires Valid()
      modifies this
      ensures Valid() && Spec.Step(ok, State()) == Spec.VerifySession(kind, old(State()), surface)
    {
      if !driver {
        return false;
      }
      Act(Spec.Navigate(Spec.VerifyUrl(kind)));
      ok := surface.present(log, Spec.LoggedInIndicator(kind));
    }

    method GetLoggedInEmail(surface: Spec.Surface) returns (email: Option<string>)
      requires Valid()
      modifies this
      ensures Valid() && Spec.Probe(email, State()) == Spec.LoggedInEmail(kind, old(State()), surface)
    {
      if !driver {
        return None;
      }
      Act(Spec.Navigate(Spec.VerifyUrl(kind)));
      if surface.present(log, Spec.ProfileEmail) {
        email := Some(surface.textOf(log, Spec.ProfileEmail));
      } else {
        email := None;
      }
    }

    method Logout(surface: Spec.Surface) returns (ok: bool)
      requires Valid()
      modifies this
      ensures Valid() && Spec.Step(ok, State()) == Spec.Logout(kind, old(State()), surface)
    {
      if !driver {
        SetupDriver();
      }
      Act(Spec.Navigate(Spec.VerifyUrl(kind)));
      if !surface.present(log, Spec.LogoutButton(kind)) {
        return false;
      }
      Act(Spec.Click(Spec.LogoutButton(kind)));
      Act(Spec.DeleteCookies);
      ok := true;
    }

    /** `set_credentials`: stores the secret under this platform's service name. */
    method SetCredentials(keyring: Keyring, email: string, password: string)
      modifies keyring
      ensures keyring.secrets == old(keyring.secrets)[(Spec.ServiceName(kind), email) := password]
    {
      keyring.SetPassword(Spec.ServiceName(kind), email, password);
    }

    /** `sign_in_with_google` with the Google flow after the button supplied by the surface. */
    method SignInWithGoogle(surface: Spec.Surface) returns (ok: bool)
      requires Valid()
      modifies this
      ensures Valid() && Spec.Step(ok, State()) == Spec.SignInWithGoogle(old(State()), surface)
    {
      SetupDriver();
      Act(Spec.Navigate(Spec.GoogleAuthUrl));
      if !surface.present(log, Spec.GoogleButton) {
        return false;
      }
      Act(Spec.Click(Spec.GoogleButton));
      ok := surface.googleAuthCompletes(log);
    }

    /** The e-mail/password part of the Zoom `_handle_login`, with its Google fallback. */
    method ZoomPasswordLogin(email: string, password: string, surface: Spec.Surface) returns (ok: bool)
      requires Valid() && driver && kind == Spec.ZoomHandler
      modifies this
      ensures Valid() && Spec.Step(ok, State()) == Spec.ZoomPasswordFlow(old(State()), email, password, surface)
    {
      ghost var s0 := State();
      if !surface.present(log, Spec.ZoomEmailInput) {
        ok := SignInWithGoogle(surface);
        return;
      }
      Act(Spec.Type(Spec.ZoomEmailInput, email));
      ghost var s1 := State();
      if !surface.present(log, Spec.ZoomPasswordInput) {
        ok := SignInWithGoogle(surface);
        assert Spec.Step(ok, State()) == Spec.SignInWithGoogle(s1, surface);
        return;
      }
      Act(Spec.Type(Spec.ZoomPasswordInput, password));
      ghost var s2 := State();
      if !surface.present(log, Spec.SubmitButton) {
        ok := SignInWithGoogle(surface);
        assert Spec.Step(ok, State()) == Spec.SignInWithGoogle(s2, surface);
        return;
      }
      Act(Spec.Click(Spec.SubmitButton));
      ok := VerifySession(surface);
    }

    /** The two-page form of the Teams `_handle_login`. */
    method TeamsPasswordLogin(email: string, password: string, surface: Spec.Surface) returns (ok: bool)
      requires Valid() && driver && kind == Spec.TeamsHandler
      modifies this
      ensures Valid() && Spec.Step(ok, State()) == Spec.TeamsPasswordFlow(old(State()), email, password, surface)
    {
      if !surface.present(log, Spec.TeamsEmailInput) {
        return false;
      }
      Act(Spec.Type(Spec.TeamsEmailInput, email));
      if !surface.present(log, Spec.SubmitButton) {
        return false;
      }
      Act(Spec.Click(Spec.SubmitButton));
      if !surface.present(log, Spec.TeamsPasswordInput) {
        return false;
      }
      Act(Spec.Type(Spec.TeamsPasswordInput, password));
      if !surface.present(log, Spec.SubmitButton) {
        return false;
      }
      Act(Spec.Click(Spec.SubmitButton));
      if surface.present(log, Spec.TeamsStaySignedIn) {
        Act(Spec.Click(Spec.TeamsStaySignedIn));
      }
      ok := VerifySession(surface);
    }

    /** `_handle_login`: fetch the stored secret, open the sign-in page, run the platform's form. */
    method HandleLogin(email: string, keyring: Keyring, surface: Spec.Surface) returns (ok: bool)
      requires Valid()
      modifies this
      ensures Valid() && Spec.Step(ok, State()) == Spec.Login(kind, old(State()), email, keyring.secrets, surface)
    {
      var password := keyring.GetPassword(Spec.ServiceName(kind), email);
      if !Truthy(password) {
        return false;
      }
      if !driver {
        SetupDriver();
      }
      Act(Spec.Navigate(Spec.SignInUrl(kind)));
      if kind == Spec.ZoomHandler {
        ok := ZoomPasswordLogin(email, password.value, surface);
      } else {
        ok := TeamsPasswordLogin(email, password.value, surface);
      }
    }

    /** `_handle_account_switch`, with the dialog's answer passed in. */
    method HandleAccountSwitch(required: string, keyring: Keyring, surface: Spec.Surface, decision: Spec.Decision)
      returns (ok: bool)
      requires Valid()
      modifies this
      ensures Valid() && Spec.Step(ok, State())
        == Spec.AccountSwitch(kind, old(State()), required, keyring.secrets, surface, decision)
    {
      match decision
      case Switch =>
        var out := Logout(surface);
        if out {
          ok := HandleLogin(required, keyring, surface);
        } else {
          ok := false;
        }
      case Keep =>
        ok := true;
      case Cancel =>
        ok := false;
    }

    method VerifyAccountMatch(required: string, keyring: Keyring, surface: Spec.Surface, decision: Spec.Decision)
      returns (ok: bool)
      requires Valid()
      modifies this
      ensures Valid() && Spec.Step(ok, State())
        == Spec.VerifyAccountMatch(kind, old(State()), required, keyring.secrets, surface, decision)
    {
      var current := GetLoggedInEmail(surface);
      if !Spec.NamesAccount(current) {
        ok := HandleLogin(required, keyring, surface);
      } else if Text.Lower(current.value) != Text.Lower(required) {
        ok := HandleAccountSwitch(required, keyring, surface, decision);
      } else {
        ok := true;
      }
    }

    method JoinViaApp(url: Option<string>, meetingId: Option<string>, password: Option<string>, host: Spec.Host)
      requires Valid()
      modifies this
      ensures Valid() && State() == Spec.JoinViaApp(kind, old(State()), url, meetingId, password, host)
    {
      var cmd := AppCommand(kind, Spec.AppPath(kind, host), url, meetingId, password);
      if cmd.Some? {
        Act(Spec.Spawn(cmd.value));
      }
    }

    /** `_join_via_browser`; `ok` is false where the source cleans up and re-raises. */
    method JoinViaBrowser(url: Option<string>, meetingId: Option<string>, password: Option<string>,
                          surface: Spec.Surface) returns (ok: bool)
      requires Valid()
      modifies this
      ensures Valid() && Spec.Step(ok, State())
        == Spec.JoinViaBrowser(kind, old(State()), url, meetingId, password, surface)
    {
      if kind == Spec.ZoomHandler {
        ZoomPrepareJoin(url, meetingId, password, surface);
        if surface.present(log, Spec.ZoomJoinSubmit) {
          Act(Spec.Click(Spec.ZoomJoinSubmit));
          ok := true;
        } else {
          Cleanup();
          ok := false;
        }
      } else {
        SetupDriver();
        if !Truthy(url) {
          Cleanup();
          return false;
        }
        Act(Spec.Navigate(url.value));
        if surface.present(log, Spec.TeamsJoinButton) {
          Act(Spec.Click(Spec.TeamsJoinButton));
          ok := true;
        } else {
          Cleanup();
          ok := false;
        }
      }
    }

    /** The Zoom browser join up to its final submit: the page, then three steps that may be skipped. */
    method ZoomPrepareJoin(url: Option<string>, meetingId: Option<string>, password: Option<string>,
                           surface: Spec.Surface)
      requires Valid()
      modifies this
      ensures Valid() && State() == Spec.ZoomPrepareJoin(old(State()), url, meetingId, password, surface)
    {
      ghost var s0 := State();
      SetupDriver();
      if Truthy(url) {
        Act(Spec.Navigate(url.value));
      } else {
        Act(Spec.Navigate(Spec.ZoomJoinByIdUrl + Spec.PyStr(meetingId)));
      }
      assert State() == Spec.Do(Spec.SetupDriver(s0), Spec.Navigate(Spec.ZoomJoinTarget(url, meetingId)));
      ZoomDesktopJoinStep(surface);
      ZoomNameStep(surface);
      ZoomPasscodeStep(password, surface);
    }

    /** Click "join from your browser" if the page offers it. */
    method ZoomDesktopJoinStep(surface: Spec.Surface)
      requires Valid()
      modifies this
      ensures Valid()
      ensures State() == if surface.present(old(log), Spec.ZoomDesktopJoinButton)
        then Spec.Do(old(State()), Spec.Click(Spec.ZoomDesktopJoinButton)) else old(State())
    {
      if surface.present(log, Spec.ZoomDesktopJoinButton) {
        Act(Spec.Click(Spec.ZoomDesktopJoinButton));
      }
    }

    /** Replace the display name if the page asks for one. */
    method ZoomNameStep(surface: Spec.Surface)
      requires Valid()
      modifies this
      ensures Valid()
      ensures State() == if surface.present(old(log), Spec.ZoomNameInput)
        then Spec.Do(Spec.Do(old(State()), Spec.Clear(Spec.ZoomNameInput)), Spec.Type(Spec.ZoomNameInput, Spec.DisplayName))
        else old(State())
    {
      if surface.present(log, Spec.ZoomNameInput) {
        Act(Spec.Clear(Spec.ZoomNameInput));
        Act(Spec.Type(Spec.ZoomNameInput, Spec.DisplayName));
      }
    }

    /** Type the passcode if there is one and the page asks for it. */
    method ZoomPasscodeStep(password: Option<string>, surface: Spec.Surface)
      requires Valid()
      modifies this
      ensures Valid()
      ensures State() == if Truthy(password) && surface.present(old(log), Spec.ZoomPasscodeInput)
        then Spec.Do(old(State()), Spec.Type(Spec.ZoomPasscodeInput, password.value)) else old(State())
    {
      if Truthy(password) && surface.present(log, Spec.ZoomPasscodeInput) {
        Act(Spec.Type(Spec.ZoomPasscodeInput, password.value));
      }
    }

    /** `join_meeting`: app detection, the optional account check, then the app or the browser. */
    method JoinMeeting(url: Option<string>, meetingId: Option<string>, password: Option<string>,
                       required: Option<string>, keyring: Keyring, surface: Spec.Surface,
                       decision: Spec.Decision, host: Spec.Host) returns (route: Spec.Route, ok: bool)
      requires Valid()
      modifies this
      ensures Valid() && Spec.Joined(route, ok, State())
        == Spec.Join(kind, old(State()), url, meetingId, password, required, keyring.secrets, surface, decision, host)
    {
      UpdateAppInstalled(host);
      ghost var s1 := State();
      AccountCheck(required, keyring, surface, decision);
      assert State() == Spec.AfterAccountCheck(kind, s1, required, keyring.secrets, surface, decision);
      route, ok := JoinByRoute(url, meetingId, password, surface, host);
    }

    /** The first line of `join_meeting`: whether this platform's app is installed on the host. */
    method UpdateAppInstalled(host: Spec.Host)
      requires Valid()
      modifies this
      ensures Valid() && State() == old(State()).(appInstalled := host.pathExists(Spec.AppPath(kind, host)))
    {
      var found := AppInstalledFor(kind, host);
      appInstalled := found;
    }

    /** The account check of `join_meeting`: run with an e-mail and an installed app; failure sets `use_browser`. */
    method AccountCheck(required: Option<string>, keyring: Keyring, surface: Spec.Surface, decision: Spec.Decision)
      requires Valid()
      modifies this
      ensures Valid() && State() == Spec.AfterAccountCheck(kind, old(State()), required, keyring.secrets, surface, decision)
    {
      if Truthy(required) && appInstalled {
        var matches := VerifyAccountMatch(required.value, keyring, surface, decision);
        if !matches {
          useBrowser := true;
        }
      }
    }

    method JoinByRoute(url: Option<string>, meetingId: Option<string>, password: Option<string>,
                       surface: Spec.Surface, host: Spec.Host) returns (route: Spec.Route, ok: bool)
      requires Valid()
      modifies this
      ensures Valid() && Spec.Joined(route, ok, State())
        == Spec.JoinByRoute(kind, old(State()), url, meetingId, password, surface, host)
    {
      if useBrowser || !appInstalled {
        route := Spec.ViaBrowser;
        ok := JoinViaBrowser(url, meetingId, password, surface);
      } else {
        route := Spec.ViaApp;
        JoinViaApp(url, meetingId, password, host);
        ok := true;
      }
    }
  }

  /** `get_handler`: a fresh handler for a supported platform name, ignoring case; `None` where it raises. */
  method GetHandler(platform: string) returns (h: Option<MeetingHandler>)
    ensures h.Some? <==> Spec.HandlerFor(platform).Some?
    ensures h.Some? ==> fresh(h.value) && h.value.kind == Spec.HandlerFor(platform).value
                        && h.value.Valid() && h.value.State() == Spec.Initial
  {
    var p := Text.Lower(platform);
    if p == "zoom" {
      var z := new MeetingHandler(Spec.ZoomHandler);
      h := Some(z);
    } else if p == "teams" {
      var t := new MeetingHandler(Spec.TeamsHandler);
      h := Some(t);
    } else {
      h := None;
    }
  }
}
