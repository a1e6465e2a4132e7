# Meeting automator: a Dafny model of its core

The meeting automator keeps a list of online meetings and joins each one a
minute before it starts. It joins through the Zoom or Microsoft Teams desktop
app when one is installed. Otherwise it drives a web browser, after checking
that the signed-in account is the one the meeting needs. This project models
three parts of it:

- **The meeting store** (`meeting_manager.py`), in `meetings.dfy`.
  - The `Meeting` record and the `MeetingManager` object: an id-to-meeting
    dictionary, the meetings file and the list of scheduled jobs.
  - Adding, removing, saving and loading meetings.
  - The fire time of the scheduler.
  - The two text classifiers used by calendar import.
- **The platform handlers** (`platform_handlers.py`), in `handler_spec.dfy` and
  `handlers.dfy`.
  - `handler_spec.dfy` states each handler operation as a pure function from
    the handler's session (browser present, `use_browser`, `app_installed`,
    and the log of what was done to the outside world) to its answer and
    next session.
  - `handlers.dfy` holds the `MeetingHandler` class, whose methods change
    those fields step by step. Each method is proved to end in exactly the
    answer and state that its function computes.
- **The meeting form** of the main window (`main.py`), in `form.dfy`.
  - Which inputs each input mode enables.
  - How a URL names a platform.
  - The validation chain of "Add Meeting" and the `Meeting` it builds.
  - The dashboard's filter of upcoming meetings.

`text.dfy` holds the Python string operations the three parts use: `strip`,
`lower`, `in`, `startswith` and `split`. `wrappers.dfy` holds `Option` and
`Result`.

Everything outside the program becomes an input value:

- Browser, pages and e-mail text: a `Surface` oracle. Given the history of
  actions, it says whether an element is found, what text it shows, which
  cookies are set and whether Google sign-in completes.
- Operating system: a `Host` value holding `sys.platform`,
  `os.path.expandvars` and `os.path.exists`.
- Keyring: a map from (service, account) to secret.
- Account-mismatch dialog: a `Decision` (Switch, Keep or Cancel).
- Clock: a `now` parameter.
- uuid: a `newId` parameter.

Timestamps are whole seconds counted from a midnight. Durations are whole
seconds.

Where the documented design and the code disagree, the model follows the
code:

- A Teams meeting given by id without a URL is accepted by the form
  (`Form.TeamsByIdAccepted`), although the Teams handler can only join by URL.
- A failed account check does not stop a join. Switching without a stored
  secret, or cancelling the dialog, sets `use_browser`, and the join goes on
  in the browser (`HandlerSpec.SwitchWithoutSecretGoesToBrowser`,
  `HandlerSpec.JoinRoute`).
- Loading stops at the first record with an unknown platform tag, because
  Python raises. It does not skip that record (`Meetings.MeetingManager.LoadMeetings`).
- Every successful add appends one more job, and removing a meeting leaves its
  jobs in place. Loading schedules nothing.

## Model

| member | source | states |
|---|---|---|
| Meetings.PlatformFromValue | meeting_manager.py:14-17 | `PlatformType(v)` gives the one member whose value is `v`, and fails for any other text |
| Meetings.DetectPlatformPriority | meeting_manager.py:93-104 | In either lowercased text, "zoom" beats "meet.google"/"google meet", which beats "teams". Each result holds exactly when its keyword occurs and no higher one does. None holds exactly when no keyword occurs; "microsoft teams" adds nothing of its own |
| Meetings.DetectPlatformSymmetricAndCaseBlind | meeting_manager.py:95-104 | Swapping description and summary, or lowercasing them first, does not change the result |
| Meetings.ExtractUrl | meeting_manager.py:106-113 | The result is the first word of `split()` that starts with "https://" or "http://". It is None exactly when no word does |
| Meetings.FireMinute | meeting_manager.py:118-119 | The fire time is a minute of the day, below 1440 |
| Meetings.FireMinuteOneMinuteEarlier | meeting_manager.py:118-119 | The job fires one minute of the day before the start, and a start at 00:00 fires at 23:59 |
| Meetings.ClockText | meeting_manager.py:119 | The `%H:%M` text has five characters with ':' in the middle |
| Meetings.ClockTextRoundTrip | meeting_manager.py:119 | Reading the `%H:%M` text back gives the minute it was made from |
| Meetings.FromRecord | meeting_manager.py:179-191 | A record decodes exactly when its platform tag is known. The meeting gets the key as its id and gives the same record back |
| Meetings.RecordRoundTrip | meeting_manager.py:154-166 | Every meeting comes back unchanged from the record `save_meetings` writes for it |
| Meetings.Snapshot | meeting_manager.py:154-166 | The file holds one record per meeting id and no other keys |
| Meetings.Decoded | meeting_manager.py:179-192 | Every loaded meeting is filed under its own id, and only keys that are both requested and present in the file appear |
| Meetings.SnapshotRoundTrip | meeting_manager.py:152-192 | Loading what was saved gives back the same dictionary: ids, platforms and every other field |
| Meetings.SaveThenLoadAsWrittenFails | meeting_manager.py:185 | As written, loading a saved non-empty store always fails, whatever text the durations were saved as |
| Meetings.MeetingManager.constructor | meeting_manager.py:33-44 | A new manager starts empty with no jobs, then loads the meetings file. A missing file leaves it empty; a loadable one gives its decoded meetings. With an unknown tag, everything it holds is a correctly decoded record of the file |
| Meetings.MeetingManager.AddMeeting | meeting_manager.py:46-53 | A known id is refused and nothing changes. Otherwise the store gains id ↦ meeting, the file is rewritten, and exactly one job (fire minute, id) is appended |
| Meetings.MeetingManager.RemoveMeeting | meeting_manager.py:55-61 | Returns true exactly when the id was present. The id is then gone, every other entry is kept, and the file is rewritten. Jobs are untouched |
| Meetings.MeetingManager.ScheduleMeeting | meeting_manager.py:115-121 | Appends exactly one job, tagged with the meeting id, at the fire minute |
| Meetings.MeetingManager.JoinMeeting | meeting_manager.py:123-130 | An unknown id gives nothing; a known id gives its meeting |
| Meetings.MeetingManager.SaveMeetings | meeting_manager.py:152-169 | The loop writes exactly the snapshot of the store |
| Meetings.MeetingManager.LoadMeetings | meeting_manager.py:171-192 | With no file, nothing changes. With a file, the load succeeds exactly when every tag is known, and then adds all decoded meetings. On failure, every entry is still the old one or a correctly decoded record |
| Text.StripSpec | main.py:391 | `strip()` keeps the part between leading and trailing whitespace. The result neither starts nor ends with whitespace, and it is empty exactly when the text is all whitespace |
| Text.ContainsIff | meeting_manager.py:98 | The left-to-right search `k in s` succeeds exactly when `k` occurs at some index of `s` |
| Text.Split | meeting_manager.py:109 | `split()` gives non-empty, whitespace-free words that together hold every non-whitespace character, in order |
| Text.SplitJoinSpaced | meeting_manager.py:109 | Splitting non-empty, whitespace-free words written with single spaces gives back exactly those words, so word boundaries fall exactly at whitespace |
| HandlerSpec.AppPathSelection | platform_handlers.py:50-57 | "win…" hosts get the Windows entry with its variables expanded; "darwin…" hosts get the Mac entry; all others get the Linux entry. Expansion only happens on Windows |
| HandlerSpec.SetupDriver | platform_handlers.py:72-81 | Afterwards a browser is running, and the flags and the log are kept |
| HandlerSpec.Cleanup | platform_handlers.py:83-88 | Afterwards no browser is running |
| HandlerSpec.DriverLifecycle | platform_handlers.py:72-88 | A browser starts only when none runs, and quits only when one runs. Both operations are idempotent |
| HandlerSpec.VerifySession | platform_handlers.py:109-117 | Succeeds exactly when a browser runs and the profile page, opened then, shows the logged-in indicator. A success ends on that page. It only adds to the log and never starts or stops the browser |
| HandlerSpec.CheckExistingSession | platform_handlers.py:90-107 | Succeeds exactly when, on the platform page, a session cookie is set and the profile page opened after it shows the indicator. A browser is running afterwards |
| HandlerSpec.LoggedInEmail | platform_handlers.py:322-331 | Without a browser, nothing is read and nothing logged. With one, it opens the profile page, and gives the e-mail element's text exactly when that element is present, None otherwise |
| HandlerSpec.Logout | platform_handlers.py:180-203 | Succeeds exactly when the logout button is on the profile page opened after the browser is up (started if needed). A success ends by deleting the cookies |
| HandlerSpec.SignInWithGoogle | platform_handlers.py:246-262 | Succeeds exactly when the Google button is found and the Google flow after clicking it completes |
| HandlerSpec.ZoomPasswordFlow | platform_handlers.py:288-316 | Only adds to the log and leaves a browser running. Its outcomes are stated by `ZoomFlowFallsBackToGoogle` and `ZoomFormSubmitted` |
| HandlerSpec.ZoomFlowVerified | platform_handlers.py:288-316 | A successful Zoom password flow ends with a verified session, or else with the Google button clicked |
| HandlerSpec.TeamsPasswordFlow | platform_handlers.py:436-476 | Only adds to the log and leaves a browser running. Its outcomes are stated by `TeamsFormRequired` and `TeamsFormSubmitted` |
| HandlerSpec.Login | platform_handlers.py:264-320 | Only adds to the log. What it runs is stated by `LoginWithoutSecret` and `LoginRunsPlatformFlow` |
| HandlerSpec.SignInWithGoogleAsWrittenNeverSucceeds | platform_handlers.py:246-262 | As written, the Google sign-in always answers false, taking the same steps as the fixed version |
| HandlerSpec.StoredSecretAfterSet | platform_handlers.py:242-244 | After `set_credentials`, login for that e-mail finds the new secret if it is non-empty. No other (service, e-mail) pair changes |
| HandlerSpec.LoginWithoutSecret | platform_handlers.py:264-279 | With no stored secret (missing or empty), login fails and the session is untouched: no navigation |
| HandlerSpec.LoginOpensSignInPage | platform_handlers.py:281-285 | With a secret, login first starts a browser if needed, then opens the platform's sign-in page |
| HandlerSpec.LoginSuccessIsVerified | platform_handlers.py:264-320 | A successful login ends with the indicator seen on a freshly opened profile page. For Zoom it may instead come from the Google fallback |
| HandlerSpec.ZoomLoginFallsBackToGoogle | platform_handlers.py:287-316 | If the Zoom sign-in page has no e-mail field, the login is exactly the Google sign-in |
| HandlerSpec.LoginRunsPlatformFlow | platform_handlers.py:264-320 | With a stored secret, the login is the platform's own form, run with that secret on the sign-in page opened after the browser is up |
| HandlerSpec.ZoomFlowFallsBackToGoogle | platform_handlers.py:288-316 | A missing e-mail field, password field or submit button each makes the login exactly the Google sign-in, from the state just before it |
| HandlerSpec.ZoomFormSubmitted | platform_handlers.py:288-311 | With the whole Zoom form present, the login types the e-mail and the password, submits, and opens the profile page. It succeeds exactly when that page shows the indicator |
| HandlerSpec.TeamsFormRequired | platform_handlers.py:436-462 | The Teams login succeeds only if the e-mail field, the next button, the password field and the sign-in button were all present |
| HandlerSpec.TeamsFormSubmitted | platform_handlers.py:436-476 | With every required element present, both pages are filled in and submitted, and "stay signed in" is accepted if shown. The login succeeds exactly when the profile page then shows the indicator |
| HandlerSpec.TeamsFlowVerified | platform_handlers.py:436-476 | A successful Teams password flow ends with a verified session |
| HandlerSpec.AccountSwitch | platform_handlers.py:138-178 | Reconciling accounts only adds to the log |
| HandlerSpec.AccountSwitchOutcomes | platform_handlers.py:164-174 | Keep answers true and Cancel false, both without acting. Switch logs out first: when logout succeeds, the answer and state are exactly those of the login that follows, in both directions; when logout fails, the switch fails with the logout's state |
| HandlerSpec.VerifyAccountMatch | platform_handlers.py:119-136 | The account check only adds to the log |
| HandlerSpec.VerifyAccountMatchCases | platform_handlers.py:119-132 | With no browser, or no account shown, it is the login. The same account (ignoring case) is accepted after one probe. A different account is the dialog's outcome |
| HandlerSpec.DecisionOnlyOnMismatch | platform_handlers.py:122-132 | Unless another account is signed in, the dialog's answer makes no difference |
| HandlerSpec.AppCommandRoundTrip | platform_handlers.py:333-345 | An app is launched exactly when there is a URL, or a meeting id for Zoom. The argv starts with the app path, and the app reads back the URL, or the id with the password if one is given |
| HandlerSpec.JoinViaApp | platform_handlers.py:333-345 | Launching the app only adds to the log and leaves the browser as it was |
| HandlerSpec.ZoomPrepareJoin | platform_handlers.py:349-384 | The Zoom join steps before the final submit only add to the log and leave a browser running |
| HandlerSpec.JoinViaBrowser | platform_handlers.py:347-395 | A browser join only adds to the log. `ZoomBrowserJoinSteps`, `TeamsBrowserJoinNeedsUrl` and `TeamsBrowserJoinWithUrl` state its outcome per platform |
| HandlerSpec.BrowserJoinTeardown | platform_handlers.py:392-395 | After a browser join, the browser is still open exactly when the join succeeded |
| HandlerSpec.ZoomBrowserJoinSteps | platform_handlers.py:347-395 | The URL, or else "https://zoom.us/j/"+id, is opened right after the browser. Only the final submit button decides the outcome. A passcode is typed only if a password is given, and it is that password |
| HandlerSpec.TeamsBrowserJoinNeedsUrl | platform_handlers.py:499-518 | Without a URL, the Teams browser join fails with no navigation and leaves no browser |
| HandlerSpec.TeamsBrowserJoinWithUrl | platform_handlers.py:499-518 | With a URL, the Teams browser join opens it right after the browser is up. It succeeds exactly when the page shows the join button, which is then clicked last |
| HandlerSpec.AfterAccountCheck | platform_handlers.py:219-222 | The account check keeps `app_installed`, only adds to the log, and never clears `use_browser` |
| HandlerSpec.Join | platform_handlers.py:215-227 | A join only adds to the log |
| HandlerSpec.JoinByRoute | platform_handlers.py:224-227 | Routing only adds to the log and keeps both flags |
| HandlerSpec.JoinRoute | platform_handlers.py:215-227 | The browser is used exactly when `use_browser` was set, the app is missing, or the account check (run only with an e-mail and the app) failed. `use_browser` ends set exactly when it was set or the account check failed |
| HandlerSpec.JoinTeardown | platform_handlers.py:215-227 | A browser join leaves the browser open exactly on success. The app path always succeeds and leaves the browser as the account check left it |
| HandlerSpec.JoinWithoutEmailIgnoresDecision | platform_handlers.py:219-222 | Without a required e-mail, the dialog's answer changes nothing |
| HandlerSpec.ZoomJoinByIdInBrowser | platform_handlers.py:347-356 | With no Zoom app, a join by id "123456789" goes to the browser and opens the join-by-id page. It succeeds if the page shows the submit button |
| HandlerSpec.SwitchWithoutSecretGoesToBrowser | platform_handlers.py:164-168 | Answering Switch with no stored secret fails right after the logout, and the join goes to the browser |
| HandlerSpec.HandlerFor | platform_handlers.py:520-531 | Gives the Zoom handler exactly for "zoom" and the Teams handler exactly for "teams" (both ignoring case), and nothing otherwise |
| HandlerSpec.HandlerForNames | platform_handlers.py:522-527 | Each handler is found under its platform name. Google Meet names no handler |
| Handlers.Keyring.SetPassword | platform_handlers.py:244 | Stores the secret under (service, account) |
| Handlers.Keyring.GetPassword | platform_handlers.py:268 | Gives the stored secret exactly when one is stored for the pair |
| Handlers.DetectInstalledApps | platform_handlers.py:31-48 | The loop gives a map with exactly the keys "zoom" and "teams"; each value is whether that app's path exists on the host |
| Handlers.AppInstalledFor | platform_handlers.py:217 | `detect_installed_apps().get(platform_name, False)` is whether this platform's app path exists |
| Handlers.AppCommand | platform_handlers.py:335-345 | The argv built step by step with `extend` is the handler's app command line |
| Handlers.MeetingHandler.constructor | platform_handlers.py:60-70 | A new handler has no browser, no flags set and an empty log |
| Handlers.MeetingHandler.SetupDriver | platform_handlers.py:72-81 | Ends in the state `HandlerSpec.SetupDriver` computes |
| Handlers.MeetingHandler.Cleanup | platform_handlers.py:83-88 | Ends in the state `HandlerSpec.Cleanup` computes |
| Handlers.MeetingHandler.CheckExistingSession | platform_handlers.py:90-107 | Answer and state equal `HandlerSpec.CheckExistingSession`: success exactly with a session cookie and a verified profile page |
| Handlers.MeetingHandler.VerifySession | platform_handlers.py:109-117 | Answer and state equal `HandlerSpec.VerifySession`: success exactly when a browser runs and the profile page shows the indicator |
| Handlers.MeetingHandler.GetLoggedInEmail | platform_handlers.py:322-331 | Answer and state equal `HandlerSpec.LoggedInEmail`: the profile e-mail text exactly when the element is present |
| Handlers.MeetingHandler.Logout | platform_handlers.py:180-203 | Answer and state equal `HandlerSpec.Logout`: success exactly when the logout button is present |
| Handlers.MeetingHandler.SetCredentials | platform_handlers.py:242-244 | Stores the password under the handler's own service name and the e-mail |
| Handlers.MeetingHandler.SignInWithGoogle | platform_handlers.py:246-262 | Answer and state equal `HandlerSpec.SignInWithGoogle` |
| Handlers.MeetingHandler.ZoomPasswordLogin | platform_handlers.py:287-316 | Equals `HandlerSpec.ZoomPasswordFlow`: the Google fallback on any missing element, otherwise the verification after submitting |
| Handlers.MeetingHandler.TeamsPasswordLogin | platform_handlers.py:436-476 | Equals `HandlerSpec.TeamsPasswordFlow`: failure on a missing required element, otherwise the verification after both pages |
| Handlers.MeetingHandler.HandleLogin | platform_handlers.py:264-320 | Answer and state equal `HandlerSpec.Login` over the keyring's secrets: no action without a secret, otherwise the platform's form on its sign-in page |
| Handlers.MeetingHandler.HandleAccountSwitch | platform_handlers.py:138-178 | Answer and state equal `HandlerSpec.AccountSwitch` for the dialog's answer |
| Handlers.MeetingHandler.VerifyAccountMatch | platform_handlers.py:119-136 | Answer and state equal `HandlerSpec.VerifyAccountMatch` |
| Handlers.MeetingHandler.JoinViaApp | platform_handlers.py:333-345 | Ends in the state `HandlerSpec.JoinViaApp` computes: at most one launch, of the app command |
| Handlers.MeetingHandler.JoinViaBrowser | platform_handlers.py:347-395 | Answer and state equal `HandlerSpec.JoinViaBrowser` for the handler's platform |
| Handlers.MeetingHandler.ZoomPrepareJoin | platform_handlers.py:349-384 | The Zoom browser steps before the final submit equal `HandlerSpec.ZoomPrepareJoin` |
| Handlers.MeetingHandler.ZoomDesktopJoinStep | platform_handlers.py:357-364 | Clicks the browser-join button exactly when the page shows it; otherwise nothing changes |
| Handlers.MeetingHandler.ZoomNameStep | platform_handlers.py:366-374 | When the name input is present, clears it and types the display name; otherwise nothing changes |
| Handlers.MeetingHandler.ZoomPasscodeStep | platform_handlers.py:376-384 | Types the password into the passcode input exactly when a password is given and the input is present |
| Handlers.MeetingHandler.JoinMeeting | platform_handlers.py:215-227 | Route, answer and state equal `HandlerSpec.Join` |
| Handlers.MeetingHandler.UpdateAppInstalled | platform_handlers.py:217 | Sets only `app_installed`, to whether the app path exists |
| Handlers.MeetingHandler.AccountCheck | platform_handlers.py:219-222 | Equals `HandlerSpec.AfterAccountCheck`: the account check runs only with an e-mail and the app, and a failure sets `use_browser` |
| Handlers.MeetingHandler.JoinByRoute | platform_handlers.py:224-227 | Route, answer and state equal `HandlerSpec.JoinByRoute` |
| Handlers.GetHandler | platform_handlers.py:520-531 | Gives a new handler exactly when `HandlerFor` names one, and of that kind |
| Form.PlatformLabelOfUrlPriority | main.py:290-305 | An empty URL names nothing. Otherwise, on the lowercased URL, "zoom.us" beats "meet.google", which beats "teams.microsoft". Every label is a combo entry |
| Form.UrlLabelAgreesWithDetectPlatform | main.py:290-305 | A URL the form reads as Zoom is Zoom to the calendar detector too. A Google Meet URL is Google Meet there as well, unless it mentions "zoom" |
| Form.PlatformFromLabelAccepts | main.py:411-424 | Every combo label and every enum value names its platform. A text is accepted exactly when it is a label, or lowercases (spaces to underscores) to an enum value |
| Form.BlankTitleRejectedFirst | main.py:391-392 | A blank title is rejected before anything else |
| Form.BuildMeetingAccepts | main.py:389-435 | The form is accepted exactly when the title is non-blank and the mode's requirements hold. URL mode needs a non-blank URL that names a platform; id mode a non-blank id and an accepted platform text; calendar mode an accepted platform text. A blank URL, undetectable URL, blank id, empty platform in id mode, or unknown platform text each gives its own error |
| Form.AcceptsByUrl | main.py:394-407 | URL mode: a blank URL gives "URL required", and an undetectable one "platform not detected" |
| Form.AcceptsById | main.py:397-424 | Id mode: a blank id gives "meeting id required", an empty combo "platform required", and an unaccepted one "unknown platform". Acceptance needs an accepted platform text |
| Form.AcceptsFromCalendar | main.py:403-424 | Calendar mode is accepted exactly when the title is non-blank and the combo text is accepted; otherwise "unknown platform" names that text |
| Form.BuildMeetingFields | main.py:426-435 | The meeting carries: the given id; the stripped title; the start; minutes as seconds; the stripped URL only in URL mode; the stripped id and the unstripped password only in id mode. Its platform is the one named |
| Form.EnabledFieldsAreCarried | main.py:432-434 | The optional links the meeting carries are exactly the inputs its mode enables |
| Form.TeamsByIdAccepted | main.py:397-435 | A Teams meeting by id with no URL is accepted |
| Form.UpcomingMeetings | main.py:275-288 | The rows are exactly the stored meetings starting at or after `now`, each listed once |
| Form.MainWindow.constructor | main.py:109-169 | The form starts in URL mode with "Zoom" selected, 60 minutes, empty inputs and only the URL input enabled |
| Form.MainWindow.SetField | main.py:323-340 | One pass of the loop: the input is enabled, or disabled and cleared. Nothing else changes |
| Form.MainWindow.ToggleInputFields | main.py:307-343 | Afterwards the inputs are enabled exactly as the mode says, every disabled input is empty, enabled inputs keep their text, and import is enabled exactly in calendar mode |
| Form.MainWindow.DetectPlatformFromUrl | main.py:290-305 | Returns the URL's label and moves the combo to it; sets nothing else |
| Form.ComboAfterValidation | main.py:403-406 | The combo text changes during validation only in URL mode, and then to the label detected in the URL |
| Form.MainWindow.ClearForm | main.py:464-471 | Clears the four text inputs, sets the start to `now` and the duration to 60; nothing else changes |
| Form.MainWindow.ValidateForm | main.py:389-435 | Gives the first error, or the built meeting, exactly as `BuildMeeting` of the inputs before the call. Only the combo text changes: in URL mode, past the title and URL checks, to the detected label. The enabled flags are kept |
| Form.MainWindow.AddMeetingManually | main.py:387-462 | A validation error adds nothing. A valid meeting with a fresh id is added (store, file, one job), and the form is cleared as `clear_form` does. After an error or a known id ("already exists"), the store, the file, the jobs and every input except the validated combo text are unchanged. The enabled flags are always kept |

## Left out

- Qt widgets, styling, label visibility, message boxes, the tray and the settings tab are not modelled; only the values the decisions read are kept.
- Selenium's waits and timeouts, `time.sleep`, and what pages really show are not modelled; a found/not-found oracle over the action history stands for them.
- `subprocess.Popen`, `os.path.exists` and `os.path.expandvars` touch the operating system. They become a `Spawn` action and fields of the `Host` value.
- `keyring` is an external store, modelled as a map; its persistence is out of scope.
- The scheduler thread, `schedule.run_pending` and the daily repetition belong to the `schedule` library and to threads. Jobs are kept as (minute of day, id) pairs.
- `import_ics` is not modelled: it parses calendar files, and its ids come from Python's salted `hash`. Only its two classifiers are.
- JSON file contents and the `isoformat`/`str(timedelta)` texts are not modelled. Start times and durations are integers in the record, so the corrected load has no string step.
- `uuid.uuid4()` is a random source, so the new meeting's id is a parameter.
- Text.Lower: lowercases ASCII letters only, where Python's `lower()` covers all of Unicode.
- The `except` branch of `verify_account_match` is not modelled: every method it calls catches its own exceptions, so it cannot be reached.
- Meetings.MeetingManager.constructor: when the meetings file holds an unknown platform tag, Python's `__init__` raises and no manager exists. The model instead returns a manager holding the records decoded before the bad one, and states only that each of them is a correct decoding.
- Python's dictionary order is not modelled. The dashboard filter states which meetings are listed, not their order.
- The dialog's text (current and required e-mail) is display only.
- `add_meeting_manually` catches exceptions other than `ValueError` only to show them. The model has no such exceptions.
- The spinner's range (1–480 minutes) and the date picker's minimum are widget limits. They are not modelled, so the form accepts any integer.
- `main.py` imports names that `platform_handlers.py` does not define. That import failure is not modelled.
- A browser join that fails re-raises in Python. The model reports it as `ok == false` after the cleanup.

## Findings

| source | as written | input that shows it | evidently intended | confidence | as-written member | corrected member |
|---|---|---|---|---|---|---|
| platform_handlers.py:258 | `sign_in_with_google` calls `self._handle_google_auth()`, which no class defines. The AttributeError is caught and the method returns false | any surface on which the Google button is found and Google sign-in completes | the Zoom login's Google fallback succeeds when the Google flow completes | not executed | HandlerSpec.SignInWithGoogleAsWrittenNeverSucceeds | HandlerSpec.SignInWithGoogle |
| meeting_manager.py:185 | `load_meetings` calls `datetime.timedelta.fromisoformat`, which the standard library does not provide, so loading any record raises | a store holding one meeting, saved and then loaded | loading gives back the saved meetings, duration included | not executed | Meetings.SaveThenLoadAsWrittenFails | Meetings.SnapshotRoundTrip |
