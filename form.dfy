/**
 * The decision logic of the meeting form in main.py: which inputs each
 * input mode enables, how a URL names a platform, the validation chain of
 * "Add Meeting" and the Meeting it builds, and the dashboard's filter of
 * upcoming meetings. Widgets are reduced to the text or flag they hold.
 */
module Form {
  import opened Wrappers
  import opened Text
  import opened Meetings

  /** The three radio buttons: join via URL, join via meeting id, import from calendar. */
  datatype InputMode = ByUrl | ById | FromCalendar

  /** The three inputs whose state depends on the mode. */
  datatype Field = UrlField | MeetingIdField | PasswordField

  /** The order `toggle_input_fields` visits them in. */
  const Fields := [UrlField, MeetingIdField, PasswordField]

  /** The entries of the platform combo box. */
  const ComboItems := ["Zoom", "Google Meet", "Microsoft Teams"]

  /** The rule of `toggle_input_fields`: URL mode opens the URL, id mode the id and password, calendar mode none. */
  predicate EnabledIn(mode: InputMode, f: Field) {
    match mode
    case ByUrl => f == UrlField
    case ById => f == MeetingIdField || f == PasswordField
    case FromCalendar => false
  }

  // ---------------------------------------------------------------- platform names

  /** `detect_platform_from_url`: the combo label a URL names, by ordered substring search. */
  function PlatformLabelOfUrl(url: string): Option<string> {
    if url == [] then None
    else
      var u := Lower(url);
      if Contains(u, "zoom.us") then Some("Zoom")
      else if Contains(u, "meet.google") then Some("Google Meet")
      else if Contains(u, "teams.microsoft") then Some("Microsoft Teams")
      else None
  }

  /**
   * An empty URL names nothing; otherwise "zoom.us" wins over
   * "meet.google", which wins over "teams.microsoft", ignoring case;
   * a URL with none of them names nothing; every label is a combo entry.
   */
  lemma PlatformLabelOfUrlPriority(url: string)
    ensures var r := PlatformLabelOfUrl(url);
      var u := Lower(url);
      && (url == [] ==> r.None?)
      && (r == Some("Zoom") <==> url != [] && Contains(u, "zoom.us"))
      && (r == Some("Google Meet") <==> url != [] && !Contains(u, "zoom.us") && Contains(u, "meet.google"))
      && (r == Some("Microsoft Teams") <==>
            url != [] && !Contains(u, "zoom.us") && !Contains(u, "meet.google") && Contains(u, "teams.microsoft"))
      && (r.Some? ==> r.value in ComboItems)
  {
  }

  /** Python's `"".__contains__`: nothing non-empty occurs in the empty string. */
  lemma NothingInEmpty(k: string)
    requires k != []
    ensures !Contains(Lower([]), k)
  {
    assert Lower([]) == [];
  }

  /**
   * The URL detector of the form and the keyword detector of calendar
   * import agree: a URL the form reads as Zoom is Zoom to the calendar
   * detector too, and a Google Meet URL is Google Meet there unless it
   * also mentions "zoom".
   */
  lemma UrlLabelAgreesWithDetectPlatform(url: string)
    ensures PlatformLabelOfUrl(url) == Some("Zoom") ==> DetectPlatform(url, "") == Some(Zoom)
    ensures PlatformLabelOfUrl(url) == Some("Google Meet") && !Contains(Lower(url), "zoom") ==>
      DetectPlatform(url, "") == Some(GoogleMeet)
  {
    DetectPlatformPriority(url, "");
    NothingInEmpty("zoom");
    NothingInEmpty("meet.google");
    NothingInEmpty("google meet");
    var u := Lower(url);
    if PlatformLabelOfUrl(url) == Some("Zoom") {
      ContainsAt("zoom.us", "zoom", 0);
      ContainsTransitive(u, "zoom.us", "zoom");
    }
  }

  /** The combo label of each platform. */
  function Label(p: PlatformType): string {
    match p
    case Zoom => "Zoom"
    case GoogleMeet => "Google Meet"
    case Teams => "Microsoft Teams"
  }

  /** `platform_map`, then `PlatformType(text.lower().replace(" ", "_"))` for texts it lacks. */
  function PlatformFromLabel(text: string): Option<PlatformType> {
    if text == "Zoom" then Some(Zoom)
    else if text == "Google Meet" then Some(GoogleMeet)
    else if text == "Microsoft Teams" then Some(Teams)
    else PlatformFromValue(ReplaceChar(Lower(text), ' ', '_'))
  }

  /**
   * Every combo label and every enum value names its platform, and a text
   * is accepted exactly when it is a label or lowercases, with spaces as
   * underscores, to an enum value.
   */
  lemma PlatformFromLabelAccepts(p: PlatformType, text: string)
    ensures PlatformFromLabel(Label(p)) == Some(p)
    ensures PlatformFromLabel(PlatformValue(p)) == Some(p)
    ensures PlatformFromLabel(text).Some? <==>
      text in ComboItems || PlatformFromValue(ReplaceChar(Lower(text), ' ', '_')).Some?
    ensures PlatformFromLabel("teams") == Some(Teams) && PlatformFromLabel("Google meet") == Some(GoogleMeet)
    ensures PlatformFromLabel("Teams") == Some(Teams) && PlatformFromLabel("Google").None?
    ensures PlatformFromLabel([]).None?
  {
    LabelsAccepted(p);
    ExamplesAccepted();
  }

  lemma LabelsAccepted(p: PlatformType)
    ensures PlatformFromLabel(Label(p)) == Some(p)
    ensures PlatformFromLabel(PlatformValue(p)) == Some(p)
  {
    match p
    case Zoom =>
      assert ReplaceChar(Lower("zoom"), ' ', '_') == "zoom";
    case GoogleMeet =>
      assert ReplaceChar(Lower("google_meet"), ' ', '_') == "google_meet";
    case Teams =>
      assert ReplaceChar(Lower("teams"), ' ', '_') == "teams";
  }

  lemma ExamplesAccepted()
    ensures PlatformFromLabel("teams") == Some(Teams) && PlatformFromLabel("Google meet") == Some(GoogleMeet)
    ensures PlatformFromLabel("Teams") == Some(Teams) && PlatformFromLabel("Google").None?
    ensures PlatformFromLabel([]).None?
  {
    assert ReplaceChar(Lower("teams"), ' ', '_') == "teams";
    assert ReplaceChar(Lower("Teams"), ' ', '_') == "teams";
    assert ReplaceChar(Lower("Google meet"), ' ', '_') == "google_meet";
    assert ReplaceChar(Lower("Google"), ' ', '_') == "google";
    assert ReplaceChar(Lower([]), ' ', '_') == [];
  }

  // ---------------------------------------------------------------- add meeting manually

  /** What the form holds when "Add Meeting" is pressed. */
  datatype FormInput = FormInput(
    mode: InputMode,
    title: string,
    url: string,
    meetingId: string,
    password: string,
    platformText: string,
    startTime: int,
    minutes: int)

  /** The ValueErrors of `add_meeting_manually`, in the order it raises them. */
  datatype FormError =
    | TitleRequired
    | UrlRequired
    | MeetingIdRequired
    | PlatformRequired
    | PlatformNotDetected
    | UnknownPlatform(text: string)

  /** Python's `not s.strip()`. */
  predicate Blank(s: string) {
    Strip(s) == []
  }

  /** The validation chain of `add_meeting_manually` and the Meeting it builds, under id `id`. */
  function BuildMeeting(f: FormInput, id: string): Result<Meeting, FormError> {
    if Blank(f.title) then Err(TitleRequired)
    else if f.mode == ByUrl && Blank(f.url) then Err(UrlRequired)
    else if f.mode == ById && Blank(f.meetingId) then Err(MeetingIdRequired)
    else if f.mode == ById && f.platformText == [] then Err(PlatformRequired)
    else
      var name := if f.mode == ByUrl then PlatformLabelOfUrl(f.url) else Some(f.platformText);
      if name.None? then Err(PlatformNotDetected)
      else match PlatformFromLabel(name.value)
        case None => Err(UnknownPlatform(name.value))
        case Some(p) =>
          Ok(Meeting(
            id, Strip(f.title), p, f.startTime, f.minutes * 60,
            if f.mode == ByUrl then Some(Strip(f.url)) else None,
            if f.mode == ById then Some(Strip(f.meetingId)) else None,
            if f.mode == ById then Some(f.password) else None,
            false, None))
  }

  /**
   * The combo box text once validation has run: in URL mode, past the title
   * and URL checks, the URL detector moves it to the label it finds.
   */
  function ComboAfterValidation(f: FormInput): (text: string)
    ensures text != f.platformText ==> f.mode == ByUrl && Some(text) == PlatformLabelOfUrl(f.url)
  {
    if f.mode == ByUrl && !Blank(f.title) && !Blank(f.url) && PlatformLabelOfUrl(f.url).Some?
    then PlatformLabelOfUrl(f.url).value
    else f.platformText
  }

  /** A blank title is rejected before anything else is looked at. */
  lemma BlankTitleRejectedFirst(f: FormInput, id: string)
    requires Blank(f.title)
    ensures BuildMeeting(f, id) == Err(TitleRequired)
  {
  }

  /**
   * The form is accepted exactly when the title is not blank and the mode's
   * own requirements hold: a non-blank URL that names a platform; a
   * non-blank id with a platform text the map or the enum accepts; for
   * calendar mode a platform text that is accepted. Each missing or
   * unusable input gives its own error.
   */
  lemma BuildMeetingAccepts(f: FormInput, id: string)
    ensures BuildMeeting(f, id).Ok? <==>
      && !Blank(f.title)
      && (f.mode == ByUrl ==> !Blank(f.url) && PlatformLabelOfUrl(f.url).Some?)
      && (f.mode == ById ==> !Blank(f.meetingId) && PlatformFromLabel(f.platformText).Some?)
      && (f.mode == FromCalendar ==> PlatformFromLabel(f.platformText).Some?)
    ensures f.mode == ByUrl && !Blank(f.title) && Blank(f.url) ==> BuildMeeting(f, id) == Err(UrlRequired)
    ensures f.mode == ById && !Blank(f.title) && Blank(f.meetingId) ==> BuildMeeting(f, id) == Err(MeetingIdRequired)
    ensures f.mode == ByUrl && !Blank(f.title) && !Blank(f.url) && PlatformLabelOfUrl(f.url).None? ==>
      BuildMeeting(f, id) == Err(PlatformNotDetected)
    ensures f.mode == ById && !Blank(f.title) && !Blank(f.meetingId) && f.platformText == [] ==>
      BuildMeeting(f, id) == Err(PlatformRequired)
    ensures f.mode != ByUrl && !Blank(f.title) && (f.mode == ById ==> !Blank(f.meetingId) && f.platformText != [])
            && PlatformFromLabel(f.platformText).None? ==>
      BuildMeeting(f, id) == Err(UnknownPlatform(f.platformText))
  {
    match f.mode
    case ByUrl => AcceptsByUrl(f, id);
    case ById => AcceptsById(f, id);
    case FromCalendar => AcceptsFromCalendar(f, id);
  }

  lemma AcceptsByUrl(f: FormInput, id: string)
    requires f.mode == ByUrl
    ensures BuildMeeting(f, id).Ok? <==> !Blank(f.title) && !Blank(f.url) && PlatformLabelOfUrl(f.url).Some?
    ensures !Blank(f.title) && Blank(f.url) ==> BuildMeeting(f, id) == Err(UrlRequired)
    ensures !Blank(f.title) && !Blank(f.url) && PlatformLabelOfUrl(f.url).None? ==>
      BuildMeeting(f, id) == Err(PlatformNotDetected)
  {
    if PlatformLabelOfUrl(f.url).Some? {
      PlatformLabelOfUrlPriority(f.url);
      var l := PlatformLabelOfUrl(f.url).value;
      assert l == "Zoom" || l == "Google Meet" || l == "Microsoft Teams";
      assert PlatformFromLabel(l).Some?;
    }
  }

  lemma AcceptsById(f: FormInput, id: string)
    requires f.mode == ById
    ensures BuildMeeting(f, id).Ok? <==> !Blank(f.title) && !Blank(f.meetingId) && PlatformFromLabel(f.platformText).Some?
    ensures !Blank(f.title) && Blank(f.meetingId) ==> BuildMeeting(f, id) == Err(MeetingIdRequired)
    ensures !Blank(f.title) && !Blank(f.meetingId) && f.platformText == [] ==> BuildMeeting(f, id) == Err(PlatformRequired)
    ensures !Blank(f.title) && !Blank(f.meetingId) && f.platformText != [] && PlatformFromLabel(f.platformText).None? ==>
      BuildMeeting(f, id) == Err(UnknownPlatform(f.platformText))
  {
    if f.platformText == [] {
      assert ReplaceChar(Lower(f.platformText), ' ', '_') == [];
      assert PlatformFromLabel(f.platformText).None?;
    }
  }

  lemma AcceptsFromCalendar(f: FormInput, id: string)
    requires f.mode == FromCalendar
    ensures BuildMeeting(f, id).Ok? <==> !Blank(f.title) && PlatformFromLabel(f.platformText).Some?
    ensures !Blank(f.title) && PlatformFromLabel(f.platformText).None? ==>
      BuildMeeting(f, id) == Err(UnknownPlatform(f.platformText))
  {
  }

  /**
   * The Meeting built carries the id given, the stripped title, the start
   * and `minutes` as seconds; its url exactly in URL mode and its meeting id
   * and password exactly in id mode, the url and id stripped and the
   * password as typed; its platform is the one the URL or the combo names.
   */
  lemma BuildMeetingFields(f: FormInput, id: string)
    requires BuildMeeting(f, id).Ok?
    ensures var m := BuildMeeting(f, id).value;
      && m.id == id && m.title == Strip(f.title) && m.title != []
      && m.startTime == f.startTime && m.duration == f.minutes * 60
      && m.url == (if f.mode == ByUrl then Some(Strip(f.url)) else None)
      && m.meetingId == (if f.mode == ById then Some(Strip(f.meetingId)) else None)
      && m.password == (if f.mode == ById then Some(f.password) else None)
      && (f.mode == ByUrl ==> Some(m.platform) == PlatformFromLabel(PlatformLabelOfUrl(f.url).value))
      && (f.mode != ByUrl ==> Some(m.platform) == PlatformFromLabel(f.platformText))
      && !m.recurring && m.recurrencePattern.None?
  {
  }

  /** The inputs a mode enables are exactly the optional links the Meeting built in that mode carries. */
  lemma EnabledFieldsAreCarried(f: FormInput, id: string)
    requires BuildMeeting(f, id).Ok?
    ensures var m := BuildMeeting(f, id).value;
      && (m.url.Some? <==> EnabledIn(f.mode, UrlField))
      && (m.meetingId.Some? <==> EnabledIn(f.mode, MeetingIdField))
      && (m.password.Some? <==> EnabledIn(f.mode, PasswordField))
  {
    BuildMeetingFields(f, id);
  }

  /**
   * A Teams meeting given by id and without a URL is accepted, although
   * the Teams handler can join only by URL.
   */
  lemma TeamsByIdAccepted(f: FormInput, id: string)
    requires f.mode == ById && !Blank(f.title) && !Blank(f.meetingId) && f.platformText == "Microsoft Teams"
    ensures BuildMeeting(f, id).Ok?
    ensures BuildMeeting(f, id).value.platform == Teams && BuildMeeting(f, id).value.url.None?
  {
    assert PlatformFromLabel(f.platformText) == Some(Teams);
  }

  // ---------------------------------------------------------------- the window

  datatype AddOutcome = Added | AlreadyExists | Invalid(error: FormError)

  /** The dashboard's rows: the stored meetings that start at or after `now`. */
  method UpcomingMeetings(manager: MeetingManager, now: int) returns (rows: seq<Meeting>)
    requires manager.Valid()
    ensures forall m :: m in rows <==> m in manager.meetings.Values && m.startTime >= now
    ensures forall i, j :: 0 <= i < j < |rows| ==> rows[i].id != rows[j].id
  {
    var todo := manager.meetings.Keys;
    rows := [];
    while todo != {}
      invariant todo <= manager.meetings.Keys
      invariant forall i :: 0 <= i < |rows| ==>
        (rows[i].id in manager.meetings && rows[i].id !in todo
         && manager.meetings[rows[i].id] == rows[i] && rows[i].startTime >= now)
      invariant forall k :: k in manager.meetings && k !in todo && manager.meetings[k].startTime >= now ==>
        manager.meetings[k] in rows
      invariant forall i, j :: 0 <= i < j < |rows| ==> rows[i].id != rows[j].id
      decreases |todo|
    {
      var k :| k in todo;
      var m := manager.meetings[k];
      assert m.id == k;
      if m.startTime >= now {
        rows := rows + [m];
      }
      todo := todo - {k};
    }
    forall m | m in manager.meetings.Values && m.startTime >= now
      ensures m in rows
    {
      var k :| k in manager.meetings && manager.meetings[k] == m;
    }
  }

  /** A window whose three inputs each follow mode `m` is consistent with `m`. */
  lemma ConsistentByField(w: MainWindow, m: InputMode)
    requires forall j :: 0 <= j < |Fields| ==> w.Enabled(Fields[j]) == EnabledIn(m, Fields[j])
    requires forall j :: 0 <= j < |Fields| ==> !EnabledIn(m, Fields[j]) ==> w.Value(Fields[j]) == []
    ensures w.ConsistentWith(m)
  {
    forall f: Field
      ensures (w.Enabled(f) <==> EnabledIn(m, f)) && (!w.Enabled(f) ==> w.Value(f) == [])
    {
      assert f == Fields[0] || f == Fields[1] || f == Fields[2];
    }
  }

  /** The meetings tab of the main window, over the manager it adds to. */
  class MainWindow {
    const manager: MeetingManager
    var mode: InputMode
    var title: string
    var url: string
    var meetingId: string
    var password: string
    var platformText: string
    var startTime: int
    var durationMinutes: int
    var urlEnabled: bool
    var meetingIdEnabled: bool
    var passwordEnabled: bool
    var importEnabled: bool

    constructor(m: MeetingManager, now: int)
      ensures manager == m && mode == ByUrl && Input() == FormInput(ByUrl, "", "", "", "", "Zoom", now, 60)
      ensures ConsistentWith(ByUrl) && importEnabled == false
    {
      manager := m;
      mode := ByUrl;
      title, url, meetingId, password := "", "", "", "";
      platformText := "Zoom";
      startTime, durationMinutes := now, 60;
      urlEnabled, meetingIdEnabled, passwordEnabled := true, false, false;
      importEnabled := false;
    }

    function Input(): FormInput
      reads this
    {
      FormInput(mode, title, url, meetingId, password, platformText, startTime, durationMinutes)
    }

    function Enabled(f: Field): bool
      reads this
    {
      match f
      case UrlField => urlEnabled
      case MeetingIdField => meetingIdEnabled
      case PasswordField => passwordEnabled
    }

    function Value(f: Field): string
      reads this
    {
      match f
      case UrlField => url
      case MeetingIdField => meetingId
      case PasswordField => password
    }

    /** The inputs are enabled as `mode` says, and every disabled one is empty. */
    ghost predicate ConsistentWith(m: InputMode)
      reads this
    {
      forall f :: (Enabled(f) <==> EnabledIn(m, f)) && (!Enabled(f) ==> Value(f) == [])
    }

    /** One pass of the loop of `toggle_input_fields`: enable or disable-and-clear one input. */
    method SetField(f: Field, enabled: bool)
      modifies this
      ensures Enabled(f) == enabled && Value(f) == (if enabled then old(Value(f)) else [])
      ensures f != UrlField ==> urlEnabled == old(urlEnabled) && url == old(url)
      ensures f != MeetingIdField ==> meetingIdEnabled == old(meetingIdEnabled) && meetingId == old(meetingId)
      ensures f != PasswordField ==> passwordEnabled == old(passwordEnabled) && password == old(password)
      ensures mode == old(mode) && title == old(title) && platformText == old(platformText)
      ensures startTime == old(startTime) && durationMinutes == old(durationMinutes)
      ensures importEnabled == old(importEnabled)
    {
      match f
      case UrlField =>
        urlEnabled := enabled;
        if !enabled { url := []; }
      case MeetingIdField =>
        meetingIdEnabled := enabled;
        if !enabled { meetingId := []; }
      case PasswordField =>
        passwordEnabled := enabled;
        if !enabled { password := []; }
    }

    /** `toggle_input_fields` for the radio button of mode `m`. */
    method ToggleInputFields(m: InputMode)
      modifies this
      ensures mode == m && ConsistentWith(m)
      ensures forall f :: EnabledIn(m, f) ==> Value(f) == old(Value(f))
      ensures importEnabled == (m == FromCalendar)
      ensures title == old(title) && platformText == old(platformText)
      ensures startTime == old(startTime) && durationMinutes == old(durationMinutes)
    {
      mode := m;
      var i := 0;
      while i < |Fields|
        invariant 0 <= i <= |Fields|
        invariant mode == m && title == old(title) && platformText == old(platformText)
        invariant startTime == old(startTime) && durationMinutes == old(durationMinutes)
        invariant url == (if i > 0 && !EnabledIn(m, UrlField) then [] else old(url))
        invariant meetingId == (if i > 1 && !EnabledIn(m, MeetingIdField) then [] else old(meetingId))
        invariant password == (if i > 2 && !EnabledIn(m, PasswordField) then [] else old(password))
        invariant i > 0 ==> urlEnabled == EnabledIn(m, UrlField)
        invariant i > 1 ==> meetingIdEnabled == EnabledIn(m, MeetingIdField)
        invariant i > 2 ==> passwordEnabled == EnabledIn(m, PasswordField)
      {
        SetField(Fields[i], EnabledIn(m, Fields[i]));
        i := i + 1;
      }
      importEnabled := m == FromCalendar;
      ConsistentByField(this, m);
    }

    /** `detect_platform_from_url` as a slot: it also moves the combo box to the label it finds. */
    method DetectPlatformFromUrl(text: string) returns (name: Option<string>)
      modifies this
      ensures name == PlatformLabelOfUrl(text)
      ensures platformText == (if name.Some? then name.value else old(platformText))
      ensures Input() == old(Input()).(platformText := platformText)
      ensures urlEnabled == old(urlEnabled) && meetingIdEnabled == old(meetingIdEnabled)
      ensures passwordEnabled == old(passwordEnabled) && importEnabled == old(importEnabled)
    {
      name := PlatformLabelOfUrl(text);
      if name.Some? {
        platformText := name.value;
      }
    }

    /** `clear_form`. */
    method ClearForm(now: int)
      modifies this
      ensures Input() == old(Input()).(title := [], url := [], meetingId := [], password := [],
                                       startTime := now, minutes := 60)
      ensures urlEnabled == old(urlEnabled) && meetingIdEnabled == old(meetingIdEnabled)
      ensures passwordEnabled == old(passwordEnabled) && importEnabled == old(importEnabled)
    {
      title, url, meetingId, password := [], [], [], [];
      startTime := now;
      durationMinutes := 60;
    }

    /**
     * The guard-and-reject part of `add_meeting_manually`: the first error
     * raised, or the Meeting built under `newId`. In URL mode the URL
     * detector also moves the combo box.
     */
    method ValidateForm(newId: string) returns (r: Result<Meeting, FormError>)
      modifies this
      ensures r == BuildMeeting(old(Input()), newId)
      ensures Input() == old(Input()).(platformText := ComboAfterValidation(old(Input())))
      ensures urlEnabled == old(urlEnabled) && meetingIdEnabled == old(meetingIdEnabled)
      ensures passwordEnabled == old(passwordEnabled) && importEnabled == old(importEnabled)
    {
      ghost var f := Input();
      if Blank(title) {
        return Err(TitleRequired);
      }
      if mode == ByUrl && Blank(url) {
        return Err(UrlRequired);
      }
      if mode == ById {
        if Blank(meetingId) {
          return Err(MeetingIdRequired);
        }
        if platformText == [] {
          return Err(PlatformRequired);
        }
      }
      var name;
      if mode == ByUrl {
        name := DetectPlatformFromUrl(url);
        if name.None? {
          return Err(PlatformNotDetected);
        }
      } else {
        name := Some(platformText);
      }
      var platform := PlatformFromLabel(name.value);
      if platform.None? {
        return Err(UnknownPlatform(name.value));
      }
      r := Ok(Meeting(
        newId, Strip(title), platform.value, startTime, durationMinutes * 60,
        if mode == ByUrl then Some(Strip(url)) else None,
        if mode == ById then Some(Strip(meetingId)) else None,
        if mode == ById then Some(password) else None,
        false, None));
    }

    /**
     * `add_meeting_manually` with `newId` for the generated uuid: the
     * validation chain, then `add_meeting` of the Meeting it builds; on
     * success the form is cleared.
     */
    method AddMeetingManually(newId: string, now: int) returns (outcome: AddOutcome)
      requires manager.Valid()
      modifies this, manager
      ensures manager.Valid()
      ensures var r := BuildMeeting(old(Input()), newId);
        && (r.Err? ==> outcome == Invalid(r.error))
        && (r.Ok? ==> (outcome == Added <==> newId !in old(manager.meetings)) && !outcome.Invalid?)
        && (outcome == Added ==>
              && manager.meetings == old(manager.meetings)[newId := r.value]
              && manager.jobs == old(manager.jobs) + [Job(FireMinute(r.value.startTime), newId)]
              && manager.stored == Some(Snapshot(manager.meetings))
              && title == [] && url == [] && meetingId == [] && password == []
              && startTime == now && durationMinutes == 60)
        && (outcome != Added ==>
              manager.meetings == old(manager.meetings) && manager.jobs == old(manager.jobs)
              && manager.stored == old(manager.stored))
      ensures outcome == Added ==>
        Input() == old(Input()).(title := [], url := [], meetingId := [], password := [],
                                 platformText := ComboAfterValidation(old(Input())), startTime := now, minutes := 60)
      ensures outcome != Added ==> Input() == old(Input()).(platformText := ComboAfterValidation(old(Input())))
      ensures urlEnabled == old(urlEnabled) && meetingIdEnabled == old(meetingIdEnabled)
      ensures passwordEnabled == old(passwordEnabled) && importEnabled == old(importEnabled)
    {
      ghost var f := Input();
      var r := ValidateForm(newId);
      if r.Err? {
        return Invalid(r.error);
      }
      BuildMeetingFields(f, newId);
      assert r.value.id == newId;
      var added := manager.AddMeeting(r.value);
      if added {
        ClearForm(now);
        return Added;
      }
      return AlreadyExists;
    }
  }
}
