/**
 * The meeting store of meeting_manager.py: the Meeting record, its flat
 * persistence record, the two text classifiers used by calendar import,
 * the fire-time arithmetic of the scheduler, and the MeetingManager object
 * that owns the id-to-meeting dictionary, the meetings file and the job list.
 *
 * Timestamps are whole seconds of local wall-clock time counted from a
 * midnight; durations are whole seconds.
 */
module Meetings {
  import opened Wrappers
  import opened Text

  // ---------------------------------------------------------------- platforms

  datatype PlatformType = Zoom | GoogleMeet | Teams

  /** The enum member's `value`, the tag written to the meetings file. */
  function PlatformValue(p: PlatformType): string {
    match p
    case Zoom => "zoom"
    case GoogleMeet => "google_meet"
    case Teams => "teams"
  }

  /** `PlatformType(v)`: the member whose value is `v`, or `None` where Python raises ValueError. */
  function PlatformFromValue(v: string): (r: Option<PlatformType>)
    ensures r.Some? ==> PlatformValue(r.value) == v
    ensures forall p :: PlatformValue(p) == v ==> r == Some(p)
  {
    if v == "zoom" then Some(Zoom)
    else if v == "google_meet" then Some(GoogleMeet)
    else if v == "teams" then Some(Teams)
    else None
  }

  // ---------------------------------------------------------------- meetings

  datatype Meeting = Meeting(
    id: string,
    title: string,
    platform: PlatformType,
    startTime: int,
    duration: int,
    url: Option<string>,
    meetingId: Option<string>,
    password: Option<string>,
    recurring: bool,
    recurrencePattern: Option<string>)

  /** A dictionary of meetings in which every meeting is filed under its own id. */
  ghost predicate KeysMatchIds(ms: map<string, Meeting>) {
    forall k :: k in ms ==> ms[k].id == k
  }

  // ---------------------------------------------------------------- classifiers

  /** Some keyword of `keys` occurs in `a` or in `b`. */
  predicate MentionsAny(a: string, b: string, keys: seq<string>) {
    exists k :: k in keys && (Contains(a, k) || Contains(b, k))
  }

  /** `_detect_platform`: keyword search over the lowercased description and summary, Zoom first. */
  function DetectPlatform(description: string, summary: string): Option<PlatformType> {
    var d := Lower(description);
    var s := Lower(summary);
    if MentionsAny(d, s, ["zoom"]) then Some(Zoom)
    else if MentionsAny(d, s, ["meet.google", "google meet"]) then Some(GoogleMeet)
    else if MentionsAny(d, s, ["teams", "microsoft teams"]) then Some(Teams)
    else None
  }

  /** Keyword `k` occurs in the description or the summary, ignoring ASCII case. */
  ghost predicate Mentions(description: string, summary: string, k: string) {
    Contains(Lower(description), k) || Contains(Lower(summary), k)
  }

  /**
   * The platform is decided by priority: any mention of "zoom" wins, then
   * Google Meet, then "teams"; nothing is detected exactly when none of the
   * four keywords occurs ("microsoft teams" adds nothing to "teams").
   */
  lemma DetectPlatformPriority(description: string, summary: string)
    ensures var r := DetectPlatform(description, summary);
      && (r == Some(Zoom) <==> Mentions(description, summary, "zoom"))
      && (r == Some(GoogleMeet) <==>
            !Mentions(description, summary, "zoom")
            && (Mentions(description, summary, "meet.google") || Mentions(description, summary, "google meet")))
      && (r == Some(Teams) <==>
            && !Mentions(description, summary, "zoom")
            && !Mentions(description, summary, "meet.google")
            && !Mentions(description, summary, "google meet")
            && Mentions(description, summary, "teams"))
      && (r == None <==>
            && !Mentions(description, summary, "zoom")
            && !Mentions(description, summary, "meet.google")
            && !Mentions(description, summary, "google meet")
            && !Mentions(description, summary, "teams"))
  {
    var d := Lower(description);
    var s := Lower(summary);
    ContainsAt("microsoft teams", "teams", 10);
    if Contains(d, "microsoft teams") {
      ContainsTransitive(d, "microsoft teams", "teams");
    }
    if Contains(s, "microsoft teams") {
      ContainsTransitive(s, "microsoft teams", "teams");
    }
    assert MentionsAny(d, s, ["teams", "microsoft teams"]) <==> Mentions(description, summary, "teams");
    assert MentionsAny(d, s, ["zoom"]) <==> Mentions(description, summary, "zoom");
    assert MentionsAny(d, s, ["meet.google", "google meet"]) <==>
      Mentions(description, summary, "meet.google") || Mentions(description, summary, "google meet");
  }

  /** Description and summary play the same part, and case does not matter. */
  lemma DetectPlatformSymmetricAndCaseBlind(description: string, summary: string)
    ensures DetectPlatform(description, summary) == DetectPlatform(summary, description)
    ensures DetectPlatform(Lower(description), Lower(summary)) == DetectPlatform(description, summary)
  {
    LowerIdempotent(description);
    LowerIdempotent(summary);
  }

  /** A word that `_extract_url` accepts. */
  predicate IsUrlWord(w: string) {
    StartsWith(w, "https://") || StartsWith(w, "http://")
  }

  /** `words[k]` is a URL word and no earlier word is one. */
  ghost predicate FirstUrlAt(words: seq<string>, k: int) {
    0 <= k < |words| && IsUrlWord(words[k]) && forall j :: 0 <= j < k ==> !IsUrlWord(words[j])
  }

  /** `_extract_url`: the first whitespace-separated word with an http(s) prefix. */
  method ExtractUrl(description: string) returns (url: Option<string>)
    ensures url.Some? ==> exists k :: FirstUrlAt(Split(description), k) && Split(description)[k] == url.value
    ensures url.None? <==> forall w :: w in Split(description) ==> !IsUrlWord(w)
  {
    var words := Split(description);
    var i := 0;
    while i < |words|
      invariant 0 <= i <= |words|
      invariant forall j :: 0 <= j < i ==> !IsUrlWord(words[j])
    {
      if IsUrlWord(words[i]) {
        assert FirstUrlAt(words, i);
        return Some(words[i]);
      }
      i := i + 1;
    }
    return None;
  }

  // ---------------------------------------------------------------- fire time

  /** Lead time of a scheduled join, in seconds. */
  const LeadTime := 60
  const MinutesPerDay := 1440

  /** Hour and minute of the day of timestamp `t`, as `hour * 60 + minute`. */
  function MinuteOfDay(t: int): (m: nat)
    ensures m < MinutesPerDay
  {
    (t / 60) % MinutesPerDay
  }

  /** `(start_time - timedelta(minutes=1))` reduced to its hour and minute. */
  function FireMinute(start: int): (m: nat)
    ensures m < MinutesPerDay
  {
    MinuteOfDay(start - LeadTime)
  }

  /** The job fires one minute of the day earlier than the start, wrapping 00:00 to 23:59. */
  lemma FireMinuteOneMinuteEarlier(start: int)
    ensures FireMinute(start) == (MinuteOfDay(start) + MinutesPerDay - 1) % MinutesPerDay
    ensures MinuteOfDay(start) == 0 ==> FireMinute(start) == 23 * 60 + 59
  {
    var q := start / 60;
    var r := start % 60;
    assert start == 60 * q + r && 0 <= r < 60;
    assert start - 60 == 60 * (q - 1) + r;
    assert (start - 60) / 60 == q - 1;
    var d := q % MinutesPerDay;
    assert q == MinutesPerDay * (q / MinutesPerDay) + d;
    if d == 0 {
      assert q - 1 == MinutesPerDay * (q / MinutesPerDay - 1) + (MinutesPerDay - 1);
    } else {
      assert q - 1 == MinutesPerDay * (q / MinutesPerDay) + (d - 1);
    }
  }

  function Digit(n: nat): char
    requires n < 10
  {
    ('0' as int + n) as char
  }

  function DigitValue(c: char): int {
    c as int - '0' as int
  }

  predicate IsDigit(c: char) {
    '0' <= c <= '9'
  }

  function TwoDigits(n: nat): string
    requires n < 100
  {
    [Digit(n / 10), Digit(n % 10)]
  }

  /** `strftime("%H:%M")` of a minute of the day: the text handed to the job registry. */
  function ClockText(m: nat): (r: string)
    requires m < MinutesPerDay
    ensures |r| == 5 && r[2] == ':'
  {
    TwoDigits(m / 60) + ":" + TwoDigits(m % 60)
  }

  /** Reading an "HH:MM" text back as a minute of the day. */
  function ParseClock(t: string): Option<nat> {
    if |t| == 5 && t[2] == ':' && IsDigit(t[0]) && IsDigit(t[1]) && IsDigit(t[3]) && IsDigit(t[4]) then
      var h := 10 * DigitValue(t[0]) + DigitValue(t[1]);
      var mm := 10 * DigitValue(t[3]) + DigitValue(t[4]);
      if h < 24 && mm < 60 then Some(h * 60 + mm) else None
    else None
  }

  /** The clock text names exactly the minute it was made from. */
  lemma ClockTextRoundTrip(m: nat)
    requires m < MinutesPerDay
    ensures ParseClock(ClockText(m)) == Some(m)
  {
    var t := ClockText(m);
    var h, mm := m / 60, m % 60;
    assert DigitValue(t[0]) == h / 10 && DigitValue(t[1]) == h % 10;
    assert DigitValue(t[3]) == mm / 10 && DigitValue(t[4]) == mm % 10;
    assert 10 * (h / 10) + h % 10 == h;
    assert 10 * (mm / 10) + mm % 10 == mm;
    assert h * 60 + mm == m;
  }

  /** One entry of the job registry: run `join_meeting(tag)` every day at minute `minute`. */
  datatype Job = Job(minute: nat, tag: string)

  // ---------------------------------------------------------------- persistence

  /** One value of the meetings file: every field but the id, which is the key. */
  datatype Record = Record(
    title: string,
    platform: string,
    startTime: int,
    duration: int,
    url: Option<string>,
    meetingId: Option<string>,
    password: Option<string>,
    recurring: bool,
    recurrencePattern: Option<string>)

  function ToRecord(m: Meeting): Record {
    Record(m.title, PlatformValue(m.platform), m.startTime, m.duration, m.url,
           m.meetingId, m.password, m.recurring, m.recurrencePattern)
  }

  /** The Meeting that `load_meetings` builds from key `id` and its record; `None` where the tag is unknown. */
  function FromRecord(id: string, r: Record): (m: Option<Meeting>)
    ensures m.Some? <==> PlatformFromValue(r.platform).Some?
    ensures m.Some? ==> m.value.id == id && ToRecord(m.value) == r
  {
    match PlatformFromValue(r.platform)
    case None => None
    case Some(p) =>
      Some(Meeting(id, r.title, p, r.startTime, r.duration, r.url, r.meetingId,
                   r.password, r.recurring, r.recurrencePattern))
  }

  /** Every meeting survives the trip through its record. */
  lemma RecordRoundTrip(m: Meeting)
    ensures FromRecord(m.id, ToRecord(m)) == Some(m)
  {
    assert PlatformFromValue(PlatformValue(m.platform)) == Some(m.platform);
  }

  /** The dictionary `save_meetings` writes. */
  function Snapshot(ms: map<string, Meeting>): (file: map<string, Record>)
    ensures file.Keys == ms.Keys
  {
    map k | k in ms :: ToRecord(ms[k])
  }

  /** Every record of the file carries a known platform tag. */
  predicate Loadable(file: map<string, Record>) {
    forall k :: k in file ==> PlatformFromValue(file[k].platform).Some?
  }

  /** The meetings built from the records filed under `keys`. */
  function Decoded(file: map<string, Record>, keys: set<string>): (ms: map<string, Meeting>)
    ensures KeysMatchIds(ms)
    ensures ms.Keys <= keys
    ensures ms.Keys <= file.Keys
  {
    map k | k in keys && k in file && FromRecord(k, file[k]).Some? :: FromRecord(k, file[k]).value
  }

  /** Saving and then loading gives back the same dictionary (ids, platforms, times and all other fields). */
  lemma SnapshotRoundTrip(ms: map<string, Meeting>)
    requires KeysMatchIds(ms)
    ensures Loadable(Snapshot(ms))
    ensures Decoded(Snapshot(ms), ms.Keys) == ms
  {
    var file := Snapshot(ms);
    forall k | k in file
      ensures FromRecord(k, file[k]) == Some(ms[k])
    {
      RecordRoundTrip(ms[k]);
    }
    assert Decoded(file, ms.Keys).Keys == ms.Keys;
  }

  /**
   * `datetime.timedelta.fromisoformat` as `load_meetings` calls it: the
   * standard library has no such attribute, so every call raises.
   */
  function TimedeltaFromIsoformatAsWritten(text: string): Option<int> {
    None
  }

  /** `load_meetings` as written, on a file whose durations are the texts `durationText` gives. */
  function LoadAsWritten(file: map<string, Record>, durationText: Record -> string): Option<map<string, Meeting>> {
    if forall k :: k in file ==>
        FromRecord(k, file[k]).Some? && TimedeltaFromIsoformatAsWritten(durationText(file[k])).Some?
    then Some(Decoded(file, file.Keys))
    else None
  }

  /** As written, loading what was saved fails for every store that holds a meeting. */
  lemma SaveThenLoadAsWrittenFails(ms: map<string, Meeting>, durationText: Record -> string)
    requires ms != map[]
    ensures LoadAsWritten(Snapshot(ms), durationText) == None
  {
    var k :| k in ms;
    assert k in Snapshot(ms);
  }

  /** Decoding one more good record files it under its key. */
  lemma DecodedInsert(file: map<string, Record>, done: set<string>, k: string)
    requires k in file && FromRecord(k, file[k]).Some?
    ensures Decoded(file, done + {k}) == Decoded(file, done)[k := FromRecord(k, file[k]).value]
  {
  }

  /** Every entry of a merge comes from the decoded part or from the old dictionary. */
  lemma MergeLookup(ms: map<string, Meeting>, ds: map<string, Meeting>)
    ensures forall k :: k in ms + ds ==>
      (k in ds && (ms + ds)[k] == ds[k]) || (k in ms && (ms + ds)[k] == ms[k])
  {
  }

  lemma MergeInsert(ms: map<string, Meeting>, ds: map<string, Meeting>, k: string, m: Meeting)
    ensures (ms + ds)[k := m] == ms + ds[k := m]
  {
  }

  lemma MergeIntoEmpty(ds: map<string, Meeting>)
    ensures map[] + ds == ds
  {
  }

  // ---------------------------------------------------------------- the manager

  class MeetingManager {
    /** `self.meetings`: meeting id to meeting. */
    var meetings: map<string, Meeting>
    /** The jobs handed to the scheduling registry, oldest first. */
    var jobs: seq<Job>
    /** Contents of meetings.json; `None` while the file does not exist. */
    var stored: Option<map<string, Record>>

    ghost predicate Valid()
      reads this
    {
      KeysMatchIds(meetings)
    }

    /**
     * `__init__`: an empty store that then loads the meetings file `file`.
     * Where Python's load raises, the store keeps the records decoded so far.
     */
    constructor (file: Option<map<string, Record>>)
      ensures Valid() && jobs == [] && stored == file
      ensures file.None? ==> meetings == map[]
      ensures file.Some? && Loadable(file.value) ==> meetings == Decoded(file.value, file.value.Keys)
      ensures file.Some? && !Loadable(file.value) ==>
        forall k :: k in meetings ==> k in file.value && FromRecord(k, file.value[k]) == Some(meetings[k])
    {
      meetings := map[];
      jobs := [];
      stored := file;
      new;
      var _ := LoadMeetings();
      if file.Some? {
        MergeIntoEmpty(Decoded(file.value, file.value.Keys));
      }
    }

    /** `add_meeting`: refuses a known id; otherwise stores, saves and schedules. */
    method AddMeeting(m: Meeting) returns (added: bool)
      requires Valid()
      modifies this
      ensures Valid()
      ensures added <==> m.id !in old(meetings)
      ensures added ==>
        && meetings == old(meetings)[m.id := m]
        && stored == Some(Snapshot(meetings))
        && jobs == old(jobs) + [Job(FireMinute(m.startTime), m.id)]
      ensures !added ==> meetings == old(meetings) && jobs == old(jobs) && stored == old(stored)
    {
      if m.id in meetings {
        return false;
      }
      meetings := meetings[m.id := m];
      SaveMeetings();
      ScheduleMeeting(m);
      return true;
    }

    /** `remove_meeting`: deletes a known id and saves; scheduled jobs stay as they are. */
    method RemoveMeeting(id: string) returns (removed: bool)
      requires Valid()
      modifies this
      ensures Valid()
      ensures removed <==> id in old(meetings)
      ensures removed ==> meetings == old(meetings) - {id} && stored == Some(Snapshot(meetings))
      ensures !removed ==> meetings == old(meetings) && stored == old(stored)
      ensures jobs == old(jobs)
    {
      if id in meetings {
        meetings := meetings - {id};
        SaveMeetings();
        return true;
      }
      return false;
    }

    /** `schedule_meeting`: one daily job at the fire minute, tagged with the meeting id. */
    method ScheduleMeeting(m: Meeting)
      modifies this`jobs
      ensures jobs == old(jobs) + [Job(FireMinute(m.startTime), m.id)]
    {
      jobs := jobs + [Job(FireMinute(m.startTime), m.id)];
    }

    /** `join_meeting`: the meeting a job would join, or nothing for an unknown id. */
    method JoinMeeting(id: string) returns (target: Option<Meeting>)
      ensures target.Some? <==> id in meetings
      ensures target.Some? ==> target.value == meetings[id]
    {
      if id !in meetings {
        return None;
      }
      return Some(meetings[id]);
    }

    /** `save_meetings`: writes one record per meeting, keyed by its id. */
    method SaveMeetings()
      modifies this`stored
      ensures stored == Some(Snapshot(meetings))
    {
      var data: map<string, Record> := map[];
      var todo := meetings.Keys;
      while todo != {}
        invariant todo <= meetings.Keys
        invariant data.Keys == meetings.Keys - todo
        invariant forall k :: k in data ==> data[k] == ToRecord(meetings[k])
        decreases todo
      {
        var k :| k in todo;
        data := data[k := ToRecord(meetings[k])];
        todo := todo - {k};
      }
      assert data == Snapshot(meetings);
      stored := Some(data);
    }

    /**
     * `load_meetings`: nothing happens without a file; otherwise every record
     * is decoded and filed under its key. A record with an unknown platform
     * tag stops the load (Python raises), leaving the records handled so far.
     */
    method LoadMeetings() returns (ok: bool)
      requires Valid()
      modifies this`meetings
      ensures Valid()
      ensures stored.None? ==> ok && meetings == old(meetings)
      ensures stored.Some? ==> (ok <==> Loadable(stored.value))
      ensures stored.Some? && ok ==> meetings == old(meetings) + Decoded(stored.value, stored.value.Keys)
      ensures stored.Some? && !ok ==>
        forall k :: k in meetings ==>
          (k in stored.value && FromRecord(k, stored.value[k]) == Some(meetings[k]))
          || (k in old(meetings) && meetings[k] == old(meetings)[k])
    {
      if stored.None? {
        return true;
      }
      var file := stored.value;
      var todo, done := file.Keys, {};
      while todo != {}
        invariant todo !! done && todo + done == file.Keys
        invariant forall k :: k in done ==> FromRecord(k, file[k]).Some?
        invariant meetings == old(meetings) + Decoded(file, done)
        invariant KeysMatchIds(meetings)
        decreases todo
      {
        var k :| k in todo;
        var m := FromRecord(k, file[k]);
        if m.None? {
          assert !Loadable(file);
          MergeLookup(old(meetings), Decoded(file, done));
          return false;
        }
        DecodedInsert(file, done, k);
        MergeInsert(old(meetings), Decoded(file, done), k, m.value);
        meetings := meetings[k := m.value];
        todo, done := todo - {k}, done + {k};
      }
      return true;
    }
  }
}
