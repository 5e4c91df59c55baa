/** src/stream/scheduler.rs: the weekly stream timetable, special events kept in date order,
  * and what each kind of stream needs. The clock is an input: a weekday and a time of day in
  * seconds since midnight. Durations are in minutes. */
module Scheduler {
  import opened Wrappers
  import opened Strings
  import opened Collections

  datatype Weekday = Mon | Tue | Wed | Thu | Fri | Sat | Sun

  /** `Weekday::succ`: Sunday is followed by Monday. */
  function Succ(d: Weekday): Weekday {
    match d
    case Mon => Tue
    case Tue => Wed
    case Wed => Thu
    case Thu => Fri
    case Fri => Sat
    case Sat => Sun
    case Sun => Mon
  }

  /** The day `k` days after `d`. */
  function Nth(d: Weekday, k: nat): Weekday
    decreases k
  {
    if k == 0 then d else Nth(Succ(d), k - 1)
  }

  /** Seven days from any start meet every weekday. */
  lemma WeekCovers(start: Weekday, d: Weekday)
    ensures exists k :: 0 <= k < 7 && Nth(start, k) == d
  {
    var days := [Nth(start, 0), Nth(start, 1), Nth(start, 2), Nth(start, 3), Nth(start, 4), Nth(start, 5), Nth(start, 6)];
    assert d in days by {
      match start
      case Mon =>
      case Tue =>
      case Wed =>
      case Thu =>
      case Fri =>
      case Sat =>
      case Sun =>
    }
    var k :| 0 <= k < 7 && days[k] == d;
  }

  datatype StreamType = CyberSecurity | Gaming | Tokusatsu | AnimeDiscussion | TechTutorial | CasualChat
                      | SpecialEvent

  datatype StreamSegment = StreamSegment(name: string, duration: int, activity: string,
                                         requiredResources: seq<string>)

  /** A stream of the timetable; `startTime` is seconds since midnight. */
  datatype ScheduledStream = ScheduledStream(streamType: StreamType, startTime: nat, titleTemplate: string,
                                             tags: seq<string>, segments: seq<StreamSegment>)

  /** An event; `date` is seconds on the injected clock. */
  datatype SpecialEventInfo = SpecialEventInfo(name: string, date: int, streamType: StreamType,
                                               description: string, duration: int)

  datatype StreamSchedule = StreamSchedule(weeklySchedule: map<Weekday, seq<ScheduledStream>>,
                                           specialEvents: seq<SpecialEventInfo>, streamDuration: int,
                                           breakDuration: int, preparationTime: int)

  const MondayTitle: string := "\U{1F512} Kawaii Hacker News & Security Updates! \U{1F4BB}"
  const WednesdayTitle: string := "\U{2728} Toku Talk & Anime Updates! \U{1F9B9}\U{200D}\U{2640}\U{FE0F}"
  const FridayTitle: string := "\U{1F3AE} Friday Night Gaming! Let's rank up! \U{1F4AA}"
  const SaturdayTitle: string := "\U{1F4BB} Tech Talk Saturday & Chill Gaming! \U{1F3AE}"

  /** `init_default_schedule`'s timetable: one evening stream on Monday, Wednesday and Friday,
    * and an afternoon one on Saturday. */
  function DefaultWeekly(): map<Weekday, seq<ScheduledStream>> {
    map[Mon := [ScheduledStream(CyberSecurity, 72000, MondayTitle, ["cybersecurity", "hacking", "tech news"],
                  [StreamSegment("Security News Recap", 60, "Review latest security news and vulnerabilities",
                                 ["security_news_scraper"]),
                   StreamSegment("Live Security Analysis", 60, "Analyze recent security incidents",
                                 ["security_tools"])])],
        Wed := [ScheduledStream(Tokusatsu, 72000, WednesdayTitle, ["tokusatsu", "anime", "kamen rider"],
                  [StreamSegment("Weekly Toku Review", 90, "Discuss latest Kamen Rider/Sentai episodes",
                                 ["toku_news_scraper"]),
                   StreamSegment("Anime News & Discussion", 90, "Cover seasonal anime and industry news",
                                 ["anime_news_scraper"])])],
        Fri := [ScheduledStream(Gaming, 72000, FridayTitle, ["gaming", "valorant", "apex"],
                  [StreamSegment("Warm Up Games", 30, "Practice aim and mechanics", ["game_launcher"]),
                   StreamSegment("Ranked Grind", 120, "Competitive matches with viewers", ["game_trainer"])])],
        Sat := [ScheduledStream(TechTutorial, 54000, SaturdayTitle, ["tech talk", "cybersecurity", "gaming", "chill"],
                  [StreamSegment("Tech Talk & Discussion", 120,
                                 "Discuss latest tech trends, news, and cybersecurity topics",
                                 ["tech_news_scraper", "security_knowledge_base", "presentation_tools"]),
                   StreamSegment("Cozy Gaming", 120, "Relaxed gaming session with chat",
                                 ["game_launcher", "stream_overlay"])])]]
  }

  /** Three-hour streams, ten-minute breaks, half an hour of preparation, no special events. */
  function DefaultSchedule(): StreamSchedule {
    StreamSchedule(DefaultWeekly(), [], 180, 10, 30)
  }

  /** The default timetable streams once on exactly Monday, Wednesday, Friday and Saturday. */
  lemma DefaultDays()
    ensures DefaultWeekly().Keys == {Mon, Wed, Fri, Sat}
    ensures forall d :: d in DefaultWeekly() ==> |DefaultWeekly()[d]| == 1
  {
  }

  // ---------------------------------------------------------------- next stream

  /** The first stream of the list starting strictly after `time`. */
  function FirstAfter(streams: seq<ScheduledStream>, time: nat): (r: Option<ScheduledStream>)
    ensures r.None? <==> forall i :: 0 <= i < |streams| ==> streams[i].startTime <= time
    ensures r.Some? ==> exists i :: 0 <= i < |streams| && streams[i] == r.value && r.value.startTime > time
                                    && forall j :: 0 <= j < i ==> streams[j].startTime <= time
    decreases |streams|
  {
    if streams == [] then None
    else if streams[0].startTime > time then Some(streams[0])
    else
      var r := FirstAfter(streams[1..], time);
      assert forall i :: 1 <= i < |streams| ==> streams[i] == streams[1..][i - 1];
      assert r.Some? ==> exists i :: 0 <= i < |streams| && streams[i] == r.value && r.value.startTime > time
                                    && forall j :: 0 <= j < i ==> streams[j].startTime <= time by {
        if r.Some? {
          var i :| 0 <= i < |streams[1..]| && streams[1..][i] == r.value && r.value.startTime > time
                   && forall j :: 0 <= j < i ==> streams[1..][j].startTime <= time;
          assert streams[i + 1] == r.value;
        }
      }
      r
  }

  /** Whether a weekday has any stream. */
  predicate HasStream(w: map<Weekday, seq<ScheduledStream>>, d: Weekday) {
    d in w && w[d] != []
  }

  /** The first stream of the first of `n` days from `d` that has any. */
  function FirstOfDays(w: map<Weekday, seq<ScheduledStream>>, d: Weekday, n: nat): (r: Option<ScheduledStream>)
    ensures r.None? <==> forall k :: 0 <= k < n ==> !HasStream(w, Nth(d, k))
    ensures r.Some? ==> exists k :: 0 <= k < n && HasStream(w, Nth(d, k)) && r.value == w[Nth(d, k)][0]
    decreases n
  {
    if n == 0 then None
    else if HasStream(w, d) then
      assert Nth(d, 0) == d;
      assert 0 < n && HasStream(w, Nth(d, 0)) && w[d][0] == w[Nth(d, 0)][0];
      Some(w[d][0])
    else
      var r := FirstOfDays(w, Succ(d), n - 1);
      assert forall k :: 1 <= k < n ==> Nth(d, k) == Nth(Succ(d), k - 1);
      assert forall k :: 0 <= k < n - 1 ==> Nth(Succ(d), k) == Nth(d, k + 1);
      assert !HasStream(w, Nth(d, 0));
      assert r.Some? ==> exists k :: 0 <= k < n && HasStream(w, Nth(d, k)) && r.value == w[Nth(d, k)][0] by {
        if r.Some? {
          var k :| 0 <= k < n - 1 && HasStream(w, Nth(Succ(d), k)) && r.value == w[Nth(Succ(d), k)][0];
          assert Nth(d, k + 1) == Nth(Succ(d), k);
        }
      }
      r
  }

  /** `get_next_stream` on `today` at `time`: the first of today's streams still to come, or
    * else the first stream of the next day that has one, looking a whole week ahead (so back to
    * today's first stream). */
  function NextStream(w: map<Weekday, seq<ScheduledStream>>, today: Weekday, time: nat): Option<ScheduledStream> {
    if today in w && FirstAfter(w[today], time).Some? then FirstAfter(w[today], time)
    else FirstOfDays(w, Succ(today), 7)
  }

  /** There is no next stream only when the timetable is empty. */
  lemma NextStreamNone(w: map<Weekday, seq<ScheduledStream>>, today: Weekday, time: nat)
    ensures NextStream(w, today, time).None? <==> forall d :: !HasStream(w, d)
  {
    if forall d :: !HasStream(w, d) {
      assert !HasStream(w, today);
      assert forall k :: 0 <= k < 7 ==> !HasStream(w, Nth(Succ(today), k));
    } else {
      var d :| HasStream(w, d);
      WeekCovers(Succ(today), d);
    }
  }

  /** Later today wins over any other day. */
  lemma TodayFirst(w: map<Weekday, seq<ScheduledStream>>, today: Weekday, time: nat, s: ScheduledStream)
    requires today in w && w[today] == [s] && s.startTime > time
    ensures NextStream(w, today, time) == Some(s)
  {
  }

  // ---------------------------------------------------------------- titles and needs

  const DefaultTitle: string := "\U{1F31F} Kawaii Stream Time! | Join the fun! \U{2728}"

  /** `generate_next_stream_title` for the announced stream, if any: the template inside a frame
    * for security, gaming, tokusatsu and anime streams, the bare template for the others. */
  function NextStreamTitle(next: Option<ScheduledStream>): (title: string)
    ensures next.None? ==> title == DefaultTitle
    ensures next.Some? ==> Contains(title, next.value.titleTemplate)
  {
    match next
    case None => DefaultTitle
    case Some(s) =>
      var t := s.titleTemplate;
      ContainsPrefix(t, t);
      match s.streamType
      case CyberSecurity =>
        ContainsInfix("\U{1F512} ", t, " | Kawaii Hacker Time! \U{1F4BB}", t);
        "\U{1F512} " + t + " | Kawaii Hacker Time! \U{1F4BB}"
      case Gaming =>
        ContainsInfix("\U{1F3AE} ", t, " | Let's rank up together! \U{26A1}", t);
        "\U{1F3AE} " + t + " | Let's rank up together! \U{26A1}"
      case Tokusatsu =>
        ContainsInfix("\U{2728} ", t, " | Henshin Time! \U{1F9B9}\U{200D}\U{2640}\U{FE0F}", t);
        "\U{2728} " + t + " | Henshin Time! \U{1F9B9}\U{200D}\U{2640}\U{FE0F}"
      case AnimeDiscussion =>
        ContainsInfix("\U{1F338} ", t, " | Anime & Chill! \U{1F38C}", t);
        "\U{1F338} " + t + " | Anime & Chill! \U{1F38C}"
      case _ => t
  }

  const BaseResources: seq<string> := ["obs_controller", "chat_manager", "voice_system"]

  /** `get_required_resources`: the three always needed, then the stream type's own. */
  function RequiredResources(t: StreamType): (r: seq<string>)
    ensures |r| >= 3 && r[..3] == BaseResources
    ensures |r| == match t
                   case CyberSecurity => 6
                   case Gaming => 6
                   case Tokusatsu => 5
                   case _ => 3
  {
    BaseResources + match t
      case CyberSecurity => ["security_scraper", "knowledge_base", "defense_system"]
      case Gaming => ["game_launcher", "game_trainer", "input_system"]
      case Tokusatsu => ["toku_scraper", "anime_scraper"]
      case _ => []
  }

  /** No resource is listed twice. */
  lemma ResourcesDistinct(t: StreamType)
    ensures forall i, j :: 0 <= i < j < |RequiredResources(t)| ==> RequiredResources(t)[i] != RequiredResources(t)[j]
  {
    var r := RequiredResources(t);
    forall i, j | 0 <= i < j < |r| ensures r[i] != r[j] {
      assert r[i][0] != r[j][0] || r[i][1] != r[j][1] || |r[i]| != |r[j]|;
    }
  }

  /** `get_stream_preparation_tasks`: three checklist items for every kind of stream. */
  function PreparationTasks(t: StreamType): (r: seq<string>)
    ensures |r| == 3
  {
    match t
    case CyberSecurity => ["Update security news database", "Prepare vulnerability demonstrations",
                           "Check latest CVE updates"]
    case Gaming => ["Warm up aim", "Update game settings", "Check for game updates"]
    case Tokusatsu => ["Watch latest episodes", "Update toku news database", "Prepare episode discussion points"]
    case _ => ["Check stream settings", "Test audio levels", "Update stream title and tags"]
  }

  /** The first loop of `get_next_stream`: today's streams in order. */
  method ScanToday(streams: seq<ScheduledStream>, time: nat) returns (r: Option<ScheduledStream>)
    ensures r == FirstAfter(streams, time)
  {
    var i := 0;
    while i < |streams|
      invariant 0 <= i <= |streams|
      invariant FirstAfter(streams, time) == FirstAfter(streams[i..], time)
    {
      assert streams[i..][1..] == streams[i + 1..];
      if streams[i].startTime > time {
        return Some(streams[i]);
      }
      i := i + 1;
    }
    r := None;
  }

  /** The second loop of `get_next_stream`: seven days from `start`. */
  method ScanWeek(w: map<Weekday, seq<ScheduledStream>>, start: Weekday) returns (r: Option<ScheduledStream>)
    ensures r == FirstOfDays(w, start, 7)
  {
    var day := start;
    var n := 0;
    while n < 7
      invariant 0 <= n <= 7
      invariant FirstOfDays(w, start, 7) == FirstOfDays(w, day, 7 - n)
    {
      if day in w && w[day] != [] {
        return Some(w[day][0]);
      }
      day := Succ(day);
      n := n + 1;
    }
    r := None;
  }

  /** The sort key of `add_special_event`. */
  function EventDate(e: SpecialEventInfo): int {
    e.date
  }

  class StreamScheduler {
    var schedule: StreamSchedule
    /** Never assigned after construction. */
    var nextStream: Option<ScheduledStream>
    var lastStreamType: Option<StreamType>

    /** Special events are in date order. */
    predicate Valid()
      reads this
    {
      SortedBy(schedule.specialEvents, EventDate)
    }

    /** `new`: the default timetable, nothing announced. */
    constructor ()
      ensures Valid() && schedule == DefaultSchedule() && nextStream == None && lastStreamType == None
    {
      schedule := DefaultSchedule();
      nextStream := None;
      lastStreamType := None;
    }

    /** `get_next_stream` on `today` at `time`: the scan of today's streams, then of the next
      * seven days. */
    method GetNextStream(today: Weekday, time: nat) returns (r: Option<ScheduledStream>)
      ensures r == NextStream(schedule.weeklySchedule, today, time)
    {
      var w := schedule.weeklySchedule;
      if today in w {
        r := ScanToday(w[today], time);
        if r.Some? {
          return;
        }
      }
      r := ScanWeek(w, Succ(today));
    }
    /** `add_special_event`: pushed, then stably sorted by date. */
    method AddSpecialEvent(event: SpecialEventInfo)
      requires Valid()
      modifies this`schedule
      ensures Valid()
      ensures schedule == old(schedule).(specialEvents := InsertStable(old(schedule).specialEvents, event, EventDate))
      ensures |schedule.specialEvents| == |old(schedule).specialEvents| + 1
    {
      InsertStableSorted(schedule.specialEvents, event, EventDate);
      schedule := schedule.(specialEvents := InsertStable(schedule.specialEvents, event, EventDate));
    }

    /** `generate_next_stream_title`. */
    function GenerateNextStreamTitle(): (title: string)
      reads this
      ensures title == NextStreamTitle(nextStream)
    {
      NextStreamTitle(nextStream)
    }
  }

  /** Nothing ever announces a stream, so a scheduler's title is always the default one; and on a
    * Tuesday the next stream is Wednesday's. */
  method FreshScheduler(time: nat) returns (title: string, next: Option<ScheduledStream>)
    ensures title == DefaultTitle
    ensures next == Some(DefaultWeekly()[Wed][0])
  {
    var s := new StreamScheduler();
    title := s.GenerateNextStreamTitle();
    next := s.GetNextStream(Tue, time);
    assert Tue !in DefaultWeekly();
    assert Nth(Wed, 0) == Wed;
  }
}
