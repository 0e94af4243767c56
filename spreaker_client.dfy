/** The Spreaker client: the weekly publish-slot search and the form fields sent
    when an episode is uploaded or updated.

    Local date-times are counted in microseconds of wall-clock time from a Monday
    midnight, so the day index of an instant fixes its weekday (Monday = 0). The
    host clock, the time-zone database and the conversion of stored UTC strings to
    local time are inputs. */
module Spreaker {
  import opened Wrappers
  import opened Strings

  const UsPerMinute: int := 60_000_000
  const UsPerHour: int := 3_600_000_000
  const UsPerDay: int := 86_400_000_000

  /** The local calendar day of an instant. */
  function DayOf(t: int): int { t / UsPerDay }

  /** Microseconds since local midnight. */
  function ClockOf(t: int): int { t % UsPerDay }

  /** `datetime.weekday()` of a day index. */
  function Weekday(day: int): int { day % 7 }

  /** The instant `clock` microseconds after the midnight that starts `day`. */
  function AtClock(day: int, clock: int): int { day * UsPerDay + clock }

  lemma AtClockParts(day: int, clock: int)
    requires 0 <= clock < UsPerDay
    ensures DayOf(AtClock(day, clock)) == day && ClockOf(AtClock(day, clock)) == clock
  {
  }

  lemma InstantParts(t: int)
    ensures t == AtClock(DayOf(t), ClockOf(t)) && 0 <= ClockOf(t) < UsPerDay
  {
  }

  /** A row of the `schedule_config` table: a missing key is absent, a NULL column
      is `None`. */
  type ScheduleConfig = map<string, Option<string>>

  /** `config.get(key, default)` on a row. */
  function Lookup(config: ScheduleConfig, key: string, default: string): Option<string> {
    if key in config then config[key] else Some(default)
  }

  /** Everything the slot search consults besides the stored configuration:
      the override zone, the zone names `pytz` knows, the local "now" in a zone,
      the latest stored publish string and its conversion to local time in a zone
      (`None` when `fromisoformat` rejects it). */
  datatype ScheduleInputs = ScheduleInputs(
    config: Option<ScheduleConfig>,
    zoneOverride: Option<string>,
    knownZones: set<string>,
    localNow: string -> int,
    lastScheduled: Option<string>,
    toLocal: (string, string) -> Option<int>)

  /** The zone the search runs in: a non-empty override, else the configured zone
      defaulting to `America/Los_Angeles`; `None` when `pytz` would reject it. */
  function Zone(config: ScheduleConfig, zoneOverride: Option<string>, knownZones: set<string>): (r: Option<string>)
    ensures r.Some? ==> r.value in knownZones
    ensures zoneOverride.Some? && zoneOverride.value != "" ==>
      r == (if zoneOverride.value in knownZones then zoneOverride else None)
  {
    var name := if zoneOverride.Some? && zoneOverride.value != "" then zoneOverride
      else Lookup(config, "podcast_timezone", "America/Los_Angeles");
    if name.Some? && name.value in knownZones then name else None
  }

  datatype ClockTime = ClockTime(hour: int, minute: int)

  /** `map(int, s.split(':'))` unpacked into two numbers, with 05:00 when that
      raises `ValueError`. */
  function PublishClock(s: string): ClockTime {
    var parts := Split(s, ':');
    if |parts| == 2 && ParseInt(parts[0]).Some? && ParseInt(parts[1]).Some? then
      ClockTime(ParseInt(parts[0]).value, ParseInt(parts[1]).value)
    else ClockTime(5, 0)
  }

  /** `s` is two colon-free parts around one colon. */
  predicate ClockText(s: string, a: string, b: string) {
    ':' !in a && ':' !in b && s == a + ":" + b
  }

  /** Two parts around one colon that both pass `int()` give that hour and minute. */
  lemma PublishClockOfText(s: string, a: string, b: string)
    requires ClockText(s, a, b) && ParseInt(a).Some? && ParseInt(b).Some?
    ensures PublishClock(s) == ClockTime(ParseInt(a).value, ParseInt(b).value)
  {
    assert Join([a, b], [':']) == s;
    JoinSplit([a, b], ':');
  }

  /** Any other text (no colon, more than one, or a part `int()` rejects) falls
      back to 05:00. */
  lemma PublishClockFallback(s: string)
    requires forall a, b :: ClockText(s, a, b) ==> ParseInt(a).None? || ParseInt(b).None?
    ensures PublishClock(s) == ClockTime(5, 0)
  {
    var parts := Split(s, ':');
    if |parts| == 2 && ParseInt(parts[0]).Some? && ParseInt(parts[1]).Some? {
      assert Join(parts, [':']) == parts[0] + ":" + parts[1];
      assert ClockText(s, parts[0], parts[1]);
      assert false;
    }
  }

  /** The hour and minute `datetime.replace` accepts. */
  predicate ValidClock(c: ClockTime) { 0 <= c.hour < 24 && 0 <= c.minute < 60 }

  function ClockOffset(c: ClockTime): (r: int)
    requires ValidClock(c)
    ensures 0 <= r < UsPerDay
  {
    c.hour * UsPerHour + c.minute * UsPerMinute
  }

  /** The weekday numbers of a days-of-week list: every comma token that is all
      digits once stripped, in order. */
  function WeekdayTargets(tokens: seq<string>): (r: seq<int>)
    ensures forall i :: 0 <= i < |r| ==> r[i] >= 0
    ensures |r| <= |tokens|
  {
    if tokens == [] then [] else TokenTarget(tokens[0]) + WeekdayTargets(tokens[1..])
  }

  /** The weekday number of one token, if it is all digits once stripped. */
  function TokenTarget(token: string): (r: seq<int>)
    ensures |r| <= 1 && forall i :: 0 <= i < |r| ==> r[i] >= 0
  {
    var t := Strip(token);
    if IsDigits(t) then [DigitsValue(t)] else []
  }

  /** The token, stripped, is all digits and spells `w`. */
  predicate Spells(token: string, w: int) {
    IsDigits(Strip(token)) && DigitsValue(Strip(token)) == w
  }

  lemma TokenTargetSpells(token: string, w: int)
    ensures w in TokenTarget(token) <==> Spells(token, w)
  {
  }

  /** A number is a target exactly when some token, stripped, spells it. */
  lemma {:induction false} WeekdayTargetsMembers(tokens: seq<string>, w: int)
    ensures w in WeekdayTargets(tokens) <==> exists k :: 0 <= k < |tokens| && Spells(tokens[k], w)
  {
    if tokens != [] {
      var rest := tokens[1..];
      WeekdayTargetsMembers(rest, w);
      var head := TokenTarget(tokens[0]);
      assert WeekdayTargets(tokens) == head + WeekdayTargets(rest);
      TokenTargetSpells(tokens[0], w);
      if w in WeekdayTargets(tokens) {
        if w !in head {
          var k :| 0 <= k < |rest| && Spells(rest[k], w);
          assert rest[k] == tokens[k + 1];
        }
      }
      if exists k :: 0 <= k < |tokens| && Spells(tokens[k], w) {
        var k :| 0 <= k < |tokens| && Spells(tokens[k], w);
        if k > 0 {
          assert rest[k - 1] == tokens[k];
        }
      }
    }
  }

  /** Where the search starts when the latest stored publish string is unparseable:
      from now, as the log message at that point says. */
  function SearchStart(now: int, lastScheduled: Option<string>, lastLocal: Option<int>): (r: int)
    ensures r >= now + UsPerHour
    ensures lastScheduled.Some? && lastScheduled.value != "" && lastLocal.Some? ==>
      r == Max(AtClock(DayOf(lastLocal.value) + 1, 0), now + UsPerHour)
  {
    var start := if lastScheduled.Some? && lastScheduled.value != "" && lastLocal.Some?
      then AtClock(DayOf(lastLocal.value) + 1, 0) else now;
    Max(start, now + UsPerHour)
  }

  /** The start as the code computes it: an unparseable stored string leaves the
      start unassigned, and the `NameError` that follows abandons the search. */
  function SearchStartAsWritten(now: int, lastScheduled: Option<string>, lastLocal: Option<int>): (r: Option<int>)
    ensures r.None? <==> lastScheduled.Some? && lastScheduled.value != "" && lastLocal.None?
    ensures r.Some? ==> r.value == SearchStart(now, lastScheduled, lastLocal)
  {
    if lastScheduled.Some? && lastScheduled.value != "" then
      match lastLocal
      case Some(l) => Some(Max(AtClock(DayOf(l) + 1, 0), now + UsPerHour))
      case None => None
    else Some(Max(now, now + UsPerHour))
  }

  /** What the day-by-day walk needs once every early exit has been passed. */
  datatype SlotSearch = SlotSearch(now: int, start: int, clock: ClockTime, targets: seq<int>)

  /** The latest stored publish string converted to local time in `zone`. */
  function LastLocal(inputs: ScheduleInputs, zone: string): Option<int> {
    if inputs.lastScheduled.Some? then inputs.toLocal(zone, inputs.lastScheduled.value) else None
  }

  /** Every step before the walk; `None` when one of them gives up. With `asWritten`
      an unparseable stored publish string abandons the search. */
  function Prepare(inputs: ScheduleInputs, asWritten: bool): (r: Option<SlotSearch>)
    ensures inputs.config.None? || inputs.config.value == map[] ==> r.None?
    ensures r.Some? ==> ValidClock(r.value.clock) && r.value.targets != []
    ensures r.Some? ==> r.value.start >= r.value.now + UsPerHour
    ensures r.Some? ==> var config := inputs.config.value;
      var zone := Zone(config, inputs.zoneOverride, inputs.knownZones);
      var timeText := Lookup(config, "publish_time_local", "05:00");
      zone.Some? && r.value.now == inputs.localNow(zone.value) && timeText.Some?
      && r.value.clock == PublishClock(timeText.value)
      && r == PrepareWeekly(config, r.value.now, r.value.start, r.value.clock)
  {
    if inputs.config.None? || inputs.config.value == map[] then None
    else
      var config := inputs.config.value;
      match Zone(config, inputs.zoneOverride, inputs.knownZones)
      case None => None
      case Some(zone) =>
        var now := inputs.localNow(zone);
        var lastLocal := LastLocal(inputs, zone);
        var start := if asWritten then SearchStartAsWritten(now, inputs.lastScheduled, lastLocal)
          else Some(SearchStart(now, inputs.lastScheduled, lastLocal));
        match Lookup(config, "publish_time_local", "05:00")
        case None => None
        case Some(timeText) =>
          if start.None? then None else PrepareWeekly(config, now, start.value, PublishClock(timeText))
  }

  /** `config.get('schedule_type') == 'weekly'`. */
  predicate Weekly(config: ScheduleConfig) {
    "schedule_type" in config && config["schedule_type"] == Some("weekly")
  }

  /** The stored days-of-week list, `0,2,4` by default, `None` for a NULL column. */
  function DaysText(config: ScheduleConfig): Option<string> {
    Lookup(config, "days_of_week", "0,2,4")
  }

  /** The weekly part: the schedule type, the days-of-week list and the clock check. */
  function PrepareWeekly(config: ScheduleConfig, now: int, start: int, clock: ClockTime): (r: Option<SlotSearch>)
    ensures r.Some? <==>
      (Weekly(config) && DaysText(config).Some?
       && WeekdayTargets(Split(DaysText(config).value, ',')) != [] && ValidClock(clock))
    ensures r.Some? ==> r.value.targets == WeekdayTargets(Split(DaysText(config).value, ','))
    ensures r.Some? ==> r.value.start == start && r.value.now == now && r.value.clock == clock
  {
    if !Weekly(config) then None
    else
      match DaysText(config)
      case None => None
      case Some(daysText) =>
        var targets := WeekdayTargets(Split(daysText, ','));
        if targets == [] || !ValidClock(clock) then None
        else Some(SlotSearch(now, start, clock, targets))
  }

  /** The first candidate day: the start's own day at the publish time, or the
      next day when that time has already passed. */
  function FirstCandidateDay(start: int, offset: int): int {
    if AtClock(DayOf(start), offset) < start then DayOf(start) + 1 else DayOf(start)
  }

  lemma FirstCandidateIsEarliest(start: int, offset: int)
    requires 0 <= offset < UsPerDay
    ensures AtClock(FirstCandidateDay(start, offset), offset) >= start
    ensures forall d :: AtClock(d, offset) >= start ==> d >= FirstCandidateDay(start, offset)
  {
    InstantParts(start);
  }

  /** The first of `fuel` consecutive days from `day` whose weekday is listed. */
  function FirstAllowedDay(day: int, targets: seq<int>, fuel: nat): (r: Option<int>)
    decreases fuel
    ensures r.Some? ==> day <= r.value < day + fuel && Weekday(r.value) in targets
    ensures r.Some? ==> forall d :: day <= d < r.value ==> Weekday(d) !in targets
    ensures r.None? ==> forall d :: day <= d < day + fuel ==> Weekday(d) !in targets
  {
    if fuel == 0 then None
    else if Weekday(day) in targets then Some(day)
    else FirstAllowedDay(day + 1, targets, fuel - 1)
  }

  lemma FirstAllowedStep(day: int, targets: seq<int>, fuel: nat)
    requires fuel > 0 && Weekday(day) !in targets
    ensures FirstAllowedDay(day, targets, fuel) == FirstAllowedDay(day + 1, targets, fuel - 1)
  {
  }

  /** The instant at `offset` on the found day, if any. */
  function Shifted(day: Option<int>, offset: int): Option<int> {
    match day
    case Some(d) => Some(AtClock(d, offset))
    case None => None
  }

  /** The walk: at most 366 days from the first candidate. */
  function FindSlot(p: SlotSearch): (r: Option<int>)
    requires ValidClock(p.clock)
  {
    var offset := ClockOffset(p.clock);
    Shifted(FirstAllowedDay(FirstCandidateDay(p.start, offset), p.targets, 366), offset)
  }

  /** The next publish slot, with an unparseable stored time treated as "none". */
  function NextPublishTime(inputs: ScheduleInputs): Option<int> {
    match Prepare(inputs, false)
    case Some(p) => FindSlot(p)
    case None => None
  }

  /** The next publish slot as the code computes it. */
  function NextPublishTimeAsWritten(inputs: ScheduleInputs): Option<int> {
    match Prepare(inputs, true)
    case Some(p) => FindSlot(p)
    case None => None
  }

  // ---------------------------------------------------------------------------
  // Properties of the slot search

  /** Seven consecutive days cover every weekday. */
  lemma WeekdayWithinSeven(day: int, w: int)
    requires 0 <= w < 7
    ensures var d := day + (w - Weekday(day)) % 7; day <= d < day + 7 && Weekday(d) == w
  {
  }

  /** The walk finds a day exactly when some listed number is a weekday (0-6);
      a list such as "7" alone never matches. */
  lemma FindSlotSucceedsIff(p: SlotSearch)
    requires ValidClock(p.clock)
    ensures FindSlot(p).Some? <==> exists w :: w in p.targets && 0 <= w < 7
  {
    var d0 := FirstCandidateDay(p.start, ClockOffset(p.clock));
    var r := FirstAllowedDay(d0, p.targets, 366);
    if exists w :: w in p.targets && 0 <= w < 7 {
      var w :| w in p.targets && 0 <= w < 7;
      WeekdayWithinSeven(d0, w);
    }
  }

  /** A found slot is at the publish time, on a listed weekday, no earlier than the
      search start (so no earlier than an hour from now), and no listed weekday at
      that time lies between the start and the slot. */
  lemma FindSlotProperties(p: SlotSearch)
    requires ValidClock(p.clock) && p.start >= p.now + UsPerHour
    requires FindSlot(p).Some?
    ensures var t := FindSlot(p).value;
      t >= p.start && t >= p.now + UsPerHour
      && ClockOf(t) == ClockOffset(p.clock)
      && ClockOf(t) == p.clock.hour * UsPerHour + p.clock.minute * UsPerMinute
      && Weekday(DayOf(t)) in p.targets
      && forall u :: p.start <= u < t && ClockOf(u) == ClockOffset(p.clock) ==> Weekday(DayOf(u)) !in p.targets
  {
    var offset := ClockOffset(p.clock);
    var d0 := FirstCandidateDay(p.start, offset);
    FirstCandidateIsEarliest(p.start, offset);
    var d := FirstAllowedDay(d0, p.targets, 366).value;
    var t := FindSlot(p).value;
    assert t == AtClock(d, offset);
    AtClockParts(d, offset);
    forall u | p.start <= u < t && ClockOf(u) == offset ensures Weekday(DayOf(u)) !in p.targets {
      InstantParts(u);
      assert DayOf(u) < d;
    }
  }

  lemma NextPublishTimeProperties(inputs: ScheduleInputs)
    requires NextPublishTime(inputs).Some?
    ensures var p := Prepare(inputs, false).value; var t := NextPublishTime(inputs).value;
      t >= p.now + UsPerHour && ClockOf(t) == ClockOffset(p.clock) && Weekday(DayOf(t)) in p.targets
  {
    FindSlotProperties(Prepare(inputs, false).value);
  }

  /** With a row present and valid, a slot comes back exactly when a listed number
      is a weekday. */
  lemma NextPublishTimeNoneIff(inputs: ScheduleInputs)
    requires Prepare(inputs, false).Some?
    ensures NextPublishTime(inputs).None? <==> forall w :: w in Prepare(inputs, false).value.targets ==> !(0 <= w < 7)
  {
    FindSlotSucceedsIff(Prepare(inputs, false).value);
  }

  /** Both versions agree unless the stored string is present but unparseable, in
      which case the code as written returns no slot at all. */
  lemma AsWrittenDiffersOnlyOnUnparseable(inputs: ScheduleInputs)
    ensures NextPublishTimeAsWritten(inputs) != NextPublishTime(inputs) ==>
      NextPublishTimeAsWritten(inputs).None? && inputs.lastScheduled.Some? && inputs.lastScheduled.value != ""
  {
  }

  /** The default publish time "05:00" reads as 05:00. */
  lemma DefaultPublishClock()
    ensures PublishClock("05:00") == ClockTime(5, 0)
  {
    assert IsDigit('0') && IsDigit('5');
    PublishClockOfDigits("05", "00");
    assert "05" + ":" + "00" == "05:00";
    assert DigitsValue("05") == 5 by { assert "05"[..1] == "0"; }
    assert DigitsValue("00") == 0 by { assert "00"[..1] == "0"; }
  }

  /** The default days "0,2,4" are Monday, Wednesday and Friday. */
  lemma DefaultWeekdays()
    ensures WeekdayTargets(Split("0,2,4", ',')) == [0, 2, 4]
  {
    var days := Split("0,2,4", ',');
    assert days == ["0", "2", "4"] by {
      JoinSplit(["0", "2", "4"], ',');
      assert Join(["0", "2", "4"], [',']) == "0,2,4";
    }
    assert NatToString(0) == "0" && NatToString(2) == "2" && NatToString(4) == "4";
    WeekdayTargetsOfNumbers([0, 2, 4], days);
  }

  /** A weekly row with every other setting at its default, no override zone, a
      stored publish string that cannot be parsed, and a "now" of Monday 00:00. */
  predicate UnparseableExample(inputs: ScheduleInputs) {
    && inputs.config == Some(map["schedule_type" := Some("weekly")])
    && inputs.zoneOverride.None?
    && "America/Los_Angeles" in inputs.knownZones
    && inputs.localNow("America/Los_Angeles") == 0
    && inputs.lastScheduled == Some("not a date")
    && inputs.toLocal("America/Los_Angeles", "not a date").None?
  }

  /** The example's row reaches the walk with the default time and days. */
  lemma ExampleWeekly()
    ensures PrepareWeekly(map["schedule_type" := Some("weekly")], 0, UsPerHour, ClockTime(5, 0))
      == Some(SlotSearch(0, UsPerHour, ClockTime(5, 0), [0, 2, 4]))
  {
    var config: ScheduleConfig := map["schedule_type" := Some("weekly")];
    assert Lookup(config, "days_of_week", "0,2,4") == Some("0,2,4");
    DefaultWeekdays();
  }

  /** The example's zone, publish time and stored string. */
  lemma ExampleSettings(inputs: ScheduleInputs)
    requires UnparseableExample(inputs)
    ensures Zone(inputs.config.value, inputs.zoneOverride, inputs.knownZones) == Some("America/Los_Angeles")
    ensures LastLocal(inputs, "America/Los_Angeles").None?
    ensures Lookup(inputs.config.value, "publish_time_local", "05:00") == Some("05:00")
  {
  }

  /** As written, the example's search has no start. */
  lemma UnparseableExampleAsWritten(inputs: ScheduleInputs)
    requires UnparseableExample(inputs)
    ensures Prepare(inputs, true).None?
  {
    ExampleSettings(inputs);
    assert SearchStartAsWritten(0, inputs.lastScheduled, None).None?;
  }

  /** Searching from now, the example starts an hour after midnight. */
  lemma UnparseableExamplePrepared(inputs: ScheduleInputs)
    requires UnparseableExample(inputs)
    ensures Prepare(inputs, false) == Some(SlotSearch(0, UsPerHour, ClockTime(5, 0), [0, 2, 4]))
  {
    ExampleSettings(inputs);
    assert SearchStart(0, inputs.lastScheduled, None) == UsPerHour;
    DefaultPublishClock();
    ExampleWeekly();
  }

  /** On that example the code as written gives up, while searching from now
      gives Monday 05:00. */
  lemma UnparseableLastPublishAbandonsSearch(inputs: ScheduleInputs)
    requires UnparseableExample(inputs)
    ensures NextPublishTimeAsWritten(inputs) == None
    ensures NextPublishTime(inputs) == Some(5 * UsPerHour)
  {
    UnparseableExampleAsWritten(inputs);
    UnparseableExamplePrepared(inputs);
    var p := SlotSearch(0, UsPerHour, ClockTime(5, 0), [0, 2, 4]);
    assert FirstCandidateDay(p.start, ClockOffset(p.clock)) == 0;
    assert FindSlot(p) == Some(5 * UsPerHour);
  }

  /** Such inputs exist. */
  lemma UnparseableExampleExists()
    ensures UnparseableExample(ScheduleInputs(Some(map["schedule_type" := Some("weekly")]), None,
      {"America/Los_Angeles"}, zone => 0, Some("not a date"), (zone, s) => None))
  {
  }

  /** `str(h) + ":" + str(m)` reads back as that hour and minute. */
  lemma PublishClockOfFormatted(h: nat, m: nat)
    ensures PublishClock(NatToString(h) + ":" + NatToString(m)) == ClockTime(h, m)
  {
    DigitsValueOfNatToString(h);
    DigitsValueOfNatToString(m);
    PublishClockOfDigits(NatToString(h), NatToString(m));
  }

  /** Two digit strings around a colon read as that hour and minute. */
  lemma PublishClockOfDigits(a: string, b: string)
    requires IsDigits(a) && IsDigits(b)
    ensures PublishClock(a + ":" + b) == ClockTime(DigitsValue(a), DigitsValue(b))
  {
    assert ':' !in a && ':' !in b by {
      forall i | 0 <= i < |a| ensures a[i] != ':' { assert IsDigit(a[i]); }
      forall i | 0 <= i < |b| ensures b[i] != ':' { assert IsDigit(b[i]); }
    }
    JoinSplit([a, b], ':');
    assert Join([a, b], [':']) == a + ":" + b;
    ParseIntOfDigits(a);
    ParseIntOfDigits(b);
  }

  /** Weekday numbers written out with commas read back unchanged. */
  lemma {:induction false} WeekdayTargetsOfNumbers(ws: seq<nat>, tokens: seq<string>)
    requires |tokens| == |ws|
    requires forall k :: 0 <= k < |ws| ==> tokens[k] == NatToString(ws[k])
    ensures WeekdayTargets(tokens) == ws
  {
    if ws != [] {
      StripOfDigits(tokens[0]);
      DigitsValueOfNatToString(ws[0]);
      WeekdayTargetsOfNumbers(ws[1..], tokens[1..]);
    }
  }

  // ---------------------------------------------------------------------------
  // Upload and update form fields

  /** The form the client posts: one slot per key it may send, `None` when the key
      is absent from the dictionary. `auto_publish` goes on the wire as the text
      "true" or "false". */
  datatype Form = Form(
    title: Option<string>,
    autoPublishedAt: Option<string>,
    autoPublish: Option<bool>,
    publishAt: Option<string>,
    description: Option<string>,
    tags: Option<string>,
    transcriptUrl: Option<string>,
    seasonNumber: Option<int>,
    episodeNumber: Option<int>)

  const NoFields := Form(None, None, None, None, None, None, None, None, None)

  /** The wire names of the keys present in a form. */
  function Keys(f: Form): (r: set<string>)
    ensures r == {} <==> f == NoFields
  {
    (if f.title.Some? then {"title"} else {})
    + (if f.autoPublishedAt.Some? then {"auto_published_at"} else {})
    + (if f.autoPublish.Some? then {"auto_publish"} else {})
    + (if f.publishAt.Some? then {"publish_at"} else {})
    + (if f.description.Some? then {"description"} else {})
    + (if f.tags.Some? then {"tags"} else {})
    + (if f.transcriptUrl.Some? then {"transcript_url"} else {})
    + (if f.seasonNumber.Some? then {"season_number"} else {})
    + (if f.episodeNumber.Some? then {"episode_number"} else {})
  }

  /** The value when it is truthy, `None` otherwise. */
  function IfPresent(s: Option<string>): Option<string> {
    if Present(s) then s else None
  }

  /** `int(s)` of a number field; a value that does not parse (the empty string
      included) raises `ValueError`, which is only logged, and leaves the field out. */
  function Parsed(s: Option<string>): (r: Option<int>)
    ensures s.None? || s == Some("") ==> r.None?
    ensures s.Some? ==> r == ParseInt(s.value)
  {
    if s.Some? then ParseInt(s.value) else None
  }

  /** The tags list joined with commas, when there is one. */
  function JoinedTags(tags: Option<seq<string>>): Option<string> {
    if tags.Some? then Some(Join(tags.value, ",")) else None
  }

  /** Why the client refuses to build a form; `Message` gives the error text. */
  datatype Refusal = TokenNotSet | EpisodeIdMissing | NothingToUpdate

  function Message(e: Refusal): string {
    match e
    case TokenNotSet => "Spreaker API token not set."
    case EpisodeIdMissing => "Spreaker episode ID is required for an update."
    case NothingToUpdate => "No details provided to update for Spreaker episode."
  }

  /** The form to post, or the error the client returns instead. */
  datatype Payload = Ready(form: Form) | Refused(reason: Refusal)

  /** Exactly one publishing mode: the upload is scheduled or it is not. */
  predicate OneMode(f: Form) { f.autoPublishedAt.Some? != f.autoPublish.Some? }

  class SpreakerClient {
    var apiToken: Option<string>

    constructor(apiToken: Option<string> := None)
      ensures this.apiToken == apiToken
    {
      this.apiToken := apiToken;
    }

    method SetApiToken(token: string)
      modifies this
      ensures apiToken == Some(token)
    {
      apiToken := Some(token);
    }

    /** The slot search as the code runs it: an unparseable stored publish string
        leaves the start unassigned and the search gives nothing. The result is the
        local instant that is then rendered in UTC. */
    method CalculateNextPublishTime(inputs: ScheduleInputs) returns (slot: Option<int>)
      ensures slot == NextPublishTimeAsWritten(inputs)
      ensures slot.Some? ==> slot == NextPublishTime(inputs)
      ensures slot.Some? ==> var p := Prepare(inputs, true).value;
        slot.value >= p.now + UsPerHour && Weekday(DayOf(slot.value)) in p.targets
        && ClockOf(slot.value) == ClockOffset(p.clock)
    {
      if inputs.config.None? || inputs.config.value == map[] {
        return None;
      }
      var config := inputs.config.value;
      var zone := Zone(config, inputs.zoneOverride, inputs.knownZones);
      if zone.None? {
        return None;
      }
      var now := inputs.localNow(zone.value);
      var timeText := Lookup(config, "publish_time_local", "05:00");
      if timeText.None? {
        return None;
      }
      var clock := PublishClock(timeText.value);
      var start: int;
      if inputs.lastScheduled.Some? && inputs.lastScheduled.value != "" {
        match inputs.toLocal(zone.value, inputs.lastScheduled.value)
        case Some(l) =>
          start := AtClock(DayOf(l) + 1, 0);
        case None =>
          // the start stays unbound; the NameError at the `max` ends the search
          return None;
      } else {
        start := now;
      }
      start := Max(start, now + UsPerHour);
      assert Some(start) == SearchStartAsWritten(now, inputs.lastScheduled, LastLocal(inputs, zone.value));
      assert Prepare(inputs, true) == PrepareWeekly(config, now, start, clock);
      if !Weekly(config) {
        return None;
      }
      var daysText := DaysText(config);
      if daysText.None? {
        return None;
      }
      var targets := WeekdayTargets(Split(daysText.value, ','));
      if targets == [] || !ValidClock(clock) {
        return None;
      }
      var p := SlotSearch(now, start, clock, targets);
      assert Prepare(inputs, true) == Some(p);
      slot := Walk(p);
      if slot.Some? {
        FindSlotProperties(p);
        AsWrittenDiffersOnlyOnUnparseable(inputs);
      }
    }

    /** Lines up the publish time on the start's day (or the next one) and walks
        forward a day at a time, at most 366 times. */
    static method Walk(p: SlotSearch) returns (slot: Option<int>)
      requires ValidClock(p.clock)
      ensures slot == FindSlot(p)
    {
      var offset := ClockOffset(p.clock);
      var candidate := AtClock(DayOf(p.start), offset);
      if candidate < p.start {
        candidate := AtClock(DayOf(p.start + UsPerDay), offset);
      }
      var firstDay := FirstCandidateDay(p.start, offset);
      assert candidate == AtClock(firstDay, offset);
      slot := WalkFrom(candidate, firstDay, offset, p.targets);
    }

    /** The day-by-day part of the walk, from the candidate on `firstDay`. */
    static method WalkFrom(start: int, firstDay: int, offset: int, targets: seq<int>) returns (slot: Option<int>)
      requires 0 <= offset < UsPerDay && start == AtClock(firstDay, offset)
      ensures slot == Shifted(FirstAllowedDay(firstDay, targets, 366), offset)
    {
      var candidate := start;
      var day := firstDay;
      for i := 0 to 366
        invariant day == firstDay + i && candidate == AtClock(day, offset)
        invariant FirstAllowedDay(firstDay, targets, 366) == FirstAllowedDay(day, targets, 366 - i)
      {
        AtClockParts(day, offset);
        if Weekday(DayOf(candidate)) in targets {
          return Some(candidate);
        }
        FirstAllowedStep(day, targets, 366 - i);
        candidate := candidate + UsPerDay;
        day := day + 1;
      }
      return None;
    }

    /** A truthy number field converted with `int()`; a `ValueError` is only
        logged and leaves the field out. */
    static method ParseNumber(s: Option<string>) returns (n: Option<int>)
      ensures n == Parsed(s)
    {
      n := None;
      if Present(s) {
        n := ParseInt(s.value);
      }
    }

    /** The form of an upload: the title, exactly one publishing mode, and each
        optional field only when it is truthy (the numbers only when they parse). */
    method UploadPayload(title: string, description: Option<string>, publishAt: Option<string>,
                         tags: Option<seq<string>>, seasonNumber: Option<string>,
                         episodeNumber: Option<string>, transcriptUrl: Option<string>,
                         forceDraft: bool) returns (r: Payload)
      ensures r.Refused? <==> !Present(apiToken)
      ensures r.Refused? ==> r.reason == TokenNotSet
      ensures r.Ready? ==> r.form.title == Some(title) && r.form.publishAt.None? && OneMode(r.form)
      ensures r.Ready? ==> r.form.autoPublishedAt == IfPresent(publishAt)
      ensures r.Ready? && !Present(publishAt) ==> r.form.autoPublish == Some(!forceDraft)
      ensures r.Ready? ==> r.form.description == IfPresent(description)
      ensures r.Ready? ==> r.form.tags == if tags == Some([]) then None else JoinedTags(tags)
      ensures r.Ready? ==> r.form.transcriptUrl == IfPresent(transcriptUrl)
      ensures r.Ready? ==> r.form.seasonNumber == Parsed(seasonNumber)
      ensures r.Ready? ==> r.form.episodeNumber == Parsed(episodeNumber)
    {
      if !Present(apiToken) {
        return Refused(TokenNotSet);
      }
      var data := UploadTexts(title, description, publishAt, tags, transcriptUrl, forceDraft);
      var season := ParseNumber(seasonNumber);
      var episode := ParseNumber(episodeNumber);
      return Ready(data.(seasonNumber := season, episodeNumber := episode));
    }

    /** Every field of an upload but the two numbers. */
    static method UploadTexts(title: string, description: Option<string>, publishAt: Option<string>,
                              tags: Option<seq<string>>, transcriptUrl: Option<string>,
                              forceDraft: bool) returns (data: Form)
      ensures data.title == Some(title) && data.publishAt.None? && OneMode(data)
      ensures data.autoPublishedAt == IfPresent(publishAt)
      ensures !Present(publishAt) ==> data.autoPublish == Some(!forceDraft)
      ensures data.description == IfPresent(description)
      ensures data.tags == if tags == Some([]) then None else JoinedTags(tags)
      ensures data.transcriptUrl == IfPresent(transcriptUrl)
      ensures data.seasonNumber.None? && data.episodeNumber.None?
    {
      var autoPublishedAt, autoPublish := None, None;
      if Present(publishAt) {
        autoPublishedAt := publishAt;
      } else if forceDraft {
        autoPublish := Some(false);
      } else {
        autoPublish := Some(true);
      }
      var text, joined, transcript := None, None, None;
      if Present(description) {
        text := description;
      }
      if tags.Some? && tags.value != [] {
        joined := Some(Join(tags.value, ","));
      }
      if Present(transcriptUrl) {
        transcript := transcriptUrl;
      }
      data := Form(Some(title), autoPublishedAt, autoPublish, None, text, joined, transcript, None, None);
    }

    /** The form of an update: every field that is not `None`, a publish time also
        setting `auto_publish` to false; an error when the token or the episode is
        missing or there is nothing to send. */
    method UpdatePayload(episodeId: string, title: Option<string>, description: Option<string>,
                         publishAt: Option<string>, autoPublish: Option<bool>,
                         seasonNumber: Option<string>, episodeNumber: Option<string>,
                         tags: Option<seq<string>>) returns (r: Payload)
      ensures !Present(apiToken) ==> r == Refused(TokenNotSet)
      ensures Present(apiToken) && episodeId == "" ==> r == Refused(EpisodeIdMissing)
      ensures Present(apiToken) && episodeId != "" ==>
        (r.Refused? <==> UpdateIsEmpty(title, description, publishAt, autoPublish, seasonNumber, episodeNumber, tags))
      ensures Present(apiToken) && episodeId != "" && r.Refused? ==> r.reason == NothingToUpdate
      ensures r.Ready? ==> r.form.title == title && r.form.description == description
      ensures r.Ready? ==> r.form.publishAt == publishAt && r.form.tags == JoinedTags(tags)
      ensures r.Ready? ==> r.form.autoPublish == if publishAt.Some? then Some(false) else autoPublish
      ensures r.Ready? ==> r.form.seasonNumber == Parsed(seasonNumber) && r.form.episodeNumber == Parsed(episodeNumber)
      ensures r.Ready? ==> r.form.autoPublishedAt.None? && r.form.transcriptUrl.None?
    {
      if !Present(apiToken) {
        return Refused(TokenNotSet);
      }
      if episodeId == "" {
        return Refused(EpisodeIdMissing);
      }
      var flag := None;
      if publishAt.Some? {
        flag := Some(false);
      } else if autoPublish.Some? {
        flag := autoPublish;
      }
      var season, episode := None, None;
      if seasonNumber.Some? {
        season := ParseInt(seasonNumber.value);
      }
      if episodeNumber.Some? {
        episode := ParseInt(episodeNumber.value);
      }
      var joined := None;
      if tags.Some? {
        joined := Some(Join(tags.value, ","));
      }
      var data := Form(title, None, flag, publishAt, description, joined, None, season, episode);
      if data == NoFields {
        return Refused(NothingToUpdate);
      }
      return Ready(data);
    }
  }

  /** Nothing to send in an update: every argument is `None`, except that numbers
      which do not parse count as absent. */
  predicate UpdateIsEmpty(title: Option<string>, description: Option<string>, publishAt: Option<string>,
                          autoPublish: Option<bool>, seasonNumber: Option<string>,
                          episodeNumber: Option<string>, tags: Option<seq<string>>)
  {
    title.None? && description.None? && publishAt.None? && autoPublish.None? && tags.None?
    && Parsed(seasonNumber).None? && Parsed(episodeNumber).None?
  }
}
