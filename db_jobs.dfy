/** The `processing_jobs` table of `db_jobs.py`, held in memory: adding a job,
    recording its status, the active and history listings, and re-running a job
    under a fresh output name. */
module DbJobs {
  import opened Wrappers
  import opened Strings
  import opened JsonValues
  import opened Sorting

  /** Every column a job is created with, as stored; a NULL column is `JNull`. */
  datatype JobSettings = JobSettings(
    templatePath: Json,
    recordingFilename: Json,
    uploadedRecordingPath: Json,
    episodeNumber: Json,
    episodeTopic: Json,
    aiIntroText: Json,
    removeFillers: Json,
    stopWordDetectionEnabled: Json,
    internCommandEnabled: Json,
    internCommandKeyword: Json,
    seasonNumber: Json,
    removePauses: Json,
    generateTranscript: Json,
    generateShowNotes: Json,
    useGeminiForSummary: Json,
    downloadPoster: Json,
    minPauseDurationSec: Json,
    customFillerWordsCsv: Json,
    jobBaseOutputDir: Json,
    podcastId: Json,
    commercialBreaksEnabled: Json,
    commercialBreaksCount: Json,
    commercialBreaksMinDurationBetweenSec: Json,
    commercialBreaksMaxDurationBetweenSec: Json,
    commercialBreaksMinSilenceMs: Json,
    commercialBreaksCuePhrases: Json,
    commercialBreaksAudioKeys: Json)

  /** The settings of `add_processing_job` when only the required arguments are
      given. */
  function DefaultSettings(templatePath: string, recordingFilename: string, uploadedRecordingPath: string): JobSettings {
    JobSettings(
      JStr(templatePath), JStr(recordingFilename), JStr(uploadedRecordingPath),
      JNull, JNull, JNull,
      JBool(true), JBool(true), JBool(false), JStr("intern"),
      JNull, JBool(true), JBool(true), JBool(true), JBool(false), JBool(true),
      JFloat(1.5), JNull, JNull, JNull,
      JBool(false), JInt(1), JFloat(300.0), JFloat(600.0), JInt(1000), JNull, JNull)
  }

  /** One row; `createdAt` and `updatedAt` are the `NOW()` of the writes. */
  datatype Job = Job(
    id: nat,
    settings: JobSettings,
    outputBaseFilename: Option<string>,
    status: string,
    createdAt: int,
    updatedAt: int)

  /** The status column: the status alone, or followed by ": " and at most 200
      characters of a non-empty error message. */
  function StatusText(status: string, errorMessage: Option<string>): (r: string)
    ensures !Present(errorMessage) ==> r == status
    ensures Present(errorMessage) ==> StartsWith(r, status + ": ") && |r| == |status| + 2 + Min(200, |errorMessage.value|)
    ensures Present(errorMessage) ==> r[|status| + 2..] == errorMessage.value[..Min(200, |errorMessage.value|)]
  {
    if Present(errorMessage) then status + ": " + Prefix(errorMessage.value, 200) else status
  }

  predicate IsActive(j: Job) { j.status == "pending" || j.status == "processing" }

  // ---------------------------------------------------------------------------
  // Re-run naming
  // ---------------------------------------------------------------------------

  predicate Is14Digits(s: string) { |s| == 14 && IsDigits(s) }

  /** The length of the part `_\d{14}(_rerun)?$` matches at the end of `name`;
      `$` also matches just before a final line break. */
  function StampSuffix(name: string): (k: Option<nat>)
    ensures k.Some? ==> k.value <= |name| && k.value in {15, 16, 21, 22}
  {
    var body := if EndsWith(name, "\n") then name[..|name| - 1] else name;
    var extra := |name| - |body|;
    if |body| >= 15 && body[|body| - 15] == '_' && Is14Digits(body[|body| - 14..]) then Some(15 + extra)
    else if |body| >= 21 && EndsWith(body, "_rerun") && body[|body| - 21] == '_' && Is14Digits(body[|body| - 20..|body| - 6]) then Some(21 + extra)
    else None
  }

  /** The base of a name: group 1 of `^(.*)_\d{14}(_rerun)?$`, or the whole name
      when the pattern does not match. `.` does not match a line break. */
  function RerunBase(name: string): (base: string)
    ensures |base| <= |name| && base == name[..|base|]
  {
    match StampSuffix(name)
    case Some(k) => if '\n' in name[..|name| - k] then name else name[..|name| - k]
    case None => name
  }

  /** `f"{base}_{stamp}_rerun"`. */
  function RerunName(base: string, stamp: string): string {
    base + "_" + stamp + "_rerun"
  }

  lemma Is14DigitsNoBreak(s: string)
    requires Is14Digits(s)
    ensures '\n' !in s && !EndsWith(s, "n")
  {
    assert IsDigit(s[|s| - 1]);
  }

  /** The base of a re-run name is the base it was built from. */
  lemma {:induction false} RerunBaseOfRerunName(base: string, stamp: string)
    requires Is14Digits(stamp) && '\n' !in base
    ensures RerunBase(RerunName(base, stamp)) == base
  {
    var name := RerunName(base, stamp);
    Is14DigitsNoBreak(stamp);
    assert name == base + "_" + stamp + "_rerun";
    assert !EndsWith(name, "\n") by {
      assert name[|name| - 1] == 'n';
    }
    assert name[|name| - 15] == stamp[5];
    assert !Is14Digits(name[|name| - 14..]) by {
      assert name[|name| - 1] == 'n';
    }
    assert EndsWith(name, "_rerun") && name[|name| - 21] == '_';
    assert name[|name| - 20..|name| - 6] == stamp;
    assert name[..|name| - 21] == base;
  }

  /** A name with a plain stamp, `base_<14 digits>`, also reads back to its base. */
  lemma RerunBaseOfStampedName(base: string, stamp: string)
    requires Is14Digits(stamp) && '\n' !in base
    ensures RerunBase(base + "_" + stamp) == base
  {
    var name := base + "_" + stamp;
    Is14DigitsNoBreak(stamp);
    assert !EndsWith(name, "\n") by {
      assert name[|name| - 1] == stamp[13];
    }
    assert name[|name| - 15] == '_' && name[|name| - 14..] == stamp;
    assert name[..|name| - 15] == base;
  }

  /** Re-running a re-run does not stack suffixes: the new name has the same
      base as the original whenever that base is a single line. */
  lemma RerunNameDoesNotAccumulate(original: string, stamp: string)
    requires Is14Digits(stamp) && '\n' !in RerunBase(original)
    ensures RerunBase(RerunName(RerunBase(original), stamp)) == RerunBase(original)
  {
    RerunBaseOfRerunName(RerunBase(original), stamp);
  }

  /** A wall-clock reading, as `datetime.now()` gives it. */
  datatype Clock = Clock(year: nat, month: nat, day: nat, hour: nat, minute: nat, second: nat)

  predicate ValidClock(c: Clock) {
    1000 <= c.year <= 9999 && 1 <= c.month <= 12 && 1 <= c.day <= 31
    && c.hour < 24 && c.minute < 60 && c.second < 60
  }

  function Pow10(w: nat): nat { if w == 0 then 1 else 10 * Pow10(w - 1) }

  /** `n` in `w` digits with leading zeros. */
  function Pad(n: nat, w: nat): (r: string)
    requires n < Pow10(w)
    ensures |r| == w && forall i :: 0 <= i < w ==> IsDigit(r[i])
    ensures DigitsValue(r) == n
  {
    if w == 0 then "" else
      var r := Pad(n / 10, w - 1) + [DigitChar(n % 10)];
      assert r[..|r| - 1] == Pad(n / 10, w - 1);
      r
  }

  /** `strftime('%Y%m%d%H%M%S')`. */
  function Stamp(c: Clock): (s: string)
    requires ValidClock(c)
    ensures Is14Digits(s)
    ensures DigitsValue(s[..4]) == c.year && DigitsValue(s[4..6]) == c.month
      && DigitsValue(s[6..8]) == c.day && DigitsValue(s[8..10]) == c.hour
      && DigitsValue(s[10..12]) == c.minute && DigitsValue(s[12..]) == c.second
  {
    var y, mo, d, h, mi, se := Pad(c.year, 4), Pad(c.month, 2), Pad(c.day, 2), Pad(c.hour, 2), Pad(c.minute, 2), Pad(c.second, 2);
    var s := y + mo + d + h + mi + se;
    assert s[..4] == y && s[4..6] == mo && s[6..8] == d;
    assert s[8..10] == h && s[10..12] == mi && s[12..] == se;
    s
  }

  // ---------------------------------------------------------------------------
  // Copying settings for a re-run
  // ---------------------------------------------------------------------------

  /** The settings a re-run is created with: every column passed on as stored,
      the nine switches through `bool(...)`. */
  function RerunSettings(s: JobSettings): (r: JobSettings)
  {
    JobSettings(
      s.templatePath, s.recordingFilename, s.uploadedRecordingPath,
      s.episodeNumber, s.episodeTopic, s.aiIntroText,
      JBool(Truthy(s.removeFillers)), JBool(Truthy(s.stopWordDetectionEnabled)),
      JBool(Truthy(s.internCommandEnabled)), s.internCommandKeyword,
      s.seasonNumber, JBool(Truthy(s.removePauses)), JBool(Truthy(s.generateTranscript)),
      JBool(Truthy(s.generateShowNotes)), JBool(Truthy(s.useGeminiForSummary)), JBool(Truthy(s.downloadPoster)),
      s.minPauseDurationSec, s.customFillerWordsCsv, s.jobBaseOutputDir, s.podcastId,
      JBool(Truthy(s.commercialBreaksEnabled)), s.commercialBreaksCount,
      s.commercialBreaksMinDurationBetweenSec, s.commercialBreaksMaxDurationBetweenSec,
      s.commercialBreaksMinSilenceMs, s.commercialBreaksCuePhrases, s.commercialBreaksAudioKeys)
  }

  /** Settings whose switches are already booleans. */
  predicate BooleanSwitches(s: JobSettings) {
    s.removeFillers.JBool? && s.stopWordDetectionEnabled.JBool? && s.internCommandEnabled.JBool?
    && s.removePauses.JBool? && s.generateTranscript.JBool? && s.generateShowNotes.JBool?
    && s.useGeminiForSummary.JBool? && s.downloadPoster.JBool? && s.commercialBreaksEnabled.JBool?
  }

  /** A re-run keeps each switch's truth value and makes it a boolean; settings
      with boolean switches are copied unchanged, so re-running a re-run copies
      the same settings again. */
  lemma RerunSettingsKeepMeaning(s: JobSettings)
    ensures BooleanSwitches(RerunSettings(s))
    ensures var r := RerunSettings(s);
      Truthy(r.removeFillers) == Truthy(s.removeFillers)
      && Truthy(r.stopWordDetectionEnabled) == Truthy(s.stopWordDetectionEnabled)
      && Truthy(r.internCommandEnabled) == Truthy(s.internCommandEnabled)
      && Truthy(r.removePauses) == Truthy(s.removePauses)
      && Truthy(r.generateTranscript) == Truthy(s.generateTranscript)
      && Truthy(r.generateShowNotes) == Truthy(s.generateShowNotes)
      && Truthy(r.useGeminiForSummary) == Truthy(s.useGeminiForSummary)
      && Truthy(r.downloadPoster) == Truthy(s.downloadPoster)
      && Truthy(r.commercialBreaksEnabled) == Truthy(s.commercialBreaksEnabled)
    ensures BooleanSwitches(s) ==> RerunSettings(s) == s
    ensures RerunSettings(RerunSettings(s)) == RerunSettings(s)
  {
  }

  /** A job created with the keyword defaults is re-run with exactly the same
      settings. */
  lemma RerunOfDefaultsKeepsSettings(templatePath: string, recordingFilename: string, uploadedRecordingPath: string)
    ensures var s := DefaultSettings(templatePath, recordingFilename, uploadedRecordingPath);
      RerunSettings(s) == s
  {
    RerunSettingsKeepMeaning(DefaultSettings(templatePath, recordingFilename, uploadedRecordingPath));
  }

  /** Every column other than the switches is copied as stored. */
  lemma RerunSettingsCopyColumns(s: JobSettings)
    ensures var r := RerunSettings(s);
      r.templatePath == s.templatePath && r.recordingFilename == s.recordingFilename
      && r.uploadedRecordingPath == s.uploadedRecordingPath && r.episodeNumber == s.episodeNumber
      && r.episodeTopic == s.episodeTopic && r.aiIntroText == s.aiIntroText
      && r.internCommandKeyword == s.internCommandKeyword && r.seasonNumber == s.seasonNumber
      && r.minPauseDurationSec == s.minPauseDurationSec && r.customFillerWordsCsv == s.customFillerWordsCsv
      && r.jobBaseOutputDir == s.jobBaseOutputDir && r.podcastId == s.podcastId
      && r.commercialBreaksCount == s.commercialBreaksCount
      && r.commercialBreaksMinDurationBetweenSec == s.commercialBreaksMinDurationBetweenSec
      && r.commercialBreaksMaxDurationBetweenSec == s.commercialBreaksMaxDurationBetweenSec
      && r.commercialBreaksMinSilenceMs == s.commercialBreaksMinSilenceMs
      && r.commercialBreaksCuePhrases == s.commercialBreaksCuePhrases
      && r.commercialBreaksAudioKeys == s.commercialBreaksAudioKeys
  {
  }

  // ---------------------------------------------------------------------------
  // Listings
  // ---------------------------------------------------------------------------

  /** The rows whose activity is `active`, in table order. */
  function Select(rows: seq<Job>, active: bool): (r: seq<Job>)
    ensures forall j :: j in r <==> j in rows && IsActive(j) == active
    ensures |r| <= |rows|
  {
    if rows == [] then []
    else (if IsActive(rows[0]) == active then [rows[0]] else []) + Select(rows[1..], active)
  }

  /** `ORDER BY created_at ASC`. */
  predicate OlderFirst(a: Job, b: Job) { a.createdAt <= b.createdAt }

  /** `ORDER BY updated_at DESC, created_at DESC`. */
  predicate RecentFirst(a: Job, b: Job) {
    a.updatedAt > b.updatedAt || (a.updatedAt == b.updatedAt && a.createdAt >= b.createdAt)
  }

  lemma OrdersArePreorders()
    ensures IsTotalPreorder(OlderFirst)
    ensures IsTotalPreorder(RecentFirst)
  {
  }

  /** The rows of `get_all_active_jobs`. */
  function ActiveJobs(rows: seq<Job>): seq<Job> {
    OrdersArePreorders();
    SortBy(Select(rows, true), OlderFirst)
  }

  /** The rows of `get_job_history(limit)`; a negative limit is an SQL error,
      which the function turns into an empty list. */
  function JobHistory(rows: seq<Job>, limit: int): seq<Job> {
    OrdersArePreorders();
    var all := SortBy(Select(rows, false), RecentFirst);
    if limit < 0 then [] else all[..Min(limit, |all|)]
  }

  /** Active jobs are exactly the pending and processing ones, oldest first. */
  lemma ActiveJobsMeaning(rows: seq<Job>)
    ensures forall j :: j in ActiveJobs(rows) <==> j in rows && IsActive(j)
    ensures SortedBy(ActiveJobs(rows), OlderFirst)
    ensures multiset(ActiveJobs(rows)) == multiset(Select(rows, true))
  {
    OrdersArePreorders();
    var s := Select(rows, true);
    assert multiset(ActiveJobs(rows)) == multiset(s);
    forall j ensures j in ActiveJobs(rows) <==> j in s {
      assert j in ActiveJobs(rows) <==> j in multiset(ActiveJobs(rows));
      assert j in s <==> j in multiset(s);
    }
  }

  /** History holds only jobs that are neither pending nor processing, the most
      recently updated first, at most `limit` of them, and none left out is
      more recent than one it holds. */
  lemma JobHistoryMeaning(rows: seq<Job>, limit: int)
    ensures forall j :: j in JobHistory(rows, limit) ==> j in rows && !IsActive(j)
    ensures SortedBy(JobHistory(rows, limit), RecentFirst)
    ensures |JobHistory(rows, limit)| == if limit < 0 then 0 else Min(limit, |Select(rows, false)|)
  {
    OrdersArePreorders();
    var s := Select(rows, false);
    var all := SortBy(s, RecentFirst);
    forall j | j in all ensures j in s {
      assert j in multiset(all);
    }
  }

  /** Nothing that history leaves out under a non-negative limit is more
      recent than what it holds. */
  lemma JobHistoryIsTop(rows: seq<Job>, limit: nat)
    ensures var all := SortBy(Select(rows, false), RecentFirst);
      JobHistory(rows, limit) == all[..Min(limit, |all|)]
      && forall a, b :: 0 <= a < Min(limit, |all|) <= b < |all| ==> RecentFirst(all[a], all[b])
  {
    OrdersArePreorders();
  }

  // ---------------------------------------------------------------------------
  // The table
  // ---------------------------------------------------------------------------

  class JobTable {
    /** The rows in insertion order; row `i` has id `i + 1` (`SERIAL`). */
    var rows: seq<Job>

    ghost predicate Valid()
      reads this
    {
      forall i :: 0 <= i < |rows| ==> rows[i].id == i + 1
    }

    constructor ()
      ensures rows == [] && Valid()
    {
      rows := [];
    }

    /** `get_job_details`: the row with that id, if any. */
    function Details(jobId: int): (r: Option<Job>)
      reads this
      requires Valid()
      ensures r.Some? <==> exists i :: 0 <= i < |rows| && rows[i].id == jobId
      ensures r.Some? ==> r.value in rows && r.value.id == jobId
    {
      if 1 <= jobId <= |rows| then Some(rows[jobId - 1]) else None
    }

    /** `add_processing_job`: a new `pending` row under the next id. */
    method AddProcessingJob(settings: JobSettings, outputBaseFilename: Option<string>, now: int) returns (jobId: nat)
      requires Valid()
      modifies this
      ensures Valid()
      ensures jobId == |old(rows)| + 1
      ensures rows == old(rows) + [Job(jobId, settings, outputBaseFilename, "pending", now, now)]
    {
      jobId := |rows| + 1;
      rows := rows + [Job(jobId, settings, outputBaseFilename, "pending", now, now)];
    }

    /** `update_job_status`: rewrites the status and `updated_at` of the row with
        that id; an unknown id changes nothing and still reports success. */
    method UpdateJobStatus(jobId: int, status: string, errorMessage: Option<string>, now: int) returns (ok: bool)
      requires Valid()
      modifies this
      ensures Valid() && ok
      ensures 1 <= jobId <= |old(rows)| ==>
        rows == old(rows)[jobId - 1 := old(rows)[jobId - 1].(status := StatusText(status, errorMessage), updatedAt := now)]
      ensures !(1 <= jobId <= |old(rows)|) ==> rows == old(rows)
    {
      if 1 <= jobId <= |rows| {
        var row := rows[jobId - 1];
        rows := rows[jobId - 1 := row.(status := StatusText(status, errorMessage), updatedAt := now)];
      }
      ok := true;
    }

    /** `recreate_job_from_existing`: a missing job, or one whose output name is
        NULL (the pattern match raises, and the error is caught), gives `None`
        and adds nothing; otherwise a new pending job with the copied settings
        and a fresh re-run name. */
    method RecreateJobFromExisting(originalId: int, clock: Clock, now: int) returns (newId: Option<nat>)
      requires Valid() && ValidClock(clock)
      modifies this
      ensures Valid()
      ensures old(Details(originalId)).None? ==> newId.None? && rows == old(rows)
      ensures old(Details(originalId)).Some? && old(Details(originalId)).value.outputBaseFilename.None? ==>
        newId.None? && rows == old(rows)
      ensures old(Details(originalId)).Some? && old(Details(originalId)).value.outputBaseFilename.Some? ==>
        var original := old(Details(originalId)).value;
        newId == Some(|old(rows)| + 1)
        && rows == old(rows) + [Job(|old(rows)| + 1, RerunSettings(original.settings),
             Some(RerunName(RerunBase(original.outputBaseFilename.value), Stamp(clock))), "pending", now, now)]
    {
      var original := Details(originalId);
      if original.None? || original.value.outputBaseFilename.None? {
        return None;
      }
      var base := RerunBase(original.value.outputBaseFilename.value);
      var name := RerunName(base, Stamp(clock));
      var id := AddProcessingJob(RerunSettings(original.value.settings), Some(name), now);
      newId := Some(id);
    }

    /** `get_all_active_jobs`: the query's rows copied one by one. */
    method GetAllActiveJobs() returns (jobsList: seq<Job>)
      ensures jobsList == ActiveJobs(rows)
    {
      var selected := ActiveJobs(rows);
      jobsList := [];
      for i := 0 to |selected|
        invariant jobsList == selected[..i]
      {
        jobsList := jobsList + [selected[i]];
      }
    }

    /** `get_job_history(limit)`: the query's rows copied one by one. */
    method GetJobHistory(limit: int) returns (jobsList: seq<Job>)
      ensures jobsList == JobHistory(rows, limit)
    {
      var selected := JobHistory(rows, limit);
      jobsList := [];
      for i := 0 to |selected|
        invariant jobsList == selected[..i]
      {
        jobsList := jobsList + [selected[i]];
      }
    }
  }

  /** A freshly added job is listed among the active jobs, and the history is
      the same as before. */
  lemma NewJobIsListedActive(rows: seq<Job>, settings: JobSettings, name: Option<string>, now: int, limit: int)
    ensures var j := Job(|rows| + 1, settings, name, "pending", now, now);
      j in ActiveJobs(rows + [j]) && JobHistory(rows + [j], limit) == JobHistory(rows, limit)
  {
    var j := Job(|rows| + 1, settings, name, "pending", now, now);
    ActiveJobsMeaning(rows + [j]);
    SelectAppendInactive(rows, j);
  }

  /** Appending an active row leaves the inactive selection unchanged. */
  lemma {:induction false} SelectAppendInactive(rows: seq<Job>, j: Job)
    requires IsActive(j)
    ensures Select(rows + [j], false) == Select(rows, false)
  {
    if rows == [] {
      assert Select([j], false) == [] + Select([], false);
    } else {
      assert (rows + [j])[1..] == rows[1..] + [j];
      SelectAppendInactive(rows[1..], j);
    }
  }
}
