# Podcast production pipeline: the decision and bookkeeping core

This project models, in Dafny, the parts of the podcast production pipeline
(tgdscott/podcastpro) that decide things and keep records. The audio engine
itself and the web front end are not part of it. The modelled parts are:

- **Cutting a recording** (`remove_segments_from_audio`). A track is a sequence
  of frames, one per millisecond. The operation removes possibly unsorted,
  overlapping `[start, end)` ranges. If nothing would remain, it returns the
  original track.
- **Break timestamps** (both `analyze_audio_for_breaks` variants). The silence
  detector and the decoder are a parameter. Each silent interval becomes its
  midpoint in seconds.
- **The Spreaker client.** It searches for the next weekly publish slot and
  builds the form fields of an upload and of an update.
- **The job runner's decisions** (`run_podcast_job.py`):
  - the folder-name parser and its regular expression;
  - the API-key lookup chain;
  - the job, podcast and template precedence rules;
  - the episode number and topic merge;
  - the season number and AI-intro selection.
- **The three record stores**: the processing-jobs table (including the rerun
  file names), the episodes table and the podcasts table.
- **The podcast template**: the constructor defaults, resolving audio file paths
  against the template directory, `from_files`, and saving and loading.
- **The OMDb and Gemini clients.** This covers the title/year handling, the
  order in which years are tried, and the parsing of the `SUMMARY:` / `TAGS:`
  reply.

Modelling choices:

- **Time.**
  - Local date-times are microseconds of wall-clock time counted from a Monday
    midnight, so the day index fixes the weekday (Monday = 0).
  - "now", the time-zone database and the conversion of a stored UTC string to
    local time are inputs.
  - The database's `NOW()` is a `now` parameter of every operation that stamps
    a row.
  - The clock is an explicit `Clock` record where a rerun name is stamped.
- **Database tables** are classes that hold their rows in a sequence.
  - Each operation's `ensures` gives the new rows as a function of the old ones.
  - The UNIQUE constraints the schema declares (podcast title, episode publish
    time) decide whether a write happens.
  - SERIAL ids are the row position plus one, since nothing is deleted in the
    modelled operations.
- **JSON and dictionaries.** Template and settings dictionaries are a small
  `Json` value type. Python truthiness, `dict.get` with a default, and `int()`
  are written out (`Truthy`, `Get`, `PyInt`).
- **Outside services.** HTTP replies, the Gemini SDK and the silence detector
  are parameters, so each operation is a function of what they return.
- **Exceptions** that the source catches become `None`, `Err` or the fallback
  value that the `except` branch returns.

Each module follows one source file: `AudioUtilities`, `BreakAnalysis`,
`Spreaker`, `JobRunner`, `DbJobs`, `Templates`, `ExternalApiClients`,
`DbEpisodes` and `DbPodcasts`. Five helper modules support them:

- `Wrappers`: Option and Result;
- `Strings`: strip, split, join, `int()` parsing, code-point order;
- `JsonValues`;
- `Sorting`: a stable insertion sort under a total preorder, standing for
  `sorted` and `ORDER BY`;
- `Paths`: posixpath `join`, `dirname`, `basename`, `isabs` and `normpath`.

## Model

| member | source | states |
|---|---|---|
| AudioUtilities.RemoveSegmentsFromAudio | app/utils/audio_utilities.py:42-53 | The loop over the sorted ranges computes `RemovedSegments`. An empty range list returns the track unchanged. For well-formed ranges (start not after end) the result is the track with every covered frame removed, or the original track when nothing would remain. |
| AudioUtilities.ExciseSorted | app/utils/audio_utilities.py:46-50 | The `last_end` loop over ranges in sorted order builds exactly the concatenation of the gaps between the ranges, then the tail after the last end. |
| AudioUtilities.ExciseIsKept | app/utils/audio_utilities.py:46-50 | On sorted, well-formed ranges, that concatenation is the subsequence of frames that no range covers. |
| AudioUtilities.RemovedSegmentsMeaning | app/utils/audio_utilities.py:42-53 | For well-formed ranges in any order: the frames outside every range, in order, or the original track when every frame is covered. |
| AudioUtilities.RemovedSegmentsUnion | app/utils/audio_utilities.py:47-49 | Two range lists that cover the same frames of the track give the same result. Overlapping or nested ranges therefore act as their union, and order does not matter. |
| AudioUtilities.RemovedSegmentsAreSelection | app/utils/audio_utilities.py:46-50 | A non-empty result is the frames at strictly increasing positions. Those positions are exactly the uncovered ones, so nothing is reordered or duplicated, every uncovered frame is kept, and no covered frame is. |
| AudioUtilities.RemovedSegmentsLength | app/utils/audio_utilities.py:46-52 | A non-empty result is as long as the track minus the number of track frames covered by the union of the ranges. |
| AudioUtilities.RemovedSegmentsAllCovered | app/utils/audio_utilities.py:53 | When the ranges cover the whole track, the original track comes back. |
| AudioUtilities.KeptOfSameElements | app/utils/audio_utilities.py:47 | Sorting the ranges does not change which frames are kept: two range lists with the same elements keep the same frames. |
| AudioUtilities.InvertedCutRepeatsFrames | app/utils/audio_utilities.py:47-50 | A range with start after end is not rejected: removing (5, 2) from ten frames repeats frames 2-4. |
| AudioUtilities.LastEndIsLargestEnd | app/utils/audio_utilities.py:49 | The running `max(last_end, end)` is the largest end of all ranges, and it is one of them. |
| AudioUtilities.KeptPositions | app/utils/audio_utilities.py:48 | The uncovered positions below a bound, strictly increasing, none of them covered, and all of them listed. |
| AudioUtilities.Clip | app/utils/audio_utilities.py:48 | `audio[from:to]`: the slice when it lies inside the track, empty when `to <= from`, the tail when `to` runs past the end. |
| AudioUtilities.CutLeIsTotalPreorder | app/utils/audio_utilities.py:47 | Tuple order on (start, end), which `sorted` uses, is total, reflexive and transitive. |
| BreakAnalysis.Timestamps | app/utils/enhanced_audio_processor.py:31 | One timestamp per silent interval. |
| BreakAnalysis.Breaks | app/utils/enhanced_audio_processor.py:27-38 | A detector failure gives `[]` and so does no silence. Otherwise the result is the midpoints of the intervals. |
| BreakAnalysis.AnalyzeAudioForBreaks | app/utils/enhanced_audio_processor.py:7-38 | The module function: `silence_threshold` (default -40) and `min_silence_len` (default 1500), both through `int()`. A failed conversion gives `[]`; otherwise `Breaks` of the detector's answer. `AnalyzeDefaults`, `ThresholdReachesDetector` and `UnconvertibleSettingGivesNothing` state its cases. |
| BreakAnalysis.EnhancedAnalyzeAudioForBreaks | enhanced_audio_processor.py:6-31 | The class variant: `silence_thresh` through `int()`, and `min_silence_len` passed as stored. `AnalyzeDefaults` and `ThresholdKeysDiffer` contrast it with the module function. |
| BreakAnalysis.AnalyzeDefaults | app/utils/enhanced_audio_processor.py:14-15 | With no settings, both variants ask the detector for threshold -40 and minimum length 1500 ms. The root-level class passes 1500 unconverted. |
| BreakAnalysis.ThresholdKeysDiffer | enhanced_audio_processor.py:12 | The class variant reads only `silence_thresh`; the module function reads only `silence_threshold`. Setting the other variant's key changes nothing. |
| BreakAnalysis.ThresholdReachesDetector | app/utils/enhanced_audio_processor.py:14 | An integer under `silence_threshold` reaches the module function's detector. The class variant still uses -40. |
| BreakAnalysis.UnconvertibleSettingGivesNothing | app/utils/enhanced_audio_processor.py:23 | A minimum length that `int()` rejects makes the module function return `[]`. |
| BreakAnalysis.MidpointWithin | app/utils/enhanced_audio_processor.py:31 | `((start + end) / 2) / 1000` lies between `start / 1000` and `end / 1000`. |
| BreakAnalysis.TimestampsMeaning | app/utils/enhanced_audio_processor.py:31 | One timestamp per interval, in interval order, each inside its interval. Ordered, non-overlapping intervals give strictly increasing timestamps. |
| Spreaker.SpreakerClient.CalculateNextPublishTime | app/utils/spreaker_client.py:23-102 | The method runs the search as the code does and computes `NextPublishTimeAsWritten`. A stored last-publish string that does not parse gives no slot. Any slot it returns equals the corrected search's slot. That slot is at least now + 1 h, falls on a configured weekday, and is exactly at the configured hour and minute. |
| Spreaker.NextPublishTimeAsWritten | app/utils/spreaker_client.py:23-102 | `calculate_next_publish_time` as written: every early exit, then the walk. An unparseable stored publish string abandons the search. `AsWrittenDiffersOnlyOnUnparseable` ties it to `NextPublishTime`. |
| Spreaker.NextPublishTime | app/utils/spreaker_client.py:64-95 | The corrected search, which starts from now when the stored string does not parse, as the log message at line 66 says. `NextPublishTimeProperties` and `NextPublishTimeNoneIff` state its meaning. |
| Spreaker.FindSlot | app/utils/spreaker_client.py:83-95 | The walk from the first candidate day, at most 366 days, at the publish time. `FindSlotProperties` and `FindSlotSucceedsIff` state its meaning. |
| Spreaker.PublishClock | app/utils/spreaker_client.py:44-49 | `map(int, text.split(':'))` into hour and minute, with 05:00 on `ValueError`. `PublishClockOfText` and `PublishClockFallback` state both outcomes. |
| Spreaker.PublishClockOfText | app/utils/spreaker_client.py:44-46 | A text with exactly one colon whose two parts both parse as integers reads as those numbers. |
| Spreaker.PublishClockFallback | app/utils/spreaker_client.py:44-49 | Every other text, including one with no colon, two colons or a part that does not parse, gives 05:00. |
| Spreaker.SpreakerClient.Walk | app/utils/spreaker_client.py:83-95 | Moves the candidate to the publish time, a day later if that is before the search start, then walks up to 366 days. The result equals `FindSlot`. |
| Spreaker.SpreakerClient.WalkFrom | app/utils/spreaker_client.py:89-95 | The 366-step loop returns the first day whose weekday is a target, at the publish time, or nothing. |
| Spreaker.SpreakerClient.UploadPayload | app/utils/spreaker_client.py:111-140 | Refused exactly when the token is missing or empty. The form always has the title and exactly one publishing mode: `auto_published_at` for a given time, otherwise `auto_publish` = not force_draft. Description, tags and transcript URL appear only when truthy. Season and episode numbers appear only when they parse as integers. |
| Spreaker.SpreakerClient.UpdatePayload | app/utils/spreaker_client.py:175-207 | A missing token, then a missing episode id, are refused with their own messages. An update with no fields is refused. Each non-None argument is sent. A publish time forces `auto_publish` false. Season and episode numbers appear only when they parse. |
| Spreaker.SpreakerClient.constructor | app/utils/spreaker_client.py:17-18 | The client starts with the token it is given. |
| Spreaker.SpreakerClient.SetApiToken | app/utils/spreaker_client.py:20-21 | The token is replaced. |
| Spreaker.Zone | app/utils/spreaker_client.py:37-39 | Only a known zone is used. A non-empty override wins over the configured zone, and `pytz` rejects an unknown one. |
| Spreaker.WeekdayTargets | app/utils/spreaker_client.py:77 | At most one target per comma token, and never negative. |
| Spreaker.TokenTargetSpells | app/utils/spreaker_client.py:77 | A token yields weekday w exactly when, once stripped, it is all digits and spells w. |
| Spreaker.WeekdayTargetsMembers | app/utils/spreaker_client.py:77 | w is a target exactly when some token spells it (both directions). |
| Spreaker.SearchStart | app/utils/spreaker_client.py:64-72 | Never before now + 1 h. After a parsed last publish it is the later of the next local midnight and now + 1 h. |
| Spreaker.SearchStartAsWritten | app/utils/spreaker_client.py:54-72 | The code's start is missing exactly when a stored last-publish string fails to parse. Otherwise it agrees with `SearchStart`. |
| Spreaker.Prepare | app/utils/spreaker_client.py:29-80 | None without a schedule, or with an empty one. Otherwise it goes on only with a zone; the local now comes from that zone, the clock from `publish_time_local` (default "05:00"), and the rest is `PrepareWeekly` of those. Any search it returns has a valid clock time, a non-empty target list and a start at least now + 1 h. |
| Spreaker.PrepareWeekly | app/utils/spreaker_client.py:75-80 | Goes on exactly when the schedule type is `weekly`, `days_of_week` (default "0,2,4") is not NULL and yields at least one weekday, and the clock is valid. The targets are the weekdays of `days_of_week`; start, now and clock are kept. |
| Spreaker.FirstCandidateIsEarliest | app/utils/spreaker_client.py:83-87 | The first candidate is at or after the search start, and no earlier day at the publish time is. |
| Spreaker.FirstAllowedDay | app/utils/spreaker_client.py:89-95 | The first day within the bound whose weekday is a target, and none before it. Nothing exactly when no day in the bound qualifies. |
| Spreaker.FindSlotSucceedsIff | app/utils/spreaker_client.py:89-95 | The walk finds a slot exactly when some target lies in 0..6. A token such as "7" alone gives no slot. |
| Spreaker.FindSlotProperties | app/utils/spreaker_client.py:71-93 | The slot is at or after the start and now + 1 h, at exactly the configured hour and minute, on a target weekday. No earlier instant at that time of day since the start qualifies. |
| Spreaker.NextPublishTimeProperties | app/utils/spreaker_client.py:71-92 | A computed slot is at least now + 1 h, on a configured weekday, at the configured time of day. |
| Spreaker.NextPublishTimeNoneIff | app/utils/spreaker_client.py:89-95 | Once the configuration is accepted, no slot is found exactly when no target is a weekday number 0..6. |
| Spreaker.AsWrittenDiffersOnlyOnUnparseable | app/utils/spreaker_client.py:54-66 | The code as written and the corrected search differ only when a stored last-publish string is present, and then the code gives nothing. |
| Spreaker.UnparseableLastPublishAbandonsSearch | app/utils/spreaker_client.py:54-72 | On the example of the first finding, the code gives no slot and the corrected search gives Monday 05:00. |
| Spreaker.DefaultPublishClock | app/utils/spreaker_client.py:44 | The default "05:00" reads as 5:00. |
| Spreaker.DefaultWeekdays | app/utils/spreaker_client.py:76 | The default "0,2,4" reads as Monday, Wednesday, Friday. |
| Spreaker.PublishClockOfFormatted | app/utils/spreaker_client.py:44-46 | Any "H:M" written as decimal numbers reads back as that hour and minute. |
| Spreaker.PublishClockOfDigits | app/utils/spreaker_client.py:46 | Two digit strings around one colon read as their values. |
| Spreaker.Keys | app/utils/spreaker_client.py:207 | A form has no keys exactly when it is the empty dictionary. |
| Spreaker.Parsed | app/utils/spreaker_client.py:135-140 | A missing or empty number is never sent. Otherwise the result is `int()` of the text, or nothing on `ValueError`. |
| JobRunner.ParseFolder | run_podcast_job.py:55-78 | A number is found exactly when the regular expression matches, and then it is all digits. A topic comes only with a number, is non-empty and has no surrounding whitespace. |
| JobRunner.ParseDetailsFromPathFallback | run_podcast_job.py:45-51 | An empty or missing path gives (None, None). |
| JobRunner.ContainingFolderOnly | run_podcast_job.py:49-51 | Only the name of the folder that contains the file is parsed. |
| JobRunner.FolderBareNumber | run_podcast_job.py:55-65 | A bare number with surrounding blanks gives (N, None). |
| JobRunner.FolderBracketed | run_podcast_job.py:55-63 | "N - [T]" gives (N, strip(T)), or (N, None) when T strips to nothing. |
| JobRunner.FolderPlain | run_podcast_job.py:55-65 | "N - T" gives (N, strip(T)). |
| JobRunner.FolderDashOnly | run_podcast_job.py:67-68 | "N -" reports no topic. |
| JobRunner.FolderWithoutNumber | run_podcast_job.py:80-82 | A folder that does not start with digits after blanks gives (None, None). |
| JobRunner.FolderMatch | run_podcast_job.py:55 | A match never fills both topic groups, and its number group is all digits. |
| JobRunner.DigitRun | run_podcast_job.py:55 | `\d+` is greedy: the longest run of leading digits. |
| JobRunner.LineEnd | run_podcast_job.py:55 | `.*` stops at the first line break. |
| JobRunner.ClosingBracket | run_podcast_job.py:55 | The lazy `\[(.*?)\]` closes at the first `]` followed only by blanks, with no line break before it. |
| JobRunner.TopicMatch | run_podcast_job.py:55 | The topic alternative keeps the number and fills at most one of the two topic groups. |
| JobRunner.AfterNumber | run_podcast_job.py:55 | The optional "- topic" part keeps the number and fills at most one topic group. |
| JobRunner.Stored | run_podcast_job.py:280-288 | A stored key is used only when it is present and non-empty. |
| JobRunner.TemplateKey | run_podcast_job.py:294-303 | A template key is used only when truthy. An `elevenlabs` entry that is not an object raises, and only for the ElevenLabs service. |
| JobRunner.KeyChain | run_podcast_job.py:274-306 | A globally disabled service has no key. Otherwise the DB key wins, then the environment, then the template, and the template only when its feature flag is on. Any key returned is truthy. |
| JobRunner.EffectiveApiKeyAsWritten | run_podcast_job.py:268-306 | `get_effective_api_key` as written, with the feature flag read as one flat key. `ElevenLabsTemplateKeyIgnored` shows its ElevenLabs case. |
| JobRunner.EffectiveApiKey | run_podcast_job.py:268-306 | The corrected lookup, with a dotted flag read as a path. `FlagsAgreeWithoutDot` shows it agrees with the code for the Gemini and OMDb flags. `ElevenLabsTemplateKeyUsed` shows the ElevenLabs template key it then finds. |
| JobRunner.FlagsAgreeWithoutDot | run_podcast_job.py:309-310 | For a flag name without a dot, the code as written and the path reading give the same key. This covers the Gemini, OMDb and Spreaker lookups. |
| JobRunner.ElevenLabsTemplateKeyIgnored | run_podcast_job.py:293 | On a template that enables ElevenLabs only in its `elevenlabs` object, the code as written finds no key. |
| JobRunner.ElevenLabsTemplateKeyUsed | run_podcast_job.py:294-303 | With the flag read as a path, an enabled `elevenlabs` object supplies its `api_key` whenever neither the DB nor the environment has one. |
| JobRunner.TemplateOnlyElevenLabsKeyExists | run_podcast_job.py:308 | The example of the second finding satisfies its conditions. |
| JobRunner.Overrides | run_podcast_job.py:389-404 | All run settings, each from `BoolOverride` or `ValueOverride` with the stated template key and default, and the stop word from the template. `JobSwitchWins`, `JobValueWins`, `UnsetJobUsesTemplate` and `StopWordFromTemplateOnly` state its meaning. |
| JobRunner.StopWordFromTemplateOnly | run_podcast_job.py:399-401 | The stop word never depends on the job. It is the template's word, or '' when there is none. |
| JobRunner.UnsetJobUsesTemplate | run_podcast_job.py:389-404 | A job with none of the eleven settings set takes each one from the template key or its default; stop-word detection takes the stop-word object's `enabled`, default true. |
| JobRunner.JobSwitchWins | run_podcast_job.py:389-399 | Each of the eight switches the job sets is `bool(job value)`, whatever the template and stop-word objects hold. |
| JobRunner.JobValueWins | run_podcast_job.py:396-404 | An intern keyword, pause length or filler-word list the job sets is used as stored, whatever the template holds. |
| JobRunner.SeasonNumber | run_podcast_job.py:361-364 | A set job season wins. A NULL season is possible only when the template stores NULL explicitly. |
| JobRunner.SeasonFromPodcast | run_podcast_job.py:361-362 | Without a job season, the podcast default is used. |
| JobRunner.SeasonFromTemplate | run_podcast_job.py:363-364 | Without a job season or podcast default, the template's `gui_season_number` is used, else "1". |
| JobRunner.OrNull | run_podcast_job.py:352 | A parsed value missing from the path becomes NULL. |
| JobRunner.MergeEpisodePerField | run_podcast_job.py:344-353 | Each of the number and the topic is kept when truthy in the job record. Otherwise it is taken from the path. |
| JobRunner.MergeEpisode | run_podcast_job.py:344-353 | The episode number and topic from the job row, with the path parsed only when either one is missing. `MergeEpisodePerField` states its meaning. |
| JobRunner.AiIntroText | run_podcast_job.py:372-373 | No intro text unless ElevenLabs is effectively on. The result is always the job's text, the template's `gui_default_ai_intro_text` or None, and the job's text when it is truthy. |
| JobRunner.VoiceId | run_podcast_job.py:375 | A voice id only when ElevenLabs is on and the template names one. |
| DbJobs.JobTable.AddProcessingJob | db_jobs.py:16-77 | Appends one `pending` row with the next id and the given settings. Nothing else changes. |
| DbJobs.JobTable.UpdateJobStatus | db_jobs.py:91-102 | Sets the status text and `updated_at` of the row with that id and touches no other row. It answers true even for an unknown id. |
| DbJobs.JobTable.RecreateJobFromExisting | db_jobs.py:160-212 | A missing job, or one without an output name, gives None and no new row. Otherwise it appends one `pending` copy with coerced switches and the rerun name. |
| DbJobs.JobTable.GetAllActiveJobs | db_jobs.py:117-128 | Returns `ActiveJobs` of the current rows. |
| DbJobs.JobTable.GetJobHistory | db_jobs.py:142-158 | Returns `JobHistory` of the current rows. |
| DbJobs.JobTable.Details | db_jobs.py:79-89 | The row with that id, when there is one. |
| DbJobs.JobTable.constructor | db_jobs.py:16 | The table starts empty. |
| DbJobs.StatusText | db_jobs.py:95 | The status alone without a message. Otherwise "status: " and the first 200 characters of the message. |
| DbJobs.StampSuffix | db_jobs.py:172 | The length of a trailing `_<14 digits>` or `_<14 digits>_rerun` suffix, with an optional final newline: 15, 16, 21 or 22. `RerunBaseOfStampedName` and `RerunBaseOfRerunName` show both suffixes are recognised. |
| DbJobs.RerunBase | db_jobs.py:171-173 | The base is a prefix of the name. |
| DbJobs.RerunBaseOfRerunName | db_jobs.py:172-174 | A rerun name reads back to its base. |
| DbJobs.RerunBaseOfStampedName | db_jobs.py:171-173 | A name `base_<14 digits>` reads back to its base. |
| DbJobs.RerunNameDoesNotAccumulate | db_jobs.py:172-174 | Rerunning a rerun gives the same base, so suffixes never stack. |
| DbJobs.RerunName | db_jobs.py:174 | `{base}_{stamp}_rerun`. `RerunBaseOfRerunName` and `RerunNameDoesNotAccumulate` state that it reads back to its base. |
| DbJobs.Stamp | db_jobs.py:174 | `strftime('%Y%m%d%H%M%S')` of a valid clock: 14 digits whose six fields spell year, month, day, hour, minute and second. |
| DbJobs.Pad | db_jobs.py:174 | A zero-padded field is exactly its width, all digits, and spells the number. |
| DbJobs.RerunSettingsKeepMeaning | db_jobs.py:186-198 | Each of the nine switches keeps its truth value and becomes a boolean. Re-copying a copy changes nothing. |
| DbJobs.RerunOfDefaultsKeepsSettings | db_jobs.py:21-42 | A job created with the keyword defaults of `add_processing_job` is re-run with exactly those settings. |
| DbJobs.RerunSettingsCopyColumns | db_jobs.py:176-205 | Every other column is copied as stored. |
| DbJobs.RerunSettings | db_jobs.py:176-205 | The settings a rerun is created with. `RerunSettingsKeepMeaning` and `RerunSettingsCopyColumns` state what each column becomes. |
| DbJobs.Select | db_jobs.py:122 | Keeps exactly the rows with the requested activity. |
| DbJobs.OrdersArePreorders | db_jobs.py:150 | Oldest-first and most-recent-first are total preorders. |
| DbJobs.ActiveJobsMeaning | db_jobs.py:122 | Exactly the `pending` and `processing` rows, as a permutation of them, in ascending `created_at`. |
| DbJobs.ActiveJobs | db_jobs.py:117-128 | The active rows, oldest first. `ActiveJobsMeaning` states its meaning. |
| DbJobs.JobHistory | db_jobs.py:142-158 | The inactive rows, most recent first, cut to the limit. `JobHistoryMeaning` and `JobHistoryIsTop` state its meaning. |
| DbJobs.JobHistoryMeaning | db_jobs.py:147-152 | Only rows with any other status, including "failed: ..." texts, by `updated_at` then `created_at` descending. It holds at most `limit` rows, and exactly that many when enough exist. |
| DbJobs.JobHistoryIsTop | db_jobs.py:150-151 | The history is the first `limit` of the sorted inactive rows, and each is at least as recent as every row left out. |
| DbJobs.NewJobIsListedActive | db_jobs.py:61-63 | A job just inserted as `pending` is listed by `get_all_active_jobs`, and `get_job_history` is the same as before. |
| DbJobs.SelectAppendInactive | db_jobs.py:147-149 | Appending an active row leaves the inactive selection unchanged. |
| Templates.PodcastTemplate.constructor | app/utils/podcast_template.py:11-52 | Keeps the config and directory. Each missing section takes its stated default, and a present one is used as-is. |
| Templates.PodcastTemplate.AudioFiles | app/utils/podcast_template.py:54-68 | Returns `ResolvedAudioFiles` of the raw mapping and the template directory. |
| Templates.AudioFilesShape | app/utils/podcast_template.py:57-68 | Without a directory, the raw mapping comes back unchanged. With one, it succeeds exactly when no path has the wrong type, and then has the same keys, each value resolved. |
| Templates.ResolvedAudioFiles | app/utils/podcast_template.py:54-68 | The `audio_files` property: the raw value without a directory; otherwise each path resolved, or the error the loop raises. `AudioFilesShape` states its meaning. |
| Templates.ResolveRelative | app/utils/podcast_template.py:62-64 | A relative path resolves to a path that is absolute exactly when the directory is, and to `dir/path` for clean relative parts. |
| Templates.Update | app/utils/podcast_template.py:98-101 | `dict.update`: the union of the keys, with supplied values winning and every other default kept. |
| Templates.FromFiles | app/utils/podcast_template.py:70-149 | Builds a template with no directory whose config is `FromFilesConfig`. That config is missing only when the fade duration cannot be negated, and then nothing is built. |
| Templates.FromFilesSections | app/utils/podcast_template.py:97-148 | Each supplied sub-config updates its defaults key by key. The audio files, segments, beds and timing sections are the stated ones. |
| Templates.FromFilesConfig | app/utils/podcast_template.py:70-149 | The configuration `from_files` builds, or none for a fade duration that cannot be negated. `FromFilesSections` and the `Default...` lemmas state its sections. |
| Templates.DefaultSegmentOrder | app/utils/podcast_template.py:112-123 | Five segments, in order intro, ai_intro, transition, main_content, outro, with their types and source keys. Only main_content is the recording. |
| Templates.DefaultSegmentsFindTheirFiles | app/utils/podcast_template.py:104-127 | Every `file` segment and the background bed name a key of `audio_files`. Intro, transition and outro play the intro, transition and outro files, and the bed plays the background file. |
| Templates.DefaultAudioFilesLookup | app/utils/podcast_template.py:104-109 | `audio_files` has exactly the four keys, each holding the file supplied for it. |
| Templates.DefaultBedSource | app/utils/podcast_template.py:125-127 | The background bed plays `main_background_music`. |
| Templates.DefaultBedTiming | app/utils/podcast_template.py:124-135 | The bed starts at `background_start_offset`, ends at minus `background_fade_duration`, fades out over it, and spans intro, ai_intro and transition. |
| Templates.SegmentJsonFields | app/utils/podcast_template.py:112-123 | A segment's role, type and source key come through to its JSON object. |
| Templates.SegmentJsons | app/utils/podcast_template.py:112-123 | One JSON object per segment, in order. |
| Templates.SegmentJsonsFields | app/utils/podcast_template.py:113-122 | Each listed segment's role, type and source key are kept. |
| Templates.PodcastTemplate.SaveToFile | app/utils/podcast_template.py:151-155 | The file at that path now holds the config, and no other file changes. |
| Templates.Disk.constructor | app/utils/podcast_template.py:154 | The file store starts empty. |
| Templates.LoadFromFile | app/utils/podcast_template.py:157-167 | A missing file raises, and so does a file that is not an object. Otherwise the template has that config and the file's directory. |
| Templates.SaveThenLoad | app/utils/podcast_template.py:151-167 | Saving then loading gives the same config and the same sections, with the directory of the file. |
| ExternalApiClients.GeminiClient.constructor | app/utils/external_api_clients.py:68-80 | A model exists exactly when a key is set, the SDK is installed and configuring it succeeds. |
| ExternalApiClients.GeminiClient.GenerateContent | app/utils/external_api_clients.py:82-111 | No model or a failed call gives (None, []). Otherwise the parsed reply. |
| ExternalApiClients.ParseReply | app/utils/external_api_clients.py:102-110 | The reply text stripped, then the summary and the tag list. The lemmas below, from `SummaryPresence` to `KeepTagsOfAcceptable`, state their meaning. |
| ExternalApiClients.SummaryOf | app/utils/external_api_clients.py:103-105 | The text between the first `SUMMARY:` and the next `TAGS:`, stripped. `SummaryPresence` and `SummaryHasNoMarker` state its meaning. |
| ExternalApiClients.TagList | app/utils/external_api_clients.py:106-107 | The comma-separated pieces stripped, the acceptable ones kept, the first 20 taken. `TagListBounds` and `TagListOfJoin` state its meaning. |
| ExternalApiClients.SummaryPresence | app/utils/external_api_clients.py:103 | A summary is found exactly when some "SUMMARY:" is followed by a "TAGS:", in any letter case. |
| ExternalApiClients.SummaryHasNoMarker | app/utils/external_api_clients.py:105 | The summary is stripped and contains no "TAGS:", so the match stops at the first marker. |
| ExternalApiClients.NoTagsMarker | app/utils/external_api_clients.py:104 | Without "TAGS:" there is neither a summary nor any tag. |
| ExternalApiClients.TagListBounds | app/utils/external_api_clients.py:106-107 | At most 20 tags. Each is non-empty, at most 30 characters, stripped and without a comma. |
| ExternalApiClients.TagListOfJoin | app/utils/external_api_clients.py:106-107 | Up to 20 acceptable tags joined with commas parse back to the same list, in order. |
| ExternalApiClients.KeepTags | app/utils/external_api_clients.py:107 | Only acceptable tags are kept. |
| ExternalApiClients.KeepTagsMembership | app/utils/external_api_clients.py:107 | A tag is kept exactly when it is in the input and acceptable. |
| ExternalApiClients.KeepTagsSublist | app/utils/external_api_clients.py:107 | Every kept tag comes from the input. |
| ExternalApiClients.KeepTagsOfAcceptable | app/utils/external_api_clients.py:107 | A list of acceptable tags is kept whole. |
| ExternalApiClients.FindMarker | app/utils/external_api_clients.py:103 | The first case-insensitive occurrence at or after a position, or none at all. |
| ExternalApiClients.OmdbClient.constructor | app/utils/external_api_clients.py:31-32 | The client starts with the key it is given. |
| ExternalApiClients.OmdbClient.SetApiKey | app/utils/external_api_clients.py:34-35 | The key is replaced. |
| ExternalApiClients.OmdbClient.SearchMoviePoster | app/utils/external_api_clients.py:37-65 | Returns `SearchResult` of the key, the title, the year and the OMDb replies. |
| ExternalApiClients.SearchResult | app/utils/external_api_clients.py:37-65 | `search_movie_poster` as a function of the key, the title, the year and the replies. `SearchWithoutKeyOrTitle` and `FirstPosterMeaning` state its cases. |
| ExternalApiClients.SearchTitle | app/utils/external_api_clients.py:45-48 | The stripped title without a final year in parentheses. `YearSuffixRemoved` states its meaning. |
| ExternalApiClients.YearSuffixBase | app/utils/external_api_clients.py:47 | Group 1 of the year pattern, when it matches. `YearSuffixBaseOf` states its meaning. |
| ExternalApiClients.FirstPoster | app/utils/external_api_clients.py:54-61 | The poster of the first year whose reply is a hit. `FirstPosterMeaning` states its meaning. |
| ExternalApiClients.TryYears | app/utils/external_api_clients.py:54-63 | The year loop returns `FirstPoster`. |
| ExternalApiClients.FirstPosterMeaning | app/utils/external_api_clients.py:54-61 | A poster is found exactly when some year hits. It is the poster of the first year that hits, and no earlier year hits. |
| ExternalApiClients.SearchWithoutKeyOrTitle | app/utils/external_api_clients.py:38-43 | No key gives (None, title). A key and no title gives (None, None). |
| ExternalApiClients.YearSuffixRemoved | app/utils/external_api_clients.py:45-48 | "Title (YYYY)" is searched as "Title". |
| ExternalApiClients.YearSuffixBaseOf | app/utils/external_api_clients.py:47-48 | The year pattern's first group is the title before the year. |
| DbEpisodes.EpisodeTable.RecordScheduledEpisode | db_episodes.py:65-79 | A publish time already in the table is rejected with no change. Otherwise one row is appended with the given columns and the tag column. |
| DbEpisodes.EpisodeTable.UpdateEpisodeMetadataInDb | db_episodes.py:93-123 | An update with nothing to set answers false and changes nothing. Otherwise the matching rows are patched (the whole update is refused if publish times would collide), and the answer is true exactly when some row matched. |
| DbEpisodes.EpisodeTable.GetLatestScheduledPublishTime | db_episodes.py:50-63 | The largest stored publish time, or none exactly when every stored time is NULL or empty. |
| DbEpisodes.EpisodeTable.GetEpisodeDetailsForReupload | db_episodes.py:125-141 | None exactly when no row has that number. Otherwise the columns of a row with that number whose `created_at` is the latest. |
| DbEpisodes.EpisodeTable.constructor | db_episodes.py:65 | The table starts empty. |
| DbEpisodes.TagsColumn | db_episodes.py:69 | NULL exactly for a missing or empty list. |
| DbEpisodes.TagsColumnRoundTrip | db_episodes.py:69 | A non-empty list of comma-free tags splits back from the column. |
| DbEpisodes.PatchChangesSuppliedFields | db_episodes.py:104-113 | Exactly the truthy paths and time, and tags when not None (an empty list included), change, plus `created_at`. |
| DbEpisodes.PatchKeepsKeys | db_episodes.py:113 | An update never changes the Spreaker id, the episode number or the topic. |
| DbEpisodes.UpdatedRows | db_episodes.py:113 | The update keeps the number of rows. |
| DbEpisodes.UpdateWithoutPublishKeepsConstraint | db_episodes.py:104-114 | An update without a publish time keeps every publish time, so the UNIQUE constraint still holds. |
| DbEpisodes.ApplyUpdate | db_episodes.py:113-116 | The statement updates the matching rows only, and the row count is positive exactly when some row matched. |
| DbEpisodes.BuildAssignments | db_episodes.py:104-110 | The list of assignments is built from the supplied fields, in the source's order. |
| DbEpisodes.MaxPublish | db_episodes.py:54 | The maximum non-NULL publish string in code-point order, or none when every time is NULL. |
| DbEpisodes.LatestMeaning | db_episodes.py:50-63 | A returned time is stored and no stored time exceeds it. None exactly when every stored time is NULL or empty. |
| DbEpisodes.LatestScheduledPublishTime | db_episodes.py:50-63 | The `MAX` of the stored publish times when it is truthy. `LatestMeaning` states its meaning. |
| DbEpisodes.LatestCreated | db_episodes.py:129-134 | A row with that number whose `created_at` is at least every other row's with that number. None exactly when there is none. |
| DbPodcasts.PodcastTable.AddPodcastProject | db_podcasts.py:13-36 | A taken title is rejected with None and no change. Otherwise one row is appended with the next id, the defaults (timezone America/Los_Angeles, uses_omdb false) for arguments not given, and `updated_at`. |
| DbPodcasts.PodcastTable.UpdatePodcastProject | db_podcasts.py:62-95 | With every field None it answers false and changes nothing. Otherwise the row with that id gets exactly the supplied fields and `updated_at`. It answers true, also when no row has that id, unless the new title is taken. |
| DbPodcasts.PodcastTable.GetAllPodcastProjects | db_podcasts.py:49-60 | Returns `ProjectList` of the rows. |
| DbPodcasts.PodcastTable.constructor | db_podcasts.py:13 | The table starts empty. |
| DbPodcasts.PatchChangesSuppliedFields | db_podcasts.py:71-83 | Exactly the non-None fields change, and `updated_at`. Nothing else. |
| DbPodcasts.TextAssignmentsEffect | db_podcasts.py:71-74 | The title, author, description and cover art assignments set exactly those supplied. |
| DbPodcasts.SettingAssignmentsEffect | db_podcasts.py:75-78 | The template, show id, timezone and uses_omdb assignments set exactly those supplied. |
| DbPodcasts.NoAssignmentsMeansNoChanges | db_podcasts.py:71-80 | The field list is empty exactly when every argument is None. |
| DbPodcasts.UpdateKeepsTitlesUnique | db_podcasts.py:71 | An update with a title no other row has keeps titles unique. |
| DbPodcasts.UpdatedRows | db_podcasts.py:88 | The update keeps the number of rows. |
| DbPodcasts.BuildAssignments | db_podcasts.py:71-78 | The list of fields to update is built in the source's order. |
| DbPodcasts.AppendTextAssignments | db_podcasts.py:71-74 | The first four conditional appends. |
| DbPodcasts.AppendSettingAssignments | db_podcasts.py:75-78 | The last four conditional appends, after the first ones. |
| DbPodcasts.TitleOrderIsPreorder | db_podcasts.py:54 | Title order is a total preorder. |
| DbPodcasts.ProjectList | db_podcasts.py:54 | One summary per row. |
| DbPodcasts.ProjectListMeaning | db_podcasts.py:54-57 | Exactly the summaries of the rows, in ascending title order, with no title twice when titles are unique. |

## Left out

- The audio engine that the job runner calls (`process_complex_podcast`, `find_commercial_break_locations`) is not part of this model. The same goes for `analyze_audio_for_commercial_breaks` and the rest of `run_job`: the status writes, processor construction and Spreaker publishing.
- `remove_long_pauses_from_segment` and `audio_segment_to_whisper_input` are left out. They are pydub/numpy float work. Decoding and `detect_silence` are parameters.
- The cut model counts ranges in `nat`. Negative pydub offsets, which count from the end of a track, are left out.
- Real numbers are exact. The float rounding of `((start + end) / 2) / 1000.0` is left out.
- Time zones are inputs: pytz, DST, daylight-saving jumps across `timedelta(days=1)`, and the UTC ISO text of the returned slot. A slot is returned as a local instant.
- I/O and network are left out: HTTP requests and responses to Spreaker and OMDb, the Gemini SDK call, files posted with an upload, Google Cloud Storage. Replies are parameters.
- Database connections, commits and driver errors are left out. So are the commit after the `with` block at `db_jobs.py:97`, SERIAL ids consumed by failed inserts, and `uses_omdb` being absent from the SQLite schema.
- Other operations of the same files are not modelled because they are not part of this core: `get_schedule_config`, `update_schedule_config`, `delete_scheduled_episode`, `get_all_scheduled_episodes`, `get_episode_by_id`, `get_podcast_project`, `get_job_status`, `delete_job`, `add_job_log` and `get_job_logs` (with `DatabaseLogHandler`).
- Concurrency and the claiming of jobs are not modelled.
- The SQL order of rows that tie on the sort keys is left out. SQL leaves it open; the model's sort is stable.
- Strings compare by code point, not by the database collation.
- `updated_at` is always set, so `NULLS LAST` has nothing to do.
- Digits and letter case are ASCII only. The model's `\d` and `int()` accept only ASCII digits, where Python's also accept other Unicode digits. The model's `int()` takes surrounding whitespace and a sign, but not the underscores Python allows (see `Strings.ParseInt` below). `re.IGNORECASE` and `.lower()` fold only ASCII letters. Whitespace is the full `str.isspace()` set, as `\s` and `strip()` use it.
- The Gemini prompt text and `full_ep_title` are left out. The reply text is the input.
- The JSON text that `save_to_file` writes is left out. The file store holds the JSON value itself.
- DbJobs.Stamp: only clocks with a four-digit year (1000-9999) are modelled, where `%Y` prints exactly four digits.
- Strings.ParseInt: Python's `int()` accepts single underscores between digits ("1_0" is 10); the model rejects them. So `PublishClock` falls back to 05:00 for "1_0:00", `Parsed` leaves out a season or episode number "1_0", and `AnalyzeAudioForBreaks` gives `[]` for a `min_silence_len` of "1_500".
- ExternalApiClients.OmdbReply: a decoded OMDb body that is not a JSON object is left out. Python's `data.get` then raises `AttributeError`, which `search_movie_poster` does not catch (app/utils/external_api_clients.py:59-62). The model's reply always carries an object.
- Spreaker.Zone: the default zone 'America/Los_Angeles' is used only when the configuration has no `podcast_timezone` key and the override is empty. A stored NULL zone makes `pytz` raise, and the model gives no zone then.

## Findings

| source | as written | input that shows it | evidently intended | confidence | as-written member | corrected member |
|---|---|---|---|---|---|---|
| app/utils/spreaker_client.py:54-72 | When the stored last-publish string does not parse, the `except ValueError` branch only logs "Starting search from now" and never assigns `search_start_dt_local`. The `max` at line 72 then raises `NameError`, which the outer handler turns into None. | A weekly schedule with default days and time, a last publish string "not a date", now = Monday 00:00 local. | Start the search from now: the slot is Monday 05:00. | not executed | Spreaker.UnparseableLastPublishAbandonsSearch | Spreaker.NextPublishTimeProperties |
| run_podcast_job.py:293 | The ElevenLabs check key 'elevenlabs.enabled' is read with `config.get`, as one flat key. A template that enables ElevenLabs in its `elevenlabs` object is therefore never asked for the key. | Template {"elevenlabs": {"enabled": true, "api_key": "k"}}, no key in the DB or the environment. | Read the dotted name as the path `elevenlabs` → `enabled`: the key "k" is used. | not executed | JobRunner.ElevenLabsTemplateKeyIgnored | JobRunner.ElevenLabsTemplateKeyUsed |
