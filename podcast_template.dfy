/** `PodcastTemplate` of `app/utils/podcast_template.py`: a JSON configuration
    with defaults for missing sections, audio paths resolved against the
    template's directory, the default template built from four audio files, and
    saving to and loading from a file. */
module Templates {
  import opened Wrappers
  import opened Strings
  import opened JsonValues
  import opened Paths

  // ---------------------------------------------------------------------------
  // Default sections
  // ---------------------------------------------------------------------------

  function DefaultElevenLabs(): Object {
    map["api_key" := JStr(""), "voice_id" := JStr("YOUR_ELEVENLABS_VOICE_ID_HERE"), "enabled" := JBool(false)]
  }

  function DefaultStopWord(): Object {
    map["enabled" := JBool(false), "word" := JStr("")]
  }

  function DefaultCommercialBreaks(): Object {
    map["enabled" := JBool(false), "break_count" := JInt(1),
        "min_duration_between_breaks_sec" := JInt(300), "max_duration_between_breaks_sec" := JInt(600),
        "min_silence_for_break_ms" := JInt(1000), "cue_phrases" := JArr([]), "commercial_audio_keys" := JArr([])]
  }

  /** The legacy timing values `from_files` starts from, in milliseconds. */
  function DefaultTiming(): Object {
    map["background_start_offset" := JInt(1500), "background_fade_duration" := JInt(3500),
        "transition_overlap" := JInt(3000), "outro_overlap" := JInt(10000),
        "fade_in_duration" := JInt(2000), "fade_out_duration" := JInt(2000)]
  }

  /** `d.update(u)` under `if u:`: every key of a non-empty `u` overwrites,
      every other key of `d` survives. */
  function Update(d: Object, u: Option<Object>): (r: Object)
    ensures r.Keys == d.Keys + (if u.Some? then u.value.Keys else {})
    ensures forall k :: k in r ==> r[k] == if u.Some? && k in u.value then u.value[k] else d[k]
  {
    if u.Some? && u.value != map[] then d + u.value else d
  }

  // ---------------------------------------------------------------------------
  // Resolving audio paths
  // ---------------------------------------------------------------------------

  /** A value `os.path.isabs` rejects with a `TypeError`: truthy but not a string. */
  predicate TypeClash(v: Json) { Truthy(v) && !v.JStr? }

  /** One entry of `audio_files`: a non-empty relative path is joined to the
      directory and normalised; anything else is kept. */
  function ResolvePath(dir: string, v: Json): Json
    requires !TypeClash(v)
  {
    if Truthy(v) && !IsAbs(v.s) then JStr(NormPath(Join2(dir, v.s))) else v
  }

  /** The `audio_files` property: without a (non-empty) directory the raw value;
      otherwise each entry resolved, or the error the loop raises. */
  function ResolvedAudioFiles(dir: Option<string>, raw: Json): Result<Json> {
    if !Present(dir) then Ok(raw)
    else if !raw.JObj? then Err("AttributeError")
    else if exists k :: k in raw.fields && TypeClash(raw.fields[k]) then Err("TypeError")
    else Ok(JObj(map k | k in raw.fields :: ResolvePath(dir.value, raw.fields[k])))
  }

  /** Without a directory the mapping is returned as is; with one, the result
      has exactly the keys of the raw mapping, absolute and empty paths are
      kept, and relative ones become paths under the directory. */
  lemma AudioFilesShape(dir: Option<string>, raw: Json)
    ensures !Present(dir) ==> ResolvedAudioFiles(dir, raw) == Ok(raw)
    ensures Present(dir) && raw.JObj? && ResolvedAudioFiles(dir, raw).Ok? ==>
      var r := ResolvedAudioFiles(dir, raw).value;
      r.JObj? && r.fields.Keys == raw.fields.Keys
      && forall k :: k in r.fields ==> r.fields[k] == ResolvePath(dir.value, raw.fields[k])
    ensures Present(dir) && raw.JObj? ==>
      (ResolvedAudioFiles(dir, raw).Ok? <==> forall k :: k in raw.fields ==> !TypeClash(raw.fields[k]))
  {
  }

  lemma Join2Relative(a: string, b: string)
    requires a != [] && !IsAbs(b)
    ensures IsAbs(Join2(a, b)) <==> IsAbs(a)
  {
  }

  /** A resolved relative path is absolute exactly when the directory is, and
      a clean relative path under a clean relative directory becomes
      `dir/path`. */
  lemma ResolveRelative(dir: string, p: string)
    requires dir != [] && p != [] && !IsAbs(p)
    ensures ResolvePath(dir, JStr(p)).JStr?
    ensures IsAbs(ResolvePath(dir, JStr(p)).s) <==> IsAbs(dir)
    ensures CleanRelative(dir) && CleanRelative(p) ==> ResolvePath(dir, JStr(p)) == JStr(dir + "/" + p)
  {
    Join2Relative(dir, p);
    if CleanRelative(dir) && CleanRelative(p) {
      NormPathOfCleanJoin(dir, p);
    }
  }

  // ---------------------------------------------------------------------------
  // The template object
  // ---------------------------------------------------------------------------

  class PodcastTemplate {
    const config: Object
    const templateDir: Option<string>
    const orderedSegments: Json
    const backgroundMusicBeds: Json
    const legacySegments: Json
    const legacyTiming: Json
    const rawAudioFiles: Json
    const elevenlabs: Json
    const stopWord: Json
    const commercialBreaks: Json

    /** Every section is the configuration's own value when present, the
        default otherwise; a present section is taken as a whole. */
    predicate Valid() {
      orderedSegments == Get(config, "ordered_segments", JArr([]))
      && backgroundMusicBeds == Get(config, "background_music_beds", JArr([]))
      && legacySegments == Get(config, "segments", JObj(map[]))
      && legacyTiming == Get(config, "timing", JObj(map[]))
      && rawAudioFiles == Get(config, "audio_files", JObj(map[]))
      && elevenlabs == Get(config, "elevenlabs", JObj(DefaultElevenLabs()))
      && stopWord == Get(config, "stop_word", JObj(DefaultStopWord()))
      && commercialBreaks == Get(config, "commercial_breaks", JObj(DefaultCommercialBreaks()))
    }

    constructor (templateConfig: Object, templateDir: Option<string> := None)
      ensures config == templateConfig && this.templateDir == templateDir
      ensures Valid()
    {
      config := templateConfig;
      this.templateDir := templateDir;
      orderedSegments := Get(templateConfig, "ordered_segments", JArr([]));
      backgroundMusicBeds := Get(templateConfig, "background_music_beds", JArr([]));
      legacySegments := Get(templateConfig, "segments", JObj(map[]));
      legacyTiming := Get(templateConfig, "timing", JObj(map[]));
      rawAudioFiles := Get(templateConfig, "audio_files", JObj(map[]));
      elevenlabs := Get(templateConfig, "elevenlabs", JObj(DefaultElevenLabs()));
      stopWord := Get(templateConfig, "stop_word", JObj(DefaultStopWord()));
      commercialBreaks := Get(templateConfig, "commercial_breaks", JObj(DefaultCommercialBreaks()));
    }

    /** The `audio_files` property, filling the resolved mapping entry by entry. */
    method AudioFiles() returns (r: Result<Json>)
      ensures r == ResolvedAudioFiles(templateDir, rawAudioFiles)
    {
      if !Present(templateDir) {
        return Ok(rawAudioFiles);
      }
      if !rawAudioFiles.JObj? {
        return Err("AttributeError");
      }
      var raw := rawAudioFiles.fields;
      var dir := templateDir.value;
      var resolved: map<string, Json> := map[];
      var todo := raw.Keys;
      while todo != {}
        invariant todo <= raw.Keys
        invariant resolved.Keys == raw.Keys - todo
        invariant forall k :: k in resolved ==> !TypeClash(raw[k]) && resolved[k] == ResolvePath(dir, raw[k])
        decreases |todo|
      {
        var key :| key in todo;
        var pathVal := raw[key];
        if TypeClash(pathVal) {
          return Err("TypeError");
        }
        resolved := resolved[key := ResolvePath(dir, pathVal)];
        todo := todo - {key};
      }
      assert resolved == map k | k in raw :: ResolvePath(dir, raw[k]);
      return Ok(JObj(resolved));
    }

    /** `save_to_file`: the file now holds the configuration. */
    method SaveToFile(disk: Disk, filepath: string)
      modifies disk
      ensures disk.files == old(disk.files)[filepath := JObj(config)]
    {
      disk.files := disk.files[filepath := JObj(config)];
    }
  }

  /** The files `save_to_file` and `load_from_file` use, each holding a JSON
      document. */
  class Disk {
    var files: map<string, Json>

    constructor ()
      ensures files == map[]
    {
      files := map[];
    }
  }

  /** `load_from_file`: a missing file fails to open; a document that is not a
      JSON object has no `.get`. Otherwise a template over the document, whose
      directory is the file's directory. */
  method LoadFromFile(disk: Disk, filePath: string) returns (r: Result<PodcastTemplate>)
    ensures filePath !in disk.files ==> r == Err("FileNotFoundError")
    ensures filePath in disk.files && !disk.files[filePath].JObj? ==> r == Err("AttributeError")
    ensures filePath in disk.files && disk.files[filePath].JObj? ==>
      r.Ok? && fresh(r.value) && r.value.Valid()
      && r.value.config == disk.files[filePath].fields && r.value.templateDir == Some(Dirname(filePath))
  {
    var templateDir := Dirname(filePath);
    if filePath !in disk.files {
      return Err("FileNotFoundError");
    }
    var document := disk.files[filePath];
    if !document.JObj? {
      return Err("AttributeError");
    }
    var t := new PodcastTemplate(document.fields, Some(templateDir));
    return Ok(t);
  }

  /** Saving a template and loading the file back gives the same configuration
      and sections, with the file's directory as the template directory. */
  method SaveThenLoad(t: PodcastTemplate, disk: Disk, filepath: string) returns (loaded: Result<PodcastTemplate>)
    requires t.Valid()
    modifies disk
    ensures loaded.Ok? && loaded.value.config == t.config
    ensures loaded.value.templateDir == Some(Dirname(filepath))
    ensures loaded.value.orderedSegments == t.orderedSegments && loaded.value.rawAudioFiles == t.rawAudioFiles
    ensures loaded.value.elevenlabs == t.elevenlabs && loaded.value.stopWord == t.stopWord
    ensures loaded.value.commercialBreaks == t.commercialBreaks
  {
    t.SaveToFile(disk, filepath);
    loaded := LoadFromFile(disk, filepath);
  }

  // ---------------------------------------------------------------------------
  // The default template
  // ---------------------------------------------------------------------------

  /** One entry of `ordered_segments`: its name, `type`, role, the audio key it
      plays if any, and its remaining keys. */
  datatype SegmentSpec = SegmentSpec(name: string, kind: string, role: string, sourceKey: Option<string>, rest: Object)

  /** The JSON object of a segment; the named keys win over `rest`. */
  function SegmentJson(seg: SegmentSpec): Json {
    var source := if seg.sourceKey.Some? then map["source_key" := JStr(seg.sourceKey.value)] else map[];
    JObj(seg.rest + source + map["name" := JStr(seg.name), "type" := JStr(seg.kind), "role" := JStr(seg.role)])
  }

  function RoleOf(seg: Json): Json {
    if seg.JObj? then Get(seg.fields, "role", JNull) else JNull
  }

  function KindOf(seg: Json): Json {
    if seg.JObj? then Get(seg.fields, "type", JNull) else JNull
  }

  function SourceKeyOf(seg: Json): Json {
    if seg.JObj? then Get(seg.fields, "source_key", JNull) else JNull
  }

  /** The role, type and audio key of a segment can be read back from its JSON. */
  lemma SegmentJsonFields(seg: SegmentSpec)
    ensures RoleOf(SegmentJson(seg)) == JStr(seg.role)
    ensures KindOf(SegmentJson(seg)) == JStr(seg.kind)
    ensures seg.sourceKey.Some? ==> SourceKeyOf(SegmentJson(seg)) == JStr(seg.sourceKey.value)
  {
    assert "type"[0] != "role"[0];
    assert |"source_key"| != |"name"|;
  }

  /** A timing value, with the fallback `from_files` names beside it. */
  function Timing(timing: Object, key: string, fallback: int): Json {
    Get(timing, key, JInt(fallback))
  }

  /** The five `ordered_segments` of the default template. */
  function DefaultSegmentSpecs(timing: Object): seq<SegmentSpec> {
    [ SegmentSpec("Intro", "file", "intro", Some("intro_segment_audio"),
        map["processing" := JObj(map["fade_in_ms" := Timing(timing, "fade_in_duration", 2000)])]),
      SegmentSpec("AI Intro", "generated", "ai_intro", None,
        map["source_api" := JStr("elevenlabs"), "text_source_variable" := JStr("gui_default_ai_intro_text")]),
      SegmentSpec("Transition", "file", "transition", Some("transition_segment_audio"),
        map["processing" := JObj(map["crossfade_with_previous_ms" := Timing(timing, "transition_overlap", 3000)])]),
      SegmentSpec("Main Content", "recording", "main_content", Some("user_recording"), map[]),
      SegmentSpec("Outro", "file", "outro", Some("outro_segment_audio"),
        map["processing" := JObj(map["crossfade_with_previous_ms" := Timing(timing, "outro_overlap", 10000),
                                     "fade_out_ms" := Timing(timing, "fade_out_duration", 2000)])]) ]
  }

  function SegmentJsons(segs: seq<SegmentSpec>): (r: seq<Json>)
    ensures |r| == |segs|
    ensures forall i :: 0 <= i < |segs| ==> r[i] == SegmentJson(segs[i])
  {
    if segs == [] then [] else [SegmentJson(segs[0])] + SegmentJsons(segs[1..])
  }

  function DefaultSegments(timing: Object): seq<Json> {
    SegmentJsons(DefaultSegmentSpecs(timing))
  }

  /** The background bed, or `None` when the fade duration cannot be negated. */
  function DefaultBed(timing: Object): Option<Json> {
    var fade := Timing(timing, "background_fade_duration", 3500);
    match Negate(fade)
    case None => None
    case Some(endOffset) =>
      Some(JObj(map[
        "name" := JStr("Primary Background Music"),
        "source_key" := JStr("main_background_music"),
        "applies_to_roles" := JArr([JStr("intro"), JStr("ai_intro"), JStr("transition")]),
        "start_offset_ms" := Timing(timing, "background_start_offset", 1500),
        "volume_db" := JInt(-12),
        "fade_in_ms" := Timing(timing, "fade_in_duration", 2000),
        "fade_out_ms" := fade,
        "end_offset_ms" := endOffset]))
  }

  function LegacySegments(): Object {
    map["intro" := JObj(map["type" := JStr("intro"), "file" := JStr("intro_segment_audio")]),
        "background" := JObj(map["type" := JStr("background"), "file" := JStr("main_background_music")]),
        "ai_intro" := JObj(map["type" := JStr("generated"), "source" := JStr("elevenlabs")]),
        "transition" := JObj(map["type" := JStr("transition"), "file" := JStr("transition_segment_audio")]),
        "main_podcast" := JObj(map["type" := JStr("recording"), "source" := JStr("user_recording")]),
        "outro" := JObj(map["type" := JStr("outro"), "file" := JStr("outro_segment_audio")])]
  }

  function DefaultAudioFiles(intro: string, background: string, transition: string, outro: string): Object {
    map["intro_segment_audio" := JStr(intro), "transition_segment_audio" := JStr(transition),
        "outro_segment_audio" := JStr(outro), "main_background_music" := JStr(background)]
  }

  /** The top-level sections of a configuration `from_files` writes. */
  datatype Sections = Sections(
    audioFiles: Object, elevenlabs: Object, stopWord: Object, orderedSegments: seq<Json>,
    backgroundMusicBeds: seq<Json>, commercialBreaks: Object, legacySegments: Object, timing: Object)

  /** The configuration holding each section under its key. */
  function ConfigOf(sec: Sections): Object {
    map["audio_files" := JObj(sec.audioFiles),
        "elevenlabs" := JObj(sec.elevenlabs),
        "stop_word" := JObj(sec.stopWord),
        "ordered_segments" := JArr(sec.orderedSegments),
        "background_music_beds" := JArr(sec.backgroundMusicBeds),
        "commercial_breaks" := JObj(sec.commercialBreaks),
        "segments" := JObj(sec.legacySegments),
        "timing" := JObj(sec.timing)]
  }

  /** The sections of the default template, from the merged timing and
      sections and the background bed. */
  function DefaultSections(audioFiles: Object, timing: Object, elevenlabs: Object, stopWord: Object,
                           breaks: Object, bed: Json): Sections {
    Sections(audioFiles, elevenlabs, stopWord, DefaultSegments(timing), [bed], breaks, LegacySegments(), timing)
  }

  /** `from_files`, as the configuration it produces; `None` for the
      `TypeError` of a non-numeric fade duration. */
  function FromFilesConfig(intro: string, background: string, transition: string, outro: string,
                           timingConfig: Option<Object>, elevenlabsConfig: Option<Object>,
                           stopWordConfig: Option<Object>, breaksConfig: Option<Object>): Option<Object> {
    var timing := Update(DefaultTiming(), timingConfig);
    match DefaultBed(timing)
    case None => None
    case Some(bed) =>
      Some(ConfigOf(DefaultSections(DefaultAudioFiles(intro, background, transition, outro), timing,
        Update(DefaultElevenLabs(), elevenlabsConfig), Update(DefaultStopWord(), stopWordConfig),
        Update(DefaultCommercialBreaks(), breaksConfig), bed)))
  }

  /** Each section of the configuration is found under its key. */
  lemma ConfigOfSections(sec: Sections)
    ensures var c := ConfigOf(sec);
      c["audio_files"] == JObj(sec.audioFiles) && c["elevenlabs"] == JObj(sec.elevenlabs)
      && c["stop_word"] == JObj(sec.stopWord) && c["ordered_segments"] == JArr(sec.orderedSegments)
      && c["background_music_beds"] == JArr(sec.backgroundMusicBeds)
      && c["commercial_breaks"] == JObj(sec.commercialBreaks)
      && c["segments"] == JObj(sec.legacySegments) && c["timing"] == JObj(sec.timing)
  {
  }

  /** `from_files` fails only when the merged fade duration is not a number;
      otherwise each supplied section is merged over its defaults and stored
      under its key, and the segments and bed follow the merged timing. */
  lemma FromFilesSections(intro: string, background: string, transition: string, outro: string,
                          timingConfig: Option<Object>, elevenlabsConfig: Option<Object>,
                          stopWordConfig: Option<Object>, breaksConfig: Option<Object>)
    ensures var timing := Update(DefaultTiming(), timingConfig);
      var c := FromFilesConfig(intro, background, transition, outro, timingConfig, elevenlabsConfig, stopWordConfig, breaksConfig);
      (c.Some? <==> DefaultBed(timing).Some?)
      && (c.Some? ==>
        c.value["elevenlabs"] == JObj(Update(DefaultElevenLabs(), elevenlabsConfig))
        && c.value["stop_word"] == JObj(Update(DefaultStopWord(), stopWordConfig))
        && c.value["commercial_breaks"] == JObj(Update(DefaultCommercialBreaks(), breaksConfig))
        && c.value["timing"] == JObj(timing)
        && c.value["background_music_beds"] == JArr([DefaultBed(timing).value])
        && c.value["ordered_segments"] == JArr(DefaultSegments(timing))
        && c.value["audio_files"] == JObj(DefaultAudioFiles(intro, background, transition, outro)))
  {
    var timing := Update(DefaultTiming(), timingConfig);
    if DefaultBed(timing).Some? {
      ConfigOfSections(DefaultSections(DefaultAudioFiles(intro, background, transition, outro), timing,
        Update(DefaultElevenLabs(), elevenlabsConfig), Update(DefaultStopWord(), stopWordConfig),
        Update(DefaultCommercialBreaks(), breaksConfig), DefaultBed(timing).value));
    }
  }

  /** `from_files`: the default sections updated by the supplied ones, then a
      template over the resulting configuration with no directory. */
  method FromFiles(intro: string, background: string, transition: string, outro: string,
                   timingConfig: Option<Object> := None, elevenlabsConfig: Option<Object> := None,
                   stopWordConfig: Option<Object> := None, breaksConfig: Option<Object> := None)
    returns (r: Option<PodcastTemplate>)
    ensures var c := FromFilesConfig(intro, background, transition, outro, timingConfig, elevenlabsConfig, stopWordConfig, breaksConfig);
      r.Some? <==> c.Some?
    ensures r.Some? ==>
      fresh(r.value) && r.value.Valid() && r.value.templateDir == None
      && Some(r.value.config) == FromFilesConfig(intro, background, transition, outro, timingConfig, elevenlabsConfig, stopWordConfig, breaksConfig)
  {
    var legacyTiming := DefaultTiming();
    var elevenlabs := DefaultElevenLabs();
    var stopWord := DefaultStopWord();
    var breaks := DefaultCommercialBreaks();
    legacyTiming := Update(legacyTiming, timingConfig);
    elevenlabs := Update(elevenlabs, elevenlabsConfig);
    stopWord := Update(stopWord, stopWordConfig);
    breaks := Update(breaks, breaksConfig);
    var bed := DefaultBed(legacyTiming);
    if bed.None? {
      return None;
    }
    var config := ConfigOf(DefaultSections(DefaultAudioFiles(intro, background, transition, outro), legacyTiming,
      elevenlabs, stopWord, breaks, bed.value));
    var t := new PodcastTemplate(config);
    return Some(t);
  }

  /** The JSON list carries each segment's role, type and audio key. */
  lemma SegmentJsonsFields(segs: seq<SegmentSpec>)
    ensures forall i :: 0 <= i < |segs| ==>
      RoleOf(SegmentJsons(segs)[i]) == JStr(segs[i].role) && KindOf(SegmentJsons(segs)[i]) == JStr(segs[i].kind)
    ensures forall i :: 0 <= i < |segs| && segs[i].sourceKey.Some? ==>
      SourceKeyOf(SegmentJsons(segs)[i]) == JStr(segs[i].sourceKey.value)
  {
    forall i | 0 <= i < |segs| {
      SegmentJsonFields(segs[i]);
    }
  }

  /** The default segments run intro, AI intro, transition, main content,
      outro; only the fourth has type `recording`, and the three `file`
      segments play the intro, transition and outro files. */
  lemma DefaultSegmentOrder(timing: Object)
    ensures var segs := DefaultSegments(timing);
      |segs| == 5
      && RoleOf(segs[0]) == JStr("intro") && RoleOf(segs[1]) == JStr("ai_intro")
      && RoleOf(segs[2]) == JStr("transition") && RoleOf(segs[3]) == JStr("main_content")
      && RoleOf(segs[4]) == JStr("outro")
      && KindOf(segs[0]) == JStr("file") && KindOf(segs[1]) == JStr("generated")
      && KindOf(segs[2]) == JStr("file") && KindOf(segs[3]) == JStr("recording")
      && KindOf(segs[4]) == JStr("file")
      && SourceKeyOf(segs[0]) == JStr("intro_segment_audio")
      && SourceKeyOf(segs[2]) == JStr("transition_segment_audio")
      && SourceKeyOf(segs[4]) == JStr("outro_segment_audio")
  {
    SegmentJsonsFields(DefaultSegmentSpecs(timing));
  }

  /** Each of the four audio keys holds the file supplied for it. */
  lemma DefaultAudioFilesLookup(intro: string, background: string, transition: string, outro: string)
    ensures var files := DefaultAudioFiles(intro, background, transition, outro);
      files.Keys == {"intro_segment_audio", "transition_segment_audio", "outro_segment_audio", "main_background_music"}
      && files["intro_segment_audio"] == JStr(intro) && files["transition_segment_audio"] == JStr(transition)
      && files["outro_segment_audio"] == JStr(outro) && files["main_background_music"] == JStr(background)
  {
    assert "intro_segment_audio"[0] == 'i' && "transition_segment_audio"[0] == 't';
    assert "outro_segment_audio"[0] == 'o' && "main_background_music"[0] == 'm';
  }

  /** The audio file a segment's `source_key` names, or `null`. */
  function FileFor(files: Object, seg: Json): Json {
    var key := SourceKeyOf(seg);
    if key.JStr? then Get(files, key.s, JNull) else JNull
  }

  /** Every `file` segment of the default template, and its background bed,
      names a key of its `audio_files`, and that key holds the file supplied
      for the segment's role. */
  lemma DefaultSegmentsFindTheirFiles(intro: string, background: string, transition: string, outro: string,
                                      timing: Object)
    ensures var files := DefaultAudioFiles(intro, background, transition, outro);
      var segs := DefaultSegments(timing);
      forall i :: 0 <= i < |segs| && KindOf(segs[i]) == JStr("file") ==>
        SourceKeyOf(segs[i]).JStr? && SourceKeyOf(segs[i]).s in files
    ensures var files := DefaultAudioFiles(intro, background, transition, outro);
      var segs := DefaultSegments(timing);
      |segs| == 5 && FileFor(files, segs[0]) == JStr(intro)
      && FileFor(files, segs[2]) == JStr(transition) && FileFor(files, segs[4]) == JStr(outro)
    ensures var files := DefaultAudioFiles(intro, background, transition, outro);
      DefaultBed(timing).Some? ==>
        SourceKeyOf(DefaultBed(timing).value) == JStr("main_background_music")
        && files["main_background_music"] == JStr(background)
  {
    DefaultSegmentOrder(timing);
    DefaultAudioFilesLookup(intro, background, transition, outro);
    DefaultBedSource(timing);
    FileSegmentsFound(DefaultSegments(timing), DefaultAudioFiles(intro, background, transition, outro));
  }

  lemma FileSegmentsFound(segs: seq<Json>, files: Object)
    requires |segs| == 5 && KindOf(segs[1]) == JStr("generated") && KindOf(segs[3]) == JStr("recording")
    requires SourceKeyOf(segs[0]) == JStr("intro_segment_audio") && SourceKeyOf(segs[2]) == JStr("transition_segment_audio")
    requires SourceKeyOf(segs[4]) == JStr("outro_segment_audio")
    requires "intro_segment_audio" in files && "transition_segment_audio" in files && "outro_segment_audio" in files
    ensures forall i :: 0 <= i < |segs| && KindOf(segs[i]) == JStr("file") ==>
      SourceKeyOf(segs[i]).JStr? && SourceKeyOf(segs[i]).s in files
  {
    forall i | 0 <= i < |segs| && KindOf(segs[i]) == JStr("file")
      ensures i == 0 || i == 2 || i == 4
    {
      assert "generated"[0] != "file"[0] && "recording"[0] != "file"[0];
    }
  }

  /** The background bed plays `main_background_music`. */
  lemma DefaultBedSource(timing: Object)
    ensures DefaultBed(timing).Some? ==> SourceKeyOf(DefaultBed(timing).value) == JStr("main_background_music")
  {
    assert |"source_key"| != |"name"|;
  }

  /** The bed's offsets follow the merged timing: it starts at the background
      start offset, ends the fade duration before the end, fades out over the
      fade duration, and plays under the intro, AI intro and transition. */
  lemma DefaultBedTiming(timing: Object)
    requires Timing(timing, "background_fade_duration", 3500).JInt?
    ensures DefaultBed(timing).Some?
    ensures var bed := DefaultBed(timing).value.fields;
      bed["start_offset_ms"] == Timing(timing, "background_start_offset", 1500)
      && bed["end_offset_ms"] == JInt(-Timing(timing, "background_fade_duration", 3500).i)
      && bed["fade_out_ms"] == Timing(timing, "background_fade_duration", 3500)
      && bed["applies_to_roles"] == JArr([JStr("intro"), JStr("ai_intro"), JStr("transition")])
  {
  }
}
