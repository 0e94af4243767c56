/** The decisions `run_podcast_job.py` takes before it hands a job to the audio
    engine: episode details parsed from the recording's folder name, the API-key
    lookup chain, and the precedence between job, podcast and template settings. */
module JobRunner {
  import opened Wrappers
  import opened Strings
  import opened JsonValues
  import opened Paths

  // ---------------------------------------------------------------------------
  // The folder-name pattern  ^\s*(\d+)\s*(?:-\s*(?:\[(.*?)\]|(.*)))?\s*$
  // ---------------------------------------------------------------------------

  /** Length of the longest digit prefix: what greedy `\d+` consumes. */
  function DigitRun(s: string): (n: nat)
    ensures n <= |s|
    ensures forall i :: 0 <= i < n ==> IsDigit(s[i])
    ensures n < |s| ==> !IsDigit(s[n])
  {
    if s != [] && IsDigit(s[0]) then 1 + DigitRun(s[1..]) else 0
  }

  /** Index of the first line break, or the length: how far `.*` can reach. */
  function LineEnd(s: string): (n: nat)
    ensures n <= |s|
    ensures forall i :: 0 <= i < n ==> s[i] != '\n'
    ensures n < |s| ==> s[n] == '\n'
  {
    if s != [] && s[0] != '\n' then 1 + LineEnd(s[1..]) else 0
  }

  /** The lazy `\[(.*?)\]\s*$` after the '[': the first index `k` from `from` on
      where `t[k]` is ']' and only whitespace follows, without crossing a line
      break. */
  function ClosingBracket(t: string, from: nat): (r: Option<nat>)
    decreases |t| - from
    ensures r.Some? ==> from <= r.value < |t| && t[r.value] == ']' && AllSpace(t[r.value + 1..])
    ensures r.Some? ==> forall i :: from <= i < r.value ==> t[i] != '\n'
    ensures r.Some? ==> forall i :: from <= i < r.value ==> !(t[i] == ']' && AllSpace(t[i + 1..]))
  {
    if from >= |t| then None
    else if t[from] == ']' && AllSpace(t[from + 1..]) then Some(from)
    else if t[from] == '\n' then None
    else ClosingBracket(t, from + 1)
  }

  /** The three capture groups of a successful match. */
  datatype Groups = Groups(number: string, bracketed: Option<string>, plain: Option<string>)

  /** The groups after the '-' and the whitespace that follows it: the bracketed
      alternative first, then `(.*)` up to the line break, followed by whitespace
      only. */
  function TopicMatch(number: string, rest: string): (m: Option<Groups>)
    ensures m.Some? ==> m.value.number == number && (m.value.bracketed.None? || m.value.plain.None?)
  {
    var close := if rest != [] && rest[0] == '[' then ClosingBracket(rest[1..], 0) else None;
    if close.Some? then Some(Groups(number, Some(rest[1..][..close.value]), None))
    else if AllSpace(rest[LineEnd(rest)..]) then Some(Groups(number, None, Some(rest[..LineEnd(rest)])))
    else None
  }

  /** The pattern after the digits: only whitespace, or a '-' that introduces a
      topic. */
  function AfterNumber(number: string, post: string): (m: Option<Groups>)
    ensures m.Some? ==> m.value.number == number && (m.value.bracketed.None? || m.value.plain.None?)
  {
    var after := LStrip(post);
    if after == [] then Some(Groups(number, None, None))
    else if after[0] != '-' then None
    else TopicMatch(number, LStrip(after[1..]))
  }

  /** `re.match` of the folder pattern. Greedy whitespace and digit runs never
      give anything back that could help, so each is taken whole. */
  function FolderMatch(folder: string): (m: Option<Groups>)
    ensures m.Some? ==> m.value.bracketed.None? || m.value.plain.None?
    ensures m.Some? ==> IsDigits(m.value.number)
  {
    var s1 := LStrip(folder);
    var d := DigitRun(s1);
    if d == 0 then None
    else
      DigitRunSpellsDigits(s1);
      AfterNumber(s1[..d], s1[d..])
  }

  lemma DigitRunSpellsDigits(s: string)
    requires DigitRun(s) > 0
    ensures IsDigits(s[..DigitRun(s)])
  {
    var p := s[..DigitRun(s)];
    assert forall i :: 0 <= i < |p| ==> p[i] == s[i];
  }

  /** Episode number and topic; `None` where nothing was found. */
  datatype Details = Details(episodeNumber: Option<string>, topic: Option<string>)

  /** A stripped topic, with the empty topic reported as `None`. */
  function NonEmpty(t: string): Option<string> {
    if t == "" then None else Some(t)
  }

  /** The folder name's episode number and topic. */
  function ParseFolder(folder: string): (r: Details)
    ensures r.topic.Some? ==> r.episodeNumber.Some? && r.topic.value != "" && HasNoEdgeSpace(r.topic.value)
    ensures r.episodeNumber.Some? ==> IsDigits(r.episodeNumber.value)
    ensures r.episodeNumber.Some? <==> FolderMatch(folder).Some?
  {
    match FolderMatch(folder)
    case None => Details(None, None)
    case Some(g) =>
      var topic := if g.bracketed.Some? then NonEmpty(Strip(g.bracketed.value))
        else if g.plain.Some? then NonEmpty(Strip(g.plain.value))
        else None;
      Details(Some(g.number), topic)
  }

  /** `parse_details_from_path_fallback`: an empty or missing path gives nothing;
      otherwise only the last component of the file's directory is parsed. */
  function ParseDetailsFromPathFallback(filepath: Option<string>): (r: Details)
    ensures !Present(filepath) ==> r == Details(None, None)
  {
    if !Present(filepath) then Details(None, None)
    else ParseFolder(Basename(Dirname(filepath.value)))
  }

  lemma AllSpaceStripsAway(s: string)
    requires AllSpace(s)
    ensures LStrip(s) == []
  {
    LStripOfSpaces(s, []);
    assert s + [] == s;
  }

  lemma DigitRunOf(n: string, post: string)
    requires IsDigits(n) && (post == [] || !IsDigit(post[0]))
    ensures DigitRun(n + post) == |n|
    decreases |n|
  {
    if |n| > 1 {
      assert (n + post)[1..] == n[1..] + post;
      DigitRunOf(n[1..], post);
    } else {
      assert (n + post)[1..] == post;
    }
  }

  /** Splits `n + post` after the digits, with the whitespace that may open it. */
  lemma NumberPart(pre: string, n: string, post: string)
    requires AllSpace(pre) && IsDigits(n) && (post == [] || !IsDigit(post[0]))
    ensures LStrip(pre + n + post) == n + post
    ensures DigitRun(n + post) == |n| && (n + post)[..|n|] == n && (n + post)[|n|..] == post
  {
    assert pre + n + post == pre + (n + post);
    assert !IsSpace((n + post)[0]);
    LStripOfSpaces(pre, n + post);
    DigitRunOf(n, post);
  }

  lemma FolderMatchOf(pre: string, n: string, post: string)
    requires AllSpace(pre) && IsDigits(n) && (post == [] || !IsDigit(post[0]))
    ensures FolderMatch(pre + n + post) == AfterNumber(n, post)
  {
    NumberPart(pre, n, post);
  }

  /** A bare number, however padded, has no topic. */
  lemma {:induction false} FolderBareNumber(pre: string, n: string, post: string)
    requires AllSpace(pre) && IsDigits(n) && AllSpace(post)
    ensures ParseFolder(pre + n + post) == Details(Some(n), None)
  {
    FolderMatchOf(pre, n, post);
    AllSpaceStripsAway(post);
  }

  /** A '-' after the number's whitespace leads to the topic alternatives. */
  lemma AfterDash(n: string, post: string, rest: string)
    requires LStrip(post) != [] && LStrip(post)[0] == '-' && LStrip(LStrip(post)[1..]) == rest
    ensures AfterNumber(n, post) == TopicMatch(n, rest)
  {
  }

  lemma LStripOneSpace(x: string)
    requires x == [] || !IsSpace(x[0])
    ensures LStrip(" " + x) == x
  {
    assert (" " + x)[1..] == x;
  }

  lemma LeadingSpaceOfDash(rest: string)
    ensures LStrip(" - " + rest) == "- " + rest
  {
    assert " - " + rest == " " + ("- " + rest);
    LStripOneSpace("- " + rest);
  }

  lemma SpaceAfterDash(rest: string)
    requires rest == [] || !IsSpace(rest[0])
    ensures LStrip(("- " + rest)[1..]) == rest
  {
    assert ("- " + rest)[1..] == " " + rest;
    LStripOneSpace(rest);
  }

  /** " - " followed by `rest` reaches the topic alternatives with `rest`. */
  lemma SpacedDash(n: string, rest: string)
    requires rest == [] || !IsSpace(rest[0])
    ensures AfterNumber(n, " - " + rest) == TopicMatch(n, rest)
  {
    LeadingSpaceOfDash(rest);
    SpaceAfterDash(rest);
    AfterDash(n, " - " + rest, rest);
  }

  lemma LineEndOfUnbroken(t: string)
    requires forall i :: 0 <= i < |t| ==> t[i] != '\n'
    ensures LineEnd(t) == |t|
  {
    if t != [] {
      LineEndOfUnbroken(t[1..]);
    }
  }

  lemma ClosingBracketAtEnd(t: string, from: nat)
    requires from <= |t| && forall i :: from <= i < |t| ==> t[i] != '\n'
    ensures ClosingBracket(t + "]", from) == Some(|t|)
    decreases |t| - from
  {
    var u := t + "]";
    assert u[|t|] == ']' && u[|t| + 1..] == [];
    if from < |t| {
      assert u[from + 1..] == t[from + 1..] + "]";
      assert !IsSpace(u[|u| - 1]);
      assert !AllSpace(u[from + 1..]);
      ClosingBracketAtEnd(t, from + 1);
    }
  }

  /** A one-line "[T]" is the bracketed alternative with T. */
  lemma TopicBracketed(n: string, t: string)
    requires forall i :: 0 <= i < |t| ==> t[i] != '\n'
    ensures TopicMatch(n, "[" + t + "]") == Some(Groups(n, Some(t), None))
  {
    var rest := "[" + t + "]";
    assert rest[1..] == t + "]";
    ClosingBracketAtEnd(t, 0);
    assert (t + "]")[..|t|] == t;
  }

  /** A one-line topic that does not open with '[' is the plain alternative. */
  lemma TopicPlain(n: string, t: string)
    requires forall i :: 0 <= i < |t| ==> t[i] != '\n'
    requires t == [] || t[0] != '['
    ensures TopicMatch(n, t) == Some(Groups(n, None, Some(t)))
  {
    LineEndOfUnbroken(t);
    assert t[|t|..] == [];
    assert t[..|t|] == t;
  }

  /** "N - [T]" gives N and the stripped T, for a one-line T. */
  lemma {:induction false} FolderBracketed(n: string, t: string)
    requires IsDigits(n) && forall i :: 0 <= i < |t| ==> t[i] != '\n'
    ensures ParseFolder(n + " - [" + t + "]") == Details(Some(n), NonEmpty(Strip(t)))
  {
    var folder := n + " - [" + t + "]";
    assert FolderMatch(folder) == Some(Groups(n, Some(t), None)) by {
      var rest := "[" + t + "]";
      var post := " - " + rest;
      assert folder == "" + n + post;
      FolderMatchOf("", n, post);
      SpacedDash(n, rest);
      TopicBracketed(n, t);
    }
  }

  /** "N - T" gives N and the stripped T, for a one-line T that does not open
      with whitespace or a '['. */
  lemma {:induction false} FolderPlain(n: string, t: string)
    requires IsDigits(n) && forall i :: 0 <= i < |t| ==> t[i] != '\n'
    requires t == [] || (!IsSpace(t[0]) && t[0] != '[')
    ensures ParseFolder(n + " - " + t) == Details(Some(n), NonEmpty(Strip(t)))
  {
    var folder := n + " - " + t;
    assert FolderMatch(folder) == Some(Groups(n, None, Some(t))) by {
      var post := " - " + t;
      assert folder == "" + n + post;
      FolderMatchOf("", n, post);
      SpacedDash(n, t);
      TopicPlain(n, t);
    }
  }

  /** "N -" with nothing after the dash has no topic. */
  lemma FolderDashOnly(n: string)
    requires IsDigits(n)
    ensures ParseFolder(n + " -") == Details(Some(n), None)
  {
    var folder := n + " -";
    assert FolderMatch(folder) == Some(Groups(n, None, Some(""))) by {
      assert folder == "" + n + " -";
      FolderMatchOf("", n, " -");
      DashAtEnd(n);
      TopicPlain(n, "");
    }
  }

  lemma DashAtEnd(n: string)
    ensures AfterNumber(n, " -") == TopicMatch(n, "")
  {
    LStripOneSpace("-");
    assert "-"[1..] == [];
    AfterDash(n, " -", "");
  }

  /** A folder whose first non-blank character is not a digit gives nothing. */
  lemma FolderWithoutNumber(folder: string)
    requires LStrip(folder) == [] || !IsDigit(LStrip(folder)[0])
    ensures ParseFolder(folder) == Details(None, None)
  {
  }

  /** Only the folder that holds the file matters, not the file or the folders
      above it. */
  lemma ContainingFolderOnly(parent: string, folder: string, file: string)
    requires '/' !in folder && '/' !in file && folder != []
    ensures ParseDetailsFromPathFallback(Some(parent + "/" + folder + "/" + file)) == ParseFolder(folder)
  {
    var dir := parent + "/" + folder;
    assert dir[|dir| - 1] == folder[|folder| - 1];
    DirnameOfJoin(dir, file);
    BasenameOfJoin(parent, folder);
  }

  // ---------------------------------------------------------------------------
  // get_effective_api_key
  // ---------------------------------------------------------------------------

  /** The arguments of one `get_effective_api_key` call. */
  datatype KeyRequest = KeyRequest(
    dbKeyName: string,
    envVarName: string,
    templateConfigKey: Option<string>,
    templateEnabledCheckKey: Option<string>,
    globalSettingName: Option<string>)

  /** What the lookup consults: the application settings and API-key tables, the
      process environment and the loaded template's raw configuration. */
  datatype KeySources = KeySources(
    settings: map<string, string>,
    dbKeys: map<string, string>,
    env: map<string, string>,
    template: Object)

  const ElevenLabsKey := KeyRequest("elevenlabs", "ELEVENLABS_API_KEY", Some("api_key"), Some("elevenlabs.enabled"), Some("enable_elevenlabs"))
  const GeminiKey := KeyRequest("gemini", "GEMINI_API_KEY", Some("gui_gemini_api_key"), Some("gui_use_gemini_for_show_notes"), Some("enable_gemini"))
  const OmdbKey := KeyRequest("omdb", "OMDB_API_KEY", Some("gui_omdb_api_key"), Some("gui_download_poster"), Some("enable_omdb"))
  const SpreakerShowIdKey := KeyRequest("spreaker_show_id", "SPREAKER_SHOW_ID", Some("gui_spreaker_show_id"), Some("gui_spreaker_enabled"), Some("enable_spreaker"))
  const SpreakerTokenKey := KeyRequest("spreaker_token", "SPREAKER_API_TOKEN", Some("gui_spreaker_api_token"), Some("gui_spreaker_enabled"), Some("enable_spreaker"))

  /** A non-empty value stored under `key`. */
  function Stored(m: map<string, string>, key: string): (r: Option<string>)
    ensures Present(r) <==> key in m && m[key] != ""
  {
    if key in m && m[key] != "" then Some(m[key]) else None
  }

  /** The global switch: a setting that is named and does not read "true" in any
      letter case turns the service off; a missing setting counts as "true". */
  predicate GloballyDisabled(req: KeyRequest, src: KeySources) {
    Present(req.globalSettingName)
    && LowerAscii(if req.globalSettingName.value in src.settings then src.settings[req.globalSettingName.value] else "true") != "true"
  }

  /** The template step: the key under `templateConfigKey`, inside the
      `elevenlabs` object for the ElevenLabs service; `Err` for the
      `AttributeError` of calling `get` on something that is not an object. */
  function TemplateKey(req: KeyRequest, template: Object): (r: Result<Option<Json>>)
    requires Present(req.templateConfigKey)
    ensures r.Ok? && r.value.Some? ==> Truthy(r.value.value)
    ensures r.Err? <==> req.dbKeyName == "elevenlabs" && "elevenlabs" in template && !template["elevenlabs"].JObj?
  {
    var key := req.templateConfigKey.value;
    var value :=
      if req.dbKeyName == "elevenlabs" && "elevenlabs" in template then
        (match template["elevenlabs"]
         case JObj(sub) => Ok(Get(sub, key, JNull))
         case _ => Err("AttributeError"))
      else Ok(Get(template, key, JNull));
    match value
    case Err(e) => Err(e)
    case Ok(v) => Ok(if Truthy(v) then Some(v) else None)
  }

  /** The chain once the template's feature flag is known: global switch, then
      the key table, then the environment, then the template. */
  function KeyChain(req: KeyRequest, src: KeySources, templateEnabled: bool): (r: Result<Option<Json>>)
    ensures GloballyDisabled(req, src) ==> r == Ok(None)
    ensures !GloballyDisabled(req, src) && Present(Stored(src.dbKeys, req.dbKeyName)) ==>
      r == Ok(Some(JStr(src.dbKeys[req.dbKeyName])))
    ensures !GloballyDisabled(req, src) && !Present(Stored(src.dbKeys, req.dbKeyName)) && Present(Stored(src.env, req.envVarName)) ==>
      r == Ok(Some(JStr(src.env[req.envVarName])))
    ensures !(Present(req.templateConfigKey) && templateEnabled) && !Present(Stored(src.dbKeys, req.dbKeyName)) && !Present(Stored(src.env, req.envVarName)) ==>
      r == Ok(None)
    ensures r.Ok? && r.value.Some? ==> Truthy(r.value.value)
  {
    if GloballyDisabled(req, src) then Ok(None)
    else if Present(Stored(src.dbKeys, req.dbKeyName)) then Ok(Some(JStr(src.dbKeys[req.dbKeyName])))
    else if Present(Stored(src.env, req.envVarName)) then Ok(Some(JStr(src.env[req.envVarName])))
    else if Present(req.templateConfigKey) && templateEnabled then TemplateKey(req, src.template)
    else Ok(None)
  }

  /** The feature flag as the code reads it: `config.get(check_key, False)`, one
      flat key even when the name has a dot in it. */
  predicate FlagAsWritten(template: Object, checkKey: Option<string>) {
    !Present(checkKey) || Truthy(Get(template, checkKey.value, JBool(false)))
  }

  /** A dotted name read as a path through nested objects; anything missing
      reads as false. */
  function PathGet(obj: Object, path: seq<string>): Json
    decreases |path|
  {
    if path == [] then JBool(false)
    else if |path| == 1 then Get(obj, path[0], JBool(false))
    else if path[0] in obj && obj[path[0]].JObj? then PathGet(obj[path[0]].fields, path[1..])
    else JBool(false)
  }

  /** The feature flag as evidently intended: `elevenlabs.enabled` is the
      `enabled` key of the template's `elevenlabs` object. */
  predicate Flag(template: Object, checkKey: Option<string>) {
    !Present(checkKey) || Truthy(PathGet(template, Split(checkKey.value, '.')))
  }

  /** `get_effective_api_key` as written. */
  function EffectiveApiKeyAsWritten(req: KeyRequest, src: KeySources): Result<Option<Json>> {
    KeyChain(req, src, FlagAsWritten(src.template, req.templateEnabledCheckKey))
  }

  /** `get_effective_api_key` with the dotted feature flag read as a path; the
      other services' flags have no dot and read the same either way. */
  function EffectiveApiKey(req: KeyRequest, src: KeySources): Result<Option<Json>> {
    KeyChain(req, src, Flag(src.template, req.templateEnabledCheckKey))
  }

  /** For a check key without a dot the two readings agree. */
  lemma FlagsAgreeWithoutDot(req: KeyRequest, src: KeySources)
    requires req.templateEnabledCheckKey.Some? ==> '.' !in req.templateEnabledCheckKey.value
    ensures EffectiveApiKey(req, src) == EffectiveApiKeyAsWritten(req, src)
  {
    if Present(req.templateEnabledCheckKey) {
      SplitWithoutSep(req.templateEnabledCheckKey.value, '.');
    }
  }

  /** A template that enables ElevenLabs in its `elevenlabs` object and holds
      the key there, has no flat "elevenlabs.enabled" key, and no key in the
      table or the environment. */
  predicate TemplateOnlyElevenLabsKey(src: KeySources, key: string) {
    key != ""
    && "enable_elevenlabs" !in src.settings
    && "elevenlabs" !in src.dbKeys
    && "ELEVENLABS_API_KEY" !in src.env
    && "elevenlabs.enabled" !in src.template
    && "elevenlabs" in src.template && src.template["elevenlabs"].JObj?
    && Get(src.template["elevenlabs"].fields, "enabled", JNull) == JBool(true)
    && Get(src.template["elevenlabs"].fields, "api_key", JNull) == JStr(key)
  }

  lemma PathGetTwo(obj: Object, a: string, b: string)
    requires a in obj && obj[a].JObj?
    ensures PathGet(obj, [a, b]) == Get(obj[a].fields, b, JBool(false))
  {
    assert [a, b][1..] == [b];
  }

  lemma ElevenLabsSwitchedOn(src: KeySources)
    requires "enable_elevenlabs" !in src.settings
    ensures !GloballyDisabled(ElevenLabsKey, src)
  {
    assert LowerAscii("true") == "true";
  }

  lemma NestedEnabledFlag(template: Object)
    requires "elevenlabs" in template && template["elevenlabs"].JObj?
    requires Truthy(Get(template["elevenlabs"].fields, "enabled", JNull))
    ensures Flag(template, Some("elevenlabs.enabled"))
  {
    JoinSplit(["elevenlabs", "enabled"], '.');
    assert Join(["elevenlabs", "enabled"], ['.']) == "elevenlabs.enabled";
    PathGetTwo(template, "elevenlabs", "enabled");
  }

  /** On a template that keeps its ElevenLabs key only in the `elevenlabs`
      object, the code as written finds no key: the flat lookup of
      "elevenlabs.enabled" reads false. */
  lemma ElevenLabsTemplateKeyIgnored(src: KeySources, key: string)
    requires TemplateOnlyElevenLabsKey(src, key)
    ensures EffectiveApiKeyAsWritten(ElevenLabsKey, src) == Ok(None)
  {
    ElevenLabsSwitchedOn(src);
    assert !FlagAsWritten(src.template, ElevenLabsKey.templateEnabledCheckKey);
  }

  /** With the flag read as a path, a template whose `elevenlabs` object is
      enabled supplies the key: when the service is on and neither the key
      table nor the environment has one, the answer is that object's
      `api_key`, or none when it is empty or missing. */
  lemma ElevenLabsTemplateKeyUsed(src: KeySources)
    requires !GloballyDisabled(ElevenLabsKey, src)
    requires !Present(Stored(src.dbKeys, "elevenlabs")) && !Present(Stored(src.env, "ELEVENLABS_API_KEY"))
    requires "elevenlabs" in src.template && src.template["elevenlabs"].JObj?
    requires Truthy(Get(src.template["elevenlabs"].fields, "enabled", JNull))
    ensures var v := Get(src.template["elevenlabs"].fields, "api_key", JNull);
      EffectiveApiKey(ElevenLabsKey, src) == Ok(if Truthy(v) then Some(v) else None)
  {
    NestedEnabledFlag(src.template);
    TemplateStepReached(ElevenLabsKey, src);
    NestedTemplateKey(ElevenLabsKey, src.template);
  }

  lemma NestedTemplateKey(req: KeyRequest, template: Object)
    requires Present(req.templateConfigKey) && req.dbKeyName == "elevenlabs"
    requires "elevenlabs" in template && template["elevenlabs"].JObj?
    ensures var v := Get(template["elevenlabs"].fields, req.templateConfigKey.value, JNull);
      TemplateKey(req, template) == Ok(if Truthy(v) then Some(v) else None)
  {
  }

  lemma TemplateStepReached(req: KeyRequest, src: KeySources)
    requires !GloballyDisabled(req, src) && Present(req.templateConfigKey)
    requires !Present(Stored(src.dbKeys, req.dbKeyName)) && !Present(Stored(src.env, req.envVarName))
    requires Flag(src.template, req.templateEnabledCheckKey)
    ensures EffectiveApiKey(req, src) == TemplateKey(req, src.template)
  {
  }

  /** Such sources exist. */
  lemma TemplateOnlyElevenLabsKeyExists()
    ensures TemplateOnlyElevenLabsKey(
      KeySources(map[], map[], map[], map["elevenlabs" := JObj(map["enabled" := JBool(true), "api_key" := JStr("k")])]), "k")
  {
    assert "elevenlabs.enabled" != "elevenlabs" by {
      assert |"elevenlabs.enabled"| != |"elevenlabs"|;
    }
    assert "api_key" != "enabled" by {
      assert "api_key"[0] != "enabled"[0];
    }
  }

  // ---------------------------------------------------------------------------
  // Precedence between job, podcast and template values in run_job
  // ---------------------------------------------------------------------------

  /** The job's value for a setting, `None` standing for a missing key. */
  function JobValue(job: Object, key: string): Json {
    Get(job, key, JNull)
  }

  /** `bool(job_value) if job_value is not None else template.get(key, default)`:
      the template's value is passed on as stored, not coerced. */
  function BoolOverride(job: Object, jobKey: string, template: Object, templateKey: string, default: bool): Json {
    var v := JobValue(job, jobKey);
    if v != JNull then JBool(Truthy(v)) else Get(template, templateKey, JBool(default))
  }

  /** `job_value if job_value is not None else template.get(key, default)`. */
  function ValueOverride(job: Object, jobKey: string, template: Object, templateKey: string, default: Json): Json {
    var v := JobValue(job, jobKey);
    if v != JNull then v else Get(template, templateKey, default)
  }

  const DefaultFillerWords := "um,uh,er,ah,like,you know,so,well,actually,basically,literally,right,okay,yeah"

  /** The processing switches handed to the audio engine. */
  datatype RunSettings = RunSettings(
    removeFillers: Json,
    removePauses: Json,
    generateTranscript: Json,
    generateShowNotes: Json,
    useGeminiForSummary: Json,
    downloadPoster: Json,
    internEnabled: Json,
    internKeyword: Json,
    stopWordEnabled: Json,
    stopWord: Json,
    minPauseSec: Json,
    customFillerWords: Json)

  /** Each switch from the job row when set there, else from the template with
      its stated default; the stop word itself always from the template. */
  function Overrides(job: Object, template: Object, stopWord: Object): (r: RunSettings)
  {
    RunSettings(
      BoolOverride(job, "remove_fillers", template, "gui_remove_fillers", true),
      BoolOverride(job, "remove_pauses", template, "gui_remove_pauses", true),
      BoolOverride(job, "generate_transcript", template, "gui_generate_transcript", true),
      BoolOverride(job, "generate_show_notes", template, "gui_generate_show_notes", true),
      BoolOverride(job, "use_gemini_for_summary", template, "gui_use_gemini_for_show_notes", false),
      BoolOverride(job, "download_poster", template, "gui_download_poster", true),
      BoolOverride(job, "intern_command_enabled", template, "gui_intern_command_enabled", false),
      ValueOverride(job, "intern_command_keyword", template, "gui_intern_command_keyword", JStr("intern")),
      BoolOverride(job, "stop_word_detection_enabled", stopWord, "enabled", true),
      Get(stopWord, "word", JStr("")),
      ValueOverride(job, "min_pause_duration_sec", template, "gui_min_pause_duration_silence", JFloat(1.5)),
      ValueOverride(job, "custom_filler_words_csv", template, "gui_custom_filler_words_csv", JStr(DefaultFillerWords)))
  }

  /** The job decides whether stop-word detection runs, never which word it
      listens for. */
  lemma StopWordFromTemplateOnly(job1: Object, job2: Object, template: Object, stopWord: Object)
    ensures Overrides(job1, template, stopWord).stopWord == Overrides(job2, template, stopWord).stopWord
    ensures Overrides(job1, template, stopWord).stopWord == Get(stopWord, "word", JStr(""))
  {
  }

  /** A job that sets none of the switches gets the template's values, and the
      stated defaults where the template is silent too. */
  lemma UnsetJobUsesTemplate(job: Object, template: Object, stopWord: Object)
    requires JobValue(job, "remove_fillers") == JNull && JobValue(job, "remove_pauses") == JNull
    requires JobValue(job, "generate_transcript") == JNull && JobValue(job, "generate_show_notes") == JNull
    requires JobValue(job, "use_gemini_for_summary") == JNull && JobValue(job, "download_poster") == JNull
    requires JobValue(job, "intern_command_enabled") == JNull && JobValue(job, "intern_command_keyword") == JNull
    requires JobValue(job, "stop_word_detection_enabled") == JNull
    requires JobValue(job, "min_pause_duration_sec") == JNull && JobValue(job, "custom_filler_words_csv") == JNull
    ensures var r := Overrides(job, template, stopWord);
      r.removeFillers == Get(template, "gui_remove_fillers", JBool(true))
      && r.removePauses == Get(template, "gui_remove_pauses", JBool(true))
      && r.generateTranscript == Get(template, "gui_generate_transcript", JBool(true))
      && r.generateShowNotes == Get(template, "gui_generate_show_notes", JBool(true))
      && r.useGeminiForSummary == Get(template, "gui_use_gemini_for_show_notes", JBool(false))
      && r.downloadPoster == Get(template, "gui_download_poster", JBool(true))
      && r.internEnabled == Get(template, "gui_intern_command_enabled", JBool(false))
      && r.internKeyword == Get(template, "gui_intern_command_keyword", JStr("intern"))
      && r.stopWordEnabled == Get(stopWord, "enabled", JBool(true))
      && r.minPauseSec == Get(template, "gui_min_pause_duration_silence", JFloat(1.5))
      && r.customFillerWords == Get(template, "gui_custom_filler_words_csv", JStr(DefaultFillerWords))
  {
  }

  /** A switch the job gives (not `None`) decides the field as `bool(value)`;
      the template and stop-word objects are not consulted, so any two of them
      give the same value. */
  lemma JobSwitchWins(job: Object, template: Object, stopWord: Object)
    ensures JobValue(job, "remove_fillers") != JNull ==>
      Overrides(job, template, stopWord).removeFillers == JBool(Truthy(JobValue(job, "remove_fillers")))
    ensures JobValue(job, "remove_pauses") != JNull ==>
      Overrides(job, template, stopWord).removePauses == JBool(Truthy(JobValue(job, "remove_pauses")))
    ensures JobValue(job, "generate_transcript") != JNull ==>
      Overrides(job, template, stopWord).generateTranscript == JBool(Truthy(JobValue(job, "generate_transcript")))
    ensures JobValue(job, "generate_show_notes") != JNull ==>
      Overrides(job, template, stopWord).generateShowNotes == JBool(Truthy(JobValue(job, "generate_show_notes")))
    ensures JobValue(job, "use_gemini_for_summary") != JNull ==>
      Overrides(job, template, stopWord).useGeminiForSummary == JBool(Truthy(JobValue(job, "use_gemini_for_summary")))
    ensures JobValue(job, "download_poster") != JNull ==>
      Overrides(job, template, stopWord).downloadPoster == JBool(Truthy(JobValue(job, "download_poster")))
    ensures JobValue(job, "intern_command_enabled") != JNull ==>
      Overrides(job, template, stopWord).internEnabled == JBool(Truthy(JobValue(job, "intern_command_enabled")))
    ensures JobValue(job, "stop_word_detection_enabled") != JNull ==>
      Overrides(job, template, stopWord).stopWordEnabled == JBool(Truthy(JobValue(job, "stop_word_detection_enabled")))
  {
    var r := Overrides(job, template, stopWord);
    assert r.removeFillers == BoolOverride(job, "remove_fillers", template, "gui_remove_fillers", true);
    assert r.removePauses == BoolOverride(job, "remove_pauses", template, "gui_remove_pauses", true);
    assert r.generateTranscript == BoolOverride(job, "generate_transcript", template, "gui_generate_transcript", true);
    assert r.generateShowNotes == BoolOverride(job, "generate_show_notes", template, "gui_generate_show_notes", true);
    assert r.useGeminiForSummary == BoolOverride(job, "use_gemini_for_summary", template, "gui_use_gemini_for_show_notes", false);
    assert r.downloadPoster == BoolOverride(job, "download_poster", template, "gui_download_poster", true);
    assert r.internEnabled == BoolOverride(job, "intern_command_enabled", template, "gui_intern_command_enabled", false);
    assert r.stopWordEnabled == BoolOverride(job, "stop_word_detection_enabled", stopWord, "enabled", true);
  }

  /** A keyword, pause length or filler-word list the job gives is used as
      stored, whatever the template holds. */
  lemma JobValueWins(job: Object, template: Object, stopWord: Object)
    ensures JobValue(job, "intern_command_keyword") != JNull ==> Overrides(job, template, stopWord).internKeyword == JobValue(job, "intern_command_keyword")
    ensures JobValue(job, "min_pause_duration_sec") != JNull ==> Overrides(job, template, stopWord).minPauseSec == JobValue(job, "min_pause_duration_sec")
    ensures JobValue(job, "custom_filler_words_csv") != JNull ==> Overrides(job, template, stopWord).customFillerWords == JobValue(job, "custom_filler_words_csv")
  {
    var r := Overrides(job, template, stopWord);
    assert r.internKeyword == ValueOverride(job, "intern_command_keyword", template, "gui_intern_command_keyword", JStr("intern"));
    assert r.minPauseSec == ValueOverride(job, "min_pause_duration_sec", template, "gui_min_pause_duration_silence", JFloat(1.5));
    assert r.customFillerWords == ValueOverride(job, "custom_filler_words_csv", template, "gui_custom_filler_words_csv", JStr(DefaultFillerWords));
  }

  /** `season_number` from the job, else the podcast's default, else the
      template's `gui_season_number`, else "1". An empty podcast record counts
      as none. */
  function SeasonNumber(job: Object, podcast: Option<Object>, template: Object): (r: Json)
    ensures Get(job, "season_number", JNull) != JNull ==> r == job["season_number"]
    ensures r == JNull ==> "gui_season_number" in template && template["gui_season_number"] == JNull
  {
    var fromJob := Get(job, "season_number", JNull);
    var chosen :=
      if fromJob != JNull then fromJob
      else if podcast.Some? && podcast.value != map[] then Get(podcast.value, "default_season_number", JNull)
      else JNull;
    if chosen == JNull then Get(template, "gui_season_number", JStr("1")) else chosen
  }

  /** Without a job value, a podcast default wins over the template. */
  lemma SeasonFromPodcast(job: Object, podcast: Object, template: Object)
    requires Get(job, "season_number", JNull) == JNull
    requires Get(podcast, "default_season_number", JNull) != JNull
    ensures SeasonNumber(job, Some(podcast), template) == podcast["default_season_number"]
  {
  }

  /** Without a job or podcast value, the template's value or "1". */
  lemma SeasonFromTemplate(job: Object, podcast: Option<Object>, template: Object)
    requires Get(job, "season_number", JNull) == JNull
    requires podcast.Some? ==> Get(podcast.value, "default_season_number", JNull) == JNull
    ensures SeasonNumber(job, podcast, template) == Get(template, "gui_season_number", JStr("1"))
  {
  }

  /** The episode number and topic finally used. */
  datatype Episode = Episode(number: Json, topic: Json)

  function OrNull(s: Option<string>): (j: Json)
    ensures s.None? <==> j == JNull
  {
    if s.Some? then JStr(s.value) else JNull
  }

  /** The job row's number and topic are kept when truthy; the path is parsed
      when either is missing and fills only the missing one. */
  function MergeEpisode(dbNumber: Json, dbTopic: Json, recordingPath: Option<string>): (r: Episode)
  {
    if Truthy(dbNumber) && Truthy(dbTopic) then Episode(dbNumber, dbTopic)
    else
      var parsed := ParseDetailsFromPathFallback(recordingPath);
      Episode(if Truthy(dbNumber) then dbNumber else OrNull(parsed.episodeNumber),
              if Truthy(dbTopic) then dbTopic else OrNull(parsed.topic))
  }

  /** Each of the two comes from the job row when truthy there and from the
      folder name otherwise, whatever the other one is. */
  lemma MergeEpisodePerField(dbNumber: Json, dbTopic: Json, recordingPath: Option<string>)
    ensures MergeEpisode(dbNumber, dbTopic, recordingPath).number ==
      (if Truthy(dbNumber) then dbNumber else OrNull(ParseDetailsFromPathFallback(recordingPath).episodeNumber))
    ensures MergeEpisode(dbNumber, dbTopic, recordingPath).topic ==
      (if Truthy(dbTopic) then dbTopic else OrNull(ParseDetailsFromPathFallback(recordingPath).topic))
  {
  }

  /** ElevenLabs counts as on only with a key and a truthy `enabled` in the
      template's `elevenlabs` object. */
  predicate ElevenLabsEffectivelyEnabled(key: Option<Json>, elevenlabs: Object) {
    key.Some? && Truthy(key.value) && Truthy(Get(elevenlabs, "enabled", JNull))
  }

  /** The AI intro text: the job's own text when given, else the template's
      default, and nothing at all while ElevenLabs is off. */
  function AiIntroText(jobText: Json, elevenLabsOn: bool, template: Object): (r: Json)
    ensures r != JNull ==> elevenLabsOn
    ensures r == jobText || r == Get(template, "gui_default_ai_intro_text", JNull) || r == JNull
    ensures elevenLabsOn && Truthy(jobText) ==> r == jobText
  {
    if Truthy(jobText) && elevenLabsOn then jobText
    else if elevenLabsOn then Get(template, "gui_default_ai_intro_text", JNull)
    else JNull
  }

  /** The voice comes from the template's `elevenlabs` object, only while
      ElevenLabs is on. */
  function VoiceId(elevenLabsOn: bool, elevenlabs: Object): (r: Json)
    ensures r != JNull ==> elevenLabsOn && "voice_id" in elevenlabs
  {
    if elevenLabsOn then Get(elevenlabs, "voice_id", JNull) else JNull
  }
}
