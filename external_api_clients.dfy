/** The parsing in `app/utils/external_api_clients.py`: the summary and tags in
    a Gemini reply, and the OMDb poster search with its title clean-up and
    its order of years. The HTTP and SDK calls are parameters. */
module ExternalApiClients {
  import opened Wrappers
  import opened Strings
  import opened JsonValues

  // ---------------------------------------------------------------------------
  // Case-insensitive markers
  // ---------------------------------------------------------------------------

  /** `pat` (written in lower case) occurs at `i`, ignoring ASCII case. */
  predicate MatchesAt(s: string, pat: string, i: int) {
    0 <= i && i + |pat| <= |s| && forall k :: 0 <= k < |pat| ==> LowerChar(s[i + k]) == pat[k]
  }

  /** The first occurrence of `pat` at or after `from`. */
  function FindMarker(s: string, pat: string, from: nat): (r: Option<nat>)
    requires from <= |s|
    ensures r.Some? ==> from <= r.value && MatchesAt(s, pat, r.value)
    ensures r.Some? ==> forall j :: from <= j < r.value ==> !MatchesAt(s, pat, j)
    ensures r.None? ==> forall j :: from <= j <= |s| ==> !MatchesAt(s, pat, j)
    decreases |s| - from
  {
    if MatchesAt(s, pat, from) then Some(from)
    else if from == |s| then None
    else FindMarker(s, pat, from + 1)
  }

  /** `strip()` keeps a contiguous piece of its argument. */
  lemma NotInSlice(u: string, c: char, i: int, j: int)
    requires c !in u && 0 <= i <= j <= |u|
    ensures c !in u[i..j]
  {
    forall k | 0 <= k < j - i ensures u[i..j][k] != c {
      assert u[i..j][k] == u[i + k];
    }
  }

  lemma StripKeepsOut(u: string, c: char)
    requires c !in u
    ensures c !in Strip(u)
  {
    var l := LStrip(u);
    LStripIsSuffix(u);
    NotInSlice(u, c, |u| - |l|, |u|);
    var r := RStrip(l);
    RStripIsPrefix(l);
    NotInSlice(l, c, 0, |r|);
    assert Strip(u) == r;
  }

  /** A match inside `sub`, the slice `s[p..q]`, is a match in `s` ending by `q`. */
  lemma MatchInInfix(s: string, p: nat, q: nat, sub: string, pat: string, j: int)
    requires p <= q <= |s| && sub == s[p..q] && MatchesAt(sub, pat, j)
    ensures MatchesAt(s, pat, p + j) && p + j + |pat| <= q
  {
    forall k | 0 <= k < |pat| ensures LowerChar(s[p + j + k]) == pat[k] {
      assert sub[j + k] == s[p + j + k];
    }
  }

  // ---------------------------------------------------------------------------
  // Gemini
  // ---------------------------------------------------------------------------

  /** What `generate_content` returns: the summary and the tags. */
  datatype Notes = Notes(summary: Option<string>, tags: seq<string>)

  predicate AcceptableTag(t: string) { t != "" && |t| <= 30 }

  /** Every piece stripped. */
  function StripAll(pieces: seq<string>): seq<string> {
    seq(|pieces|, i requires 0 <= i < |pieces| => Strip(pieces[i]))
  }

  /** The acceptable tags among `ts`, in order. */
  function KeepTags(ts: seq<string>): (r: seq<string>)
    ensures |r| <= |ts|
    ensures forall i :: 0 <= i < |r| ==> AcceptableTag(r[i])
  {
    if ts == [] then []
    else if AcceptableTag(ts[0]) then [ts[0]] + KeepTags(ts[1..])
    else KeepTags(ts[1..])
  }

  /** Exactly the acceptable tags of `ts` are kept. */
  lemma {:induction false} KeepTagsMembership(ts: seq<string>, t: string)
    ensures t in KeepTags(ts) <==> t in ts && AcceptableTag(t)
  {
    if ts != [] {
      KeepTagsMembership(ts[1..], t);
      assert ts == [ts[0]] + ts[1..];
    }
  }

  /** Whatever holds of every element of `ts` holds of every kept tag. */
  lemma {:induction false} KeepTagsSublist(ts: seq<string>)
    ensures forall i :: 0 <= i < |KeepTags(ts)| ==> KeepTags(ts)[i] in ts
  {
    if ts != [] {
      KeepTagsSublist(ts[1..]);
    }
  }

  /** Acceptable tags are all kept. */
  lemma {:induction false} KeepTagsOfAcceptable(ts: seq<string>)
    requires forall i :: 0 <= i < |ts| ==> AcceptableTag(ts[i])
    ensures KeepTags(ts) == ts
  {
    if ts != [] {
      KeepTagsOfAcceptable(ts[1..]);
    }
  }

  /** The tag list comprehension, cut to its first 20 entries. */
  function TagList(tagsStr: string): seq<string> {
    var kept := KeepTags(StripAll(Split(tagsStr, ',')));
    if |kept| <= 20 then kept else kept[..20]
  }

  /** The summary between the first `SUMMARY:` and the next `TAGS:`. */
  function SummaryOf(text: string): Option<string> {
    match FindMarker(text, "summary:", 0)
    case None => None
    case Some(i) =>
      match FindMarker(text, "tags:", i + 8)
      case None => None
      case Some(m) => Some(Strip(text[i + 8..m]))
  }

  /** Everything after the first `TAGS:`, stripped; empty without the marker. */
  function TagsTextOf(text: string): string {
    match FindMarker(text, "tags:", 0)
    case None => ""
    case Some(t) => Strip(text[t + 5..])
  }

  /** The parsing of the reply text. */
  function ParseReply(replyText: string): Notes {
    var text := Strip(replyText);
    Notes(SummaryOf(text), TagList(TagsTextOf(text)))
  }

  /** Every tag is non-empty, at most 30 characters, stripped and free of
      commas, and there are at most 20. */
  lemma TagListBounds(tagsStr: string)
    ensures |TagList(tagsStr)| <= 20
    ensures forall i :: 0 <= i < |TagList(tagsStr)| ==>
      AcceptableTag(TagList(tagsStr)[i]) && HasNoEdgeSpace(TagList(tagsStr)[i]) && ',' !in TagList(tagsStr)[i]
  {
    var pieces := Split(tagsStr, ',');
    var stripped := StripAll(pieces);
    KeepTagsSublist(stripped);
    forall k | 0 <= k < |pieces| ensures ',' !in stripped[k] {
      StripKeepsOut(pieces[k], ',');
    }
  }

  /** A tag list holding only acceptable, stripped, comma-free tags, at most
      20 of them, is read back from its comma-join unchanged. */
  lemma TagListOfJoin(tags: seq<string>)
    requires |tags| <= 20
    requires forall i :: 0 <= i < |tags| ==> AcceptableTag(tags[i]) && HasNoEdgeSpace(tags[i]) && ',' !in tags[i]
    ensures TagList(Join(tags, ",")) == tags
  {
    if tags == [] {
      TagListOfEmpty();
    } else {
      TagListOfNonEmptyJoin(tags);
    }
  }

  lemma TagListOfEmpty()
    ensures TagList("") == []
  {
    assert Split("", ',') == [""];
    assert StripAll([""]) == [""];
  }

  lemma TagListOfNonEmptyJoin(tags: seq<string>)
    requires 1 <= |tags| <= 20
    requires forall i :: 0 <= i < |tags| ==> AcceptableTag(tags[i]) && HasNoEdgeSpace(tags[i]) && ',' !in tags[i]
    ensures TagList(Join(tags, ",")) == tags
  {
    JoinSplit(tags, ',');
    StripAllOfClean(tags);
    KeepTagsOfAcceptable(tags);
  }

  lemma StripAllOfClean(ts: seq<string>)
    requires forall i :: 0 <= i < |ts| ==> HasNoEdgeSpace(ts[i])
    ensures StripAll(ts) == ts
  {
    forall i | 0 <= i < |ts| ensures Strip(ts[i]) == ts[i] {
      StripOfClean(ts[i]);
    }
  }

  lemma StripOfClean(t: string)
    requires HasNoEdgeSpace(t)
    ensures Strip(t) == t
  {
    assert [] + t + [] == t;
    StripOfPadded([], t, []);
  }

  /** A summary exists exactly when a `SUMMARY:` marker is followed, after
      it, by a `TAGS:` marker. */
  lemma SummaryPresence(text: string)
    ensures SummaryOf(text).Some? <==>
      exists i, m :: 0 <= i && i + 8 <= m && MatchesAt(text, "summary:", i) && MatchesAt(text, "tags:", m)
  {
    var first := FindMarker(text, "summary:", 0);
    if first.Some? {
      var i := first.value;
      if FindMarker(text, "tags:", i + 8).None? {
        assert !exists i', m :: 0 <= i' && i' + 8 <= m && MatchesAt(text, "summary:", i') && MatchesAt(text, "tags:", m);
      }
    }
  }

  /** A summary is stripped and holds no `TAGS:` marker of its own. */
  lemma SummaryHasNoMarker(text: string)
    requires SummaryOf(text).Some?
    ensures HasNoEdgeSpace(SummaryOf(text).value)
    ensures forall j :: !MatchesAt(SummaryOf(text).value, "tags:", j)
  {
    var i := FindMarker(text, "summary:", 0).value;
    var m := FindMarker(text, "tags:", i + 8).value;
    StrippedInfixHasNoMatch(text, i + 8, m, text[i + 8..m], "tags:");
  }

  lemma StrippedInfixHasNoMatch(s: string, a: nat, m: nat, u: string, pat: string)
    requires a <= m <= |s| && u == s[a..m] && pat != []
    requires forall j :: a <= j < m ==> !MatchesAt(s, pat, j)
    ensures forall j :: !MatchesAt(Strip(u), pat, j)
  {
    forall j | MatchesAt(Strip(u), pat, j) ensures false {
      MatchInStripped(u, pat, j);
      MatchInInfix(s, a, m, u, pat, |u| - |LStrip(u)| + j);
    }
  }

  /** A match in `strip(u)` is a match in `u`, shifted by the stripped prefix. */
  lemma MatchInStripped(u: string, pat: string, j: int)
    requires MatchesAt(Strip(u), pat, j)
    ensures MatchesAt(u, pat, |u| - |LStrip(u)| + j)
  {
    LStripIsSuffix(u);
    RStripIsPrefix(LStrip(u));
    MatchInPrefix(LStrip(u), Strip(u), pat, j);
    MatchInSuffix(u, LStrip(u), pat, j);
  }

  lemma MatchInPrefix(l: string, r: string, pat: string, j: int)
    requires |r| <= |l| && r == l[..|r|] && MatchesAt(r, pat, j)
    ensures MatchesAt(l, pat, j)
  {
    MatchInInfix(l, 0, |r|, r, pat, j);
  }

  lemma MatchInSuffix(u: string, l: string, pat: string, j: int)
    requires |l| <= |u| && l == u[|u| - |l|..] && MatchesAt(l, pat, j)
    ensures MatchesAt(u, pat, |u| - |l| + j)
  {
    MatchInInfix(u, |u| - |l|, |u|, l, pat, j);
  }

  /** Without a `TAGS:` marker there are no tags and no summary. */
  lemma NoTagsMarker(replyText: string)
    requires FindMarker(Strip(replyText), "tags:", 0).None?
    ensures ParseReply(replyText) == Notes(None, [])
  {
    var text := Strip(replyText);
    assert Split("", ',') == [""];
    SummaryPresence(text);
  }

  /** `GeminiClient`: a model exists only when a key was given, the SDK is
      installed and configuring it succeeded. */
  class GeminiClient {
    const apiKey: Option<string>
    const modelAvailable: bool

    constructor (apiKey: Option<string>, sdkInstalled: bool, configureSucceeds: bool)
      ensures this.apiKey == apiKey
      ensures modelAvailable <==> Present(apiKey) && sdkInstalled && configureSucceeds
    {
      this.apiKey := apiKey;
      modelAvailable := Present(apiKey) && sdkInstalled && configureSucceeds;
    }

    /** `generate_content`, given what the model answers (`None` for an
        exception): no model or an error gives no summary and no tags. */
    method GenerateContent(reply: Option<string>) returns (notes: Notes)
      ensures !modelAvailable || reply.None? ==> notes == Notes(None, [])
      ensures modelAvailable && reply.Some? ==> notes == ParseReply(reply.value)
    {
      if !modelAvailable {
        return Notes(None, []);
      }
      if reply.None? {
        return Notes(None, []);
      }
      notes := ParseReply(reply.value);
    }
  }

  // ---------------------------------------------------------------------------
  // OMDb
  // ---------------------------------------------------------------------------

  /** The outcome of one OMDb request: a request error, or the decoded body. */
  datatype OmdbReply = RequestFailed | Data(body: Object)

  /** `Response` is "True" and the poster is set and not "N/A". */
  predicate IsHit(reply: OmdbReply) {
    reply.Data? && Get(reply.body, "Response", JNull) == JStr("True")
    && Truthy(Get(reply.body, "Poster", JNull)) && reply.body["Poster"] != JStr("N/A")
  }

  /** Group 1 of `^(.*?)\s*\((\d{4})\)$` on a stripped title: the part before a
      final four-digit year in parentheses, without the spaces before it; `.`
      does not match a line break. */
  function YearSuffixBase(t: string): Option<string> {
    if |t| >= 6 && t[|t| - 6] == '(' && t[|t| - 1] == ')' && IsDigits(t[|t| - 5..|t| - 1]) then
      var g := RStrip(t[..|t| - 6]);
      if '\n' in g then None else Some(g)
    else None
  }

  /** The title searched for: the stripped title without its year suffix. */
  function SearchTitle(movieTitle: string): string {
    var final := Strip(movieTitle);
    match YearSuffixBase(final)
    case None => final
    case Some(g) => Strip(g)
  }

  /** `[str(y), str(y - 1), str(y - 2)]`. */
  function YearsToTry(currentYear: int): seq<string> {
    [IntToString(currentYear), IntToString(currentYear - 1), IntToString(currentYear - 2)]
  }

  /** The poster of the first year whose reply is a hit. */
  function FirstPoster(title: string, years: seq<string>, omdb: (string, string) -> OmdbReply): Option<Json> {
    if years == [] then None
    else if IsHit(omdb(title, years[0])) then Some(omdb(title, years[0]).body["Poster"])
    else FirstPoster(title, years[1..], omdb)
  }

  /** `search_movie_poster` as a function of the key, the title, the year and
      the service. */
  function SearchResult(apiKey: Option<string>, movieTitle: Option<string>, currentYear: int,
                        omdb: (string, string) -> OmdbReply): (Option<Json>, Option<string>) {
    if !Present(apiKey) then (None, movieTitle)
    else if !Present(movieTitle) then (None, None)
    else
      var title := SearchTitle(movieTitle.value);
      match FirstPoster(title, YearsToTry(currentYear), omdb)
      case Some(poster) => (Some(poster), Some(title))
      case None => (None, Some(Strip(movieTitle.value)))
  }

  /** The loop over the years of `search_movie_poster`: the first hit gives
      its poster. */
  method TryYears(title: string, years: seq<string>, omdb: (string, string) -> OmdbReply) returns (poster: Option<Json>)
    ensures poster == FirstPoster(title, years, omdb)
  {
    for i := 0 to |years|
      invariant FirstPoster(title, years, omdb) == FirstPoster(title, years[i..], omdb)
    {
      var reply := omdb(title, years[i]);
      if IsHit(reply) {
        return Some(reply.body["Poster"]);
      }
      assert years[i..][1..] == years[i + 1..];
    }
    return None;
  }

  class OmdbClient {
    var apiKey: Option<string>

    constructor (apiKey: Option<string> := None)
      ensures this.apiKey == apiKey
    {
      this.apiKey := apiKey;
    }

    method SetApiKey(apiKey: string)
      modifies this
      ensures this.apiKey == Some(apiKey)
    {
      this.apiKey := Some(apiKey);
    }

    /** `search_movie_poster`: the years are tried in turn and the first hit
        returns its poster with the title searched for. */
    method SearchMoviePoster(movieTitle: Option<string>, currentYear: int, omdb: (string, string) -> OmdbReply)
      returns (poster: Option<Json>, title: Option<string>)
      ensures (poster, title) == SearchResult(apiKey, movieTitle, currentYear, omdb)
    {
      if !Present(apiKey) {
        return None, movieTitle;
      }
      if !Present(movieTitle) {
        return None, None;
      }
      var finalSearchTitle := Strip(movieTitle.value);
      var originalTitleForReturn := finalSearchTitle;
      var base := YearSuffixBase(finalSearchTitle);
      if base.Some? {
        finalSearchTitle := Strip(base.value);
      }
      assert finalSearchTitle == SearchTitle(movieTitle.value);
      var poster' := TryYears(finalSearchTitle, YearsToTry(currentYear), omdb);
      if poster'.Some? {
        return poster', Some(finalSearchTitle);
      }
      return None, Some(originalTitleForReturn);
    }
  }

  /** Without a key the title comes back unchanged; without a title there is
      nothing. */
  lemma SearchWithoutKeyOrTitle(apiKey: Option<string>, movieTitle: Option<string>, currentYear: int,
                                omdb: (string, string) -> OmdbReply)
    ensures !Present(apiKey) ==> SearchResult(apiKey, movieTitle, currentYear, omdb) == (None, movieTitle)
    ensures Present(apiKey) && !Present(movieTitle) ==> SearchResult(apiKey, movieTitle, currentYear, omdb) == (None, None)
  {
  }

  /** A poster is found exactly when some year's reply is a hit, and then it
      is the poster of the first such year. */
  lemma {:induction false} FirstPosterMeaning(title: string, years: seq<string>, omdb: (string, string) -> OmdbReply)
    ensures FirstPoster(title, years, omdb).Some? <==> exists k :: 0 <= k < |years| && IsHit(omdb(title, years[k]))
    ensures FirstPoster(title, years, omdb).Some? ==>
      exists k :: 0 <= k < |years| && IsHit(omdb(title, years[k]))
        && FirstPoster(title, years, omdb).value == omdb(title, years[k]).body["Poster"]
        && forall j :: 0 <= j < k ==> !IsHit(omdb(title, years[j]))
  {
    if years != [] && !IsHit(omdb(title, years[0])) {
      FirstPosterMeaning(title, years[1..], omdb);
      if FirstPoster(title, years, omdb).Some? {
        var k :| 0 <= k < |years[1..]| && IsHit(omdb(title, years[1..][k]))
          && FirstPoster(title, years[1..], omdb).value == omdb(title, years[1..][k]).body["Poster"]
          && forall j :: 0 <= j < k ==> !IsHit(omdb(title, years[1..][j]));
        assert years[k + 1] == years[1..][k];
        forall j | 0 <= j < k + 1 ensures !IsHit(omdb(title, years[j])) {
          if j > 0 { assert years[j] == years[1..][j - 1]; }
        }
      } else {
        forall k | 0 <= k < |years| ensures !IsHit(omdb(title, years[k])) {
          if k > 0 { assert years[k] == years[1..][k - 1]; }
        }
      }
    }
  }

  /** A title ending in " (YYYY)" is searched for without that suffix. */
  lemma YearSuffixRemoved(t: string, year: string)
    requires t != [] && HasNoEdgeSpace(t) && '\n' !in t
    requires |year| == 4 && IsDigits(year)
    ensures SearchTitle(t + " (" + year + ")") == t
  {
    var full := t + " (" + year + ")";
    assert HasNoEdgeSpace(full) by {
      assert full[0] == t[0];
    }
    StripOfClean(full);
    YearSuffixBaseOf(t, year, full);
    StripOfClean(t);
  }

  lemma YearSuffixBaseOf(t: string, year: string, full: string)
    requires t != [] && HasNoEdgeSpace(t) && '\n' !in t
    requires |year| == 4 && IsDigits(year) && full == t + " (" + year + ")"
    ensures YearSuffixBase(full) == Some(t)
  {
    assert full[|full| - 6] == '(' && full[|full| - 1] == ')';
    assert full[|full| - 5..|full| - 1] == year;
    assert full[..|full| - 6] == t + " ";
    assert AllSpace(" ");
    RStripOfSpaces(t, " ");
  }
}
