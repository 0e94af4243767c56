/** `db_episodes.py`: the `episodes` table of scheduled episodes, held in
    memory. The table follows the schema in `app/utils/db_manager.py`, where
    `publish_at_utc_iso` is `UNIQUE`; a statement that would break that
    constraint raises a database error, which each operation catches. */
module DbEpisodes {
  import opened Wrappers
  import opened Strings
  import opened Updates

  /** One row of `episodes`. */
  datatype Episode = Episode(
    episodeNumber: Option<string>,
    episodeTopic: Option<string>,
    spreakerEpisodeId: Option<string>,
    processedMp3Path: Option<string>,
    posterPath: Option<string>,
    showNotesPath: Option<string>,
    publishAtUtcIso: Option<string>,
    tags: Option<string>,
    createdAt: int)

  /** The `UNIQUE` constraint on `publish_at_utc_iso`; NULLs never clash. */
  predicate UniquePublish(rows: seq<Episode>) {
    forall i, j :: 0 <= i < j < |rows| && rows[i].publishAtUtcIso.Some? ==>
      rows[i].publishAtUtcIso != rows[j].publishAtUtcIso
  }

  /** Some row is already scheduled at `publish`. */
  predicate PublishTaken(rows: seq<Episode>, publish: string) {
    exists i :: 0 <= i < |rows| && rows[i].publishAtUtcIso == Some(publish)
  }

  // ---------------------------------------------------------------------------
  // record_scheduled_episode
  // ---------------------------------------------------------------------------

  /** The `tags` column written for a tag list: their comma-join, or NULL for a
      missing or empty list. */
  function TagsColumn(tagsList: Option<seq<string>>): (r: Option<string>)
    ensures r.None? <==> tagsList.None? || tagsList.value == []
  {
    if tagsList.Some? && tagsList.value != [] then Some(Join(tagsList.value, ",")) else None
  }

  /** Tags without commas are read back from the column by splitting on `,`. */
  lemma TagsColumnRoundTrip(tags: seq<string>)
    requires tags != []
    requires forall i :: 0 <= i < |tags| ==> ',' !in tags[i]
    ensures TagsColumn(Some(tags)).Some? && Split(TagsColumn(Some(tags)).value, ',') == tags
  {
    JoinSplit(tags, ',');
  }

  // ---------------------------------------------------------------------------
  // update_episode_metadata_in_db
  // ---------------------------------------------------------------------------

  /** One entry of the `SET` list. */
  datatype Column = PublishAtUtcIso | ProcessedMp3Path | PosterPath | ShowNotesPath | Tags
  datatype Assignment = Assignment(column: Column, value: string)

  /** Nothing truthy to write: no publish time or paths, and no tag list. */
  predicate NothingToUpdate(newPublish: Option<string>, newTags: Option<seq<string>>, newMp3: Option<string>,
                            newPoster: Option<string>, newShowNotes: Option<string>) {
    !Present(newPublish) && newTags.None? && !Present(newMp3) && !Present(newPoster) && !Present(newShowNotes)
  }

  /** The `SET` list in the order the source builds it. */
  function Assignments(newPublish: Option<string>, newTags: Option<seq<string>>, newMp3: Option<string>,
                       newPoster: Option<string>, newShowNotes: Option<string>): seq<Assignment> {
    (if Present(newPublish) then [Assignment(PublishAtUtcIso, newPublish.value)] else [])
    + (if Present(newMp3) then [Assignment(ProcessedMp3Path, newMp3.value)] else [])
    + (if Present(newPoster) then [Assignment(PosterPath, newPoster.value)] else [])
    + (if Present(newShowNotes) then [Assignment(ShowNotesPath, newShowNotes.value)] else [])
    + (if newTags.Some? then [Assignment(Tags, Join(newTags.value, ","))] else [])
  }

  function Assign(e: Episode, a: Assignment): Episode {
    match a.column
    case PublishAtUtcIso => e.(publishAtUtcIso := Some(a.value))
    case ProcessedMp3Path => e.(processedMp3Path := Some(a.value))
    case PosterPath => e.(posterPath := Some(a.value))
    case ShowNotesPath => e.(showNotesPath := Some(a.value))
    case Tags => e.(tags := Some(a.value))
  }

  /** The `SET` list applied to one row, in order. */
  function AssignAll(e: Episode, updates: seq<Assignment>): Episode {
    ApplyAll(Assign, e, updates)
  }

  /** The row an update writes: the `SET` list, then `created_at = NOW()`. */
  function Patch(e: Episode, updates: seq<Assignment>, now: int): Episode {
    AssignAll(e, updates).(createdAt := now)
  }

  /** The `UPDATE ... WHERE spreaker_episode_id = %s` statement. */
  function UpdatedRows(rows: seq<Episode>, spreakerEpisodeId: string, updates: seq<Assignment>, now: int): (r: seq<Episode>)
    ensures |r| == |rows|
  {
    seq(|rows|, i requires 0 <= i < |rows| =>
      if rows[i].spreakerEpisodeId == Some(spreakerEpisodeId) then Patch(rows[i], updates, now) else rows[i])
  }

  /** Some row carries that Spreaker id. */
  predicate Matches(rows: seq<Episode>, spreakerEpisodeId: string) {
    exists i :: 0 <= i < |rows| && rows[i].spreakerEpisodeId == Some(spreakerEpisodeId)
  }

  /** A patched row has exactly the supplied fields replaced: a truthy publish
      time or path, any tag list (an empty one writes ""), and `created_at`;
      every other column is kept. */
  lemma PatchChangesSuppliedFields(e: Episode, newPublish: Option<string>, newTags: Option<seq<string>>,
                                   newMp3: Option<string>, newPoster: Option<string>, newShowNotes: Option<string>, now: int)
    ensures Patch(e, Assignments(newPublish, newTags, newMp3, newPoster, newShowNotes), now) ==
      e.(publishAtUtcIso := if Present(newPublish) then newPublish else e.publishAtUtcIso,
         processedMp3Path := if Present(newMp3) then newMp3 else e.processedMp3Path,
         posterPath := if Present(newPoster) then newPoster else e.posterPath,
         showNotesPath := if Present(newShowNotes) then newShowNotes else e.showNotesPath,
         tags := if newTags.Some? then Some(Join(newTags.value, ",")) else e.tags,
         createdAt := now)
  {
    var p := if Present(newPublish) then [Assignment(PublishAtUtcIso, newPublish.value)] else [];
    var m := if Present(newMp3) then [Assignment(ProcessedMp3Path, newMp3.value)] else [];
    var po := if Present(newPoster) then [Assignment(PosterPath, newPoster.value)] else [];
    var sn := if Present(newShowNotes) then [Assignment(ShowNotesPath, newShowNotes.value)] else [];
    var t := if newTags.Some? then [Assignment(Tags, Join(newTags.value, ","))] else [];
    var e1 := e.(publishAtUtcIso := if Present(newPublish) then newPublish else e.publishAtUtcIso);
    var e2 := e1.(processedMp3Path := if Present(newMp3) then newMp3 else e.processedMp3Path);
    var e3 := e2.(posterPath := if Present(newPoster) then newPoster else e.posterPath);
    var e4 := e3.(showNotesPath := if Present(newShowNotes) then newShowNotes else e.showNotesPath);
    ApplyAtMostOne(Assign, e, p);
    assert AssignAll(e, p) == e1;
    ApplyAllAppend(Assign, e, p, m);
    ApplyAtMostOne(Assign, e1, m);
    assert AssignAll(e, p + m) == e2;
    ApplyAllAppend(Assign, e, p + m, po);
    ApplyAtMostOne(Assign, e2, po);
    assert AssignAll(e, p + m + po) == e3;
    ApplyAllAppend(Assign, e, p + m + po, sn);
    ApplyAtMostOne(Assign, e3, sn);
    assert AssignAll(e, p + m + po + sn) == e4;
    ApplyAllAppend(Assign, e, p + m + po + sn, t);
    ApplyAtMostOne(Assign, e4, t);
  }

  // ---------------------------------------------------------------------------
  // get_latest_scheduled_publish_time
  // ---------------------------------------------------------------------------

  /** `MAX(publish_at_utc_iso)` over the non-NULL values. */
  function MaxPublish(rows: seq<Episode>): (r: Option<string>)
    ensures r.Some? ==> exists i :: 0 <= i < |rows| && rows[i].publishAtUtcIso == r
    ensures r.Some? ==> forall i :: 0 <= i < |rows| && rows[i].publishAtUtcIso.Some? ==>
      StrLe(rows[i].publishAtUtcIso.value, r.value)
    ensures r.None? ==> forall i :: 0 <= i < |rows| ==> rows[i].publishAtUtcIso.None?
  {
    if rows == [] then None
    else
      var rest := MaxPublish(rows[1..]);
      var here := rows[0].publishAtUtcIso;
      assert forall i :: 1 <= i < |rows| ==> rows[i] == rows[1..][i - 1];
      if here.None? then rest
      else if rest.None? then
        StrLeTotal(here.value, here.value);
        here
      else if StrLe(here.value, rest.value) then
        assert forall i :: 1 <= i < |rows| && rows[i].publishAtUtcIso.Some? ==>
          StrLe(rows[i].publishAtUtcIso.value, rest.value);
        assert rows[1..][0] == rows[1];
        rest
      else
        StrLeTotal(here.value, rest.value);
        StrLeTotal(here.value, here.value);
        assert forall i :: 1 <= i < |rows| && rows[i].publishAtUtcIso.Some? ==>
          StrLe(rows[i].publishAtUtcIso.value, here.value) by {
          forall i | 1 <= i < |rows| && rows[i].publishAtUtcIso.Some?
            ensures StrLe(rows[i].publishAtUtcIso.value, here.value)
          {
            StrLeTransitive(rows[i].publishAtUtcIso.value, rest.value, here.value);
          }
        }
        here
  }

  /** What the query reports: the maximum when it is truthy. */
  function LatestScheduledPublishTime(rows: seq<Episode>): Option<string> {
    match MaxPublish(rows)
    case Some(t) => if t != "" then Some(t) else None
    case None => None
  }

  /** The latest publish time is a stored time no other stored time exceeds;
      there is none exactly when every stored time is NULL or empty. */
  lemma LatestMeaning(rows: seq<Episode>)
    ensures LatestScheduledPublishTime(rows).Some? ==>
      (exists i :: 0 <= i < |rows| && rows[i].publishAtUtcIso == LatestScheduledPublishTime(rows))
      && forall i :: 0 <= i < |rows| && rows[i].publishAtUtcIso.Some? ==>
        StrLe(rows[i].publishAtUtcIso.value, LatestScheduledPublishTime(rows).value)
    ensures LatestScheduledPublishTime(rows).None? <==>
      forall i :: 0 <= i < |rows| ==> rows[i].publishAtUtcIso.None? || rows[i].publishAtUtcIso == Some("")
  {
    var m := MaxPublish(rows);
    if m.Some? && m.value == "" {
      forall i | 0 <= i < |rows| && rows[i].publishAtUtcIso.Some? ensures rows[i].publishAtUtcIso == Some("") {
        var v := rows[i].publishAtUtcIso.value;
        assert StrLe(v, "");
      }
    }
    if m.Some? && m.value != "" {
      var i :| 0 <= i < |rows| && rows[i].publishAtUtcIso == m;
      assert !(rows[i].publishAtUtcIso.None? || rows[i].publishAtUtcIso == Some(""));
    }
  }

  // ---------------------------------------------------------------------------
  // get_episode_details_for_reupload
  // ---------------------------------------------------------------------------

  /** The columns the re-upload query selects. */
  datatype ReuploadDetails = ReuploadDetails(
    episodeNumber: Option<string>,
    episodeTopic: Option<string>,
    processedMp3Path: Option<string>,
    posterPath: Option<string>,
    showNotesPath: Option<string>,
    tags: Option<string>)

  function DetailsOf(e: Episode): ReuploadDetails {
    ReuploadDetails(e.episodeNumber, e.episodeTopic, e.processedMp3Path, e.posterPath, e.showNotesPath, e.tags)
  }

  /** A row with that episode number and the latest `created_at`
      (`ORDER BY created_at DESC LIMIT 1`); among equal times this picks the
      earliest inserted, an order SQL leaves open. */
  function LatestCreated(rows: seq<Episode>, episodeNumber: string): (r: Option<Episode>)
    ensures r.Some? ==> r.value in rows && r.value.episodeNumber == Some(episodeNumber)
    ensures r.Some? ==> forall i :: 0 <= i < |rows| && rows[i].episodeNumber == Some(episodeNumber) ==>
      rows[i].createdAt <= r.value.createdAt
    ensures r.None? <==> forall i :: 0 <= i < |rows| ==> rows[i].episodeNumber != Some(episodeNumber)
  {
    if rows == [] then None
    else
      var rest := LatestCreated(rows[1..], episodeNumber);
      assert forall i :: 1 <= i < |rows| ==> rows[i] == rows[1..][i - 1];
      if rows[0].episodeNumber == Some(episodeNumber) && (rest.None? || rest.value.createdAt <= rows[0].createdAt) then
        Some(rows[0])
      else
        assert rest.Some? ==> rest.value in rows;
        rest
  }

  // ---------------------------------------------------------------------------
  // The table
  // ---------------------------------------------------------------------------

  class EpisodeTable {
    /** The rows in insertion order. */
    var rows: seq<Episode>

    predicate Valid()
      reads this
    {
      UniquePublish(rows)
    }

    constructor ()
      ensures rows == [] && Valid()
    {
      rows := [];
    }

    /** `record_scheduled_episode`: a new row with the tag column of the list;
        a publish time already taken violates the constraint and nothing is
        added. */
    method RecordScheduledEpisode(epNum: Option<string>, episodeTopic: Option<string>, spreakerId: Option<string>,
                                  publishTimeUtc: string, processedMp3Path: string, posterPath: Option<string>,
                                  showNotesPath: Option<string>, tagsList: Option<seq<string>>, now: int)
      requires Valid()
      modifies this
      ensures Valid()
      ensures PublishTaken(old(rows), publishTimeUtc) ==> rows == old(rows)
      ensures !PublishTaken(old(rows), publishTimeUtc) ==>
        rows == old(rows) + [Episode(epNum, episodeTopic, spreakerId, Some(processedMp3Path), posterPath,
                                     showNotesPath, Some(publishTimeUtc), TagsColumn(tagsList), now)]
    {
      var tagsStr := TagsColumn(tagsList);
      if PublishTaken(rows, publishTimeUtc) {
        return;
      }
      rows := rows + [Episode(epNum, episodeTopic, spreakerId, Some(processedMp3Path), posterPath,
                              showNotesPath, Some(publishTimeUtc), tagsStr, now)];
    }

    /** `update_episode_metadata_in_db`: nothing to write gives `false`;
        otherwise the matching rows are patched, unless that breaks the
        constraint, and the result says whether any row matched. */
    method UpdateEpisodeMetadataInDb(spreakerEpisodeId: string, newPublish: Option<string>, newTags: Option<seq<string>>,
                                     newMp3: Option<string>, newPoster: Option<string>, newShowNotes: Option<string>,
                                     now: int) returns (ok: bool)
      requires Valid()
      modifies this
      ensures Valid()
      ensures NothingToUpdate(newPublish, newTags, newMp3, newPoster, newShowNotes) ==> !ok && rows == old(rows)
      ensures !NothingToUpdate(newPublish, newTags, newMp3, newPoster, newShowNotes) ==>
        var updated := UpdatedRows(old(rows), spreakerEpisodeId,
                                   Assignments(newPublish, newTags, newMp3, newPoster, newShowNotes), now);
        if UniquePublish(updated) then rows == updated && (ok <==> Matches(old(rows), spreakerEpisodeId))
        else rows == old(rows) && !ok
    {
      if NothingToUpdate(newPublish, newTags, newMp3, newPoster, newShowNotes) {
        return false;
      }
      var updates := BuildAssignments(newPublish, newTags, newMp3, newPoster, newShowNotes);
      var updated, rowcount := ApplyUpdate(rows, spreakerEpisodeId, updates, now);
      if !UniquePublish(updated) {
        return false;
      }
      rows := updated;
      ok := rowcount > 0;
    }

    /** `get_latest_scheduled_publish_time`: the largest stored publish time,
        or none when every stored time is NULL or empty. */
    function GetLatestScheduledPublishTime(): (r: Option<string>)
      reads this
      ensures r.Some? ==> exists i :: 0 <= i < |rows| && rows[i].publishAtUtcIso == r
      ensures r.Some? ==> forall i :: 0 <= i < |rows| && rows[i].publishAtUtcIso.Some? ==>
        StrLe(rows[i].publishAtUtcIso.value, r.value)
      ensures r.None? <==> forall i :: 0 <= i < |rows| ==> rows[i].publishAtUtcIso.None? || rows[i].publishAtUtcIso == Some("")
    {
      LatestMeaning(rows);
      LatestScheduledPublishTime(rows)
    }

    /** `get_episode_details_for_reupload`: the selected columns of the latest
        created row with that episode number. */
    function GetEpisodeDetailsForReupload(episodeNumber: string): (r: Option<ReuploadDetails>)
      reads this
      ensures r.None? <==> forall i :: 0 <= i < |rows| ==> rows[i].episodeNumber != Some(episodeNumber)
      ensures r.Some? ==>
        exists i :: 0 <= i < |rows| && rows[i].episodeNumber == Some(episodeNumber) && r.value == DetailsOf(rows[i])
          && forall j :: 0 <= j < |rows| && rows[j].episodeNumber == Some(episodeNumber) ==>
            rows[j].createdAt <= rows[i].createdAt
    {
      match LatestCreated(rows, episodeNumber)
      case None => None
      case Some(e) =>
        Some(DetailsOf(e))
    }
  }

  /** Patching never changes the Spreaker id or the episode number, so the set
      of matching rows is the same after an update. */
  lemma {:induction false} PatchKeepsKeys(e: Episode, updates: seq<Assignment>, now: int)
    ensures Patch(e, updates, now).spreakerEpisodeId == e.spreakerEpisodeId
    ensures Patch(e, updates, now).episodeNumber == e.episodeNumber
    ensures Patch(e, updates, now).episodeTopic == e.episodeTopic
    decreases |updates|
  {
    if updates != [] {
      PatchKeepsKeys(Assign(e, updates[0]), updates[1..], now);
    }
  }

  /** Only a new publish time can break the constraint: an update without
      one keeps every publish time, so it always goes through. */
  lemma UpdateWithoutPublishKeepsConstraint(rows: seq<Episode>, spreakerEpisodeId: string, newTags: Option<seq<string>>,
                                            newMp3: Option<string>, newPoster: Option<string>,
                                            newShowNotes: Option<string>, now: int)
    requires UniquePublish(rows)
    ensures var updated := UpdatedRows(rows, spreakerEpisodeId, Assignments(None, newTags, newMp3, newPoster, newShowNotes), now);
      (forall i :: 0 <= i < |rows| ==> updated[i].publishAtUtcIso == rows[i].publishAtUtcIso)
      && UniquePublish(updated)
  {
    var updated := UpdatedRows(rows, spreakerEpisodeId, Assignments(None, newTags, newMp3, newPoster, newShowNotes), now);
    forall i | 0 <= i < |rows| ensures updated[i].publishAtUtcIso == rows[i].publishAtUtcIso {
      PatchChangesSuppliedFields(rows[i], None, newTags, newMp3, newPoster, newShowNotes, now);
    }
  }

  /** The `UPDATE` statement row by row: the new rows and the number of rows
      it matched. */
  method ApplyUpdate(rows: seq<Episode>, spreakerEpisodeId: string, updates: seq<Assignment>, now: int)
    returns (updated: seq<Episode>, rowcount: nat)
    ensures updated == UpdatedRows(rows, spreakerEpisodeId, updates, now)
    ensures rowcount > 0 <==> Matches(rows, spreakerEpisodeId)
  {
    updated := [];
    rowcount := 0;
    for i := 0 to |rows|
      invariant updated == UpdatedRows(rows, spreakerEpisodeId, updates, now)[..i]
      invariant rowcount > 0 <==> Matches(rows[..i], spreakerEpisodeId)
    {
      if rows[i].spreakerEpisodeId == Some(spreakerEpisodeId) {
        updated := updated + [Patch(rows[i], updates, now)];
        rowcount := rowcount + 1;
      } else {
        updated := updated + [rows[i]];
      }
      assert rows[..i + 1] == rows[..i] + [rows[i]];
    }
    assert rows[..|rows|] == rows;
  }

  /** The `updates` list, one `append` per supplied field. */
  method BuildAssignments(newPublish: Option<string>, newTags: Option<seq<string>>, newMp3: Option<string>,
                          newPoster: Option<string>, newShowNotes: Option<string>) returns (updates: seq<Assignment>)
    ensures updates == Assignments(newPublish, newTags, newMp3, newPoster, newShowNotes)
  {
    var p := if Present(newPublish) then [Assignment(PublishAtUtcIso, newPublish.value)] else [];
    var m := if Present(newMp3) then [Assignment(ProcessedMp3Path, newMp3.value)] else [];
    var po := if Present(newPoster) then [Assignment(PosterPath, newPoster.value)] else [];
    var sn := if Present(newShowNotes) then [Assignment(ShowNotesPath, newShowNotes.value)] else [];
    updates := [];
    if Present(newPublish) { updates := updates + [Assignment(PublishAtUtcIso, newPublish.value)]; }
    assert updates == p;
    if Present(newMp3) { updates := updates + [Assignment(ProcessedMp3Path, newMp3.value)]; }
    assert updates == p + m;
    if Present(newPoster) { updates := updates + [Assignment(PosterPath, newPoster.value)]; }
    assert updates == p + m + po;
    if Present(newShowNotes) { updates := updates + [Assignment(ShowNotesPath, newShowNotes.value)]; }
    assert updates == p + m + po + sn;
    if newTags.Some? { updates := updates + [Assignment(Tags, Join(newTags.value, ","))]; }
  }
}
