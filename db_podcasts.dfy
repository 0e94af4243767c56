/** `db_podcasts.py`: the `podcasts` table of podcast projects, held in memory.
    `title` is `NOT NULL UNIQUE` (the schema in `app/utils/db_manager.py`); a
    statement that would duplicate a title raises a database error, which each
    operation catches. */
module DbPodcasts {
  import opened Wrappers
  import opened Strings
  import opened Updates
  import opened Sorting

  /** One row of `podcasts`. */
  datatype Podcast = Podcast(
    id: nat,
    title: string,
    author: Option<string>,
    description: Option<string>,
    defaultCoverArtPath: Option<string>,
    defaultTemplatePath: Option<string>,
    defaultSpreakerShowId: Option<string>,
    defaultPublishTimezone: Option<string>,
    usesOmdb: bool,
    updatedAt: int)

  /** The `UNIQUE` constraint on `title`. */
  predicate UniqueTitles(rows: seq<Podcast>) {
    forall i, j :: 0 <= i < j < |rows| ==> rows[i].title != rows[j].title
  }

  predicate TitleTaken(rows: seq<Podcast>, title: string) {
    exists i :: 0 <= i < |rows| && rows[i].title == title
  }

  // ---------------------------------------------------------------------------
  // update_podcast_project
  // ---------------------------------------------------------------------------

  /** One entry of `fields_to_update`, with its parameter. */
  datatype Assignment =
    | SetTitle(title: string)
    | SetAuthor(author: string)
    | SetDescription(description: string)
    | SetCoverArtPath(coverArtPath: string)
    | SetTemplatePath(templatePath: string)
    | SetSpreakerShowId(showId: string)
    | SetPublishTimezone(timezone: string)
    | SetUsesOmdb(usesOmdb: bool)

  /** The optional arguments of `update_podcast_project`. */
  datatype Changes = Changes(
    title: Option<string>,
    author: Option<string>,
    description: Option<string>,
    defaultCoverArtPath: Option<string>,
    defaultTemplatePath: Option<string>,
    defaultSpreakerShowId: Option<string>,
    defaultPublishTimezone: Option<string>,
    usesOmdb: Option<bool>)

  /** `fields_to_update` in the order the source builds it: one entry per
      argument that is not `None`. */
  function Assignments(c: Changes): seq<Assignment> {
    TextAssignments(c) + SettingAssignments(c)
  }

  /** The entries for `title`, `author`, `description` and the cover art. */
  function TextAssignments(c: Changes): seq<Assignment> {
    (if c.title.Some? then [SetTitle(c.title.value)] else [])
    + (if c.author.Some? then [SetAuthor(c.author.value)] else [])
    + (if c.description.Some? then [SetDescription(c.description.value)] else [])
    + (if c.defaultCoverArtPath.Some? then [SetCoverArtPath(c.defaultCoverArtPath.value)] else [])
  }

  /** The entries for the template, the show, the time zone and `uses_omdb`. */
  function SettingAssignments(c: Changes): seq<Assignment> {
    (if c.defaultTemplatePath.Some? then [SetTemplatePath(c.defaultTemplatePath.value)] else [])
    + (if c.defaultSpreakerShowId.Some? then [SetSpreakerShowId(c.defaultSpreakerShowId.value)] else [])
    + (if c.defaultPublishTimezone.Some? then [SetPublishTimezone(c.defaultPublishTimezone.value)] else [])
    + (if c.usesOmdb.Some? then [SetUsesOmdb(c.usesOmdb.value)] else [])
  }

  function Assign(p: Podcast, a: Assignment): Podcast {
    match a
    case SetTitle(t) => p.(title := t)
    case SetAuthor(x) => p.(author := Some(x))
    case SetDescription(x) => p.(description := Some(x))
    case SetCoverArtPath(x) => p.(defaultCoverArtPath := Some(x))
    case SetTemplatePath(x) => p.(defaultTemplatePath := Some(x))
    case SetSpreakerShowId(x) => p.(defaultSpreakerShowId := Some(x))
    case SetPublishTimezone(x) => p.(defaultPublishTimezone := Some(x))
    case SetUsesOmdb(b) => p.(usesOmdb := b)
  }

  function AssignAll(p: Podcast, updates: seq<Assignment>): Podcast {
    ApplyAll(Assign, p, updates)
  }

  /** The row the `UPDATE` writes: the assignments, then `updated_at = NOW()`. */
  function Patch(p: Podcast, updates: seq<Assignment>, now: int): Podcast {
    AssignAll(p, updates).(updatedAt := now)
  }

  /** A field keeps its value when its argument is `None` and takes the
      argument otherwise. */
  function Pick<T>(o: Option<T>, old_: T): T {
    if o.Some? then o.value else old_
  }

  function PickSome<T>(o: Option<T>, old_: Option<T>): Option<T> {
    if o.Some? then o else old_
  }

  /** Assigning `rest` after `updates` where `updates` is at most one entry. */
  lemma AssignStep(p: Podcast, prefix: seq<Assignment>, step: seq<Assignment>, before: Podcast)
    requires |step| <= 1 && AssignAll(p, prefix) == before
    ensures AssignAll(p, prefix + step) == if step == [] then before else Assign(before, step[0])
  {
    ApplyAllAppend(Assign, p, prefix, step);
    ApplyAtMostOne(Assign, before, step);
  }

  /** An update changes exactly the fields whose argument is not `None`, and
      `updated_at`; the id and every other column are kept. */
  lemma PatchChangesSuppliedFields(p: Podcast, c: Changes, now: int)
    ensures Patch(p, Assignments(c), now) ==
      p.(title := Pick(c.title, p.title),
         author := PickSome(c.author, p.author),
         description := PickSome(c.description, p.description),
         defaultCoverArtPath := PickSome(c.defaultCoverArtPath, p.defaultCoverArtPath),
         defaultTemplatePath := PickSome(c.defaultTemplatePath, p.defaultTemplatePath),
         defaultSpreakerShowId := PickSome(c.defaultSpreakerShowId, p.defaultSpreakerShowId),
         defaultPublishTimezone := PickSome(c.defaultPublishTimezone, p.defaultPublishTimezone),
         usesOmdb := Pick(c.usesOmdb, p.usesOmdb),
         updatedAt := now)
  {
    ApplyAllAppend(Assign, p, TextAssignments(c), SettingAssignments(c));
    TextAssignmentsEffect(p, c);
    SettingAssignmentsEffect(AssignAll(p, TextAssignments(c)), c);
  }

  lemma TextAssignmentsEffect(p: Podcast, c: Changes)
    ensures AssignAll(p, TextAssignments(c)) ==
      p.(title := Pick(c.title, p.title),
         author := PickSome(c.author, p.author),
         description := PickSome(c.description, p.description),
         defaultCoverArtPath := PickSome(c.defaultCoverArtPath, p.defaultCoverArtPath))
  {
    var s1 := if c.title.Some? then [SetTitle(c.title.value)] else [];
    var s2 := if c.author.Some? then [SetAuthor(c.author.value)] else [];
    var s3 := if c.description.Some? then [SetDescription(c.description.value)] else [];
    var s4 := if c.defaultCoverArtPath.Some? then [SetCoverArtPath(c.defaultCoverArtPath.value)] else [];
    var p1 := p.(title := Pick(c.title, p.title));
    var p2 := p1.(author := PickSome(c.author, p.author));
    var p3 := p2.(description := PickSome(c.description, p.description));
    AssignStep(p, [], s1, p);
    assert [] + s1 == s1;
    AssignStep(p, s1, s2, p1);
    AssignStep(p, s1 + s2, s3, p2);
    AssignStep(p, s1 + s2 + s3, s4, p3);
    assert TextAssignments(c) == s1 + s2 + s3 + s4;
  }

  lemma SettingAssignmentsEffect(p: Podcast, c: Changes)
    ensures AssignAll(p, SettingAssignments(c)) ==
      p.(defaultTemplatePath := PickSome(c.defaultTemplatePath, p.defaultTemplatePath),
         defaultSpreakerShowId := PickSome(c.defaultSpreakerShowId, p.defaultSpreakerShowId),
         defaultPublishTimezone := PickSome(c.defaultPublishTimezone, p.defaultPublishTimezone),
         usesOmdb := Pick(c.usesOmdb, p.usesOmdb))
  {
    var s5 := if c.defaultTemplatePath.Some? then [SetTemplatePath(c.defaultTemplatePath.value)] else [];
    var s6 := if c.defaultSpreakerShowId.Some? then [SetSpreakerShowId(c.defaultSpreakerShowId.value)] else [];
    var s7 := if c.defaultPublishTimezone.Some? then [SetPublishTimezone(c.defaultPublishTimezone.value)] else [];
    var s8 := if c.usesOmdb.Some? then [SetUsesOmdb(c.usesOmdb.value)] else [];
    var p5 := p.(defaultTemplatePath := PickSome(c.defaultTemplatePath, p.defaultTemplatePath));
    var p6 := p5.(defaultSpreakerShowId := PickSome(c.defaultSpreakerShowId, p.defaultSpreakerShowId));
    var p7 := p6.(defaultPublishTimezone := PickSome(c.defaultPublishTimezone, p.defaultPublishTimezone));
    AssignStep(p, [], s5, p);
    assert [] + s5 == s5;
    AssignStep(p, s5, s6, p5);
    AssignStep(p, s5 + s6, s7, p6);
    AssignStep(p, s5 + s6 + s7, s8, p7);
    assert SettingAssignments(c) == s5 + s6 + s7 + s8;
  }

  /** The `UPDATE ... WHERE id = %s` statement. */
  function UpdatedRows(rows: seq<Podcast>, podcastId: int, updates: seq<Assignment>, now: int): (r: seq<Podcast>)
    ensures |r| == |rows|
  {
    seq(|rows|, i requires 0 <= i < |rows| => if rows[i].id == podcastId then Patch(rows[i], updates, now) else rows[i])
  }

  // ---------------------------------------------------------------------------
  // get_all_podcast_projects
  // ---------------------------------------------------------------------------

  /** The columns the listing selects. */
  datatype ProjectSummary = ProjectSummary(id: nat, title: string, author: Option<string>, defaultTemplatePath: Option<string>)

  function SummaryOf(p: Podcast): ProjectSummary {
    ProjectSummary(p.id, p.title, p.author, p.defaultTemplatePath)
  }

  /** `ORDER BY title ASC`. */
  predicate TitleOrder(a: Podcast, b: Podcast) { StrLe(a.title, b.title) }

  lemma TitleOrderIsPreorder()
    ensures IsTotalPreorder(TitleOrder)
  {
    forall a: Podcast, b: Podcast ensures TitleOrder(a, b) || TitleOrder(b, a) {
      StrLeTotal(a.title, b.title);
    }
    forall a: Podcast, b: Podcast, c: Podcast | TitleOrder(a, b) && TitleOrder(b, c) ensures TitleOrder(a, c) {
      StrLeTransitive(a.title, b.title, c.title);
    }
  }

  /** The rows of the listing, titles ascending. */
  function ProjectList(rows: seq<Podcast>): (r: seq<ProjectSummary>)
    ensures |r| == |rows|
  {
    TitleOrderIsPreorder();
    var sorted := SortBy(rows, TitleOrder);
    seq(|sorted|, i requires 0 <= i < |sorted| => SummaryOf(sorted[i]))
  }

  /** The listing summarises every project, in ascending title order; with
      unique titles the order is strict. */
  lemma ProjectListMeaning(rows: seq<Podcast>)
    ensures forall s :: s in ProjectList(rows) <==> exists i :: 0 <= i < |rows| && s == SummaryOf(rows[i])
    ensures forall i, j :: 0 <= i < j < |rows| ==> StrLe(ProjectList(rows)[i].title, ProjectList(rows)[j].title)
    ensures UniqueTitles(rows) ==>
      forall i, j :: 0 <= i < j < |rows| ==> ProjectList(rows)[i].title != ProjectList(rows)[j].title
  {
    TitleOrderIsPreorder();
    var sorted := SortBy(rows, TitleOrder);
    var list := ProjectList(rows);
    forall s ensures s in list <==> exists i :: 0 <= i < |rows| && s == SummaryOf(rows[i]) {
      ProjectListMembership(rows, sorted, s);
      if s in list {
        var k :| 0 <= k < |list| && list[k] == s;
        assert s == SummaryOf(sorted[k]);
      }
      if exists k :: 0 <= k < |sorted| && s == SummaryOf(sorted[k]) {
        var k :| 0 <= k < |sorted| && s == SummaryOf(sorted[k]);
        assert list[k] == s;
      }
    }
    if UniqueTitles(rows) {
      forall i, j | 0 <= i < j < |rows| ensures ProjectList(rows)[i].title != ProjectList(rows)[j].title {
        SortedDistinct(rows, sorted, i, j);
      }
    }
  }

  lemma ProjectListMembership(rows: seq<Podcast>, sorted: seq<Podcast>, s: ProjectSummary)
    requires multiset(sorted) == multiset(rows)
    ensures (exists k :: 0 <= k < |sorted| && s == SummaryOf(sorted[k])) <==>
      exists i :: 0 <= i < |rows| && s == SummaryOf(rows[i])
  {
    if exists k :: 0 <= k < |sorted| && s == SummaryOf(sorted[k]) {
      var k :| 0 <= k < |sorted| && s == SummaryOf(sorted[k]);
      assert sorted[k] in multiset(rows);
      var i :| 0 <= i < |rows| && rows[i] == sorted[k];
    }
    if exists i :: 0 <= i < |rows| && s == SummaryOf(rows[i]) {
      var i :| 0 <= i < |rows| && s == SummaryOf(rows[i]);
      assert rows[i] in multiset(sorted);
      var k :| 0 <= k < |sorted| && sorted[k] == rows[i];
    }
  }

  /** Two positions of a permutation of rows with unique titles hold different
      titles. */
  lemma SortedDistinct(rows: seq<Podcast>, sorted: seq<Podcast>, i: int, j: int)
    requires UniqueTitles(rows) && multiset(sorted) == multiset(rows) && 0 <= i < j < |sorted|
    ensures sorted[i].title != sorted[j].title
  {
    assert sorted[i] in multiset(rows) && sorted[j] in multiset(rows);
    var a :| 0 <= a < |rows| && rows[a] == sorted[i];
    var b :| 0 <= b < |rows| && rows[b] == sorted[j];
    if a == b {
      TwiceInSeq(sorted, i, j);
      OnceInUniqueTitles(rows, rows[a]);
    }
  }

  lemma TwiceInSeq(s: seq<Podcast>, i: int, j: int)
    requires 0 <= i < j < |s| && s[i] == s[j]
    ensures multiset(s)[s[i]] >= 2
  {
    assert s == s[..j] + [s[j]] + s[j + 1..];
    assert s[..j][i] == s[i];
    assert s[i] in multiset(s[..j]);
  }

  lemma {:induction false} OnceInUniqueTitles(rows: seq<Podcast>, x: Podcast)
    requires UniqueTitles(rows)
    ensures multiset(rows)[x] <= 1
  {
    if rows != [] {
      assert rows == [rows[0]] + rows[1..];
      assert UniqueTitles(rows[1..]) by {
        forall i, j | 0 <= i < j < |rows[1..]| ensures rows[1..][i].title != rows[1..][j].title {
          assert rows[1..][i] == rows[i + 1] && rows[1..][j] == rows[j + 1];
        }
      }
      OnceInUniqueTitles(rows[1..], x);
      if x == rows[0] {
        forall k | 0 <= k < |rows[1..]| ensures rows[1..][k] != x {
          assert rows[1..][k] == rows[k + 1];
        }
        assert x !in multiset(rows[1..]);
      }
    }
  }

  // ---------------------------------------------------------------------------
  // The table
  // ---------------------------------------------------------------------------

  class PodcastTable {
    /** The rows in insertion order; row `i` has id `i + 1`. */
    var rows: seq<Podcast>

    ghost predicate Valid()
      reads this
    {
      (forall i :: 0 <= i < |rows| ==> rows[i].id == i + 1) && UniqueTitles(rows)
    }

    constructor ()
      ensures rows == [] && Valid()
    {
      rows := [];
    }

    /** `add_podcast_project`: a new row under the next id, with the time zone
        defaulting to America/Los_Angeles and OMDb off; a title already in use
        gives `None` and adds nothing. */
    method AddPodcastProject(title: string, author: Option<string> := None, description: Option<string> := None,
                             defaultCoverArtPath: Option<string> := None, defaultTemplatePath: Option<string> := None,
                             defaultSpreakerShowId: Option<string> := None,
                             defaultPublishTimezone: Option<string> := Some("America/Los_Angeles"),
                             usesOmdb: bool := false, now: int := 0) returns (podcastId: Option<nat>)
      requires Valid()
      modifies this
      ensures Valid()
      ensures TitleTaken(old(rows), title) ==> podcastId.None? && rows == old(rows)
      ensures !TitleTaken(old(rows), title) ==>
        podcastId == Some(|old(rows)| + 1)
        && rows == old(rows) + [Podcast(|old(rows)| + 1, title, author, description, defaultCoverArtPath,
                                        defaultTemplatePath, defaultSpreakerShowId, defaultPublishTimezone, usesOmdb, now)]
    {
      if TitleTaken(rows, title) {
        return None;
      }
      var id := |rows| + 1;
      rows := rows + [Podcast(id, title, author, description, defaultCoverArtPath, defaultTemplatePath,
                              defaultSpreakerShowId, defaultPublishTimezone, usesOmdb, now)];
      podcastId := Some(id);
    }

    /** `update_podcast_project`: no argument set gives `false`; otherwise the
        row with that id is patched and the answer is `true` whether or not
        such a row exists, unless the new title is another project's. */
    method UpdatePodcastProject(podcastId: int, changes: Changes, now: int) returns (ok: bool)
      requires Valid()
      modifies this
      ensures Valid()
      ensures Assignments(changes) == [] ==> !ok && rows == old(rows)
      ensures Assignments(changes) != [] ==>
        var updated := UpdatedRows(old(rows), podcastId, Assignments(changes), now);
        if UniqueTitles(updated) then ok && rows == updated else !ok && rows == old(rows)
    {
      var fieldsToUpdate := BuildAssignments(changes);
      if fieldsToUpdate == [] {
        return false;
      }
      var updated := UpdatedRows(rows, podcastId, fieldsToUpdate, now);
      if !UniqueTitles(updated) {
        return false;
      }
      assert forall i :: 0 <= i < |rows| ==> updated[i].id == rows[i].id by {
        forall i | 0 <= i < |rows| ensures updated[i].id == rows[i].id {
          PatchChangesSuppliedFields(rows[i], changes, now);
        }
      }
      rows := updated;
      ok := true;
    }

    /** `get_all_podcast_projects`: the query's rows copied one by one. */
    method GetAllPodcastProjects() returns (projects: seq<ProjectSummary>)
      ensures projects == ProjectList(rows)
    {
      var selected := ProjectList(rows);
      projects := [];
      for i := 0 to |selected|
        invariant projects == selected[..i]
      {
        projects := projects + [selected[i]];
      }
    }
  }

  /** `fields_to_update`, one `append` per argument that is not `None`. */
  method BuildAssignments(c: Changes) returns (fieldsToUpdate: seq<Assignment>)
    ensures fieldsToUpdate == Assignments(c)
  {
    fieldsToUpdate := AppendTextAssignments(c);
    fieldsToUpdate := AppendSettingAssignments(c, fieldsToUpdate);
  }

  /** The first four `append`s of `update_podcast_project`. */
  method AppendTextAssignments(c: Changes) returns (fieldsToUpdate: seq<Assignment>)
    ensures fieldsToUpdate == TextAssignments(c)
  {
    ghost var s1 := if c.title.Some? then [SetTitle(c.title.value)] else [];
    ghost var s2 := if c.author.Some? then [SetAuthor(c.author.value)] else [];
    ghost var s3 := if c.description.Some? then [SetDescription(c.description.value)] else [];
    ghost var s4 := if c.defaultCoverArtPath.Some? then [SetCoverArtPath(c.defaultCoverArtPath.value)] else [];
    fieldsToUpdate := [];
    if c.title.Some? { fieldsToUpdate := fieldsToUpdate + [SetTitle(c.title.value)]; }
    assert fieldsToUpdate == s1;
    if c.author.Some? { fieldsToUpdate := fieldsToUpdate + [SetAuthor(c.author.value)]; }
    assert fieldsToUpdate == s1 + s2;
    if c.description.Some? { fieldsToUpdate := fieldsToUpdate + [SetDescription(c.description.value)]; }
    assert fieldsToUpdate == s1 + s2 + s3;
    if c.defaultCoverArtPath.Some? { fieldsToUpdate := fieldsToUpdate + [SetCoverArtPath(c.defaultCoverArtPath.value)]; }
    assert TextAssignments(c) == s1 + s2 + s3 + s4;
  }

  /** The last four `append`s of `update_podcast_project`. */
  method AppendSettingAssignments(c: Changes, prefix: seq<Assignment>) returns (fieldsToUpdate: seq<Assignment>)
    ensures fieldsToUpdate == prefix + SettingAssignments(c)
  {
    ghost var s5 := if c.defaultTemplatePath.Some? then [SetTemplatePath(c.defaultTemplatePath.value)] else [];
    ghost var s6 := if c.defaultSpreakerShowId.Some? then [SetSpreakerShowId(c.defaultSpreakerShowId.value)] else [];
    ghost var s7 := if c.defaultPublishTimezone.Some? then [SetPublishTimezone(c.defaultPublishTimezone.value)] else [];
    ghost var s8 := if c.usesOmdb.Some? then [SetUsesOmdb(c.usesOmdb.value)] else [];
    fieldsToUpdate := prefix;
    if c.defaultTemplatePath.Some? { fieldsToUpdate := fieldsToUpdate + [SetTemplatePath(c.defaultTemplatePath.value)]; }
    assert fieldsToUpdate == prefix + s5;
    if c.defaultSpreakerShowId.Some? { fieldsToUpdate := fieldsToUpdate + [SetSpreakerShowId(c.defaultSpreakerShowId.value)]; }
    assert fieldsToUpdate == prefix + s5 + s6;
    if c.defaultPublishTimezone.Some? { fieldsToUpdate := fieldsToUpdate + [SetPublishTimezone(c.defaultPublishTimezone.value)]; }
    assert fieldsToUpdate == prefix + s5 + s6 + s7;
    if c.usesOmdb.Some? { fieldsToUpdate := fieldsToUpdate + [SetUsesOmdb(c.usesOmdb.value)]; }
    assert fieldsToUpdate == prefix + s5 + s6 + s7 + s8;
    assert SettingAssignments(c) == s5 + s6 + s7 + s8;
  }

  /** No entry exactly when every argument is `None`. */
  lemma NoAssignmentsMeansNoChanges(c: Changes)
    ensures Assignments(c) == [] <==> c == Changes(None, None, None, None, None, None, None, None)
  {
    if c.title.Some? { assert Assignments(c)[0] == SetTitle(c.title.value); }
  }

  /** An update that leaves the title alone, or sets a title no other project
      has, always goes through. */
  lemma UpdateKeepsTitlesUnique(rows: seq<Podcast>, podcastId: int, c: Changes, now: int)
    requires UniqueTitles(rows)
    requires forall i :: 0 <= i < |rows| ==> rows[i].id == i + 1
    requires c.title.None? || forall i :: 0 <= i < |rows| && rows[i].id != podcastId ==> rows[i].title != c.title.value
    ensures UniqueTitles(UpdatedRows(rows, podcastId, Assignments(c), now))
  {
    var updated := UpdatedRows(rows, podcastId, Assignments(c), now);
    forall i | 0 <= i < |rows|
      ensures updated[i].title == if rows[i].id == podcastId then Pick(c.title, rows[i].title) else rows[i].title
    {
      PatchChangesSuppliedFields(rows[i], c, now);
    }
  }
}
