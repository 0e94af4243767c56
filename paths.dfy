/** The parts of `posixpath` the core uses, on '/'-separated strings. */
module Paths {
  import opened Strings

  /** `p.rfind('/') + 1`: where the last component starts. */
  function TailStart(p: string): (i: nat)
    ensures i <= |p|
    ensures i > 0 ==> p[i - 1] == '/'
    ensures forall j :: i <= j < |p| ==> p[j] != '/'
  {
    if p == [] then 0
    else if p[|p| - 1] == '/' then |p|
    else TailStart(p[..|p| - 1])
  }

  /** `s.rstrip('/')`. */
  function RStripSlashes(s: string): (r: string)
    ensures |r| <= |s| && r == s[..|r|]
    ensures forall j :: |r| <= j < |s| ==> s[j] == '/'
    ensures r == [] || r[|r| - 1] != '/'
  {
    if s != [] && s[|s| - 1] == '/' then RStripSlashes(s[..|s| - 1]) else s
  }

  predicate AllSlashes(s: string) {
    forall j :: 0 <= j < |s| ==> s[j] == '/'
  }

  /** `posixpath.basename`: everything after the last '/'. */
  function Basename(p: string): (r: string)
    ensures '/' !in r
    ensures |r| <= |p| && p == p[..|p| - |r|] + r
  {
    p[TailStart(p)..]
  }

  /** `posixpath.dirname`: everything before the last '/', with trailing slashes
      dropped unless the head is made of slashes only. */
  function Dirname(p: string): (r: string)
  {
    var head := p[..TailStart(p)];
    if head != [] && !AllSlashes(head) then RStripSlashes(head) else head
  }

  /** `posixpath.isabs`. */
  predicate IsAbs(p: string) { p != [] && p[0] == '/' }

  /** `posixpath.join(a, b)` of two components. */
  function Join2(a: string, b: string): (r: string)
    ensures IsAbs(b) ==> r == b
  {
    if IsAbs(b) then b
    else if a == [] || a[|a| - 1] == '/' then a + b
    else a + "/" + b
  }

  lemma {:induction false} TailStartOfJoin(d: string, f: string)
    requires '/' !in f
    ensures TailStart(d + "/" + f) == |d| + 1
  {
    var p := d + "/" + f;
    if f != [] {
      assert p[|p| - 1] == f[|f| - 1];
      assert p[..|p| - 1] == d + "/" + f[..|f| - 1];
      TailStartOfJoin(d, f[..|f| - 1]);
    }
  }

  /** The last component of `d/f` is `f`. */
  lemma BasenameOfJoin(d: string, f: string)
    requires '/' !in f
    ensures Basename(d + "/" + f) == f
  {
    TailStartOfJoin(d, f);
    assert (d + "/" + f)[|d| + 1..] == f;
  }

  /** The directory of `d/f` is `d` when `d` does not end with '/'. */
  lemma DirnameOfJoin(d: string, f: string)
    requires '/' !in f && d != [] && d[|d| - 1] != '/'
    ensures Dirname(d + "/" + f) == d
  {
    TailStartOfJoin(d, f);
    var head := (d + "/" + f)[..|d| + 1];
    assert head == d + "/";
    assert head[|d| - 1] != '/';
    assert RStripSlashes(head) == RStripSlashes(d);
  }

  /** `normpath`'s walk over the components: empty and "." components vanish,
      ".." removes the component before it, and is kept when there is none to
      remove in a relative path or when it follows another kept "..". */
  function NormComps(comps: seq<string>, rooted: bool, acc: seq<string>): (r: seq<string>)
    requires forall i :: 0 <= i < |comps| ==> '/' !in comps[i]
    requires forall i :: 0 <= i < |acc| ==> acc[i] != "" && '/' !in acc[i]
    ensures forall i :: 0 <= i < |r| ==> r[i] != "" && '/' !in r[i]
    decreases |comps|
  {
    if comps == [] then acc
    else
      var c := comps[0];
      var next :=
        if c == "" || c == "." then acc
        else if c != ".." || (!rooted && acc == []) || (acc != [] && acc[|acc| - 1] == "..") then acc + [c]
        else if acc != [] then acc[..|acc| - 1]
        else acc;
      NormComps(comps[1..], rooted, next)
  }

  /** How many leading slashes `normpath` keeps: two for exactly two, else one
      for an absolute path. */
  function LeadingSlashes(p: string): nat {
    if !IsAbs(p) then 0
    else if |p| >= 2 && p[1] == '/' && !(|p| >= 3 && p[2] == '/') then 2
    else 1
  }

  /** `posixpath.normpath`. */
  function NormPath(p: string): (r: string)
    ensures r != []
    ensures IsAbs(r) <==> IsAbs(p)
  {
    if p == [] then "."
    else
      var n := LeadingSlashes(p);
      var kept := NormComps(Split(p, '/'), n > 0, []);
      var body := Join(kept, "/");
      JoinDoesNotStartWithSlash(kept);
      var r := Repeat('/', n) + body;
      if r == [] then "." else r
  }

  lemma {:induction false} JoinDoesNotStartWithSlash(parts: seq<string>)
    requires forall i :: 0 <= i < |parts| ==> parts[i] != "" && '/' !in parts[i]
    ensures !IsAbs(Join(parts, "/"))
  {
    if |parts| >= 1 {
      assert parts[0][0] in parts[0];
      assert Join(parts, "/")[0] == parts[0][0];
    }
  }

  lemma {:induction false} JoinAppend(p: seq<string>, q: seq<string>)
    requires |p| >= 1 && |q| >= 1
    ensures Join(p + q, "/") == Join(p, "/") + "/" + Join(q, "/")
  {
    assert (p + q)[1..] == p[1..] + q;
    if |p| > 1 {
      JoinAppend(p[1..], q);
    }
  }

  /** `s.split('/')` of `a/b` is the pieces of `a` followed by those of `b`. */
  lemma SplitAround(a: string, b: string)
    ensures Split(a + "/" + b, '/') == Split(a, '/') + Split(b, '/')
  {
    var pa, pb := Split(a, '/'), Split(b, '/');
    JoinAppend(pa, pb);
    NoSlashInAppend(pa, pb);
    JoinSplit(pa + pb, '/');
  }

  lemma NoSlashInAppend(p: seq<string>, q: seq<string>)
    requires forall i :: 0 <= i < |p| ==> '/' !in p[i]
    requires forall i :: 0 <= i < |q| ==> '/' !in q[i]
    ensures forall i :: 0 <= i < |p + q| ==> '/' !in (p + q)[i]
  {
    forall i | 0 <= i < |p + q| ensures '/' !in (p + q)[i] {
      if i >= |p| {
        assert (p + q)[i] == q[i - |p|];
      }
    }
  }

  lemma TrailingSlash(p: string)
    requires p != [] && p[|p| - 1] == '/'
    ensures p == p[..|p| - 1] + "/" + ""
  {
  }

  lemma SplitOfAbs(p: string)
    requires IsAbs(p)
    ensures "" in Split(p, '/')
  {
    assert Split(p, '/')[0] == "";
  }

  lemma SplitOfTrailing(p: string)
    requires p != [] && p[|p| - 1] == '/'
    ensures "" in Split(p, '/')
  {
    SplitAround(p[..|p| - 1], "");
    TrailingSlash(p);
    assert Split(p, '/')[|Split(p, '/')| - 1] == "";
  }

  /** A relative path whose components are all proper names. */
  predicate CleanRelative(p: string) {
    p != [] && forall c :: c in Split(p, '/') ==> c != "" && c != "." && c != ".."
  }

  lemma {:induction false} NormCompsOfClean(comps: seq<string>, rooted: bool, acc: seq<string>)
    requires forall i :: 0 <= i < |comps| ==> '/' !in comps[i] && comps[i] != "" && comps[i] != "." && comps[i] != ".."
    requires forall i :: 0 <= i < |acc| ==> acc[i] != "" && '/' !in acc[i]
    ensures NormComps(comps, rooted, acc) == acc + comps
    decreases |comps|
  {
    if comps != [] {
      NormCompsOfClean(comps[1..], rooted, acc + [comps[0]]);
      assert acc + [comps[0]] + comps[1..] == acc + comps;
    }
  }

  /** A clean relative path does not start or end with '/'. */
  lemma CleanRelativeEdges(p: string)
    requires CleanRelative(p)
    ensures !IsAbs(p) && p[|p| - 1] != '/'
  {
    if IsAbs(p) {
      SplitOfAbs(p);
    }
    if p[|p| - 1] == '/' {
      SplitOfTrailing(p);
    }
  }

  /** `normpath` leaves a clean relative path as it is. */
  lemma NormPathOfClean(p: string)
    requires CleanRelative(p)
    ensures NormPath(p) == p
  {
    CleanRelativeEdges(p);
    var comps := Split(p, '/');
    forall i | 0 <= i < |comps|
      ensures '/' !in comps[i] && comps[i] != "" && comps[i] != "." && comps[i] != ".."
    {
      assert comps[i] in comps;
    }
    NormCompsOfClean(comps, false, []);
    assert [] + comps == comps;
  }

  /** Joining two clean relative paths gives a clean relative path, which
      `normpath` leaves alone. */
  lemma NormPathOfCleanJoin(a: string, b: string)
    requires CleanRelative(a) && CleanRelative(b)
    ensures Join2(a, b) == a + "/" + b
    ensures NormPath(Join2(a, b)) == a + "/" + b
  {
    CleanRelativeEdges(a);
    CleanRelativeEdges(b);
    SplitAround(a, b);
    var p := a + "/" + b;
    forall c | c in Split(p, '/') ensures c != "" && c != "." && c != ".." {
      assert c in Split(a, '/') || c in Split(b, '/');
    }
    NormPathOfClean(p);
  }
}
