/** Cutting time ranges out of a recording: `remove_segments_from_audio`.
    A track is a sequence of frames, one per millisecond, so `audio[a:b]` on a
    pydub segment is a slice of that sequence clipped to the track length. */
module AudioUtilities {
  import opened Wrappers
  import opened Sorting

  /** A range `[startMs, endMs)` to remove. */
  datatype Cut = Cut(startMs: nat, endMs: nat)

  /** The tuple order `sorted()` uses on `(start_ms, end_ms)` pairs. */
  predicate CutLe(a: Cut, b: Cut) {
    a.startMs < b.startMs || (a.startMs == b.startMs && a.endMs <= b.endMs)
  }

  lemma CutLeIsTotalPreorder()
    ensures IsTotalPreorder(CutLe)
  {
  }

  /** Every range has its start at or before its end. */
  predicate WellFormed(cuts: seq<Cut>) {
    forall c :: c in cuts ==> c.startMs <= c.endMs
  }

  /** Position `p` lies inside some range. */
  predicate Covered(cuts: seq<Cut>, p: int) {
    exists c :: c in cuts && c.startMs <= p < c.endMs
  }

  /** `audio[from:to]` for non-negative offsets: both ends clipped to the track,
      and empty when the clipped start is past the clipped end. */
  function Clip<F>(audio: seq<F>, from: nat, to: nat): (r: seq<F>)
    ensures from <= to && to <= |audio| ==> r == audio[from..to]
    ensures to <= from ==> r == []
    ensures from <= to && |audio| <= to && from <= |audio| ==> r == audio[from..]
  {
    var a := if from < |audio| then from else |audio|;
    var b := if to < |audio| then to else |audio|;
    if a <= b then audio[a..b] else []
  }

  /** The value of `last_end` after the loop has consumed `cuts`. */
  function LastEnd(cuts: seq<Cut>): nat {
    if cuts == [] then 0 else Max(LastEnd(cuts[..|cuts| - 1]), cuts[|cuts| - 1].endMs)
  }

  /** `last_end` is the largest end seen, or 0 before any range. */
  lemma {:induction false} LastEndIsLargestEnd(cuts: seq<Cut>)
    ensures forall c :: c in cuts ==> c.endMs <= LastEnd(cuts)
    ensures cuts != [] ==> exists c :: c in cuts && c.endMs == LastEnd(cuts)
  {
    if cuts != [] {
      var init := cuts[..|cuts| - 1];
      var c := cuts[|cuts| - 1];
      LastSplit(cuts);
      LastEndIsLargestEnd(init);
      if LastEnd(init) > c.endMs {
        var d :| d in init && d.endMs == LastEnd(init);
        assert d in cuts;
      } else {
        assert c in cuts;
      }
    }
  }

  /** The value of `clean_audio` after the loop has consumed `cuts`: each range
      that starts beyond `last_end` contributes the gap before it. */
  function Pieces<F>(audio: seq<F>, cuts: seq<Cut>): seq<F> {
    if cuts == [] then []
    else
      var init := cuts[..|cuts| - 1];
      var c := cuts[|cuts| - 1];
      Pieces(audio, init) + (if c.startMs > LastEnd(init) then Clip(audio, LastEnd(init), c.startMs) else [])
  }

  /** How far into a track of length `n` the loop has decided every frame. */
  function Decided(cuts: seq<Cut>, n: nat): (r: nat)
    ensures r <= n && r <= LastEnd(cuts)
    ensures r == n || r == LastEnd(cuts)
  {
    if LastEnd(cuts) < n then LastEnd(cuts) else n
  }

  /** The pieces followed by the tail after the last range, for already sorted ranges. */
  function Excise<F>(audio: seq<F>, ordered: seq<Cut>): seq<F> {
    Pieces(audio, ordered) + (if LastEnd(ordered) < |audio| then audio[LastEnd(ordered)..] else [])
  }

  /** What `remove_segments_from_audio` returns, as written: the track itself for
      no ranges or an empty outcome, the excision over the sorted ranges otherwise. */
  function RemovedSegments<F>(audio: seq<F>, cuts: seq<Cut>): seq<F> {
    if cuts == [] then audio
    else
      CutLeIsTotalPreorder();
      var clean := Excise(audio, SortBy(cuts, CutLe));
      if |clean| > 0 then clean else audio
  }

  /** The positions below `h` that no range covers, in increasing order. */
  function KeptPositions(cuts: seq<Cut>, h: nat): (ps: seq<nat>)
    ensures forall i, j :: 0 <= i < j < |ps| ==> ps[i] < ps[j]
    ensures forall i :: 0 <= i < |ps| ==> ps[i] < h && !Covered(cuts, ps[i])
    ensures forall p :: 0 <= p < h && !Covered(cuts, p) ==> p in ps
  {
    if h == 0 then [] else KeptPositions(cuts, h - 1) + (if Covered(cuts, h - 1) then [] else [h - 1])
  }

  /** The frames below `h` that no range covers, in track order. */
  function Kept<F>(audio: seq<F>, cuts: seq<Cut>, h: nat): seq<F>
    requires h <= |audio|
  {
    if h == 0 then [] else Kept(audio, cuts, h - 1) + (if Covered(cuts, h - 1) then [] else [audio[h - 1]])
  }

  /** The number of covered positions below `h`: the size of the union of the
      ranges clipped to `[0, h)`. */
  function CoveredCount(cuts: seq<Cut>, h: nat): nat {
    if h == 0 then 0 else CoveredCount(cuts, h - 1) + (if Covered(cuts, h - 1) then 1 else 0)
  }

  /** The intended outcome: the uncovered frames, or the original track when none
      would remain. */
  function Expected<F>(audio: seq<F>, cuts: seq<Cut>): seq<F> {
    var kept := Kept(audio, cuts, |audio|);
    if kept == [] then audio else kept
  }

  method RemoveSegmentsFromAudio<F>(audio: seq<F>, cuts: seq<Cut>) returns (result: seq<F>)
    ensures result == RemovedSegments(audio, cuts)
    ensures cuts == [] ==> result == audio
    ensures WellFormed(cuts) ==> result == Expected(audio, cuts)
  {
    if WellFormed(cuts) {
      RemovedSegmentsMeaning(audio, cuts);
    }
    if |cuts| == 0 {
      return audio;
    }
    CutLeIsTotalPreorder();
    var ordered := SortBy(cuts, CutLe);
    var clean := ExciseSorted(audio, ordered);
    result := if |clean| > 0 then clean else audio;
  }

  /** The loop of `remove_segments_from_audio` over the sorted ranges, and the
      tail appended after it. */
  method ExciseSorted<F>(audio: seq<F>, ordered: seq<Cut>) returns (clean: seq<F>)
    ensures clean == Excise(audio, ordered)
  {
    clean := [];
    var lastEnd: nat := 0;
    for i := 0 to |ordered|
      invariant clean == Pieces(audio, ordered[..i])
      invariant lastEnd == LastEnd(ordered[..i])
    {
      var c := ordered[i];
      assert ordered[..i + 1] == ordered[..i] + [c];
      PiecesAppend(audio, ordered[..i], c);
      if c.startMs > lastEnd {
        clean := clean + Clip(audio, lastEnd, c.startMs);
      }
      lastEnd := Max(lastEnd, c.endMs);
    }
    assert ordered[..|ordered|] == ordered;
    if lastEnd < |audio| {
      clean := clean + audio[lastEnd..];
    }
  }

  // ---------------------------------------------------------------------------
  // Properties of the uncovered frames

  lemma {:induction false} KeptIsSelection<F>(audio: seq<F>, cuts: seq<Cut>, h: nat)
    requires h <= |audio|
    ensures |Kept(audio, cuts, h)| == |KeptPositions(cuts, h)|
    ensures forall i :: 0 <= i < |Kept(audio, cuts, h)| ==>
      Kept(audio, cuts, h)[i] == audio[KeptPositions(cuts, h)[i]]
  {
    if h > 0 {
      KeptIsSelection(audio, cuts, h - 1);
      var k := Kept(audio, cuts, h - 1);
      var ps := KeptPositions(cuts, h - 1);
      var k' := Kept(audio, cuts, h);
      var ps' := KeptPositions(cuts, h);
      if Covered(cuts, h - 1) {
        assert k' == k && ps' == ps;
      } else {
        assert k' == k + [audio[h - 1]] && ps' == ps + [h - 1];
        forall i | 0 <= i < |k'| ensures k'[i] == audio[ps'[i]] {
          if i < |k| {
            assert k'[i] == k[i] && ps'[i] == ps[i];
          }
        }
      }
    }
  }

  lemma {:induction false} KeptFree<F>(audio: seq<F>, cuts: seq<Cut>, h1: nat, h2: nat)
    requires h1 <= h2 <= |audio|
    requires forall p :: h1 <= p < h2 ==> !Covered(cuts, p)
    ensures Kept(audio, cuts, h2) == Kept(audio, cuts, h1) + audio[h1..h2]
  {
    if h2 > h1 {
      KeptFree(audio, cuts, h1, h2 - 1);
      assert audio[h1..h2] == audio[h1..h2 - 1] + [audio[h2 - 1]];
    }
  }

  lemma {:induction false} KeptAllCovered<F>(audio: seq<F>, cuts: seq<Cut>, h1: nat, h2: nat)
    requires h1 <= h2 <= |audio|
    requires forall p :: h1 <= p < h2 ==> Covered(cuts, p)
    ensures Kept(audio, cuts, h2) == Kept(audio, cuts, h1)
  {
    if h2 > h1 {
      KeptAllCovered(audio, cuts, h1, h2 - 1);
    }
  }

  lemma {:induction false} KeptAgree<F>(audio: seq<F>, cuts: seq<Cut>, other: seq<Cut>, h: nat)
    requires h <= |audio|
    requires forall p :: 0 <= p < h ==> (Covered(cuts, p) <==> Covered(other, p))
    ensures Kept(audio, cuts, h) == Kept(audio, other, h)
  {
    if h > 0 {
      KeptAgree(audio, cuts, other, h - 1);
    }
  }

  /** Union behaviour: only the set of covered positions matters. */
  lemma KeptOfSameElements<F>(audio: seq<F>, cuts: seq<Cut>, other: seq<Cut>)
    requires multiset(cuts) == multiset(other)
    ensures Kept(audio, cuts, |audio|) == Kept(audio, other, |audio|)
  {
    forall p | 0 <= p < |audio| ensures Covered(cuts, p) <==> Covered(other, p) {
      if Covered(cuts, p) {
        var c :| c in cuts && c.startMs <= p < c.endMs;
        assert c in multiset(other);
      }
      if Covered(other, p) {
        var c :| c in other && c.startMs <= p < c.endMs;
        assert c in multiset(cuts);
      }
    }
    KeptAgree(audio, cuts, other, |audio|);
  }

  /** The kept frames and the covered positions together account for the track. */
  lemma {:induction false} KeptLength<F>(audio: seq<F>, cuts: seq<Cut>, h: nat)
    requires h <= |audio|
    ensures |Kept(audio, cuts, h)| + CoveredCount(cuts, h) == h
  {
    if h > 0 {
      KeptLength(audio, cuts, h - 1);
    }
  }

  // ---------------------------------------------------------------------------
  // The loop computes the uncovered frames

  /** After sorted ranges, every position from the latest start up to `last_end`
      is covered. */
  lemma {:induction false} TailCovered(ordered: seq<Cut>)
    requires WellFormed(ordered) && SortedBy(ordered, CutLe) && ordered != []
    ensures forall p :: ordered[|ordered| - 1].startMs <= p < LastEnd(ordered) ==> Covered(ordered, p)
  {
    var init := ordered[..|ordered| - 1];
    var c := ordered[|ordered| - 1];
    LastSplit(ordered);
    if init != [] {
      assert SortedBy(init, CutLe);
      assert WellFormed(init);
      TailCovered(init);
      assert CutLe(init[|init| - 1], c);
    }
    TailStep(init, c, ordered);
  }

  /** `cuts` is its front followed by its last range. */
  lemma LastSplit(cuts: seq<Cut>)
    requires cuts != []
    ensures cuts == cuts[..|cuts| - 1] + [cuts[|cuts| - 1]]
    ensures forall d :: d in cuts <==> d in cuts[..|cuts| - 1] || d == cuts[|cuts| - 1]
  {
    var init := cuts[..|cuts| - 1];
    var c := cuts[|cuts| - 1];
    assert cuts == init + [c];
  }

  lemma TailStep(init: seq<Cut>, c: Cut, ordered: seq<Cut>)
    requires ordered == init + [c] && c.startMs <= c.endMs
    requires LastEnd(ordered) == Max(LastEnd(init), c.endMs)
    requires init != [] ==> init[|init| - 1].startMs <= c.startMs
    requires init != [] ==> forall p :: init[|init| - 1].startMs <= p < LastEnd(init) ==> Covered(init, p)
    ensures forall p :: c.startMs <= p < LastEnd(ordered) ==> Covered(ordered, p)
  {
    forall p | c.startMs <= p < LastEnd(ordered) ensures Covered(ordered, p) {
      CoverOfAppend(init, c, p);
    }
  }

  lemma {:induction false} PiecesAreKept<F>(audio: seq<F>, ordered: seq<Cut>)
    requires WellFormed(ordered) && SortedBy(ordered, CutLe)
    ensures Pieces(audio, ordered) == Kept(audio, ordered, Decided(ordered, |audio|))
  {
    if ordered != [] {
      var init := ordered[..|ordered| - 1];
      var c := ordered[|ordered| - 1];
      assert ordered == init + [c];
      assert c in ordered;
      assert WellFormed(init) by {
        forall d | d in init ensures d.startMs <= d.endMs {
          assert d in ordered;
        }
      }
      assert SortedBy(init, CutLe);
      assert init != [] ==> CutLe(init[|init| - 1], c);
      PiecesAreKept(audio, init);
      PiecesStep(audio, init, c);
    }
  }

  /** One iteration of the loop keeps the correspondence with the uncovered frames. */
  lemma PiecesStep<F>(audio: seq<F>, init: seq<Cut>, c: Cut)
    requires WellFormed(init) && SortedBy(init, CutLe) && c.startMs <= c.endMs
    requires init != [] ==> CutLe(init[|init| - 1], c)
    requires Pieces(audio, init) == Kept(audio, init, Decided(init, |audio|))
    ensures Pieces(audio, init + [c]) == Kept(audio, init + [c], Decided(init + [c], |audio|))
  {
    if c.startMs > LastEnd(init) {
      PiecesStepPast(audio, init, c);
    } else {
      PiecesStepInside(audio, init, c);
    }
  }

  lemma PiecesStepPast<F>(audio: seq<F>, init: seq<Cut>, c: Cut)
    requires LastEnd(init) < c.startMs <= c.endMs
    requires Pieces(audio, init) == Kept(audio, init, Decided(init, |audio|))
    ensures Pieces(audio, init + [c]) == Kept(audio, init + [c], Decided(init + [c], |audio|))
  {
    PiecesAppend(audio, init, c);
    StepPastCovered(audio, init, c);
  }

  lemma PiecesStepInside<F>(audio: seq<F>, init: seq<Cut>, c: Cut)
    requires WellFormed(init) && SortedBy(init, CutLe)
    requires init != [] ==> CutLe(init[|init| - 1], c)
    requires c.startMs <= LastEnd(init)
    requires Pieces(audio, init) == Kept(audio, init, Decided(init, |audio|))
    ensures Pieces(audio, init + [c]) == Kept(audio, init + [c], Decided(init + [c], |audio|))
  {
    if init != [] {
      TailCovered(init);
    }
    PiecesAppend(audio, init, c);
    StepInsideCovered(audio, init, c);
  }

  lemma PiecesAppend<F>(audio: seq<F>, init: seq<Cut>, c: Cut)
    ensures Pieces(audio, init + [c]) == Pieces(audio, init)
      + (if c.startMs > LastEnd(init) then Clip(audio, LastEnd(init), c.startMs) else [])
    ensures LastEnd(init + [c]) == Max(LastEnd(init), c.endMs)
  {
    assert (init + [c])[..|init + [c]| - 1] == init;
  }

  /** A range starting beyond `last_end` adds the uncovered gap before it. */
  lemma StepPastCovered<F>(audio: seq<F>, init: seq<Cut>, c: Cut)
    requires LastEnd(init) < c.startMs <= c.endMs
    ensures Kept(audio, init + [c], Decided(init + [c], |audio|))
      == Kept(audio, init, Decided(init, |audio|)) + Clip(audio, LastEnd(init), c.startMs)
  {
    var n := |audio|;
    PiecesAppend(audio, init, c);
    var m1 := Min(LastEnd(init), n);
    var m2 := Min(c.startMs, n);
    var m3 := Min(c.endMs, n);
    ClipOfClamped(audio, LastEnd(init), c.startMs);
    StepPastKept(audio, init, c, m1, m2, m3);
  }

  lemma ClipOfClamped<F>(audio: seq<F>, from: nat, to: nat)
    requires from <= to
    ensures Min(from, |audio|) <= Min(to, |audio|)
    ensures Clip(audio, from, to) == audio[Min(from, |audio|)..Min(to, |audio|)]
  {
  }

  /** The frames kept below the end of a range that starts beyond `last_end`:
      those kept before, then the uncovered gap. */
  lemma StepPastKept<F>(audio: seq<F>, init: seq<Cut>, c: Cut, m1: nat, m2: nat, m3: nat)
    requires LastEnd(init) < c.startMs <= c.endMs
    requires m1 <= m2 <= m3 <= |audio| && m1 <= LastEnd(init) && m2 <= c.startMs
    requires m1 == LastEnd(init) || m1 == m2
    requires m2 == c.startMs || m2 == m3
    requires m3 <= c.endMs
    ensures Kept(audio, init + [c], m3) == Kept(audio, init, m1) + audio[m1..m2]
  {
    var ordered := init + [c];
    assert ordered[..|ordered| - 1] == init;
    BelowStartSameCover(init, c, m1);
    KeptAgree(audio, ordered, init, m1);
    GapUncovered(init, c, m1, m2);
    KeptFree(audio, ordered, m1, m2);
    InsideCutCovered(init, c, m2, m3);
    KeptAllCovered(audio, ordered, m2, m3);
  }

  /** A range starting at or before `last_end`, from a covered part, adds nothing. */
  lemma StepInsideCovered<F>(audio: seq<F>, init: seq<Cut>, c: Cut)
    requires c.startMs <= LastEnd(init)
    requires forall p :: c.startMs <= p < LastEnd(init) ==> Covered(init, p)
    ensures Kept(audio, init + [c], Decided(init + [c], |audio|))
      == Kept(audio, init, Decided(init, |audio|))
  {
    var ordered := init + [c];
    var n := |audio|;
    var l := LastEnd(init);
    assert ordered[..|ordered| - 1] == init;
    var m1 := Min(l, n);
    var m3 := Min(LastEnd(ordered), n);
    forall p | 0 <= p < m1 ensures Covered(ordered, p) <==> Covered(init, p) {
      CoverOfAppend(init, c, p);
    }
    KeptAgree(audio, ordered, init, m1);
    InsideCutCovered(init, c, m1, m3);
    KeptAllCovered(audio, ordered, m1, m3);
  }

  lemma CoverOfAppend(init: seq<Cut>, c: Cut, p: int)
    ensures Covered(init + [c], p) <==> Covered(init, p) || c.startMs <= p < c.endMs
  {
    if Covered(init + [c], p) {
      var d :| d in init + [c] && d.startMs <= p < d.endMs;
      if d != c {
        assert d in init;
      }
    }
    if Covered(init, p) {
      var d :| d in init && d.startMs <= p < d.endMs;
      assert d in init + [c];
    }
    if c.startMs <= p < c.endMs {
      assert c in init + [c];
    }
  }

  lemma BelowStartSameCover(init: seq<Cut>, c: Cut, m: int)
    requires m <= c.startMs
    ensures forall p :: 0 <= p < m ==> (Covered(init + [c], p) <==> Covered(init, p))
  {
    forall p | 0 <= p < m ensures Covered(init + [c], p) <==> Covered(init, p) {
      CoverOfAppend(init, c, p);
    }
  }

  lemma GapUncovered(init: seq<Cut>, c: Cut, lo: int, hi: int)
    requires hi <= lo || (LastEnd(init) <= lo && hi <= c.startMs)
    ensures forall p :: lo <= p < hi ==> !Covered(init + [c], p)
  {
    LastEndIsLargestEnd(init);
    forall p | lo <= p < hi ensures !Covered(init + [c], p) {
      CoverOfAppend(init, c, p);
      forall d | d in init ensures !(d.startMs <= p < d.endMs) {
      }
    }
  }

  lemma InsideCutCovered(init: seq<Cut>, c: Cut, lo: int, hi: int)
    requires hi <= lo || (c.startMs <= lo && (LastEnd(init) <= lo || hi <= c.endMs))
    requires hi <= c.endMs || hi <= LastEnd(init + [c])
    ensures forall p :: lo <= p < hi ==> Covered(init + [c], p)
  {
    assert (init + [c])[..|init + [c]| - 1] == init;
    forall p | lo <= p < hi ensures Covered(init + [c], p) {
      CoverOfAppend(init, c, p);
    }
  }

  lemma ExciseIsKept<F>(audio: seq<F>, ordered: seq<Cut>)
    requires WellFormed(ordered) && SortedBy(ordered, CutLe)
    ensures Excise(audio, ordered) == Kept(audio, ordered, |audio|)
  {
    PiecesAreKept(audio, ordered);
    LastEndIsLargestEnd(ordered);
    var l := LastEnd(ordered);
    if l < |audio| {
      KeptFree(audio, ordered, l, |audio|);
    }
  }

  /** For well-formed ranges the returned track is exactly the uncovered frames,
      or the original when nothing would be left. */
  lemma RemovedSegmentsMeaning<F>(audio: seq<F>, cuts: seq<Cut>)
    requires WellFormed(cuts)
    ensures RemovedSegments(audio, cuts) == Expected(audio, cuts)
  {
    if cuts == [] {
      KeptFree(audio, cuts, 0, |audio|);
      assert audio[0..|audio|] == audio;
    } else {
      CutLeIsTotalPreorder();
      var ordered := SortBy(cuts, CutLe);
      assert WellFormed(ordered) by {
        forall d | d in ordered ensures d.startMs <= d.endMs {
          assert d in multiset(cuts);
        }
      }
      ExciseIsKept(audio, ordered);
      KeptOfSameElements(audio, cuts, ordered);
    }
  }

  /** Overlapping or nested ranges act as their union: two lists covering the same
      positions of the track give the same result. */
  lemma RemovedSegmentsUnion<F>(audio: seq<F>, cuts: seq<Cut>, other: seq<Cut>)
    requires WellFormed(cuts) && WellFormed(other)
    requires forall p :: 0 <= p < |audio| ==> (Covered(cuts, p) <==> Covered(other, p))
    ensures RemovedSegments(audio, cuts) == RemovedSegments(audio, other)
  {
    RemovedSegmentsMeaning(audio, cuts);
    RemovedSegmentsMeaning(audio, other);
    KeptAgree(audio, cuts, other, |audio|);
  }

  /** No frame is reordered or repeated: a non-empty result lists the track's frames
      at strictly increasing uncovered positions, and every uncovered position. */
  lemma RemovedSegmentsAreSelection<F>(audio: seq<F>, cuts: seq<Cut>)
    requires WellFormed(cuts)
    requires Kept(audio, cuts, |audio|) != []
    ensures var r := RemovedSegments(audio, cuts);
      var ps := KeptPositions(cuts, |audio|);
      |r| == |ps| && (forall i :: 0 <= i < |r| ==> r[i] == audio[ps[i]])
      && (forall i, j :: 0 <= i < j < |ps| ==> ps[i] < ps[j])
      && (forall p :: 0 <= p < |audio| ==> (p in ps <==> !Covered(cuts, p)))
  {
    RemovedSegmentsMeaning(audio, cuts);
    KeptIsSelection(audio, cuts, |audio|);
  }

  /** A non-empty result is the track length minus the covered positions. */
  lemma RemovedSegmentsLength<F>(audio: seq<F>, cuts: seq<Cut>)
    requires WellFormed(cuts)
    requires Kept(audio, cuts, |audio|) != []
    ensures |RemovedSegments(audio, cuts)| == |audio| - CoveredCount(cuts, |audio|)
  {
    RemovedSegmentsMeaning(audio, cuts);
    KeptLength(audio, cuts, |audio|);
  }

  /** When every frame is covered the original track comes back. */
  lemma RemovedSegmentsAllCovered<F>(audio: seq<F>, cuts: seq<Cut>)
    requires WellFormed(cuts)
    requires forall p :: 0 <= p < |audio| ==> Covered(cuts, p)
    ensures RemovedSegments(audio, cuts) == audio
  {
    RemovedSegmentsMeaning(audio, cuts);
    KeptAllCovered(audio, cuts, 0, |audio|);
  }

  /** A range given end-first is not skipped: on a 10 ms track, `(5, 2)` keeps
      frames 0-4 and then 2-9, so frames 2-4 appear twice. */
  lemma InvertedCutRepeatsFrames()
    ensures RemovedSegments([0, 1, 2, 3, 4, 5, 6, 7, 8, 9], [Cut(5, 2)])
      == [0, 1, 2, 3, 4, 2, 3, 4, 5, 6, 7, 8, 9]
  {
    var audio := [0, 1, 2, 3, 4, 5, 6, 7, 8, 9];
    CutLeIsTotalPreorder();
    var ordered := SortBy([Cut(5, 2)], CutLe);
    assert ordered == [Cut(5, 2)];
    assert [Cut(5, 2)][..0] == [];
    assert LastEnd(ordered) == 2;
    assert Pieces(audio, ordered) == [0, 1, 2, 3, 4];
    assert audio[2..] == [2, 3, 4, 5, 6, 7, 8, 9];
    assert Excise(audio, ordered) == [0, 1, 2, 3, 4] + [2, 3, 4, 5, 6, 7, 8, 9];
  }
}
