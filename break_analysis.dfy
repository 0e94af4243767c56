/** The two `analyze_audio_for_breaks` variants: each reads a silence threshold
    and a minimum silence length from the settings, asks the silence detector
    for intervals, and reports the midpoint of each interval in seconds.
    Decoding the file and detecting silence are the parameter `detect`, whose
    `None` stands for an exception raised while loading or detecting. */
module BreakAnalysis {
  import opened Wrappers
  import opened JsonValues

  /** A silent stretch `[start, end]` in milliseconds. */
  datatype Interval = Interval(start: int, end: int)

  /** `((start + end) / 2) / 1000.0`, in exact arithmetic. */
  function Midpoint(iv: Interval): real {
    ((iv.start + iv.end) as real / 2.0) / 1000.0
  }

  /** The list comprehension over the detected intervals. */
  function Timestamps(silences: seq<Interval>): (r: seq<real>)
    ensures |r| == |silences|
  {
    seq(|silences|, i requires 0 <= i < |silences| => Midpoint(silences[i]))
  }

  /** What the `try` block returns once the detector has run: `[]` for an
      exception or for no silence, the midpoints otherwise. */
  function Breaks(detected: Option<seq<Interval>>): (r: seq<real>)
    ensures detected.None? ==> r == []
    ensures detected.Some? ==> r == Timestamps(detected.value)
  {
    match detected
    case None => []
    case Some(silences) => if silences == [] then [] else Timestamps(silences)
  }

  /** `app/utils/enhanced_audio_processor.py`: the threshold under
      `silence_threshold`, both values passed through `int()`. */
  function AnalyzeAudioForBreaks(settings: Object, detect: (int, int) -> Option<seq<Interval>>): seq<real> {
    var silenceThresh := Get(settings, "silence_threshold", JInt(-40));
    var minSilenceLen := Get(settings, "min_silence_len", JInt(1500));
    match (PyInt(minSilenceLen), PyInt(silenceThresh))
    case (Some(minLen), Some(thresh)) => Breaks(detect(minLen, thresh))
    case _ => []
  }

  /** `EnhancedAudioProcessor.analyze_audio_for_breaks`: the threshold under
      `silence_thresh`; the minimum length is handed to the detector as
      stored. */
  function EnhancedAnalyzeAudioForBreaks(settings: Object, detect: (Json, int) -> Option<seq<Interval>>): seq<real> {
    var silenceThresh := Get(settings, "silence_thresh", JInt(-40));
    var minSilenceLen := Get(settings, "min_silence_len", JInt(1500));
    match PyInt(silenceThresh)
    case Some(thresh) => Breaks(detect(minSilenceLen, thresh))
    case None => []
  }

  /** Missing settings mean a threshold of -40 and a minimum length of 1500 ms. */
  lemma AnalyzeDefaults(settings: Object, detect: (int, int) -> Option<seq<Interval>>,
                        enhancedDetect: (Json, int) -> Option<seq<Interval>>)
    requires "silence_threshold" !in settings && "silence_thresh" !in settings && "min_silence_len" !in settings
    ensures AnalyzeAudioForBreaks(settings, detect) == Breaks(detect(1500, -40))
    ensures EnhancedAnalyzeAudioForBreaks(settings, enhancedDetect) == Breaks(enhancedDetect(JInt(1500), -40))
  {
  }

  /** The variants read the threshold under different keys: each ignores the
      other's key. */
  lemma ThresholdKeysDiffer(settings: Object, v: Json, detect: (int, int) -> Option<seq<Interval>>,
                            enhancedDetect: (Json, int) -> Option<seq<Interval>>)
    ensures AnalyzeAudioForBreaks(settings["silence_thresh" := v], detect) == AnalyzeAudioForBreaks(settings, detect)
    ensures EnhancedAnalyzeAudioForBreaks(settings["silence_threshold" := v], enhancedDetect)
            == EnhancedAnalyzeAudioForBreaks(settings, enhancedDetect)
  {
    assert |"silence_thresh"| != |"silence_threshold"| && |"silence_thresh"| != |"min_silence_len"|;
    assert |"silence_threshold"| != |"min_silence_len"|;
  }

  /** An integer threshold stored under `silence_threshold` reaches the detector
      of the first variant only; the second uses -40 unless `silence_thresh`
      is set. */
  lemma ThresholdReachesDetector(settings: Object, t: int, detect: (int, int) -> Option<seq<Interval>>,
                                 enhancedDetect: (Json, int) -> Option<seq<Interval>>)
    requires "silence_thresh" !in settings && "min_silence_len" !in settings
    ensures AnalyzeAudioForBreaks(settings["silence_threshold" := JInt(t)], detect) == Breaks(detect(1500, t))
    ensures EnhancedAnalyzeAudioForBreaks(settings["silence_threshold" := JInt(t)], enhancedDetect)
            == Breaks(enhancedDetect(JInt(1500), -40))
  {
    assert |"silence_thresh"| != |"silence_threshold"| && |"silence_threshold"| != |"min_silence_len"|;
  }

  /** A value `int()` rejects makes the first variant give up with `[]`. */
  lemma UnconvertibleSettingGivesNothing(settings: Object, detect: (int, int) -> Option<seq<Interval>>)
    requires "min_silence_len" in settings && PyInt(settings["min_silence_len"]).None?
    ensures AnalyzeAudioForBreaks(settings, detect) == []
  {
  }

  /** The midpoint of an interval, in seconds, lies within it. */
  lemma MidpointWithin(iv: Interval)
    requires iv.start <= iv.end
    ensures iv.start as real / 1000.0 <= Midpoint(iv) <= iv.end as real / 1000.0
  {
  }

  /** Intervals in order, each non-empty and ending before the next begins. */
  predicate Ordered(silences: seq<Interval>) {
    (forall i :: 0 <= i < |silences| ==> silences[i].start < silences[i].end)
    && (forall i :: 0 <= i < |silences| - 1 ==> silences[i].end <= silences[i + 1].start)
  }

  lemma {:induction false} OrderedChain(silences: seq<Interval>, i: int, j: int)
    requires Ordered(silences) && 0 <= i < j < |silences|
    ensures silences[i].end <= silences[j].start
    decreases j - i
  {
    if j > i + 1 {
      OrderedChain(silences, i, j - 1);
      assert silences[j - 1].start < silences[j - 1].end;
    }
  }

  /** One timestamp per interval, in order, each inside its interval; ordered
      intervals give strictly increasing timestamps. */
  lemma TimestampsMeaning(silences: seq<Interval>)
    ensures |Timestamps(silences)| == |silences|
    ensures forall i :: 0 <= i < |silences| && silences[i].start <= silences[i].end ==>
      silences[i].start as real / 1000.0 <= Timestamps(silences)[i] <= silences[i].end as real / 1000.0
    ensures Ordered(silences) ==>
      forall i, j :: 0 <= i < j < |silences| ==> Timestamps(silences)[i] < Timestamps(silences)[j]
  {
    forall i | 0 <= i < |silences| && silences[i].start <= silences[i].end
      ensures silences[i].start as real / 1000.0 <= Timestamps(silences)[i] <= silences[i].end as real / 1000.0
    {
      MidpointWithin(silences[i]);
    }
    if Ordered(silences) {
      forall i, j | 0 <= i < j < |silences| ensures Timestamps(silences)[i] < Timestamps(silences)[j] {
        OrderedChain(silences, i, j);
      }
    }
  }
}
