/**
 * The mood summary of the emotion service (backend/face_emotions.py):
 * the most common emotion of the recorded history, classified as a sign
 * of stress, of calm, or neither.
 */
module FaceEmotions {
  import opened Wrappers

  /** How many times `mood` was recorded: the history as a `Counter`. */
  function Count(history: seq<string>, mood: string): nat {
    multiset(history)[mood]
  }

  /**
   * The position `most_common(1)` picks among the first `n` records: it
   * scans the moods in the order they were first seen and keeps the first
   * with the highest count, so a later mood must be strictly more common
   * to replace it.
   */
  function LeaderIndex(history: seq<string>, n: nat): (k: nat)
    requires 1 <= n <= |history|
    ensures k < n
    ensures forall j :: 0 <= j < n ==> Count(history, history[j]) <= Count(history, history[k])
    ensures forall j :: 0 <= j < k ==> Count(history, history[j]) < Count(history, history[k])
  {
    if n == 1 then 0
    else
      var k := LeaderIndex(history, n - 1);
      if Count(history, history[n - 1]) > Count(history, history[k]) then n - 1 else k
  }

  /** Where `mood` was first recorded. */
  function FirstIndex(history: seq<string>, mood: string): (i: nat)
    requires mood in history
    ensures i < |history| && history[i] == mood
    ensures forall j :: 0 <= j < i ==> history[j] != mood
  {
    if history[0] == mood then 0
    else
      assert mood in history[1..];
      1 + FirstIndex(history[1..], mood)
  }

  /**
   * `Counter(history).most_common(1)[0][0]`: a mood of the history that is
   * at least as common as every mood, and that was first seen no later
   * than any other mood just as common.
   */
  function MostCommon(history: seq<string>): (mood: string)
    requires history != []
    ensures mood in history
    ensures forall x :: Count(history, x) <= Count(history, mood)
    ensures forall j :: 0 <= j < |history| && Count(history, history[j]) == Count(history, mood)
                        ==> FirstIndex(history, mood) <= j
  {
    var k := LeaderIndex(history, |history|);
    var mood := history[k];
    assert forall x :: x in history ==> exists j :: 0 <= j < |history| && history[j] == x;
    assert FirstIndex(history, mood) == k;
    mood
  }

  /** How the summary reads a mood; the comparisons are exact and case-sensitive. */
  datatype MoodClass = Stressed | Calm | Unclassified

  const StressIndicators: seq<string> := ["angry", "fear", "sad"]
  const CalmIndicators: seq<string> := ["happy", "neutral"]

  function Classify(mood: string): MoodClass {
    if mood in StressIndicators then Stressed
    else if mood in CalmIndicators then Calm
    else Unclassified
  }

  /** Membership is exact: a capitalised mood, or the detector's failure text, is neither stress nor calm. */
  lemma ClassifyIsExact()
    ensures Classify("sad") == Stressed && Classify("fear") == Stressed && Classify("angry") == Stressed
    ensures Classify("happy") == Calm && Classify("neutral") == Calm
    ensures Classify("Sad") == Unclassified && Classify("Neutral") == Unclassified
    ensures Classify("surprise") == Unclassified && Classify("No face detected") == Unclassified
  {
  }

  const NoData := "No data yet."
  const StressPrefix := "High stress detected! Your common mood: "
  const CalmPrefix := "Stable mood detected! Your common mood: "
  const OtherPrefix := "Mood analysis: "

  function Prefix(c: MoodClass): string {
    match c
    case Stressed => StressPrefix
    case Calm => CalmPrefix
    case Unclassified => OtherPrefix
  }

  /**
   * `analyze_mood`: a fixed message for an empty history, otherwise the
   * most common mood behind the prefix of its class.
   */
  function AnalyzeMood(history: seq<string>): (summary: string)
    ensures history == [] ==> summary == NoData
    ensures history != [] ==> summary == Prefix(Classify(MostCommon(history))) + MostCommon(history)
  {
    if |history| == 0 then NoData
    else
      var mood := MostCommon(history);
      if mood in StressIndicators then StressPrefix + mood
      else if mood in CalmIndicators then CalmPrefix + mood
      else OtherPrefix + mood
  }

  // ---- Reading a summary back ----

  predicate HasPrefix(s: string, p: string) {
    |p| <= |s| && s[..|p|] == p
  }

  /** The class and mood a summary reports, or `None` for the no-data message. */
  function ReadSummary(summary: string): Option<(MoodClass, string)> {
    if HasPrefix(summary, StressPrefix) then Some((Stressed, summary[|StressPrefix|..]))
    else if HasPrefix(summary, CalmPrefix) then Some((Calm, summary[|CalmPrefix|..]))
    else if HasPrefix(summary, OtherPrefix) then Some((Unclassified, summary[|OtherPrefix|..]))
    else None
  }

  lemma PrefixesDiffer(c: MoodClass, mood: string)
    ensures c != Stressed ==> !HasPrefix(Prefix(c) + mood, StressPrefix)
    ensures c == Unclassified ==> !HasPrefix(Prefix(c) + mood, CalmPrefix)
    ensures !HasPrefix(NoData, StressPrefix) && !HasPrefix(NoData, CalmPrefix)
    ensures !HasPrefix(NoData, OtherPrefix)
  {
    assert StressPrefix[0] == 'H' && CalmPrefix[0] == 'S' && OtherPrefix[0] == 'M' && NoData[0] == 'N';
    assert (Prefix(c) + mood)[0] == Prefix(c)[0];
  }

  /**
   * The summary always says which class the most common mood fell in and
   * which mood it was: reading it back recovers both.
   */
  lemma ReadAnalyzeMood(history: seq<string>)
    ensures history == [] ==> ReadSummary(AnalyzeMood(history)) == None
    ensures history != [] ==>
              ReadSummary(AnalyzeMood(history)) == Some((Classify(MostCommon(history)), MostCommon(history)))
  {
    if history == [] {
      PrefixesDiffer(Unclassified, "");
    } else {
      var mood := MostCommon(history);
      var c := Classify(mood);
      PrefixesDiffer(c, mood);
      assert (Prefix(c) + mood)[..|Prefix(c)|] == Prefix(c);
      assert (Prefix(c) + mood)[|Prefix(c)|..] == mood;
    }
  }

  lemma TieCounts(history: seq<string>, first: string, second: string)
    requires |history| == 4 && first != second
    requires history[0] == first && history[1] == second && history[2] == second && history[3] == first
    ensures Count(history, first) == 2 && Count(history, second) == 2
  {
    assert history == [first, second, second, first];
    assert multiset(history) == multiset{first, first, second, second};
  }

  /** On a tie the mood seen first wins: sad, happy, happy, sad reads as sad. */
  lemma TieGoesToFirstSeen(history: seq<string>, first: string, second: string)
    requires |history| == 4 && first != second
    requires history[0] == first && history[1] == second && history[2] == second && history[3] == first
    ensures MostCommon(history) == first
  {
    TieCounts(history, first, second);
    var mood := MostCommon(history);
    assert mood == history[FirstIndex(history, mood)];
  }

  lemma TieExample()
    ensures AnalyzeMood(["sad", "happy", "happy", "sad"]) == StressPrefix + "sad"
  {
  }
}
