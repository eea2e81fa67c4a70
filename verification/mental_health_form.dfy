/**
 * The mental-wellness tracker (app/mental-health-form/page.tsx): checkbox
 * lists that toggle items, three additive advice rules whose lines are
 * joined with newlines, and the metrics drawn in the bar chart.
 */
module MentalHealthForm {
  import opened Wrappers
  import opened ParsedNumber

  /** The form state; every field but the two checkbox lists is the raw input text. */
  datatype MentalHealthData = MentalHealthData(
    name: string,
    age: string,
    sleepHours: string,
    stressLevel: string,
    moodRating: string,
    activityLevel: string,
    moodDescription: string,
    symptoms: seq<string>,
    dailyActivities: seq<string>)

  /** The two checkbox lists a toggle may address. */
  datatype Category = Symptoms | DailyActivities

  function Selected(data: MentalHealthData, c: Category): seq<string> {
    match c
    case Symptoms => data.symptoms
    case DailyActivities => data.dailyActivities
  }

  function Other(c: Category): Category {
    match c
    case Symptoms => DailyActivities
    case DailyActivities => Symptoms
  }

  // ---- Checkbox toggle ----

  /** `xs.filter(i => i !== x)`: every copy of `x` dropped, the rest kept in order. */
  function Without<T(==)>(xs: seq<T>, x: T): (r: seq<T>)
    ensures x !in r
    ensures multiset(r) == multiset(xs)[x := 0]
  {
    if xs == [] then []
    else
      assert xs == [xs[0]] + xs[1..];
      if xs[0] == x then Without(xs[1..], x)
      else [xs[0]] + Without(xs[1..], x)
  }

  /**
   * The checkbox handler: the item is removed (every copy) from the chosen
   * list when present and appended at its end when absent; every other
   * field, and the other list, are left as they were.
   */
  function Toggle(data: MentalHealthData, c: Category, item: string): (r: MentalHealthData)
    ensures item in Selected(r, c) <==> item !in Selected(data, c)
    ensures item in Selected(data, c) ==> Selected(r, c) == Without(Selected(data, c), item)
    ensures item !in Selected(data, c) ==> Selected(r, c) == Selected(data, c) + [item]
    ensures Selected(r, Other(c)) == Selected(data, Other(c))
    ensures r.(symptoms := data.symptoms, dailyActivities := data.dailyActivities) == data
  {
    var current := Selected(data, c);
    var updated := if item in current then Without(current, item) else current + [item];
    match c
    case Symptoms => data.(symptoms := updated)
    case DailyActivities => data.(dailyActivities := updated)
  }

  lemma {:induction false} WithoutAbsent<T>(xs: seq<T>, x: T)
    requires x !in xs
    ensures Without(xs, x) == xs
  {
    if xs != [] {
      WithoutAbsent(xs[1..], x);
    }
  }

  lemma {:induction false} WithoutAppend<T>(xs: seq<T>, ys: seq<T>, x: T)
    ensures Without(xs + ys, x) == Without(xs, x) + Without(ys, x)
  {
    if xs == [] {
      assert xs + ys == ys;
    } else {
      assert (xs + ys)[0] == xs[0];
      assert (xs + ys)[1..] == xs[1..] + ys;
      WithoutAppend(xs[1..], ys, x);
    }
  }

  /** Ticking an unticked item and unticking it again restores the form exactly. */
  lemma {:induction false} ToggleTwiceRestores(data: MentalHealthData, c: Category, item: string)
    requires item !in Selected(data, c)
    ensures Toggle(Toggle(data, c, item), c, item) == data
  {
    var xs := Selected(data, c);
    WithoutAppend(xs, [item], item);
    WithoutAbsent(xs, item);
    assert Without([item], item) == [];
  }

  /** Toggling an item never changes how many times any other item is selected. */
  lemma ToggleKeepsOthers(data: MentalHealthData, c: Category, item: string, y: string)
    requires y != item
    ensures multiset(Selected(Toggle(data, c, item), c))[y] == multiset(Selected(data, c))[y]
  {
  }

  // ---- Advice rules ----

  /** One tag per advice line of the page, in source order; the wording is not modelled. */
  datatype AdviceLine =
    | Relaxation | ShortBreaks | ReachOut               // stress above 7
    | SleepSchedule | LightActivity | SupportiveContact  // mood below 5
    | CheckUp | MoodJournal | RoutineReview             // more than three symptoms

  const StressLines: seq<AdviceLine> := [Relaxation, ShortBreaks, ReachOut]
  const MoodLines: seq<AdviceLine> := [SleepSchedule, LightActivity, SupportiveContact]
  const SymptomLines: seq<AdviceLine> := [CheckUp, MoodJournal, RoutineReview]

  /** The rules that fire: stress above 7, mood below 5, more than three symptoms. */
  predicate StressRule(stress: Num) { Above(stress, 7) }
  predicate MoodRule(mood: Num) { Below(mood, 5) }
  predicate SymptomRule(symptoms: seq<string>) { |symptoms| > 3 }

  /** The advice lines, rule by rule in the order the rules are checked. */
  function AdviceLines(stress: Num, mood: Num, symptoms: seq<string>): (lines: seq<AdviceLine>)
    ensures |lines| == 3 * ((if StressRule(stress) then 1 else 0)
                          + (if MoodRule(mood) then 1 else 0)
                          + (if SymptomRule(symptoms) then 1 else 0))
    ensures |lines| in {0, 3, 6, 9}
  {
    (if StressRule(stress) then StressLines else [])
    + (if MoodRule(mood) then MoodLines else [])
    + (if SymptomRule(symptoms) then SymptomLines else [])
  }

  /**
   * A piece of the analysis text: one whole advice line (which holds no
   * newline), or the newline that separates two lines.
   */
  datatype Glyph = Newline | Line(line: AdviceLine)

  /** Each advice line as its run of text. */
  function Render(lines: seq<AdviceLine>): (parts: seq<seq<Glyph>>)
    ensures |parts| == |lines|
    ensures forall i :: 0 <= i < |lines| ==> parts[i] == [Line(lines[i])]
  {
    seq(|lines|, i requires 0 <= i < |lines| => [Line(lines[i])])
  }

  /** `parts.join(sep)`. */
  function Join<T>(parts: seq<seq<T>>, sep: T): seq<T> {
    if parts == [] then []
    else if |parts| == 1 then parts[0]
    else parts[0] + [sep] + Join(parts[1..], sep)
  }

  /** The position of the first `c` in `s`. */
  function IndexOf<T(==)>(s: seq<T>, c: T): (i: nat)
    requires c in s
    ensures i < |s| && s[i] == c && c !in s[..i]
  {
    if s[0] == c then 0
    else
      assert s == [s[0]] + s[1..];
      1 + IndexOf(s[1..], c)
  }

  /** `s.split(c)`: the pieces between the separators; always at least one piece. */
  function Split<T(==)>(s: seq<T>, c: T): (parts: seq<seq<T>>)
    ensures |parts| >= 1
    decreases |s|
  {
    if c !in s then [s]
    else
      var i := IndexOf(s, c);
      [s[..i]] + Split(s[i + 1..], c)
  }

  /** Splitting a join on its separator gives the parts back, when no part holds the separator. */
  lemma {:induction false} SplitJoin<T>(parts: seq<seq<T>>, c: T)
    requires |parts| >= 1
    requires forall i :: 0 <= i < |parts| ==> c !in parts[i]
    ensures Split(Join(parts, c), c) == parts
  {
    if |parts| > 1 {
      var s := Join(parts, c);
      var n := |parts[0]|;
      assert s == parts[0] + [c] + Join(parts[1..], c);
      assert s[n] == c;
      assert s[..n] == parts[0];
      assert IndexOf(s, c) == n;
      assert s[n + 1..] == Join(parts[1..], c);
      SplitJoin(parts[1..], c);
    } else {
      assert Join(parts, c) == parts[0];
    }
  }

  /** Joining non-empty parts gives the empty text exactly when there are no parts. */
  lemma JoinEmpty<T>(parts: seq<seq<T>>, c: T)
    requires forall i :: 0 <= i < |parts| ==> parts[i] != []
    ensures Join(parts, c) == [] <==> parts == []
  {
  }

  /**
   * `generateRecommendations`: pushes each firing rule's three lines onto a
   * local list, then joins them with newlines. With no rule firing the
   * result is the empty text; there is no fallback line.
   */
  method GenerateRecommendations(stress: Num, mood: Num, symptoms: seq<string>)
    returns (analysis: seq<Glyph>)
    ensures analysis == Join(Render(AdviceLines(stress, mood, symptoms)), Newline)
    ensures analysis == [] <==> !StressRule(stress) && !MoodRule(mood) && !SymptomRule(symptoms)
  {
    var lines: seq<AdviceLine> := [];
    if Above(stress, 7) {
      lines := lines + StressLines;
    }
    if Below(mood, 5) {
      lines := lines + MoodLines;
    }
    if |symptoms| > 3 {
      lines := lines + SymptomLines;
    }
    assert lines == AdviceLines(stress, mood, symptoms);
    analysis := Join(Render(lines), Newline);
    JoinEmpty(Render(lines), Newline);
  }

  /** The text splits back into exactly the lines of the rules that fired, in rule order. */
  lemma AnalysisLines(stress: Num, mood: Num, symptoms: seq<string>)
    requires StressRule(stress) || MoodRule(mood) || SymptomRule(symptoms)
    ensures Split(Join(Render(AdviceLines(stress, mood, symptoms)), Newline), Newline)
         == Render(AdviceLines(stress, mood, symptoms))
  {
    SplitJoin(Render(AdviceLines(stress, mood, symptoms)), Newline);
  }

  /** Exactly three symptoms is not "more than three": that rule adds nothing. */
  lemma ThreeSymptomsSilent(a: string, b: string, c: string)
    ensures AdviceLines(None, None, [a, b, c]) == []
    ensures AdviceLines(None, None, [a, b, c, a]) == SymptomLines
  {
  }

  // ---- Chart metrics ----

  /** A bar of the chart; `None` stands for `NaN`. */
  datatype Metric = Metric(name: string, value: Option<real>)

  function Scale(n: Num, factor: real): Option<real> {
    if n.Some? then Some(n.value as real * factor) else None
  }

  /**
   * `analyzeMoodTrends`: mood and stress scaled by 10 and sleep hours as a
   * percentage of 12, in that order. A `NaN` input gives a `NaN` bar.
   */
  function MoodTrends(mood: Num, stress: Num, sleep: Num): (m: seq<Metric>)
    ensures |m| == 3
    ensures m[0].name == "Mood" && m[1].name == "Stress" && m[2].name == "Sleep Quality"
    ensures m[0].value.Some? <==> mood.Some?
    ensures m[1].value.Some? <==> stress.Some?
    ensures m[2].value.Some? <==> sleep.Some?
    ensures mood.Some? ==> m[0].value == Some(10.0 * mood.value as real)
    ensures stress.Some? ==> m[1].value == Some(10.0 * stress.value as real)
    ensures sleep.Some? ==> m[2].value == Some(sleep.value as real * 100.0 / 12.0)
  {
    [Metric("Mood", Scale(mood, 10.0)),
     Metric("Stress", Scale(stress, 10.0)),
     Metric("Sleep Quality", Scale(sleep, 100.0 / 12.0))]
  }

  /** For ratings in 1..10 and sleep in 0..12 hours every bar lies in 0..100. */
  lemma MoodTrendsRange(mood: int, stress: int, sleep: int)
    requires 1 <= mood <= 10 && 1 <= stress <= 10 && 0 <= sleep <= 12
    ensures var m := MoodTrends(Some(mood), Some(stress), Some(sleep));
            && 10.0 <= m[0].value.value <= 100.0
            && 10.0 <= m[1].value.value <= 100.0
            && 0.0 <= m[2].value.value <= 100.0
            && m[0].value.value == 10.0 * mood as real
  {
  }
}
