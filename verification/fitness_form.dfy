/**
 * The fitness-plan form (app/FacialRecognition/page.tsx, component
 * `FitnessForm`): the weekly chart rows chosen by goal, the all-fields
 * check, and the goal phrase built from its camelCase value.
 */
module FitnessForm {
  import opened Wrappers

  /** A bar of the weekly chart: an activity and its minutes. */
  datatype WorkoutRow = WorkoutRow(name: string, time: int)

  /** `generateWorkoutData`: one fixed four-row table per goal, ending with a zero-minute rest. */
  function WorkoutData(goal: string): (rows: seq<WorkoutRow>)
    ensures |rows| == 4
    ensures rows[3] == WorkoutRow("Rest", 0)
    ensures forall i :: 0 <= i < |rows| ==> rows[i].time >= 0
  {
    if goal == "loseWeight" then
      [WorkoutRow("Cardio", 45), WorkoutRow("HIIT", 30), WorkoutRow("Strength", 30), WorkoutRow("Rest", 0)]
    else if goal == "gainMuscle" then
      [WorkoutRow("Strength", 60), WorkoutRow("Cardio", 20), WorkoutRow("Recovery", 15), WorkoutRow("Rest", 0)]
    else
      [WorkoutRow("Cardio", 30), WorkoutRow("Strength", 30), WorkoutRow("Flexibility", 30), WorkoutRow("Rest", 0)]
  }

  /** Each goal's table, and every other goal string falling through to the default. */
  lemma WorkoutDataByGoal(goal: string)
    ensures goal == "loseWeight" ==>
              WorkoutData(goal)[..3] == [WorkoutRow("Cardio", 45), WorkoutRow("HIIT", 30), WorkoutRow("Strength", 30)]
    ensures goal == "gainMuscle" ==>
              WorkoutData(goal)[..3] == [WorkoutRow("Strength", 60), WorkoutRow("Cardio", 20), WorkoutRow("Recovery", 15)]
    ensures goal != "loseWeight" && goal != "gainMuscle" ==>
              WorkoutData(goal)
              == [WorkoutRow("Cardio", 30), WorkoutRow("Strength", 30), WorkoutRow("Flexibility", 30), WorkoutRow("Rest", 0)]
  {
  }

  // ---- The goal phrase ----

  /** The characters the pattern `[A-Z]` matches. */
  predicate IsUpper(c: char) { 'A' <= c <= 'Z' }

  /** `toLowerCase` on one character, for the ASCII letters. */
  function Lower(c: char): (d: char)
    ensures !IsUpper(d)
    ensures IsUpper(c) ==> d as int == c as int + 32
    ensures !IsUpper(c) ==> d == c
  {
    if IsUpper(c) then (c as int + 32) as char else c
  }

  function ToLower(s: string): (r: string)
    ensures |r| == |s|
    ensures forall i :: 0 <= i < |s| ==> r[i] == Lower(s[i])
  {
    seq(|s|, i requires 0 <= i < |s| => Lower(s[i]))
  }

  function CountUpper(s: string): nat {
    if s == [] then 0 else (if IsUpper(s[0]) then 1 else 0) + CountUpper(s[1..])
  }

  /** `s.replace(/([A-Z])/g, ' $1')`: a space before every capital letter. */
  function SpaceBeforeCapitals(s: string): (r: string)
    ensures |r| == |s| + CountUpper(s)
  {
    if s == [] then []
    else (if IsUpper(s[0]) then [' ', s[0]] else [s[0]]) + SpaceBeforeCapitals(s[1..])
  }

  /** The goal as words: `loseWeight` becomes `lose weight`. */
  function GoalWords(goal: string): (r: string)
    ensures |r| == |goal| + CountUpper(goal)
    ensures forall i :: 0 <= i < |r| ==> !IsUpper(r[i])
  {
    ToLower(SpaceBeforeCapitals(goal))
  }

  /** The text with its spaces taken out. */
  function Squeeze(s: string): string {
    if s == [] then [] else (if s[0] == ' ' then [] else [s[0]]) + Squeeze(s[1..])
  }

  lemma {:induction false} SqueezeAppend(a: string, b: string)
    ensures Squeeze(a + b) == Squeeze(a) + Squeeze(b)
  {
    if a == [] {
      assert a + b == b;
    } else {
      assert (a + b)[0] == a[0];
      assert (a + b)[1..] == a[1..] + b;
      SqueezeAppend(a[1..], b);
    }
  }

  lemma ToLowerAppend(a: string, b: string)
    ensures ToLower(a + b) == ToLower(a) + ToLower(b)
  {
  }

  /** One character of the goal, as it ends up in the phrase. */
  function CharWords(c: char): string {
    if IsUpper(c) then [' ', Lower(c)] else [c]
  }

  lemma GoalWordsCons(c: char, rest: string)
    ensures GoalWords([c] + rest) == CharWords(c) + GoalWords(rest)
  {
  }

  /**
   * The phrase loses nothing but case: for a goal without spaces, taking
   * the inserted spaces out again gives the goal in lower case.
   */
  lemma {:induction false} GoalWordsSqueeze(goal: string)
    requires ' ' !in goal
    ensures Squeeze(GoalWords(goal)) == ToLower(goal)
  {
    if goal != [] {
      var c, rest := goal[0], goal[1..];
      assert goal == [c] + rest;
      GoalWordsCons(c, rest);
      SqueezeAppend(CharWords(c), GoalWords(rest));
      assert Squeeze(CharWords(c)) == [Lower(c)];
      GoalWordsSqueeze(rest);
      ToLowerAppend([c], rest);
    }
  }

  lemma {:induction false} SpaceBeforeCapitalsAppend(a: string, b: string)
    ensures SpaceBeforeCapitals(a + b) == SpaceBeforeCapitals(a) + SpaceBeforeCapitals(b)
  {
    if a == [] {
      assert a + b == b;
    } else {
      assert (a + b)[0] == a[0];
      assert (a + b)[1..] == a[1..] + b;
      SpaceBeforeCapitalsAppend(a[1..], b);
    }
  }

  lemma {:induction false} NoCapitalsUnchanged(s: string)
    requires forall i :: 0 <= i < |s| ==> !IsUpper(s[i])
    ensures SpaceBeforeCapitals(s) == s
    ensures ToLower(s) == s
  {
    if s != [] {
      NoCapitalsUnchanged(s[1..]);
    }
  }

  /** A goal with no capital letters is its own phrase. */
  lemma GoalWordsLowerUnchanged(goal: string)
    requires forall i :: 0 <= i < |goal| ==> !IsUpper(goal[i])
    ensures GoalWords(goal) == goal
  {
    NoCapitalsUnchanged(goal);
  }

  /** A goal with one capital between two lower-case words. */
  lemma {:induction false} GoalWordsOneCapital(a: string, c: char, b: string)
    requires forall i :: 0 <= i < |a| ==> !IsUpper(a[i])
    requires forall i :: 0 <= i < |b| ==> !IsUpper(b[i])
    requires IsUpper(c)
    ensures GoalWords(a + [c] + b) == a + [' ', Lower(c)] + b
  {
    var spaced := a + [' ', c] + b;
    assert SpaceBeforeCapitals(a + [c] + b) == spaced by {
      SpaceBeforeCapitalsAppend(a + [c], b);
      SpaceBeforeCapitalsAppend(a, [c]);
      NoCapitalsUnchanged(a);
      NoCapitalsUnchanged(b);
      assert SpaceBeforeCapitals([c]) == [' ', c];
    }
    var lowered := ToLower(spaced);
    assert lowered == a + [' ', Lower(c)] + b by {
      forall i | 0 <= i < |spaced|
        ensures lowered[i] == (a + [' ', Lower(c)] + b)[i]
      {
        if i < |a| {
          assert spaced[i] == a[i];
        } else if i > |a| + 1 {
          assert spaced[i] == b[i - |a| - 2];
        }
      }
    }
  }

  /** The goal value `loseWeight` reads as `lose weight` in the plan. */
  lemma GoalWordsExample(goal: string)
    requires goal == "loseWeight"
    ensures GoalWords(goal) == "lose weight"
  {
    assert goal == "lose" + ['W'] + "eight";
    GoalWordsOneCapital("lose", 'W', "eight");
  }

  // ---- Submission ----

  /** The form state, every field as entered. */
  datatype FitnessData = FitnessData(
    name: string,
    age: string,
    weight: string,
    fitnessGoal: string,
    activityLevel: string)

  /** The parts of the generated plan text that depend on the form. */
  datatype Plan = Plan(name: string, goalPhrase: string, activityLevel: string)

  const FillAllFields := "Please fill in all fields"

  predicate AllFilled(form: FitnessData) {
    form.name != "" && form.age != "" && form.weight != ""
    && form.fitnessGoal != "" && form.activityLevel != ""
  }

  /**
   * The submit handler: any empty field raises the error message and no
   * plan is produced; otherwise the plan names the person, the goal as
   * words and the activity level.
   */
  function HandleSubmit(form: FitnessData): (r: Result<Plan, string>)
    ensures r.Err? <==> !AllFilled(form)
    ensures r.Err? ==> r.error == FillAllFields
    ensures r.Ok? ==> r.value.name == form.name && r.value.activityLevel == form.activityLevel
    ensures r.Ok? ==> r.value.goalPhrase == GoalWords(form.fitnessGoal)
    ensures r.Ok? ==> |r.value.goalPhrase| == |form.fitnessGoal| + CountUpper(form.fitnessGoal)
  {
    if !AllFilled(form) then Err(FillAllFields)
    else Ok(Plan(form.name, GoalWords(form.fitnessGoal), form.activityLevel))
  }
}
