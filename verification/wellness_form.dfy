/**
 * The daily well-being check-in (app/wellness-form/page.tsx): a submission
 * is validated field by field, then four independent threshold blocks
 * (sleep, energy, stress, activity) append canned recommendations in that
 * order, and a generic entry is added when none of them fired.
 *
 * The advice texts are not modelled: each canned recommendation is its
 * category (the `type` the page shows) plus a tag naming the entry.
 */
module WellnessForm {
  import opened Wrappers
  import opened ParsedNumber

  /** The `type` of a recommendation. */
  datatype Category =
    | Sleep | Energy | Stress | Movement | Mindfulness
    | Hydration | Nutrition | Social | General

  /** One tag per canned recommendation of the page, in source order. */
  datatype Entry =
    | RestorativeSleep | SleepDetective                 // sleep < 6
    | OversleepCheck | SocialCatchUp                    // sleep > 9
    | SleepSanctuary | BedtimeBreathing                 // 7..9 hours, low energy
    | MorningSunlight | WaterBottle | Breakfast         // energy < 4
    | ChannelEnergy | EnergyWorkout                     // energy > 7
    | Grounding | MeditationApp                         // stress > 7
    | StressRockstar                                    // stress < 3
    | HourlyStretch | ShortWalk                         // sedentary
    | StepItUp                                          // light
    | RestAndRecovery | RecoveryMeal                    // very, extra
    | WellBalanced                                      // nothing else fired

  datatype Recommendation = Recommendation(kind: Category, entry: Entry)

  /** The category each canned entry is pushed with. */
  function KindOf(e: Entry): Category {
    match e
    case RestorativeSleep | SleepDetective | OversleepCheck => Sleep
    case SocialCatchUp => Social
    case SleepSanctuary | MorningSunlight => Energy
    case BedtimeBreathing | MeditationApp => Mindfulness
    case WaterBottle => Hydration
    case Breakfast | RecoveryMeal => Nutrition
    case ChannelEnergy | StressRockstar | RestAndRecovery | WellBalanced => General
    case EnergyWorkout | HourlyStretch | ShortWalk | StepItUp => Movement
    case Grounding => Stress
  }

  function Rec(e: Entry): Recommendation {
    Recommendation(KindOf(e), e)
  }

  /** The categories of a list of recommendations, in order. */
  function Kinds(rs: seq<Recommendation>): (ks: seq<Category>)
    ensures |ks| == |rs|
    ensures forall i :: 0 <= i < |rs| ==> ks[i] == rs[i].kind
  {
    if rs == [] then [] else [rs[0].kind] + Kinds(rs[1..])
  }

  // ---- The four blocks and the fallback, as values ----

  /** Sleep block: three mutually exclusive branches; 6 hours matches none. */
  function SleepBlock(sleep: Num, energy: Num): (r: seq<Recommendation>)
    ensures |r| <= 2
  {
    if Below(sleep, 6) then [Rec(RestorativeSleep), Rec(SleepDetective)]
    else if Above(sleep, 9) then [Rec(OversleepCheck), Rec(SocialCatchUp)]
    else if Within(sleep, 7, 9) && Below(energy, 4) then [Rec(SleepSanctuary), Rec(BedtimeBreathing)]
    else []
  }

  /** Energy block, independent of the sleep block. */
  function EnergyBlock(energy: Num): (r: seq<Recommendation>)
    ensures |r| <= 3
  {
    if Below(energy, 4) then [Rec(MorningSunlight), Rec(WaterBottle), Rec(Breakfast)]
    else if Above(energy, 7) then [Rec(ChannelEnergy), Rec(EnergyWorkout)]
    else []
  }

  /** Stress block. */
  function StressBlock(stress: Num): (r: seq<Recommendation>)
    ensures |r| <= 2
  {
    if Above(stress, 7) then [Rec(Grounding), Rec(MeditationApp)]
    else if Below(stress, 3) then [Rec(StressRockstar)]
    else []
  }

  /** Activity block: exact, case-sensitive string comparisons. */
  function ActivityBlock(activity: string): (r: seq<Recommendation>)
    ensures |r| <= 2
  {
    if activity == "sedentary" then [Rec(HourlyStretch), Rec(ShortWalk)]
    else if activity == "light" then [Rec(StepItUp)]
    else if activity == "very" || activity == "extra" then [Rec(RestAndRecovery), Rec(RecoveryMeal)]
    else []
  }

  /** What the four blocks push, in block order. */
  function Fired(sleep: Num, energy: Num, stress: Num, activity: string): seq<Recommendation> {
    SleepBlock(sleep, energy) + EnergyBlock(energy) + StressBlock(stress) + ActivityBlock(activity)
  }

  /**
   * The list the page shows: the blocks' entries, or the single generic
   * entry when no block fired. It is never empty and holds at most
   * 2 + 3 + 2 + 2 entries.
   */
  function Recommendations(sleep: Num, energy: Num, stress: Num, activity: string): (r: seq<Recommendation>)
    ensures 1 <= |r| <= 9
  {
    var fired := Fired(sleep, energy, stress, activity);
    if fired == [] then [Rec(WellBalanced)] else fired
  }

  // ---- The page's handler ----

  /** A form field: the empty string, or a non-empty string and what `parseInt` made of it. */
  datatype Field = Blank | Filled(num: Num)

  /** The alert shown for the first empty field, checked in this order. */
  datatype MissingField = SleepMissing | EnergyMissing | StressMissing | ActivityMissing

  /** The sleep block's pushes onto the list built so far. */
  method PushSleepBlock(recs: seq<Recommendation>, sleep: Num, energy: Num)
    returns (out: seq<Recommendation>)
    ensures out == recs + SleepBlock(sleep, energy)
  {
    out := recs;
    if Below(sleep, 6) {
      out := out + [Rec(RestorativeSleep)];
      out := out + [Rec(SleepDetective)];
    } else if Above(sleep, 9) {
      out := out + [Rec(OversleepCheck)];
      out := out + [Rec(SocialCatchUp)];
    } else if Within(sleep, 7, 9) && Below(energy, 4) {
      out := out + [Rec(SleepSanctuary)];
      out := out + [Rec(BedtimeBreathing)];
    }
  }

  /** The energy block's pushes onto the list built so far. */
  method PushEnergyBlock(recs: seq<Recommendation>, energy: Num)
    returns (out: seq<Recommendation>)
    ensures out == recs + EnergyBlock(energy)
  {
    out := recs;
    if Below(energy, 4) {
      out := out + [Rec(MorningSunlight)];
      out := out + [Rec(WaterBottle)];
      out := out + [Rec(Breakfast)];
    } else if Above(energy, 7) {
      out := out + [Rec(ChannelEnergy)];
      out := out + [Rec(EnergyWorkout)];
    }
  }

  /** The stress block's pushes onto the list built so far. */
  method PushStressBlock(recs: seq<Recommendation>, stress: Num)
    returns (out: seq<Recommendation>)
    ensures out == recs + StressBlock(stress)
  {
    out := recs;
    if Above(stress, 7) {
      out := out + [Rec(Grounding)];
      out := out + [Rec(MeditationApp)];
    } else if Below(stress, 3) {
      out := out + [Rec(StressRockstar)];
    }
  }

  /** The activity block's pushes onto the list built so far. */
  method PushActivityBlock(recs: seq<Recommendation>, activity: string)
    returns (out: seq<Recommendation>)
    ensures out == recs + ActivityBlock(activity)
  {
    out := recs;
    if activity == "sedentary" {
      out := out + [Rec(HourlyStretch)];
      out := out + [Rec(ShortWalk)];
    } else if activity == "light" {
      out := out + [Rec(StepItUp)];
    } else if activity == "very" || activity == "extra" {
      out := out + [Rec(RestAndRecovery)];
      out := out + [Rec(RecoveryMeal)];
    }
  }

  /**
   * Builds the recommendation list step by step, the way the handler
   * pushes onto its local array: the four blocks in order, then the
   * generic entry if the list is still empty.
   */
  method Recommend(sleep: Num, energy: Num, stress: Num, activity: string)
    returns (recs: seq<Recommendation>)
    ensures recs == Recommendations(sleep, energy, stress, activity)
    ensures 1 <= |recs| <= 9
  {
    ghost var fired := Fired(sleep, energy, stress, activity);
    recs := PushSleepBlock([], sleep, energy);
    ghost var upToSleep := recs;
    recs := PushEnergyBlock(recs, energy);
    recs := PushStressBlock(recs, stress);
    ghost var upToStress := recs;
    recs := PushActivityBlock(recs, activity);
    assert recs == fired by {
      assert upToSleep == SleepBlock(sleep, energy);
      assert recs == upToStress + ActivityBlock(activity);
    }
    if |recs| == 0 {
      recs := [Rec(WellBalanced)];
    }
  }

  /**
   * The submit handler: the first empty field (sleep, energy, stress,
   * activity) stops the submission with its alert; otherwise the
   * recommendations are generated from the parsed numbers.
   */
  method HandleSubmit(sleep: Field, energy: Field, stress: Field, activity: string)
    returns (outcome: Result<seq<Recommendation>, MissingField>)
    ensures sleep.Blank? ==> outcome == Err(SleepMissing)
    ensures sleep.Filled? && energy.Blank? ==> outcome == Err(EnergyMissing)
    ensures sleep.Filled? && energy.Filled? && stress.Blank? ==> outcome == Err(StressMissing)
    ensures sleep.Filled? && energy.Filled? && stress.Filled? && activity == "" ==> outcome == Err(ActivityMissing)
    ensures outcome.Ok? <==> sleep.Filled? && energy.Filled? && stress.Filled? && activity != ""
    ensures outcome.Ok? ==> outcome.value == Recommendations(sleep.num, energy.num, stress.num, activity)
  {
    if sleep.Blank? {
      return Err(SleepMissing);
    }
    if energy.Blank? {
      return Err(EnergyMissing);
    }
    if stress.Blank? {
      return Err(StressMissing);
    }
    if activity == "" {
      return Err(ActivityMissing);
    }
    var recs := Recommend(sleep.num, energy.num, stress.num, activity);
    return Ok(recs);
  }

  // ---- Properties of the recommendation list ----

  lemma KindsAppend(a: seq<Recommendation>, b: seq<Recommendation>)
    ensures Kinds(a + b) == Kinds(a) + Kinds(b)
  {
  }

  /** When any block fires, the list is exactly the four blocks' entries in block order. */
  lemma BlockOrder(sleep: Num, energy: Num, stress: Num, activity: string)
    requires Fired(sleep, energy, stress, activity) != []
    ensures Recommendations(sleep, energy, stress, activity)
         == SleepBlock(sleep, energy) + EnergyBlock(energy) + StressBlock(stress) + ActivityBlock(activity)
  {
  }

  /** The generic entry appears in the list, and then alone, exactly when no block fires. */
  lemma FallbackAlone(sleep: Num, energy: Num, stress: Num, activity: string)
    ensures Fired(sleep, energy, stress, activity) == []
        <==> Recommendations(sleep, energy, stress, activity) == [Rec(WellBalanced)]
    ensures Fired(sleep, energy, stress, activity) == []
        <==> Rec(WellBalanced) in Recommendations(sleep, energy, stress, activity)
  {
    assert Rec(WellBalanced) !in SleepBlock(sleep, energy);
    assert Rec(WellBalanced) !in EnergyBlock(energy);
    assert Rec(WellBalanced) !in StressBlock(stress);
    assert Rec(WellBalanced) !in ActivityBlock(activity);
    assert Rec(WellBalanced) !in Fired(sleep, energy, stress, activity);
  }

  /** The categories the sleep block pushes, in order. */
  lemma SleepBlockKinds(sleep: Num, energy: Num)
    ensures Kinds(SleepBlock(sleep, energy))
         == if Below(sleep, 6) then [Sleep, Sleep]
            else if Above(sleep, 9) then [Sleep, Social]
            else if Within(sleep, 7, 9) && Below(energy, 4) then [Energy, Mindfulness]
            else []
  {
  }

  /** The categories the energy block pushes, in order. */
  lemma EnergyBlockKinds(energy: Num)
    ensures Kinds(EnergyBlock(energy))
         == if Below(energy, 4) then [Energy, Hydration, Nutrition]
            else if Above(energy, 7) then [General, Movement]
            else []
  {
  }

  /** The categories the stress block pushes, in order. */
  lemma StressBlockKinds(stress: Num)
    ensures Kinds(StressBlock(stress))
         == if Above(stress, 7) then [Stress, Mindfulness]
            else if Below(stress, 3) then [General]
            else []
  {
  }

  /** The categories the activity block pushes, in order. */
  lemma ActivityBlockKinds(activity: string)
    ensures Kinds(ActivityBlock(activity))
         == if activity == "sedentary" then [Movement, Movement]
            else if activity == "light" then [Movement]
            else if activity == "very" || activity == "extra" then [General, Nutrition]
            else []
  {
  }

  /** The categories of the list are those of the four blocks, in block order. */
  lemma {:induction false} KindsOfRecommendations(sleep: Num, energy: Num, stress: Num, activity: string)
    requires Fired(sleep, energy, stress, activity) != []
    ensures Kinds(Recommendations(sleep, energy, stress, activity))
         == Kinds(SleepBlock(sleep, energy)) + Kinds(EnergyBlock(energy))
          + Kinds(StressBlock(stress)) + Kinds(ActivityBlock(activity))
  {
    var s, e, t, a := SleepBlock(sleep, energy), EnergyBlock(energy), StressBlock(stress), ActivityBlock(activity);
    KindsAppend(s, e);
    KindsAppend(s + e, t);
    KindsAppend(s + e + t, a);
  }

  /**
   * Whether a category occurs in the list is decided block by block; with
   * the `Kinds` lemmas above this turns a question about the whole list
   * into one about the block that can push that category.
   */
  lemma {:induction false} KindIn(k: Category, sleep: Num, energy: Num, stress: Num, activity: string)
    requires k != General
    ensures k in Kinds(Recommendations(sleep, energy, stress, activity))
        <==> (|| k in Kinds(SleepBlock(sleep, energy))
              || k in Kinds(EnergyBlock(energy))
              || k in Kinds(StressBlock(stress))
              || k in Kinds(ActivityBlock(activity)))
  {
    if Fired(sleep, energy, stress, activity) != [] {
      KindsOfRecommendations(sleep, energy, stress, activity);
    } else {
      assert Kinds([Rec(WellBalanced)]) == [General];
    }
  }

  /** A `sleep` entry appears exactly when the hours are below 6 or above 9. */
  lemma SleepKindIff(sleep: Num, energy: Num, stress: Num, activity: string)
    ensures Sleep in Kinds(Recommendations(sleep, energy, stress, activity))
        <==> Below(sleep, 6) || Above(sleep, 9)
  {
    assert Sleep in Kinds(SleepBlock(sleep, energy)) <==> Below(sleep, 6) || Above(sleep, 9) by { SleepBlockKinds(sleep, energy); }
    assert Sleep !in Kinds(EnergyBlock(energy)) by { EnergyBlockKinds(energy); }
    assert Sleep !in Kinds(StressBlock(stress)) by { StressBlockKinds(stress); }
    assert Sleep !in Kinds(ActivityBlock(activity)) by { ActivityBlockKinds(activity); }
    KindIn(Sleep, sleep, energy, stress, activity);
  }

  /** The `social` entry appears exactly when the hours are above 9. */
  lemma SocialKindIff(sleep: Num, energy: Num, stress: Num, activity: string)
    ensures Social in Kinds(Recommendations(sleep, energy, stress, activity)) <==> Above(sleep, 9)
  {
    assert Social in Kinds(SleepBlock(sleep, energy)) <==> Above(sleep, 9) by { SleepBlockKinds(sleep, energy); }
    assert Social !in Kinds(EnergyBlock(energy)) by { EnergyBlockKinds(energy); }
    assert Social !in Kinds(StressBlock(stress)) by { StressBlockKinds(stress); }
    assert Social !in Kinds(ActivityBlock(activity)) by { ActivityBlockKinds(activity); }
    KindIn(Social, sleep, energy, stress, activity);
  }

  /** The `hydration` entry appears exactly when energy is below 4. */
  lemma HydrationKindIff(sleep: Num, energy: Num, stress: Num, activity: string)
    ensures Hydration in Kinds(Recommendations(sleep, energy, stress, activity)) <==> Below(energy, 4)
  {
    assert Hydration !in Kinds(SleepBlock(sleep, energy)) by { SleepBlockKinds(sleep, energy); }
    assert Hydration in Kinds(EnergyBlock(energy)) <==> Below(energy, 4) by { EnergyBlockKinds(energy); }
    assert Hydration !in Kinds(StressBlock(stress)) by { StressBlockKinds(stress); }
    assert Hydration !in Kinds(ActivityBlock(activity)) by { ActivityBlockKinds(activity); }
    KindIn(Hydration, sleep, energy, stress, activity);
  }

  /** The `stress` entry appears exactly when stress is above 7. */
  lemma StressKindIff(sleep: Num, energy: Num, stress: Num, activity: string)
    ensures Stress in Kinds(Recommendations(sleep, energy, stress, activity)) <==> Above(stress, 7)
  {
    assert Stress !in Kinds(SleepBlock(sleep, energy)) by { SleepBlockKinds(sleep, energy); }
    assert Stress !in Kinds(EnergyBlock(energy)) by { EnergyBlockKinds(energy); }
    assert Stress in Kinds(StressBlock(stress)) <==> Above(stress, 7) by { StressBlockKinds(stress); }
    assert Stress !in Kinds(ActivityBlock(activity)) by { ActivityBlockKinds(activity); }
    KindIn(Stress, sleep, energy, stress, activity);
  }

  /** Boundaries are strict: 6 hours, energy 4..7, stress 3..7 and "moderate" add nothing. */
  lemma NeutralBoundaries(energy: Num)
    ensures SleepBlock(Some(6), energy) == []
    ensures forall e :: 4 <= e <= 7 ==> EnergyBlock(Some(e)) == []
    ensures forall t :: 3 <= t <= 7 ==> StressBlock(Some(t)) == []
    ensures ActivityBlock("moderate") == []
    ensures Recommendations(Some(8), Some(5), Some(5), "moderate") == [Rec(WellBalanced)]
  {
  }

  /** 9 hours is inside the 7..9 band, so with low energy it yields the sleep-environment pair. */
  lemma NineHoursLowEnergy()
    ensures SleepBlock(Some(9), Some(3)) == [Rec(SleepSanctuary), Rec(BedtimeBreathing)]
    ensures SleepBlock(Some(7), Some(3)) == [Rec(SleepSanctuary), Rec(BedtimeBreathing)]
    ensures SleepBlock(Some(10), Some(3)) == [Rec(OversleepCheck), Rec(SocialCatchUp)]
  {
  }

  /** Energy 2, stress 9, sedentary, 6 hours: the energy, stress and activity entries in that order. */
  lemma CombinedBlocks()
    ensures Recommendations(Some(6), Some(2), Some(9), "sedentary")
         == [Rec(MorningSunlight), Rec(WaterBottle), Rec(Breakfast),
             Rec(Grounding), Rec(MeditationApp),
             Rec(HourlyStretch), Rec(ShortWalk)]
  {
  }

  /** An unparseable number passes the emptiness check but makes its comparisons false. */
  lemma NaNAddsNothing(activity: string)
    ensures Recommendations(None, None, None, activity) ==
              if ActivityBlock(activity) == [] then [Rec(WellBalanced)] else ActivityBlock(activity)
  {
  }
}
