/**
 Energy estimate: resting energy (BMR) by the Mifflin-St Jeor equation, total
 daily energy (TDEE) as BMR times an activity multiplier, and the calorie
 target as TDEE plus a goal offset. Gender, activity level and goal arrive as
 the strings the form offers; the lookups match them exactly and fall back to
 a default for any other string.
 */
module Energy {
  import opened Numeric

  // The choices the form offers, in the order it lists them.

  const Male := "Male"
  const Female := "Female"
  const OtherGender := "Other"
  const Genders: seq<string> := [Male, Female, OtherGender]

  const Sedentary := "Sedentary (little or no exercise)"
  const LightlyActive := "Lightly active (light exercise/sports 1-3 days/week)"
  const ModeratelyActive := "Moderately active (moderate exercise/sports 3-5 days/week)"
  const VeryActive := "Very active (hard exercise/sports 6-7 days/week)"
  const ExtraActive := "Extra active (very hard exercise or physical job)"
  const ActivityLevels: seq<string> := [Sedentary, LightlyActive, ModeratelyActive, VeryActive, ExtraActive]

  const MaintainWeight := "Maintain weight"
  const MildWeightLoss := "Mild weight loss"
  const WeightLoss := "Weight loss"
  const MildWeightGain := "Mild weight gain"
  const WeightGain := "Weight gain"
  const Goals: seq<string> := [MaintainWeight, MildWeightLoss, WeightLoss, MildWeightGain, WeightGain]

  /** The multiplier table of `activity_factor`. */
  const ActivityFactors: map<string, real> := map[
    Sedentary := 1.2,
    LightlyActive := 1.375,
    ModeratelyActive := 1.55,
    VeryActive := 1.725,
    ExtraActive := 1.9
  ]

  /** The multiplier for a level the table does not list. */
  const DefaultActivityFactor: real := 1.2

  /** The offset table of `adjust_calorie_for_goal`, in kcal per day. */
  const GoalOffsets: map<string, int> := map[
    MaintainWeight := 0,
    MildWeightLoss := -250,
    WeightLoss := -500,
    MildWeightGain := 250,
    WeightGain := 500
  ]

  /** `activity_factor`: the table's multiplier, or 1.2 for an unlisted level. */
  function ActivityFactor(level: string): (f: real)
    ensures 1.2 <= f <= 1.9
    ensures level !in ActivityLevels ==> f == DefaultActivityFactor
  {
    if level in ActivityFactors then ActivityFactors[level] else DefaultActivityFactor
  }

  /** Every level the form offers has its own entry; anything else gets 1.2. */
  lemma ActivityFactorTable(level: string)
    ensures ActivityFactor(Sedentary) == 1.2
    ensures ActivityFactor(LightlyActive) == 1.375
    ensures ActivityFactor(ModeratelyActive) == 1.55
    ensures ActivityFactor(VeryActive) == 1.725
    ensures ActivityFactor(ExtraActive) == 1.9
    ensures level !in ActivityLevels ==> ActivityFactor(level) == 1.2
  {
  }

  /** A level listed later on the form has a larger multiplier. */
  lemma ActivityFactorIncreasing(i: nat, j: nat)
    requires i < j < |ActivityLevels|
    ensures ActivityFactor(ActivityLevels[i]) < ActivityFactor(ActivityLevels[j])
  {
  }

  /** The `.get(goal, 0)` lookup of `adjust_calorie_for_goal`. */
  function GoalOffset(goal: string): (d: int)
    ensures -500 <= d <= 500
    ensures goal !in Goals ==> d == 0
  {
    if goal in GoalOffsets then GoalOffsets[goal] else 0
  }

  /** Every goal the form offers has its own offset; anything else gets 0. */
  lemma GoalOffsetTable(goal: string)
    ensures GoalOffset(MaintainWeight) == 0
    ensures GoalOffset(MildWeightLoss) == -250
    ensures GoalOffset(WeightLoss) == -500
    ensures GoalOffset(MildWeightGain) == 250
    ensures GoalOffset(WeightGain) == 500
    ensures goal !in Goals ==> GoalOffset(goal) == 0
  {
  }

  /** The part of the Mifflin-St Jeor equation shared by every gender. */
  function MifflinBase(weightKg: int, heightCm: int, age: int): real {
    10.0 * weightKg as real + 6.25 * heightCm as real - 5.0 * age as real
  }

  /**
   `bmr_mifflin`: the male equation adds 5, the female one subtracts 161, and
   any other gender gets the mean of the two. The result is always a whole
   number of quarter kilocalories.
   */
  function BmrMifflin(weightKg: int, heightCm: int, age: int, gender: string): (bmr: real)
    ensures (4.0 * bmr).Floor as real == 4.0 * bmr
  {
    var male := 10.0 * weightKg as real + 6.25 * heightCm as real - 5.0 * age as real + 5.0;
    var female := 10.0 * weightKg as real + 6.25 * heightCm as real - 5.0 * age as real - 161.0;
    var quarters := 40 * weightKg + 25 * heightCm - 20 * age;
    assert 4.0 * male == (quarters + 20) as real;
    assert 4.0 * female == (quarters - 644) as real;
    assert 4.0 * ((male + female) / 2.0) == (quarters - 312) as real;
    if gender == Male then male
    else if gender == Female then female
    else (male + female) / 2.0
  }

  /** The gender constant that the equation adds to the shared part. */
  function GenderConstant(gender: string): real {
    if gender == Male then 5.0 else if gender == Female then -161.0 else -78.0
  }

  /** BMR is the shared part plus a constant that depends only on the gender. */
  lemma BmrIsBasePlusConstant(weightKg: int, heightCm: int, age: int, gender: string)
    ensures BmrMifflin(weightKg, heightCm, age, gender)
         == MifflinBase(weightKg, heightCm, age) + GenderConstant(gender)
  {
  }

  /**
   For equal inputs, the male value exceeds the female one by 166 and every
   other gender lies exactly half way, 83 below the male value.
   */
  lemma BmrGenderGap(weightKg: int, heightCm: int, age: int, gender: string)
    requires gender != Male && gender != Female
    ensures BmrMifflin(weightKg, heightCm, age, Male) - BmrMifflin(weightKg, heightCm, age, Female) == 166.0
    ensures BmrMifflin(weightKg, heightCm, age, gender) == BmrMifflin(weightKg, heightCm, age, Male) - 83.0
    ensures BmrMifflin(weightKg, heightCm, age, Female)
         < BmrMifflin(weightKg, heightCm, age, gender)
         < BmrMifflin(weightKg, heightCm, age, Male)
  {
  }

  /** Each extra kilogram adds 10, each centimetre 6.25, each year takes away 5. */
  lemma BmrSlopes(weightKg: int, heightCm: int, age: int, gender: string)
    ensures BmrMifflin(weightKg + 1, heightCm, age, gender) - BmrMifflin(weightKg, heightCm, age, gender) == 10.0
    ensures BmrMifflin(weightKg, heightCm + 1, age, gender) - BmrMifflin(weightKg, heightCm, age, gender) == 6.25
    ensures BmrMifflin(weightKg, heightCm, age + 1, gender) - BmrMifflin(weightKg, heightCm, age, gender) == -5.0
  {
  }

  /** The line `tdee = int(bmr * activity_factor(activity))`. */
  function Tdee(bmr: real, level: string): (tdee: int)
    ensures bmr >= 0.0 ==> 1.2 * bmr - 1.0 < tdee as real <= 1.9 * bmr
  {
    var f := ActivityFactor(level);
    assert bmr >= 0.0 ==> 1.2 * bmr <= bmr * f <= 1.9 * bmr by {
      if bmr >= 0.0 {
        assert bmr * (f - 1.2) >= 0.0;
        assert bmr * (1.9 - f) >= 0.0;
      }
    }
    Trunc(bmr * f)
  }

  /** For a non-negative BMR, TDEE is never below `int(bmr)`: every multiplier is at least 1.2. */
  lemma TdeeAtLeastTruncatedBmr(bmr: real, level: string)
    requires bmr >= 0.0
    ensures Trunc(bmr) <= Tdee(bmr, level)
  {
    var f := ActivityFactor(level);
    assert bmr <= bmr * f by {
      assert bmr * f - bmr == bmr * (f - 1.0);
      assert bmr * (f - 1.0) >= 0.0;
    }
    TruncMonotone(bmr, bmr * f);
  }

  /**
   `adjust_calorie_for_goal`: adds the goal's offset and truncates. The target
   never lies 501 or more away from the energy expenditure it started from.
   */
  function AdjustCalorieForGoal(tdee: real, goal: string): (target: int)
    ensures tdee - 501.0 < target as real < tdee + 501.0
    ensures goal !in Goals ==> target == Trunc(tdee)
  {
    Trunc(tdee + GoalOffset(goal) as real)
  }

  /**
   With an integral energy expenditure, as the calculator passes it, the
   truncation is exact: the target is the expenditure plus the goal's offset.
   */
  lemma AdjustIntegralTdee(tdee: int, goal: string)
    ensures AdjustCalorieForGoal(tdee as real, goal) == tdee + GoalOffset(goal)
    ensures Abs(AdjustCalorieForGoal(tdee as real, goal) - tdee) <= 500
  {
    TruncOfInt(tdee + GoalOffset(goal));
  }
}
