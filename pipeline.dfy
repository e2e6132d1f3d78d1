/**
 The calculation the page runs on submission: BMI and its band, BMR, TDEE and
 the calorie target, then the meal plan for that target and band.
 */
module Pipeline {
  import opened Numeric
  import opened Bmi
  import opened Energy
  import opened MealPlan

  /** What the form collects. */
  datatype Input = Input(age: int, gender: string, heightCm: int, weightKg: int, activity: string, goal: string)

  /** The figures computed from one submission. */
  datatype Results = Results(bmi: real, category: Category, bmr: real, tdee: int, calTarget: int)

  /** The ranges and choices the form's widgets allow. */
  predicate ValidInput(i: Input) {
    && 5 <= i.age <= 120
    && i.gender in Genders
    && 100 <= i.heightCm <= 220
    && 30 <= i.weightKg <= 200
    && i.activity in ActivityLevels
    && i.goal in Goals
  }

  /**
   The five assignments run on submission. The only thing the calculation
   itself cannot survive is a zero height.
   */
  function Compute(i: Input): (r: Results)
    requires i.heightCm != 0
    ensures r.bmi == CalculateBmi(i.weightKg, i.heightCm)
    ensures r.bmr == BmrMifflin(i.weightKg, i.heightCm, i.age, i.gender)
    ensures r.tdee == Tdee(r.bmr, i.activity)
    ensures BmiCategory(r.bmi) == r.category
    ensures r.calTarget == r.tdee + GoalOffset(i.goal)
    ensures Abs(r.calTarget - r.tdee) <= 500
    ensures r.bmr >= 0.0 ==> 1.2 * r.bmr - 1.0 < r.tdee as real <= 1.9 * r.bmr
  {
    var bmi := CalculateBmi(i.weightKg, i.heightCm);
    var category := BmiCategory(bmi);
    var bmr := BmrMifflin(i.weightKg, i.heightCm, i.age, i.gender);
    var tdee := Tdee(bmr, i.activity);
    var calTarget := AdjustCalorieForGoal(tdee as real, i.goal);
    AdjustIntegralTdee(tdee, i.goal);
    Results(bmi, category, bmr, tdee, calTarget)
  }

  /** The meal plan shown for a submission. */
  function PlanFor(i: Input): (plan: Plan)
    requires i.heightCm != 0
    ensures var r := Compute(i);
      Kcals(plan) == Add(BasePortions(r.calTarget), Adjustment(r.category))
  {
    var r := Compute(i);
    PlanFollowsAdjustmentTable(r.calTarget, r.category);
    SampleMealPlan(r.calTarget, Label(r.category))
  }

  /** Bounds of the Mifflin-St Jeor value over the form's ranges. */
  lemma BmrBounds(i: Input)
    requires ValidInput(i)
    ensures 164.0 <= BmrMifflin(i.weightKg, i.heightCm, i.age, i.gender) <= 3355.0
  {
    BmrIsBasePlusConstant(i.weightKg, i.heightCm, i.age, i.gender);
  }

  /** Over the BMR range of the form, TDEE lies in [196, 6374] whatever the activity level. */
  lemma TdeeBounds(bmr: real, level: string)
    requires 164.0 <= bmr <= 3355.0
    ensures 196 <= Tdee(bmr, level) <= 6374
  {
    var f := ActivityFactor(level);
    assert 196.8 <= bmr * f <= 6374.5 by {
      assert bmr * f - 164.0 * f == (bmr - 164.0) * f;
      assert (bmr - 164.0) * f >= 0.0;
      assert 3355.0 * f - bmr * f == (3355.0 - bmr) * f;
      assert (3355.0 - bmr) * f >= 0.0;
    }
    TruncMonotone(196.8, bmr * f);
    TruncMonotone(bmr * f, 6374.5);
    TruncUnique(196.8, 196);
    TruncUnique(6374.5, 6374);
  }

  /**
   Over the form's ranges the BMI is positive, BMR lies in [164, 3355],
   TDEE in [196, 6374] and the calorie target in [-304, 6874].
   */
  lemma ResultBounds(i: Input)
    requires ValidInput(i)
    ensures var r := Compute(i);
      && r.bmi > 0.0
      && 164.0 <= r.bmr <= 3355.0
      && 196 <= r.tdee <= 6374
      && -304 <= r.calTarget <= 6874
  {
    var r := Compute(i);
    BmrBounds(i);
    TdeeBounds(r.bmr, i.activity);
  }

  /**
   The BMR the page prints, `int(bmr)`, never exceeds the TDEE it prints: the
   activity multiplier is at least 1.2.
   */
  lemma PrintedBmrAtMostTdee(i: Input)
    requires ValidInput(i)
    ensures Trunc(Compute(i).bmr) <= Compute(i).tdee
  {
    var r := Compute(i);
    BmrBounds(i);
    TdeeAtLeastTruncatedBmr(r.bmr, i.activity);
  }

  /** The smallest person, oldest, female, sedentary and losing weight gets a target of -304 kcal. */
  lemma LowestTargetIsNegative()
    ensures var i := Input(120, Female, 100, 30, Sedentary, WeightLoss);
      ValidInput(i) && Compute(i).tdee == 196 && Compute(i).calTarget == -304
  {
    var i := Input(120, Female, 100, 30, Sedentary, WeightLoss);
    assert BmrMifflin(30, 100, 120, Female) == 164.0;
    assert ActivityFactor(Sedentary) == 1.2;
    assert 164.0 * 1.2 == 196.8;
    TruncUnique(196.8, 196);
    assert GoalOffset(WeightLoss) == -500;
  }

  /** The largest person, youngest, male, extra active and gaining weight gets 6874 kcal. */
  lemma HighestTarget()
    ensures var i := Input(5, Male, 220, 200, ExtraActive, WeightGain);
      ValidInput(i) && Compute(i).tdee == 6374 && Compute(i).calTarget == 6874
  {
    assert BmrMifflin(200, 220, 5, Male) == 3355.0;
    assert ActivityFactor(ExtraActive) == 1.9;
    assert 3355.0 * 1.9 == 6374.5;
    TruncUnique(6374.5, 6374);
    assert GoalOffset(WeightGain) == 500;
  }

  /**
   A negative target is split toward zero: -304 kcal gives shares of -76,
   -106, -30 and -91 kcal, where flooring would give -76, -107, -31 and -92.
   */
  lemma NegativeTargetSharesRoundTowardZero()
    ensures BasePortions(-304) == Portions(-76, -106, -30, -91)
    ensures (-304.0 * 0.35).Floor == -107 && (-304.0 * 0.10).Floor == -31 && (-304.0 * 0.30).Floor == -92
  {
    BasePortionsInIntegers(-304);
  }

  /** The worked example: 70 kg, 170 cm, 25 years. */
  lemma WorkedExample()
    ensures BmrMifflin(70, 170, 25, Male) == 1642.5
    ensures BmrMifflin(70, 170, 25, Female) == 1476.5
    ensures BmrMifflin(70, 170, 25, OtherGender) == 1559.5
    ensures var r := Compute(Input(25, Male, 170, 70, Sedentary, MildWeightLoss));
      r.tdee == 1971 && r.calTarget == 1721 && r.category == NormalWeight
  {
    var i := Input(25, Male, 170, 70, Sedentary, MildWeightLoss);
    assert ActivityFactor(Sedentary) == 1.2;
    assert 1642.5 * 1.2 == 1971.0;
    TruncOfInt(1971);
    assert GoalOffset(MildWeightLoss) == -250;
    var bmi := CalculateBmi(70, 170);
    BmiInCentimetres(70, 170);
    assert bmi * 28900.0 == 700000.0;
  }
}
