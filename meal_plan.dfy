/**
 The sample meal plan: the calorie target is split 25/35/10/30 over
 breakfast, lunch, snack and dinner, each share truncated toward zero; the
 band of the BMI then shifts each share by a fixed amount and picks fixed
 advice and dishes.
 */
module MealPlan {
  import opened Numeric
  import opened Bmi

  /** Four kcal amounts, one per meal. */
  datatype Portions = Portions(breakfast: int, lunch: int, snack: int, dinner: int)

  function Total(p: Portions): int {
    p.breakfast + p.lunch + p.snack + p.dinner
  }

  /** The four meals of a day, in the order the plan lists them. */
  datatype Meal = Breakfast | Lunch | Snack | Dinner

  /** The fixed dish text chosen for one meal of one band. */
  datatype Dish = Dish(band: Category, meal: Meal)

  /** A suggested dish with its approximate energy. */
  datatype Suggestion = Suggestion(dish: Dish, kcal: int)

  /**
   What `sample_meal_plan` returns: the advice (identified by the band it was
   written for) and one suggestion per meal.
   */
  datatype Plan = Plan(notes: Category, breakfast: Suggestion, lunch: Suggestion, snack: Suggestion, dinner: Suggestion)

  /** Integer division of `a` by a positive `d`, rounded toward zero. */
  function DivTowardZero(a: int, d: int): int
    requires d > 0
  {
    if a >= 0 then a / d else -((-a) / d)
  }

  /** The four shares of the target before any adjustment for the BMI band. */
  function BasePortions(calTarget: int): Portions {
    var t := calTarget as real;
    Portions(Trunc(t * 0.25), Trunc(t * 0.35), Trunc(t * 0.10), Trunc(t * 0.30))
  }

  /** `int(t * p / 100)` over the reals equals integer division toward zero. */
  lemma ShareIsIntegerDivision(t: int, percent: nat)
    ensures Trunc(t as real * (percent as real / 100.0)) == DivTowardZero(percent * t, 100)
  {
    var a := percent * t;
    var x := t as real * (percent as real / 100.0);
    assert x == a as real / 100.0;
    var n := DivTowardZero(a, 100);
    if a >= 0 {
      assert 100 * n <= a < 100 * n + 100;
      assert n as real <= x < n as real + 1.0;
    } else {
      var q := (-a) / 100;
      assert 100 * q <= -a < 100 * q + 100;
      assert n == -q;
      assert n as real - 1.0 < x <= n as real;
    }
    TruncUnique(x, n);
  }

  /** Each base share is the integer quotient of its percentage of the target by 100, toward zero. */
  lemma BasePortionsInIntegers(calTarget: int)
    ensures BasePortions(calTarget) == Portions(
      DivTowardZero(25 * calTarget, 100), DivTowardZero(35 * calTarget, 100),
      DivTowardZero(10 * calTarget, 100), DivTowardZero(30 * calTarget, 100))
  {
    ShareIsIntegerDivision(calTarget, 25);
    ShareIsIntegerDivision(calTarget, 35);
    ShareIsIntegerDivision(calTarget, 10);
    ShareIsIntegerDivision(calTarget, 30);
  }

  /**
   For a non-negative target every share lies between 0 and the target and
   together they lose less than 4 kcal; a negative target is split toward
   zero, so the shares lie between the target and 0 and their sum is at most
   4 kcal above it.
   */
  lemma BasePortionsBounds(calTarget: int)
    ensures var p := BasePortions(calTarget);
      calTarget >= 0 ==>
        && 0 <= p.breakfast <= calTarget && 0 <= p.lunch <= calTarget
        && 0 <= p.snack <= calTarget && 0 <= p.dinner <= calTarget
        && calTarget - 4 < Total(p) <= calTarget
    ensures var p := BasePortions(calTarget);
      calTarget < 0 ==>
        && calTarget <= p.breakfast <= 0 && calTarget <= p.lunch <= 0
        && calTarget <= p.snack <= 0 && calTarget <= p.dinner <= 0
        && calTarget <= Total(p) < calTarget + 4
  {
  }

  /** The kcal shift each band applies to the four shares. */
  function Adjustment(c: Category): Portions {
    match c
    case Underweight => Portions(150, 200, 150, 150)
    case NormalWeight => Portions(0, 0, 0, 0)
    case Overweight => Portions(-100, -100, -50, -50)
    case Obese => Portions(-150, -150, -50, -100)
  }

  /** A plan of one band's advice and dishes with four kcal amounts. */
  function MakePlan(band: Category, b: int, l: int, s: int, d: int): Plan {
    Plan(band, Suggestion(Dish(band, Breakfast), b), Suggestion(Dish(band, Lunch), l),
      Suggestion(Dish(band, Snack), s), Suggestion(Dish(band, Dinner), d))
  }

  /**
   `sample_meal_plan`. The category arrives as text; a text that is none of
   the first three labels takes the last branch, the one for obesity.
   */
  function SampleMealPlan(calTarget: int, category: string): (plan: Plan)
    ensures plan.breakfast.kcal - BasePortions(calTarget).breakfast in {150, 0, -100, -150}
    ensures plan.lunch.kcal - BasePortions(calTarget).lunch in {200, 0, -100, -150}
    ensures plan.snack.kcal - BasePortions(calTarget).snack in {150, 0, -50}
    ensures plan.dinner.kcal - BasePortions(calTarget).dinner in {150, 0, -50, -100}
  {
    var base := BasePortions(calTarget);
    var b, l, s, d := base.breakfast, base.lunch, base.snack, base.dinner;
    if category == Label(Underweight) then
      MakePlan(Underweight, b + 150, l + 200, s + 150, d + 150)
    else if category == Label(NormalWeight) then
      MakePlan(NormalWeight, b, l, s, d)
    else if category == Label(Overweight) then
      MakePlan(Overweight, b - 100, l - 100, s - 50, d - 50)
    else
      TruncOfInt(b - 150);
      TruncOfInt(l - 150);
      TruncOfInt(s - 50);
      TruncOfInt(d - 100);
      MakePlan(Obese,
        Trunc((b - 150) as real), Trunc((l - 150) as real), Trunc((s - 50) as real), Trunc((d - 100) as real))
  }

  /** The four kcal amounts of a plan. */
  function Kcals(plan: Plan): Portions {
    Portions(plan.breakfast.kcal, plan.lunch.kcal, plan.snack.kcal, plan.dinner.kcal)
  }

  function Add(p: Portions, q: Portions): Portions {
    Portions(p.breakfast + q.breakfast, p.lunch + q.lunch, p.snack + q.snack, p.dinner + q.dinner)
  }

  /** The plan for a band's label shifts the base shares exactly by that band's table row. */
  lemma PlanFollowsAdjustmentTable(calTarget: int, c: Category)
    ensures Kcals(SampleMealPlan(calTarget, Label(c))) == Add(BasePortions(calTarget), Adjustment(c))
  {
    var b := BasePortions(calTarget);
    if c == Obese {
      TruncOfInt(b.breakfast - 150);
      TruncOfInt(b.lunch - 150);
      TruncOfInt(b.snack - 50);
      TruncOfInt(b.dinner - 100);
    }
  }

  /** Any category text other than the first three labels gets the obesity plan. */
  lemma OtherCategoryTextIsObese(calTarget: int, category: string)
    requires category != Label(Underweight) && category != Label(NormalWeight) && category != Label(Overweight)
    ensures SampleMealPlan(calTarget, category) == SampleMealPlan(calTarget, Label(Obese))
  {
  }

  /** The advice and the dishes depend on the category alone, not on the target. */
  lemma TextsIgnoreTarget(t1: int, t2: int, category: string)
    ensures var p1, p2 := SampleMealPlan(t1, category), SampleMealPlan(t2, category);
      && p1.notes == p2.notes
      && p1.breakfast.dish == p2.breakfast.dish && p1.lunch.dish == p2.lunch.dish
      && p1.snack.dish == p2.snack.dish && p1.dinner.dish == p2.dinner.dish
  {
  }

  /** The plan shows the advice and dishes of the band it was asked for. */
  lemma PlanShowsBand(calTarget: int, c: Category)
    ensures var p := SampleMealPlan(calTarget, Label(c));
      && p.notes == c
      && p.breakfast.dish == Dish(c, Breakfast) && p.lunch.dish == Dish(c, Lunch)
      && p.snack.dish == Dish(c, Snack) && p.dinner.dish == Dish(c, Dinner)
  {
  }

  /** Over the whole day the plan adds 650 kcal, keeps the total, or removes 300 or 450 kcal. */
  lemma PlanDailyTotal(calTarget: int, c: Category)
    ensures Total(Kcals(SampleMealPlan(calTarget, Label(c))))
         == Total(BasePortions(calTarget)) + (match c
              case Underweight => 650
              case NormalWeight => 0
              case Overweight => -300
              case Obese => -450)
  {
    PlanFollowsAdjustmentTable(calTarget, c);
  }
}
