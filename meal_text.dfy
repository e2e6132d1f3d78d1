/**
 The fixed texts of the meal plan and the way a suggestion is written out:
 `"<dish> (~<kcal> kcal)"`.
 */
module MealText {
  import opened Decimal
  import opened Bmi
  import opened MealPlan

  /** The advice shown for each band. */
  function NotesText(c: Category): string {
    match c
    case Underweight => "Focus on calorie-dense nutritious foods: nuts, dairy, healthy oils, and protein."
    case NormalWeight => "Maintain balanced macros and regular activity."
    case Overweight => "Reduce refined carbs & added sugars; prioritize protein and fiber."
    case Obese => "Aim for modest calorie deficit, high fiber, lean proteins. Consult a professional for personalised plan."
  }

  /** The dish suggested for each meal of each band. */
  function DishText(d: Dish): string {
    match d
    case Dish(Underweight, Breakfast) => "Oats with whole milk, banana, and peanut butter"
    case Dish(Underweight, Lunch) => "Rice/roti + dal + paneer/chicken + veggies"
    case Dish(Underweight, Snack) => "Nuts & dried fruit or smoothie"
    case Dish(Underweight, Dinner) => "Rice/roti + lentils + salad + yogurt"
    case Dish(NormalWeight, Breakfast) => "Vegetable omelette/tofu scramble + wholegrain toast"
    case Dish(NormalWeight, Lunch) => "Grilled chicken/fish or paneer + salad + brown rice"
    case Dish(NormalWeight, Snack) => "Fruit or yogurt"
    case Dish(NormalWeight, Dinner) => "Light curry + roti + salad"
    case Dish(Overweight, Breakfast) => "Greek yogurt + berries + seeds"
    case Dish(Overweight, Lunch) => "Grilled protein + large salad + quinoa"
    case Dish(Overweight, Snack) => "Raw veggies or an apple"
    case Dish(Overweight, Dinner) => "Steamed fish/beans + veggies"
    case Dish(Obese, Breakfast) => "Oatmeal with berries"
    case Dish(Obese, Lunch) => "Large salad with lean protein"
    case Dish(Obese, Snack) => "Veg sticks or a small fruit"
    case Dish(Obese, Dinner) => "Light vegetable soup + lean protein"
  }

  /** The text of a suggestion, as the f-string writes it. */
  function Render(s: Suggestion): (text: string)
    ensures DishText(s.dish) + " (~" <= text
    ensures |text| >= |DishText(s.dish)| + 10 && text[|text| - 6..] == " kcal)"
  {
    DishText(s.dish) + " (~" + IntToString(s.kcal) + " kcal)"
  }

  /** Two renderings of the same dish are equal only for equal kcal amounts. */
  lemma RenderDeterminesKcal(s1: Suggestion, s2: Suggestion)
    requires s1.dish == s2.dish && Render(s1) == Render(s2)
    ensures s1.kcal == s2.kcal
  {
    var prefix := DishText(s1.dish) + " (~";
    var n1, n2 := IntToString(s1.kcal), IntToString(s2.kcal);
    assert Render(s1) == prefix + n1 + " kcal)";
    assert Render(s2) == prefix + n2 + " kcal)";
    assert |n1| == |n2|;
    assert n1 == Render(s1)[|prefix|..|prefix| + |n1|];
    assert n2 == Render(s2)[|prefix|..|prefix| + |n2|];
    IntToStringInjective(s1.kcal, s2.kcal);
  }
}
