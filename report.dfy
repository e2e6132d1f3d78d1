/**
 The downloadable outputs: the plain-text report, built by appending fixed
 chunks in a fixed order, and the two-column meal table behind the CSV file.
 The BMI is printed with two decimals by Python's float formatting, which
 this model does not reproduce: the report takes that text as a parameter.
 */
module Report {
  import opened Numeric
  import opened Decimal
  import opened Bmi
  import opened MealPlan
  import opened MealText
  import opened Pipeline

  /** Lines joined with a line break after each one. */
  function Unlines(lines: seq<string>): string {
    if lines == [] then "" else lines[0] + "\n" + Unlines(lines[1..])
  }

  lemma {:induction false} UnlinesAppend(a: seq<string>, b: seq<string>)
    ensures Unlines(a + b) == Unlines(a) + Unlines(b)
  {
    if a == [] {
      assert a + b == b;
    } else {
      assert (a + b)[0] == a[0];
      assert (a + b)[1..] == a[1..] + b;
      UnlinesAppend(a[1..], b);
      calc {
        Unlines(a + b);
        a[0] + "\n" + Unlines(a[1..] + b);
        a[0] + "\n" + (Unlines(a[1..]) + Unlines(b));
        (a[0] + "\n" + Unlines(a[1..])) + Unlines(b);
      }
    }
  }

  lemma UnlinesSingle(line: string)
    ensures Unlines([line]) == line + "\n"
  {
    assert [line][1..] == [];
  }

  /** The personal details, one per line, closed by a blank line. */
  function DetailsLines(i: Input): seq<string> {
    [ "Age: " + IntToString(i.age),
      "Gender: " + i.gender,
      "Height (cm): " + IntToString(i.heightCm),
      "Weight (kg): " + IntToString(i.weightKg),
      "" ]
  }

  /** The computed figures, one per line, closed by a blank line; BMR is printed as `int(bmr)`. */
  function FiguresLines(r: Results, bmiText: string): seq<string> {
    [ "BMI: " + bmiText + " (" + Label(r.category) + ")",
      "BMR: " + IntToString(Trunc(r.bmr)) + " kcal/day",
      "TDEE: " + IntToString(r.tdee) + " kcal/day",
      "Calorie target: " + IntToString(r.calTarget) + " kcal/day",
      "" ]
  }

  /** One meal of the plan, written `<meal>: <suggestion>`. */
  function MealLine(meal: string, s: Suggestion): string {
    meal + ": " + Render(s)
  }

  /** The report as the list of its lines, top to bottom. */
  function ReportLines(i: Input, r: Results, plan: Plan, bmiText: string): (lines: seq<string>)
    ensures |lines| == 16
  {
    ["BMI Report"] + DetailsLines(i) + FiguresLines(r, bmiText) + ["Sample Meal Plan:"]
      + [ MealLine("Breakfast", plan.breakfast), MealLine("Lunch", plan.lunch),
          MealLine("Snack", plan.snack), MealLine("Dinner", plan.dinner) ]
  }

  /** The details chunk, formatted as one string. */
  function DetailsText(i: Input): string {
    "Age: " + IntToString(i.age) + "\nGender: " + i.gender
      + "\nHeight (cm): " + IntToString(i.heightCm) + "\nWeight (kg): " + IntToString(i.weightKg) + "\n\n"
  }

  /** The figures chunk, formatted as one string. */
  function FiguresText(r: Results, bmiText: string): string {
    "BMI: " + bmiText + " (" + Label(r.category) + ")\nBMR: " + IntToString(Trunc(r.bmr))
      + " kcal/day\nTDEE: " + IntToString(r.tdee) + " kcal/day\nCalorie target: " + IntToString(r.calTarget)
      + " kcal/day\n\n"
  }

  /**
   The report text. Each chunk is formatted first and then appended, in the
   order the page appends them.
   */
  function ReportText(i: Input, r: Results, plan: Plan, bmiText: string): string {
    var report := "BMI Report\n";
    var report := report + DetailsText(i);
    var report := report + FiguresText(r, bmiText);
    var report := report + "Sample Meal Plan:\n";
    var report := report + ("Breakfast: " + Render(plan.breakfast) + "\n");
    var report := report + ("Lunch: " + Render(plan.lunch) + "\n");
    var report := report + ("Snack: " + Render(plan.snack) + "\n");
    report + ("Dinner: " + Render(plan.dinner) + "\n")
  }

  /** Unlines of a list of five lines, unfolded. */
  lemma UnlinesFive(ls: seq<string>)
    requires |ls| == 5
    ensures Unlines(ls) == ls[0] + "\n" + (ls[1] + "\n" + (ls[2] + "\n" + (ls[3] + "\n" + (ls[4] + "\n"))))
  {
    UnlinesSingle(ls[4]);
    assert ls[4..] == [ls[4]];
    assert Unlines(ls[3..]) == ls[3] + "\n" + Unlines(ls[4..]);
    assert Unlines(ls[2..]) == ls[2] + "\n" + Unlines(ls[3..]);
    assert Unlines(ls[1..]) == ls[1] + "\n" + Unlines(ls[2..]);
  }

  /** The personal-details chunk is the lines from "Age" to the blank line after "Weight". */
  lemma DetailsChunk(age: string, gender: string, height: string, weight: string)
    ensures "Age: " + age + "\nGender: " + gender + "\nHeight (cm): " + height + "\nWeight (kg): " + weight + "\n\n"
         == Unlines(["Age: " + age, "Gender: " + gender, "Height (cm): " + height, "Weight (kg): " + weight, ""])
  {
    UnlinesFive(["Age: " + age, "Gender: " + gender, "Height (cm): " + height, "Weight (kg): " + weight, ""]);
    assert "\nGender: " == "\n" + "Gender: ";
    assert "\nHeight (cm): " == "\n" + "Height (cm): ";
    assert "\nWeight (kg): " == "\n" + "Weight (kg): ";
    assert "\n\n" == "\n" + ("" + "\n");
  }

  /**
   Five lines joined, written as one flat concatenation. The line break is a
   parameter so that the prover treats it as one opaque term rather than
   unfolding the literal at every occurrence.
   */
  lemma UnlinesFiveFlat(l0: string, l1: string, l2: string, l3: string, l4: string, nl: string)
    requires nl == "\n"
    ensures Unlines([l0, l1, l2, l3, l4]) == l0 + nl + l1 + nl + l2 + nl + l3 + nl + l4 + nl
  {
    UnlinesFive([l0, l1, l2, l3, l4]);
  }

  /**
   Regrouping of the figures chunk: each literal that holds a line break is
   the end of one line, the break, and the start of the next.
   */
  lemma FiguresRegrouped(bmiStart: string, close: string, bmrLabel: string, bmr: string, unit: string,
                         tdeeLabel: string, tdee: string, targetLabel: string, target: string, nl: string,
                         s1: string, s2: string, s3: string, s4: string)
    requires s1 == close + nl + bmrLabel
    requires s2 == unit + nl + tdeeLabel
    requires s3 == unit + nl + targetLabel
    requires s4 == unit + nl + nl
    ensures bmiStart + s1 + bmr + s2 + tdee + s3 + target + s4
         == (bmiStart + close) + nl + (bmrLabel + bmr + unit) + nl + (tdeeLabel + tdee + unit) + nl
          + (targetLabel + target + unit) + nl + "" + nl
  {
  }

  /** The figures chunk is the lines from "BMI" to the blank line after "Calorie target". */
  lemma FiguresChunk(bmiText: string, category: string, bmr: string, tdee: string, target: string)
    ensures "BMI: " + bmiText + " (" + category + ")\nBMR: " + bmr + " kcal/day\nTDEE: " + tdee
          + " kcal/day\nCalorie target: " + target + " kcal/day\n\n"
         == Unlines(["BMI: " + bmiText + " (" + category + ")", "BMR: " + bmr + " kcal/day",
              "TDEE: " + tdee + " kcal/day", "Calorie target: " + target + " kcal/day", ""])
  {
    var l0, l1 := "BMI: " + bmiText + " (" + category + ")", "BMR: " + bmr + " kcal/day";
    var l2, l3 := "TDEE: " + tdee + " kcal/day", "Calorie target: " + target + " kcal/day";
    UnlinesFiveFlat(l0, l1, l2, l3, "", "\n");
    FiguresRegrouped("BMI: " + bmiText + " (" + category, ")", "BMR: ", bmr, " kcal/day", "TDEE: ", tdee,
      "Calorie target: ", target, "\n",
      ")\nBMR: ", " kcal/day\nTDEE: ", " kcal/day\nCalorie target: ", " kcal/day\n\n");
  }

  /** Joining eight groups of lines is joining each group and appending the results. */
  lemma UnlinesEight(s1: seq<string>, s2: seq<string>, s3: seq<string>, s4: seq<string>,
                     s5: seq<string>, s6: seq<string>, s7: seq<string>, s8: seq<string>)
    ensures Unlines(s1 + s2 + s3 + s4 + s5 + s6 + s7 + s8)
         == Unlines(s1) + Unlines(s2) + Unlines(s3) + Unlines(s4)
          + Unlines(s5) + Unlines(s6) + Unlines(s7) + Unlines(s8)
  {
    UnlinesAppend(s1, s2);
    UnlinesAppend(s1 + s2, s3);
    UnlinesAppend(s1 + s2 + s3, s4);
    UnlinesAppend(s1 + s2 + s3 + s4, s5);
    UnlinesAppend(s1 + s2 + s3 + s4 + s5, s6);
    UnlinesAppend(s1 + s2 + s3 + s4 + s5 + s6, s7);
    UnlinesAppend(s1 + s2 + s3 + s4 + s5 + s6 + s7, s8);
  }

  /** A meal chunk as the page writes it is that meal's line ended by a line break. */
  lemma MealChunk(prefix: string, meal: string, s: Suggestion)
    requires prefix == meal + ": "
    ensures prefix + Render(s) + "\n" == Unlines([MealLine(meal, s)])
  {
    UnlinesSingle(MealLine(meal, s));
  }

  /** The appended chunks add up to the sixteen lines, each ended by a line break. */
  lemma ReportTextIsLines(i: Input, r: Results, plan: Plan, bmiText: string)
    ensures ReportText(i, r, plan, bmiText) == Unlines(ReportLines(i, r, plan, bmiText))
  {
    var s1, s2, s3, s4 := ["BMI Report"], DetailsLines(i), FiguresLines(r, bmiText), ["Sample Meal Plan:"];
    var s5, s6 := [MealLine("Breakfast", plan.breakfast)], [MealLine("Lunch", plan.lunch)];
    var s7, s8 := [MealLine("Snack", plan.snack)], [MealLine("Dinner", plan.dinner)];
    var t1, t2, t3, t4 := "BMI Report\n", DetailsText(i), FiguresText(r, bmiText), "Sample Meal Plan:\n";
    var t5, t6 := "Breakfast: " + Render(plan.breakfast) + "\n", "Lunch: " + Render(plan.lunch) + "\n";
    var t7, t8 := "Snack: " + Render(plan.snack) + "\n", "Dinner: " + Render(plan.dinner) + "\n";
    assert t1 == Unlines(s1) by {
      UnlinesSingle("BMI Report");
      assert "BMI Report\n" == "BMI Report" + "\n";
    }
    assert t2 == Unlines(s2) by {
      DetailsChunk(IntToString(i.age), i.gender, IntToString(i.heightCm), IntToString(i.weightKg));
    }
    assert t3 == Unlines(s3) by {
      FiguresChunk(bmiText, Label(r.category), IntToString(Trunc(r.bmr)), IntToString(r.tdee), IntToString(r.calTarget));
    }
    assert t4 == Unlines(s4) by {
      UnlinesSingle("Sample Meal Plan:");
      assert "Sample Meal Plan:\n" == "Sample Meal Plan:" + "\n";
    }
    assert t5 == Unlines(s5) by {
      assert "Breakfast: " == "Breakfast" + ": ";
      MealChunk("Breakfast: ", "Breakfast", plan.breakfast);
    }
    assert t6 == Unlines(s6) by {
      assert "Lunch: " == "Lunch" + ": ";
      MealChunk("Lunch: ", "Lunch", plan.lunch);
    }
    assert t7 == Unlines(s7) by {
      assert "Snack: " == "Snack" + ": ";
      MealChunk("Snack: ", "Snack", plan.snack);
    }
    assert t8 == Unlines(s8) by {
      assert "Dinner: " == "Dinner" + ": ";
      MealChunk("Dinner: ", "Dinner", plan.dinner);
    }
    assert ReportText(i, r, plan, bmiText) == t1 + t2 + t3 + t4 + t5 + t6 + t7 + t8;
    assert ReportLines(i, r, plan, bmiText) == s1 + s2 + s3 + s4 + s5 + s6 + s7 + s8;
    UnlinesEight(s1, s2, s3, s4, s5, s6, s7, s8);
  }

  /**
   The report of one submission: the figures and the plan are those the
   pipeline computes from the form's input.
   */
  function ReportFor(i: Input, bmiText: string): (text: string)
    requires i.heightCm != 0
    ensures text == Unlines(ReportLines(i, Compute(i), PlanFor(i), bmiText))
  {
    ReportTextIsLines(i, Compute(i), PlanFor(i), bmiText);
    ReportText(i, Compute(i), PlanFor(i), bmiText)
  }

  /** The meal names of the table, in row order. */
  const Meals: seq<Meal> := [Breakfast, Lunch, Snack, Dinner]

  function MealName(m: Meal): string {
    match m
    case Breakfast => "Breakfast"
    case Lunch => "Lunch"
    case Snack => "Snack"
    case Dinner => "Dinner"
  }

  function SuggestionFor(plan: Plan, m: Meal): Suggestion {
    match m
    case Breakfast => plan.breakfast
    case Lunch => plan.lunch
    case Snack => plan.snack
    case Dinner => plan.dinner
  }

  /** The rows `(meal, suggestion)` of the CSV export. */
  function MealTable(plan: Plan): (rows: seq<(string, string)>)
    ensures |rows| == 4
  {
    [ ("Breakfast", Render(plan.breakfast)),
      ("Lunch", Render(plan.lunch)),
      ("Snack", Render(plan.snack)),
      ("Dinner", Render(plan.dinner)) ]
  }

  /** Row k of the table names the k-th meal and holds that meal's suggestion. */
  lemma MealTableRows(plan: Plan, k: nat)
    requires k < 4
    ensures MealTable(plan)[k] == (MealName(Meals[k]), Render(SuggestionFor(plan, Meals[k])))
  {
  }

  /** The last four lines of the report are the table's rows, written `meal: suggestion`. */
  lemma ReportMealLinesMatchTable(i: Input, r: Results, plan: Plan, bmiText: string, k: nat)
    requires k < 4
    ensures ReportLines(i, r, plan, bmiText)[12 + k] == MealLine(MealTable(plan)[k].0, SuggestionFor(plan, Meals[k]))
    ensures MealLine(MealTable(plan)[k].0, SuggestionFor(plan, Meals[k])) == MealTable(plan)[k].0 + ": " + MealTable(plan)[k].1
  {
  }
}
