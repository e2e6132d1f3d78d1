# BMI Calculator & Diet Planner — a Dafny model of its calculations

The application is a single Streamlit page (`app.py`). A form collects age,
gender, height, weight, activity level and goal. On submission the page:

- computes the Body Mass Index and sorts it into one of four bands;
- estimates resting energy (BMR) with the Mifflin-St Jeor equation;
- multiplies the BMR by an activity factor and truncates it to get the total
  daily energy expenditure (TDEE);
- shifts the TDEE by a goal offset to get a daily calorie target;
- builds a sample meal plan. The plan splits the target 25/35/10/30 over
  breakfast, lunch, snack and dinner, shifts each share by an amount that
  depends on the band, and picks fixed advice and dish texts.

It then shows the figures and offers a text report and a CSV of the plan.

This project models those helpers and the pipeline that chains them as pure
Dafny functions, and proves properties of them:

- `numeric.dfy` (`Numeric`): Python's `int()` on a float, which truncates
  toward zero.
- `decimal.dfy` (`Decimal`): `f"{n}"` for an integer, with parsing as its
  inverse.
- `bmi.dfy` (`Bmi`): `calculate_bmi` and `bmi_category`.
- `energy.dfy` (`Energy`): `activity_factor`, `bmr_mifflin`, the TDEE line
  and `adjust_calorie_for_goal`.
- `meal_plan.dfy` (`MealPlan`): the kcal side of `sample_meal_plan`. Each
  dish is identified by its band and meal.
- `meal_text.dfy` (`MealText`): the fixed advice and dish texts, and how a
  suggestion is written out.
- `pipeline.dfy` (`Pipeline`): the five assignments run on submission, and
  bounds over the ranges the form allows.
- `report.dfy` (`Report`): the text report as appended chunks, and the rows
  of the CSV meal table.

Gender, activity level and goal stay strings, as in the source. The lookups
compare them exactly, and any string outside the tables gets the source's
default: activity factor 1.2, goal offset 0, the mean of the two BMR
equations for a gender other than "Male" or "Female". `sample_meal_plan`
also takes the category as text, so its `else` branch is reached by every
text other than the first three labels.

The source does not check the form's ranges in code: only the widgets bound
them. The model follows the code. `Pipeline.ValidInput` states the widget
ranges, and only the bound lemmas require it. The one condition the
calculation itself cannot survive is a zero height, which raises
`ZeroDivisionError` in Python. `Bmi.CalculateBmi` and `Pipeline.Compute`
require a non-zero height.

The TDEE and the calorie target are converted with `int()`, which
truncates toward zero; it is not a floor. The two differ only for negative
values, and a negative target is reachable within
the form's ranges: `Pipeline.LowestTargetIsNegative` exhibits -304 kcal, and
`Pipeline.NegativeTargetSharesRoundTowardZero` shows where truncation and
flooring of its shares part.

## Model

| member | source | states |
|---|---|---|
| Numeric.Trunc | app.py:134 | `int(x)` is the integer within one unit of `x` on the side toward zero: below or at `x` for `x >= 0`, above or at `x` for `x < 0` |
| Numeric.TruncUnique | app.py:134 | any integer meeting those two bounds is `int(x)`, so the bounds define truncation |
| Numeric.TruncOfInt | app.py:116-119 | `int()` of an integral value returns it unchanged, so the obese branch's `int(b-150)` and the others add nothing |
| Numeric.TruncTowardZero | app.py:91-94 | truncation keeps the sign of its argument and never increases its magnitude |
| Numeric.TruncOdd | app.py:91-94 | `int(-x) == -int(x)` for every real `x` |
| Numeric.TruncMonotone | app.py:134 | `x <= y` implies `int(x) <= int(y)` |
| Numeric.TruncAboveFloorWhenNegative | app.py:91-94 | on a negative non-integral value `int()` is one above the floor |
| Decimal.NatToString | app.py:98 | the decimal text of a natural number is non-empty and all digits, has no leading zero, and has one digit exactly when the number is below 10 |
| Decimal.IntToString | app.py:98 | the text of an integer starts with '-' exactly when it is negative and is otherwise digits |
| Decimal.NatToStringRoundTrip | app.py:98 | reading the digits back gives the natural number |
| Decimal.IntToStringRoundTrip | app.py:181 | parsing the text of any integer gives the integer back |
| Decimal.IntToStringInjective | app.py:181 | distinct integers have distinct texts |
| Bmi.Label | app.py:43-49 | definition: the four texts `bmi_category` returns; that they are distinct is `Bmi.LabelInjective` |
| Bmi.CalculateBmi | app.py:36-38 | BMI times the square of the height in metres is the weight; positive weight gives positive BMI; zero BMI exactly for zero weight |
| Bmi.BmiInCentimetres | app.py:36-38 | BMI times the square of the height in centimetres is 10000 times the weight |
| Bmi.BmiIncreasesWithWeight | app.py:36-38 | at a fixed height, a larger weight gives a strictly larger BMI |
| Bmi.BmiDecreasesWithHeight | app.py:36-38 | at a fixed positive weight, a larger height gives a strictly smaller BMI |
| Bmi.BmiOnOverweightThreshold | app.py:36-49 | 64 kg at 160 cm and 121 kg at 220 cm give a BMI of exactly 25, which falls into Overweight |
| Bmi.BmiCategory | app.py:41-49 | Underweight iff BMI < 18.5, Normal weight iff 18.5 <= BMI < 25, Overweight iff 25 <= BMI < 30, Obese iff BMI >= 30; each boundary falls into the higher band |
| Bmi.CategoryCountsThresholds | app.py:41-49 | the band's rank is the number of the thresholds 18.5, 25 and 30 that the BMI has reached |
| Bmi.CategoryMonotone | app.py:41-49 | a larger BMI never yields a lower-ranked band |
| Bmi.LabelInjective | app.py:43-49 | the four band texts are distinct |
| Energy.ActivityFactor | app.py:52-60 | the multiplier lies in [1.2, 1.9] and is 1.2 for any level not offered by the form |
| Energy.ActivityFactorTable | app.py:52-60 | the five levels get 1.2, 1.375, 1.55, 1.725 and 1.9; any other string gets 1.2 |
| Energy.ActivityFactorIncreasing | app.py:23-29 | a level listed later on the form has a strictly larger multiplier |
| Energy.GoalOffset | app.py:78-85 | the offset lies in [-500, 500] and is 0 for any goal not offered by the form |
| Energy.GoalOffsetTable | app.py:78-85 | the five goals get 0, -250, -500, +250 and +500; any other string gets 0 |
| Energy.BmrMifflin | app.py:63-73 | for integer inputs the BMR is a whole number of quarter kilocalories in every branch |
| Energy.BmrIsBasePlusConstant | app.py:63-73 | BMR is `10 w + 6.25 h - 5 a` plus +5 for "Male", -161 for "Female" and -78 for any other gender |
| Energy.BmrGenderGap | app.py:63-73 | Male minus Female is 166; any other gender is Male minus 83, strictly between the two |
| Energy.BmrSlopes | app.py:63-73 | in every branch BMR rises by 10 per kg and 6.25 per cm and falls by 5 per year |
| Energy.Tdee | app.py:134 | for a non-negative BMR, TDEE lies above 1.2 BMR - 1 and at most 1.9 BMR |
| Energy.TdeeAtLeastTruncatedBmr | app.py:134 | for a non-negative BMR, TDEE is at least `int(bmr)` |
| Energy.AdjustCalorieForGoal | app.py:76-85 | the target lies less than 501 kcal from the expenditure it starts from, and is `int(tdee)` for a goal not offered |
| Energy.AdjustIntegralTdee | app.py:134-135 | with the integral TDEE the pipeline passes, the target is exactly TDEE plus the goal's offset and differs from it by at most 500 |
| MealPlan.BasePortions | app.py:91-94 | definition: the 25/35/10/30 split, each share truncated; its properties are `MealPlan.BasePortionsInIntegers` and `MealPlan.BasePortionsBounds` |
| MealPlan.ShareIsIntegerDivision | app.py:91-94 | `int(t * p/100)` over the reals is the integer quotient of `p t` by 100, rounded toward zero |
| MealPlan.BasePortionsInIntegers | app.py:91-94 | the four shares are 25, 35, 10 and 30 percent of the target, each divided toward zero |
| MealPlan.BasePortionsBounds | app.py:91-94 | for a non-negative target each share is in [0, target] and their sum is in (target - 4, target]; for a negative target each share is in [target, 0] and the sum is in [target, target + 4) |
| MealPlan.SampleMealPlan | app.py:88-127 | each meal's kcal differs from its base share only by one of the deltas the four branches apply |
| MealPlan.PlanFollowsAdjustmentTable | app.py:96-119 | for each band's text the four kcal amounts are the base shares plus that band's row: +150/+200/+150/+150, 0, -100/-100/-50/-50, -150/-150/-50/-100 |
| MealPlan.OtherCategoryTextIsObese | app.py:114-119 | any category text other than the first three labels gets exactly the obesity plan |
| MealPlan.TextsIgnoreTarget | app.py:96-119 | the advice and the four dishes depend on the category only, not on the target |
| MealPlan.PlanShowsBand | app.py:96-119 | the plan for a band's text carries that band's advice and dishes |
| MealPlan.PlanDailyTotal | app.py:96-119 | over the day the plan adds 650 kcal, keeps the total, or removes 300 or 450 kcal, by band |
| MealText.NotesText | app.py:97-115 | definition: the advice text of each band; no property of its characters is proved |
| MealText.DishText | app.py:98-119 | definition: the dish text of each meal of each band; no property of its characters is proved |
| MealText.Render | app.py:98 | a suggestion's text starts with its dish and " (~" and ends with " kcal)" |
| MealText.RenderDeterminesKcal | app.py:98-119 | two texts of the same dish are equal only when their kcal amounts are equal, so the text shows the amount without loss |
| Pipeline.ValidInput | app.py:18-30 | definition: the ranges and choices the form's widgets allow; the precondition of the bound lemmas |
| Pipeline.Compute | app.py:131-135 | BMI, BMR and TDEE are `calculate_bmi`, `bmr_mifflin` and the TDEE line applied to the input; the band is the band of the computed BMI; the target is TDEE plus the goal's offset and within 500 of it; TDEE is within the activity bounds of BMR |
| Pipeline.PlanFor | app.py:168 | the plan's kcal amounts are the base shares of the computed target plus the computed band's row |
| Pipeline.BmrBounds | app.py:18-22 | over the form's ranges BMR lies in [164, 3355] |
| Pipeline.TdeeBounds | app.py:134 | a BMR in [164, 3355] gives a TDEE in [196, 6374] at every activity level |
| Pipeline.ResultBounds | app.py:131-135 | over the form's ranges BMI is positive, BMR is in [164, 3355], TDEE in [196, 6374] and the target in [-304, 6874] |
| Pipeline.PrintedBmrAtMostTdee | app.py:139 | over the form's ranges the printed `int(bmr)` never exceeds the printed TDEE |
| Pipeline.LowestTargetIsNegative | app.py:131-135 | age 120, Female, 100 cm, 30 kg, sedentary, weight loss is a valid input with TDEE 196 and target -304 |
| Pipeline.HighestTarget | app.py:131-135 | age 5, Male, 220 cm, 200 kg, extra active, weight gain is a valid input with TDEE 6374 and target 6874 |
| Pipeline.NegativeTargetSharesRoundTowardZero | app.py:91-94 | a target of -304 splits into -76, -106, -30 and -91, where flooring would give -107, -31 and -92 for the last three |
| Pipeline.WorkedExample | app.py:131-135 | 70 kg, 170 cm, 25 years: BMR 1642.5 (Male), 1476.5 (Female), 1559.5 (Other); Male, sedentary, mild loss gives TDEE 1971, target 1721, Normal weight |
| Report.ReportLines | app.py:179-186 | the report has sixteen lines |
| Report.ReportText | app.py:179-186 | definition: the `report +=` accumulation, chunk by chunk in source order; its layout is `Report.ReportTextIsLines` |
| Report.ReportFor | app.py:179-186 | the report of one submission, built from the input, the pipeline's results and its plan, is those sixteen lines, each ended by a line break |
| Report.ReportTextIsLines | app.py:179-186 | the text built by appending the eight chunks is exactly the sixteen report lines, each ended by a line break |
| Report.DetailsChunk | app.py:180 | the personal-details chunk is the four detail lines and a blank line |
| Report.FiguresChunk | app.py:181 | the figures chunk is the BMI, BMR, TDEE and target lines and a blank line |
| Report.MealChunk | app.py:183-186 | each meal chunk is that meal's `meal: suggestion` line ended by a line break |
| Report.MealTable | app.py:191-192 | the CSV table has four rows |
| Report.MealTableRows | app.py:191-192 | row k names the k-th meal in the order Breakfast, Lunch, Snack, Dinner and holds that meal's suggestion text |
| Report.ReportMealLinesMatchTable | app.py:183-192 | the report's last four lines are the table's rows, each written `meal: suggestion` |

## Left out

- The Streamlit page, the form and its widgets, and the on-screen output (app.py:10-32, 137-174, 197-199): user-interface calls only.
- The Plotly gauge (app.py:143-163): charting library calls only.
- The download buttons, the pandas `DataFrame`, `to_csv` and `io.StringIO` (app.py:188-195): CSV quoting and serialisation live in pandas. Only the table's rows are modelled (`Report.MealTable`).
- `{bmi:.2f}` (app.py:138, 181): Python's float formatting is not modelled. The report functions take the BMI's text as a parameter.
- IEEE-754 rounding: the model computes over exact reals, while Python computes in double precision. The differences reach the output:
  - BMI: `height_cm / 100.0` and `** 2` are inexact. At 64 kg/160 cm and 121 kg/220 cm the double expression gives 24.999999999999996, so the program shows "Normal weight", while the model's exact BMI is 25 and its band Overweight (`Bmi.BmiOnOverweightThreshold`). For those inputs the model's meal shifts (-100/-100/-50/-50 instead of 0) and the report's category text differ from the program's.
  - Lunch share: 0.35 is not a binary fraction, and `int(t * 0.35)` lands one closer to zero than the exact share for 71 targets within the form's range of [-304, 6874]: one below it for 70 positive targets (for example 180 gives 62, not 63; 1320 gives 461, not 462) and one above it for -180, which gives -62, not -63. The other three shares agree with the exact result over that range.
  - TDEE: BMR is a multiple of 0.25 for integer inputs and is exact; over the form's ranges `int(bmr * factor)` agrees with the exact truncation for all five multipliers.
- Range checks: the source has none in code; the widget bounds (app.py:18-22) appear only as `Pipeline.ValidInput`, the precondition of the bound lemmas.
- Non-integer or non-finite inputs: the widgets produce integers, so age, height and weight are `int`.
- Bmi.CalculateBmi: a zero height raises `ZeroDivisionError` in Python. The model requires a non-zero height instead of modelling the exception. A negative height is accepted, as in the source.
- MealText.NotesText and MealText.DishText: the advice and dish texts are carried as data. No property of their characters is proved. In particular, it is not proved that none holds a line break, which would be needed to split the report text back into its lines.
- Gender, activity level and goal are strings rather than enumerations, because the source compares strings and falls back to a default for any other string.
