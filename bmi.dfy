/**
 Body Mass Index: the ratio of weight to the square of height, and the four
 bands the calculator sorts it into.
 */
module Bmi {

  /** The bands `bmi_category` returns, lowest first. */
  datatype Category = Underweight | NormalWeight | Overweight | Obese

  /** The text the calculator uses for each band. */
  function Label(c: Category): string {
    match c
    case Underweight => "Underweight"
    case NormalWeight => "Normal weight"
    case Overweight => "Overweight"
    case Obese => "Obese"
  }

  /** Position of a band in the order Underweight < Normal weight < Overweight < Obese. */
  function Rank(c: Category): nat {
    match c
    case Underweight => 0
    case NormalWeight => 1
    case Overweight => 2
    case Obese => 3
  }

  /**
   `calculate_bmi`: weight in kilograms over the square of the height in
   metres. Python raises on a zero height, so the caller must avoid it.
   */
  function CalculateBmi(weightKg: int, heightCm: int): (bmi: real)
    requires heightCm != 0
    ensures bmi * (heightCm as real / 100.0) * (heightCm as real / 100.0) == weightKg as real
    ensures weightKg > 0 ==> bmi > 0.0
    ensures weightKg == 0 <==> bmi == 0.0
  {
    var heightM := heightCm as real / 100.0;
    assert heightM * heightM > 0.0;
    weightKg as real / (heightM * heightM)
  }

  /** The same value computed in centimetres: 10000 times weight over height squared. */
  lemma BmiInCentimetres(weightKg: int, heightCm: int)
    requires heightCm != 0
    ensures CalculateBmi(weightKg, heightCm) * (heightCm * heightCm) as real == 10000.0 * weightKg as real
  {
    var bmi := CalculateBmi(weightKg, heightCm);
    var h := heightCm as real;
    calc {
      bmi * (heightCm * heightCm) as real;
      bmi * (h * h);
      10000.0 * (bmi * (h / 100.0) * (h / 100.0));
      10000.0 * weightKg as real;
    }
  }

  /** At a fixed height, a heavier person has a higher BMI. */
  lemma BmiIncreasesWithWeight(w1: int, w2: int, heightCm: int)
    requires heightCm != 0 && w1 < w2
    ensures CalculateBmi(w1, heightCm) < CalculateBmi(w2, heightCm)
  {
    var hm := heightCm as real / 100.0;
    var sq := hm * hm;
    assert sq > 0.0;
    var b1, b2 := CalculateBmi(w1, heightCm), CalculateBmi(w2, heightCm);
    assert (b2 - b1) * sq == (w2 - w1) as real;
  }

  /** At a fixed positive weight, a taller person has a lower BMI. */
  lemma BmiDecreasesWithHeight(weightKg: int, h1: int, h2: int)
    requires weightKg > 0 && 0 < h1 < h2
    ensures CalculateBmi(weightKg, h2) < CalculateBmi(weightKg, h1)
  {
    var b1, b2 := CalculateBmi(weightKg, h1), CalculateBmi(weightKg, h2);
    BmiInCentimetres(weightKg, h1);
    BmiInCentimetres(weightKg, h2);
    var s1, s2 := (h1 * h1) as real, (h2 * h2) as real;
    assert h1 * h1 < h2 * h2 by {
      assert h1 * h1 < h1 * h2 < h2 * h2;
    }
    assert b1 * s1 == b2 * s2;
    assert b2 * s1 < b2 * s2;
  }

  /**
   Two weights the form allows sit exactly on the Overweight threshold:
   64 kg at 160 cm and 121 kg at 220 cm give a BMI of exactly 25, which the
   bands place in Overweight.
   */
  lemma BmiOnOverweightThreshold()
    ensures CalculateBmi(64, 160) == 25.0 && CalculateBmi(121, 220) == 25.0
    ensures BmiCategory(CalculateBmi(64, 160)) == Overweight
  {
    BmiInCentimetres(64, 160);
    BmiInCentimetres(121, 220);
  }

  /**
   `bmi_category`: the bands are closed at their lower threshold, so 18.5,
   25 and 30 fall into the higher band.
   */
  function BmiCategory(bmi: real): (c: Category)
    ensures c == Underweight <==> bmi < 18.5
    ensures c == NormalWeight <==> 18.5 <= bmi < 25.0
    ensures c == Overweight <==> 25.0 <= bmi < 30.0
    ensures c == Obese <==> 30.0 <= bmi
  {
    if bmi < 18.5 then Underweight
    else if 18.5 <= bmi < 25.0 then NormalWeight
    else if 25.0 <= bmi < 30.0 then Overweight
    else Obese
  }

  /** The lower thresholds of the bands above Underweight, in increasing order. */
  const Thresholds: seq<real> := [18.5, 25.0, 30.0]

  /** How many of the thresholds `ts` a value has reached. */
  function ThresholdsReached(ts: seq<real>, bmi: real): (k: nat)
    ensures k <= |ts|
  {
    if ts == [] then 0
    else (if ts[0] <= bmi then 1 else 0) + ThresholdsReached(ts[1..], bmi)
  }

  /** Reaching a threshold never stops as the value grows. */
  lemma {:induction false} ThresholdsReachedMonotone(ts: seq<real>, a: real, b: real)
    requires a <= b
    ensures ThresholdsReached(ts, a) <= ThresholdsReached(ts, b)
  {
    if ts != [] {
      ThresholdsReachedMonotone(ts[1..], a, b);
    }
  }

  /** The band's rank is the number of thresholds the value has reached. */
  lemma CategoryCountsThresholds(bmi: real)
    ensures Rank(BmiCategory(bmi)) == ThresholdsReached(Thresholds, bmi)
  {
    var t1, t2 := [25.0, 30.0], [30.0];
    assert Thresholds[1..] == t1 && t1[1..] == t2 && t2[1..] == [];
    assert ThresholdsReached(t2, bmi) == if 30.0 <= bmi then 1 else 0;
    assert ThresholdsReached(t1, bmi) == (if 25.0 <= bmi then 1 else 0) + ThresholdsReached(t2, bmi);
  }

  /** A larger BMI never yields a lower band. */
  lemma CategoryMonotone(a: real, b: real)
    requires a <= b
    ensures Rank(BmiCategory(a)) <= Rank(BmiCategory(b))
  {
    CategoryCountsThresholds(a);
    CategoryCountsThresholds(b);
    ThresholdsReachedMonotone(Thresholds, a, b);
  }

  /** The band labels are pairwise distinct, so the label identifies the band. */
  lemma LabelInjective(c: Category, d: Category)
    requires Label(c) == Label(d)
    ensures c == d
  {
  }
}
