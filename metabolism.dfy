/** The calorie-target pipeline of NutriScale: basal metabolic rate, total daily energy
    expenditure and the daily calorie target. All quantities are exact reals. */
module Metabolism {

  /** Python's `str.lower` on one character, restricted to ASCII letters. */
  function LowerChar(c: char): char
  {
    if 'A' <= c <= 'Z' then (c as int + 32) as char else c
  }

  /** Python's `str.lower` on a whole string (ASCII letters only). */
  function Lower(s: string): (r: string)
    ensures |r| == |s|
    ensures forall i :: 0 <= i < |s| ==> r[i] == LowerChar(s[i])
    ensures forall i :: 0 <= i < |r| ==> !('A' <= r[i] <= 'Z') && SameLetter(s[i], r[i])
  {
    seq(|s|, i requires 0 <= i < |s| => LowerChar(s[i]))
  }

  /** `c` spells the lower-case letter `l` in either case. */
  predicate SameLetter(c: char, l: char)
  {
    c == l || c as int + 32 == l as int
  }

  /** Revised Harris-Benedict equation for men (Roza and Shizgal, 1984). Over the adult
      range (at least 30 kg, at least 100 cm, at most 120 years) it is positive. */
  function MaleBmr(weightKg: real, heightCm: real, age: int): (r: real)
    ensures 30.0 <= weightKg && 100.0 <= heightCm && 0 <= age <= 120 ==> r > 0.0
  {
    88.362 + 13.397 * weightKg + 4.799 * heightCm - 5.677 * (age as real)
  }

  /** Revised Harris-Benedict equation for women (Roza and Shizgal, 1984). Over the adult
      range it is positive, and it differs from the men's equation by a fixed intercept gap
      of 359.231 kcal and smaller per-kilogram, per-centimetre and per-year coefficients. */
  function FemaleBmr(weightKg: real, heightCm: real, age: int): (r: real)
    ensures 30.0 <= weightKg && 100.0 <= heightCm && 0 <= age <= 120 ==> r > 0.0
    ensures r == MaleBmr(weightKg, heightCm, age) + 359.231
                 - 4.15 * weightKg - 1.701 * heightCm + 1.347 * (age as real)
  {
    447.593 + 9.247 * weightKg + 3.098 * heightCm - 4.330 * (age as real)
  }

  /** `calculate_bmr`: the gender is compared after lower-casing; any gender other than
      "male" or "female" gets the mean of the two equations. */
  function Bmr(gender: string, weightKg: real, heightCm: real, age: int): (r: real)
    ensures Lower(gender) == "male" ==> r == MaleBmr(weightKg, heightCm, age)
    ensures Lower(gender) == "female" ==> r == FemaleBmr(weightKg, heightCm, age)
    ensures Lower(gender) != "male" && Lower(gender) != "female" ==>
              2.0 * r == MaleBmr(weightKg, heightCm, age) + FemaleBmr(weightKg, heightCm, age)
    ensures Lower(gender) != "male" && Lower(gender) != "female" ==>
              (MaleBmr(weightKg, heightCm, age) <= r <= FemaleBmr(weightKg, heightCm, age)) ||
              (FemaleBmr(weightKg, heightCm, age) <= r <= MaleBmr(weightKg, heightCm, age))
  {
    if Lower(gender) == "male" then
      MaleBmr(weightKg, heightCm, age)
    else if Lower(gender) == "female" then
      FemaleBmr(weightKg, heightCm, age)
    else
      var bmrMale := MaleBmr(weightKg, heightCm, age);
      var bmrFemale := FemaleBmr(weightKg, heightCm, age);
      (bmrMale + bmrFemale) / 2.0
  }

  /** Lower-casing `g` yields the lower-case word `w` exactly when `g` spells `w` letter by
      letter in any mix of cases: this is what the case-insensitive comparison accepts. */
  lemma {:induction false} LowerMatches(g: string, w: string)
    requires forall i :: 0 <= i < |w| ==> 'a' <= w[i] <= 'z'
    ensures Lower(g) == w <==> |g| == |w| && forall i :: 0 <= i < |g| ==> SameLetter(g[i], w[i])
  {
    if |g| == |w| && forall i :: 0 <= i < |g| ==> SameLetter(g[i], w[i]) {
      forall i | 0 <= i < |g|
        ensures Lower(g)[i] == w[i]
      {
        assert SameLetter(g[i], w[i]);
      }
    }
    if Lower(g) == w {
      forall i | 0 <= i < |g|
        ensures SameLetter(g[i], w[i])
      {
        assert LowerChar(g[i]) == w[i];
      }
    }
  }

  /** The gender chosen from the signup form ("Male", "Female") and its upper-case spelling
      select the same equation as the lower-case word. */
  lemma CapitalisedGenders(weightKg: real, heightCm: real, age: int)
    ensures Bmr("Male", weightKg, heightCm, age) == MaleBmr(weightKg, heightCm, age)
    ensures Bmr("MALE", weightKg, heightCm, age) == MaleBmr(weightKg, heightCm, age)
    ensures Bmr("Female", weightKg, heightCm, age) == FemaleBmr(weightKg, heightCm, age)
    ensures Bmr("FEMALE", weightKg, heightCm, age) == FemaleBmr(weightKg, heightCm, age)
  {
    LowerMatches("Male", "male");
    LowerMatches("MALE", "male");
    LowerMatches("Female", "female");
    LowerMatches("FEMALE", "female");
  }

  /** "Other" (the third signup choice) gets the mean of the two equations. */
  lemma OtherGenderIsMean(weightKg: real, heightCm: real, age: int)
    ensures 2.0 * Bmr("Other", weightKg, heightCm, age)
            == MaleBmr(weightKg, heightCm, age) + FemaleBmr(weightKg, heightCm, age)
  {
    LowerMatches("Other", "male");
    LowerMatches("Other", "female");
  }

  /** Two spellings that lower-case to the same string give the same BMR. */
  lemma BmrIgnoresCase(g1: string, g2: string, weightKg: real, heightCm: real, age: int)
    requires Lower(g1) == Lower(g2)
    ensures Bmr(g1, weightKg, heightCm, age) == Bmr(g2, weightKg, heightCm, age)
  {
  }

  /** For a fixed gender, a heavier person has a strictly higher BMR. */
  lemma BmrIncreasesWithWeight(gender: string, w1: real, w2: real, heightCm: real, age: int)
    requires w1 < w2
    ensures Bmr(gender, w1, heightCm, age) < Bmr(gender, w2, heightCm, age)
  {
  }

  /** For a fixed gender, a taller person has a strictly higher BMR. */
  lemma BmrIncreasesWithHeight(gender: string, weightKg: real, h1: real, h2: real, age: int)
    requires h1 < h2
    ensures Bmr(gender, weightKg, h1, age) < Bmr(gender, weightKg, h2, age)
  {
  }

  /** For a fixed gender, an older person has a strictly lower BMR. */
  lemma BmrDecreasesWithAge(gender: string, weightKg: real, heightCm: real, a1: int, a2: int)
    requires a1 < a2
    ensures Bmr(gender, weightKg, heightCm, a2) < Bmr(gender, weightKg, heightCm, a1)
  {
  }

  // The five labels of the signup form, each written as its level word and its description
  // (joined without change) so that proofs can read a label's first letter.
  const Sedentary := "Sedentary" + " (little or no exercise)"
  const LightlyActive := "Lightly active" + " (light exercise/sports 1-3 days/week)"
  const ModeratelyActive := "Moderately active" + " (moderate exercise/sports 3-5 days/week)"
  const VeryActive := "Very active" + " (hard exercise/sports 6-7 days a week)"
  const ExtraActive := "Extra active" + " (very hard exercise/sports & physical job)"

  /** The activity multipliers of `calculate_tdee`, keyed by the exact label of the signup form. */
  const Multipliers: map<string, real> :=
    map[Sedentary := 1.2, LightlyActive := 1.375, ModeratelyActive := 1.55,
        VeryActive := 1.725, ExtraActive := 1.9]

  /** `multipliers.get(activity_level, 1.2)`. */
  function ActivityFactor(level: string): (f: real)
    ensures 1.2 <= f <= 1.9
    ensures level !in Multipliers ==> f == 1.2
  {
    if level in Multipliers then Multipliers[level] else 1.2
  }

  /** `calculate_tdee`: BMR scaled by the activity multiplier; defined for every label. */
  function Tdee(bmr: real, level: string): (r: real)
    ensures bmr >= 0.0 ==> 1.2 * bmr <= r <= 1.9 * bmr
    ensures bmr < 0.0 ==> 1.9 * bmr <= r <= 1.2 * bmr
  {
    bmr * ActivityFactor(level)
  }

  /** The table of `calculate_tdee`, written out label by label: each of the five labels
      has its own factor and every other string falls back to the sedentary 1.2. */
  lemma TdeeByLabel(bmr: real, level: string)
    ensures Tdee(bmr, level) == bmr * (if level == Sedentary then 1.2
                                        else if level == LightlyActive then 1.375
                                        else if level == ModeratelyActive then 1.55
                                        else if level == VeryActive then 1.725
                                        else if level == ExtraActive then 1.9
                                        else 1.2)
  {
  }

  /** Python truthiness and case matter for the lookup: a label that is empty or does not start
      with an upper-case letter is not in the table, since every table label starts with one. */
  lemma UnknownLabelIsSedentary(bmr: real, level: string)
    requires |level| == 0 || !('A' <= level[0] <= 'Z')
    ensures Tdee(bmr, level) == bmr * 1.2
  {
    assert 'A' <= Sedentary[0] <= 'Z' && 'A' <= LightlyActive[0] <= 'Z';
    assert 'A' <= ModeratelyActive[0] <= 'Z' && 'A' <= VeryActive[0] <= 'Z';
    assert 'A' <= ExtraActive[0] <= 'Z';
  }

  /** The lower-cased form of any table label, such as "sedentary (little or no exercise)",
      falls back to the sedentary factor 1.2. */
  lemma LowerCasedLabelIsSedentary(bmr: real, entry: string)
    requires entry in Multipliers
    ensures Tdee(bmr, Lower(entry)) == bmr * 1.2
  {
    assert |entry| > 0 by {
      assert |Sedentary| > 0 && |LightlyActive| > 0 && |ModeratelyActive| > 0;
      assert |VeryActive| > 0 && |ExtraActive| > 0;
    }
    UnknownLabelIsSedentary(bmr, Lower(entry));
  }

  /** A more active label never lowers a non-negative TDEE. */
  lemma TdeeOrderedByActivity(bmr: real)
    requires bmr >= 0.0
    ensures Tdee(bmr, Sedentary) <= Tdee(bmr, LightlyActive) <= Tdee(bmr, ModeratelyActive)
            <= Tdee(bmr, VeryActive) <= Tdee(bmr, ExtraActive)
  {
  }

  /** `calculate_calorie_target`: 500 kcal below TDEE to lose weight, 500 above to gain it,
      TDEE itself to keep it. Exactly one of the three cases applies. */
  function CalorieTarget(tdee: real, currentWeight: real, targetWeight: real): (r: real)
    ensures r == tdee - 500.0 <==> targetWeight < currentWeight
    ensures r == tdee + 500.0 <==> targetWeight > currentWeight
    ensures r == tdee <==> targetWeight == currentWeight
  {
    if targetWeight < currentWeight then tdee - 500.0
    else if targetWeight > currentWeight then tdee + 500.0
    else tdee
  }

  /** No floor is applied: for any bound there is a weight-loss TDEE whose target is below it,
      including negative targets. */
  lemma CalorieTargetHasNoFloor(bound: real)
    ensures exists tdee: real :: CalorieTarget(tdee, 80.0, 70.0) < bound
    ensures CalorieTarget(0.0, 80.0, 70.0) == -500.0
  {
    var tdee := bound;
    assert CalorieTarget(tdee, 80.0, 70.0) < bound;
  }
}
