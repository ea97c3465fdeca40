/** The input checks NutriScale performs before computing a profile's metrics
    (`save_profile`), before logging a meal (`log_meal`) and before logging a weight
    (`log_today_weight`). Numeric entries arrive already parsed: `None` is an entry that
    Python's `int()` or `float()` rejected with a `ValueError`. */
module Validation {
  import opened Outcomes
  import Metabolism

  /** What the signup screen hands to `save_profile`. */
  datatype SignupForm = SignupForm(
    username: string, password: string,
    name: string, age: Option<int>, gender: string,
    heightCm: Option<real>, currentWeightKg: Option<real>, targetWeightKg: Option<real>,
    activityLevel: string)

  /** An accepted profile, as it is inserted into the users table. */
  datatype Profile = Profile(
    username: string, password: string,
    name: string, age: int, gender: string,
    heightCm: real, currentWeightKg: real, targetWeightKg: real,
    activityLevel: string)

  /** The three `ValueError`s `save_profile` reports, in the order it raises them. */
  datatype SignupError = CredentialsRequired | NotANumber | DetailsRequired

  /** BMR, TDEE and calorie target stored with a new profile. */
  datatype Metrics = Metrics(bmr: real, tdee: real, calorieTarget: real)

  /** Every numeric entry parsed. */
  predicate Parsed(f: SignupForm)
  {
    f.age.Some? && f.heightCm.Some? && f.currentWeightKg.Some? && f.targetWeightKg.Some?
  }

  /** Python truthiness of every detail field: a non-empty string, a non-zero number. */
  predicate DetailsTruthy(f: SignupForm)
    requires Parsed(f)
  {
    f.name != "" && f.age.value != 0 && f.gender != "" && f.heightCm.value != 0.0 &&
    f.currentWeightKg.value != 0.0 && f.targetWeightKg.value != 0.0 && f.activityLevel != ""
  }

  /** The checks of `save_profile`: credentials first, then parsing, then `all([...])`
      over the detail fields. Only zero is falsy, so negative numbers pass. */
  function ValidateSignup(f: SignupForm): (r: Result<Profile, SignupError>)
    ensures r == Err(CredentialsRequired) <==> f.username == "" || f.password == ""
    ensures r == Err(NotANumber) <==> f.username != "" && f.password != "" && !Parsed(f)
    ensures r == Err(DetailsRequired) <==>
              f.username != "" && f.password != "" && Parsed(f) && !DetailsTruthy(f)
    ensures r.Ok? <==> f.username != "" && f.password != "" && Parsed(f) && DetailsTruthy(f)
    ensures r.Ok? ==>
              r.value == Profile(f.username, f.password, f.name, f.age.value, f.gender,
                                 f.heightCm.value, f.currentWeightKg.value,
                                 f.targetWeightKg.value, f.activityLevel)
  {
    if f.username == "" || f.password == "" then Err(CredentialsRequired)
    else if f.age.None? || f.heightCm.None? || f.currentWeightKg.None? || f.targetWeightKg.None? then
      Err(NotANumber)
    else if !DetailsTruthy(f) then Err(DetailsRequired)
    else
      Ok(Profile(f.username, f.password, f.name, f.age.value, f.gender, f.heightCm.value,
                 f.currentWeightKg.value, f.targetWeightKg.value, f.activityLevel))
  }

  /** The metrics step of `save_profile`: the current weight feeds both the BMR and the
      weight goal comparison. The target is the TDEE moved 500 kcal toward the goal, and for
      a non-negative BMR it lies within 500 kcal of the activity band [1.2, 1.9] x BMR. */
  function ProfileMetrics(p: Profile): (m: Metrics)
    ensures m.bmr == Metabolism.Bmr(p.gender, p.currentWeightKg, p.heightCm, p.age)
    ensures m.tdee == Metabolism.Tdee(m.bmr, p.activityLevel)
    ensures p.targetWeightKg < p.currentWeightKg ==> m.calorieTarget == m.tdee - 500.0
    ensures p.targetWeightKg > p.currentWeightKg ==> m.calorieTarget == m.tdee + 500.0
    ensures p.targetWeightKg == p.currentWeightKg ==> m.calorieTarget == m.tdee
    ensures m.bmr >= 0.0 ==> 1.2 * m.bmr <= m.tdee <= 1.9 * m.bmr
    ensures m.bmr >= 0.0 ==> 1.2 * m.bmr - 500.0 <= m.calorieTarget <= 1.9 * m.bmr + 500.0
  {
    var bmr := Metabolism.Bmr(p.gender, p.currentWeightKg, p.heightCm, p.age);
    var tdee := Metabolism.Tdee(bmr, p.activityLevel);
    Metrics(bmr, tdee, Metabolism.CalorieTarget(tdee, p.currentWeightKg, p.targetWeightKg))
  }

  /** `save_profile` up to the database insert: validate, then compute the metrics. What is
      handed to the insert is the validated profile, field for field as entered, with
      non-empty credentials and non-zero details, and its metrics are those of that profile. */
  function SaveProfile(f: SignupForm): (r: Result<(Profile, Metrics), SignupError>)
    ensures r.Ok? <==> ValidateSignup(f).Ok?
    ensures r.Err? ==> r.error == ValidateSignup(f).error
    ensures r.Ok? ==>
              var p := r.value.0;
              p.username != "" && p.password != "" && p.name != "" && p.gender != "" &&
              p.activityLevel != "" && p.age != 0 && p.heightCm != 0.0 &&
              p.currentWeightKg != 0.0 && p.targetWeightKg != 0.0
    ensures r.Ok? ==>
              Parsed(f) && r.value.0.age == f.age.value && r.value.0.heightCm == f.heightCm.value &&
              r.value.0.currentWeightKg == f.currentWeightKg.value &&
              r.value.0.targetWeightKg == f.targetWeightKg.value &&
              r.value.0.gender == f.gender && r.value.0.activityLevel == f.activityLevel
    ensures r.Ok? ==> r.value.0 == ValidateSignup(f).value
    ensures r.Ok? ==> r.value.1 == ProfileMetrics(r.value.0)
  {
    match ValidateSignup(f)
    case Err(e) => Err(e)
    case Ok(p) => Ok((p, ProfileMetrics(p)))
  }

  /** A saved profile's target is the TDEE moved by 500 kcal toward the weight goal. */
  lemma {:induction false} SavedTargetFollowsGoal(f: SignupForm)
    requires SaveProfile(f).Ok?
    ensures var m := SaveProfile(f).value.1;
            (f.targetWeightKg.value < f.currentWeightKg.value ==> m.calorieTarget == m.tdee - 500.0) &&
            (f.targetWeightKg.value > f.currentWeightKg.value ==> m.calorieTarget == m.tdee + 500.0) &&
            (f.targetWeightKg.value == f.currentWeightKg.value ==> m.calorieTarget == m.tdee)
  {
    var p := ValidateSignup(f).value;
    assert p.currentWeightKg == f.currentWeightKg.value && p.targetWeightKg == f.targetWeightKg.value;
  }

  /** Age 0 and a height or weight of 0.0 are rejected as missing details. */
  lemma ZeroDetailsRejected(f: SignupForm)
    requires f.username != "" && f.password != "" && Parsed(f)
    requires f.age.value == 0 || f.heightCm.value == 0.0 || f.currentWeightKg.value == 0.0 ||
             f.targetWeightKg.value == 0.0
    ensures ValidateSignup(f) == Err(DetailsRequired)
  {
  }

  /** Only zero is falsy: any form with negative age, height and weights passes the signup
      checks once its credentials and text fields are filled in. */
  lemma NegativeDetailsAccepted(f: SignupForm)
    requires f.username != "" && f.password != "" && Parsed(f)
    requires f.name != "" && f.gender != "" && f.activityLevel != ""
    requires f.age.value < 0 && f.heightCm.value < 0.0 && f.currentWeightKg.value < 0.0 &&
             f.targetWeightKg.value < 0.0
    ensures ValidateSignup(f).Ok?
  {
  }

  /** A meal log entry: the food's id and the logged quantity in grams. */
  datatype MealEntry = MealEntry(foodId: int, quantityGrams: real)

  /** The refusals of `log_meal`, in the order it checks them. */
  datatype MealError = InvalidQuantity | NoFoodSelected | FoodNotFound

  /** `log_meal` up to the insert: the quantity must parse and be positive, a food must be
      selected, and the name must match a row of the food table (`foodIds`, by exact name). */
  function ValidateMeal(foodName: string, quantity: Option<real>, foodIds: map<string, int>)
    : (r: Result<MealEntry, MealError>)
    ensures r == Err(InvalidQuantity) <==> quantity.None? || quantity.value <= 0.0
    ensures r == Err(NoFoodSelected) <==> quantity.Some? && quantity.value > 0.0 && foodName == ""
    ensures r == Err(FoodNotFound) <==>
              quantity.Some? && quantity.value > 0.0 && foodName != "" && foodName !in foodIds
    ensures r.Ok? ==> quantity.Some? && r.value == MealEntry(foodIds[foodName], quantity.value)
  {
    if quantity.None? || quantity.value <= 0.0 then Err(InvalidQuantity)
    else if foodName == "" then Err(NoFoodSelected)
    else if foodName !in foodIds then Err(FoodNotFound)
    else Ok(MealEntry(foodIds[foodName], quantity.value))
  }

  /** An accepted meal always has a positive quantity and a selected food. */
  lemma AcceptedMealIsPositive(foodName: string, quantity: Option<real>, foodIds: map<string, int>)
    requires ValidateMeal(foodName, quantity, foodIds).Ok?
    ensures ValidateMeal(foodName, quantity, foodIds).value.quantityGrams > 0.0
    ensures foodName != "" && foodName in foodIds
  {
  }

  /** The refusal of `log_today_weight`. */
  datatype WeightError = InvalidWeight

  /** `log_today_weight` up to the upsert: the weight must parse and be positive. */
  function ValidateWeight(weight: Option<real>): (r: Result<real, WeightError>)
    ensures r.Ok? <==> weight.Some? && weight.value > 0.0
    ensures r.Ok? ==> r.value == weight.value
  {
    if weight.None? || weight.value <= 0.0 then Err(InvalidWeight) else Ok(weight.value)
  }
}
