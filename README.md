# NutriScale nutrition arithmetic in Dafny

NutriScale is a desktop nutrition tracker. A user signs up with a profile, and the app
computes and stores a daily calorie target. The user then logs meals, sees today's totals,
and asks for meal or snack suggestions sized to the calories still open. This project models
the arithmetic and the checks behind those screens, over exact reals:

- `Metabolism`: the calorie-target pipeline. The BMR uses the revised Harris-Benedict
  equation (Roza and Shizgal, 1984), with the gender compared after lower-casing and the mean
  of both equations for any other gender. The TDEE is the BMR times one of five activity
  factors, with 1.2 for an unknown label. The target is the TDEE minus 500, plus 500 or
  unchanged, depending on the weight goal.
- `Validation`: the input checks of signing up, logging a meal and logging a weight, with
  each refusal as an error value.
- `Suggestions`: the meal or snack size rule, and the grams of each suggested food.
- `DailyLog`: scaling each logged row from per-100 g values, and summing the day.
- `App`: the class `NutriScaleApp` with the two fields the screens share, `calorieTarget`
  and `todayTotalCal`. It holds the log-totalling loop and the suggestion loop, both proved
  against the specification functions above.

The program's random draws and database reads are parameters. `drawn` is the value
`random.randint` returned. The fetched food and log rows are sequences, and `None` stands for
a query that raised `sqlite3.Error` once the connection was open. An entry that `int()` or
`float()` could not parse is `None`.

The repository's command-line front end (`nutriscale_full.py`) computes these numbers
differently. It uses the Mifflin-St Jeor equation, rounds BMR and TDEE, floors the target at
1000 kcal, and adds a macro split, a BMI and a backtracking recommender. This model follows
`nutriscale_app.py`: Harris-Benedict, no rounding, no floor (`CalorieTargetHasNoFloor`).

## Model

| member | source | states |
|---|---|---|
| Metabolism.Lower | nutriscale_app.py:17 | `gender.lower()` on ASCII: same length, no upper-case letter left, and each character is the same letter as the input's |
| Metabolism.MaleBmr | nutriscale_app.py:18 | the men's equation; positive for any adult of at least 30 kg, at least 100 cm and at most 120 years |
| Metabolism.FemaleBmr | nutriscale_app.py:20 | the women's equation; positive over the same adult range, and equal to the men's plus 359.231 minus 4.15 per kg and 1.701 per cm, plus 1.347 per year |
| Metabolism.Bmr | nutriscale_app.py:16-25 | lower-case "male" gives the male equation and "female" the female one; any other gender gives the mean, which lies between the two |
| Metabolism.LowerMatches | nutriscale_app.py:17-19 | a gender lower-cases to a lower-case word exactly when it spells that word letter by letter in any mix of cases |
| Metabolism.CapitalisedGenders | nutriscale_app.py:17-20 | "Male"/"MALE" select the male equation and "Female"/"FEMALE" the female one |
| Metabolism.OtherGenderIsMean | nutriscale_app.py:21-24 | "Other" gets the mean of the male and female equations |
| Metabolism.BmrIgnoresCase | nutriscale_app.py:17-24 | genders that lower-case alike give the same BMR |
| Metabolism.BmrIncreasesWithWeight | nutriscale_app.py:18-24 | for a fixed gender the BMR strictly increases with weight |
| Metabolism.BmrIncreasesWithHeight | nutriscale_app.py:18-24 | for a fixed gender the BMR strictly increases with height |
| Metabolism.BmrDecreasesWithAge | nutriscale_app.py:18-24 | for a fixed gender the BMR strictly decreases with age |
| Metabolism.ActivityFactor | nutriscale_app.py:28-35 | the factor lies in [1.2, 1.9] and is 1.2 for any label outside the table |
| Metabolism.Tdee | nutriscale_app.py:27-35 | TDEE lies between 1.2 and 1.9 times the BMR, for every label; no label fails |
| Metabolism.TdeeByLabel | nutriscale_app.py:28-35 | each of the five labels gets 1.2, 1.375, 1.55, 1.725 or 1.9, and every other string gets 1.2 |
| Metabolism.UnknownLabelIsSedentary | nutriscale_app.py:28-35 | any label that is empty or does not start with an upper-case letter (such as "sedentary") is outside the table and gets the factor 1.2 |
| Metabolism.LowerCasedLabelIsSedentary | nutriscale_app.py:28-35 | the lower-cased form of every table label misses the exact-match lookup and gets the factor 1.2 |
| Metabolism.TdeeOrderedByActivity | nutriscale_app.py:28-34 | for a non-negative BMR a more active label never gives a lower TDEE |
| Metabolism.CalorieTarget | nutriscale_app.py:37-40 | the target is TDEE-500 iff the goal is below the current weight, TDEE+500 iff above, TDEE iff equal |
| Metabolism.CalorieTargetHasNoFloor | nutriscale_app.py:37-40 | no floor is applied: a target can be below any bound, and is -500 for a zero TDEE with a loss goal |
| Validation.ValidateSignup | nutriscale_app.py:214-231 | empty username or password is refused first, then an unparsable number, then any falsy detail; otherwise the profile carries the entered values |
| Validation.ZeroDetailsRejected | nutriscale_app.py:230-231 | age 0 or a height or weight of 0.0 is refused as a missing detail |
| Validation.NegativeDetailsAccepted | nutriscale_app.py:230-231 | only zero is falsy: every form with filled-in credentials and text fields and negative age, height and weights is accepted |
| Validation.ProfileMetrics | nutriscale_app.py:237-240 | the BMR uses the current weight and the TDEE the profile's activity label; the target is TDEE-500, TDEE+500 or TDEE as the goal is below, above or equal to that weight; for a non-negative BMR the TDEE lies in [1.2, 1.9] x BMR and the target within 500 kcal of that band |
| Validation.SaveProfile | nutriscale_app.py:212-253 | a profile is accepted for insert iff it validates, and a refusal keeps its error; what is inserted is exactly the entered username, password, name, numbers, gender and activity label, with non-empty credentials and text fields and non-zero age, height and weights, and the metrics of that profile |
| Validation.SavedTargetFollowsGoal | nutriscale_app.py:237-240 | a saved target is the TDEE minus 500, plus 500 or unchanged, as the entered goal is below, above or equal to the current weight |
| Validation.ValidateMeal | nutriscale_app.py:358-376 | a quantity that does not parse or is <= 0 is refused first, then an empty food name, then a name not in the food table; otherwise the entry holds the food's id and the quantity |
| Validation.AcceptedMealIsPositive | nutriscale_app.py:360-368 | an accepted meal has a positive quantity and a selected, known food |
| Validation.ValidateWeight | nutriscale_app.py:479-484 | a weight is accepted iff it parses and is > 0, and is then logged unchanged |
| Suggestions.SizeSuggestion | nutriscale_app.py:425-433 | target met iff remaining <= 0; a Meal iff remaining > 500, sized in [350, 500]; a Snack in [150, 250] for (200, 500]; above 200 the size is the drawn `randint` value; otherwise a Snack of exactly the remainder; every size is positive and below remaining + 50 |
| Suggestions.SnackMayOvershoot | nutriscale_app.py:430-431 | a middle-band snack can exceed the calories still open |
| Suggestions.SuggestedGramsScaleBack | nutriscale_app.py:444 | the grams carry back exactly the size: grams x kcal per 100 g / 100 = size |
| Suggestions.SuggestedGrams | nutriscale_app.py:444 | `(size / cal) * 100`; a positive size of a positive-energy food gives positive grams |
| Suggestions.Served | nutriscale_app.py:442-443 | the foods kept by the loop have non-zero energy and are no more than the fetched foods |
| Suggestions.ServedIsNonZeroFoods | nutriscale_app.py:442-443 | a fetched food is kept iff its kcal per 100 g is non-zero |
| Suggestions.IdeaFor | nutriscale_app.py:444-445 | one food's suggestion line: its name, the full size in kcal, grams that carry the size back, and the protein of those grams |
| Suggestions.IdeasFor | nutriscale_app.py:442-447 | the lines the loop prints: no more than the fetched foods, each of the suggested size in kcal |
| Suggestions.IdeasFollowServed | nutriscale_app.py:442-447 | the loop produces one idea per kept food, in order, and each is the idea for that food |
| Suggestions.QueryRowsAllServed | nutriscale_app.py:438-443 | on rows of the `BETWEEN 50 AND 400` query the zero-energy skip never fires, so every fetched food is served |
| Suggestions.IdeasScaleBack | nutriscale_app.py:442-447 | every idea names its kept food, carries the full size in kcal, its grams scale back to that size, and its protein is the protein per 100 g times grams / 100 |
| DailyLog.Scaled | nutriscale_app.py:399-402 | 100 g of a food carries its per-100 g values; non-negative inputs give non-negative calories |
| DailyLog.Total | nutriscale_app.py:392-410 | the four running totals after the loop: zero for an empty day, the row's own scaled values for a one-row day |
| DailyLog.TotalAppend | nutriscale_app.py:407-410 | the running totals are additive over concatenated rows |
| DailyLog.TotalPositiveIffSomeCalories | nutriscale_app.py:407-420 | with no negative inputs, the calorie total is non-negative, and it is positive (the TOTAL row appears) iff some row carries calories |
| DailyLog.EntriesSumToTotal | nutriscale_app.py:407-410 | the amounts of the table's entry lines add up to the running totals |
| App.LoggedSuggestionMatchesIdea | nutriscale_app.py:399-402 | logging the suggested grams of a suggested food adds exactly the suggested kcal and protein |
| App.NutriScaleApp.constructor | nutriscale_app.py:53-57 | the calorie target and today's total start at zero |
| App.NutriScaleApp.SignIn | nutriscale_app.py:135-143 | a found user's stored target becomes the current target, today's total is re-totalled and the dashboard's log table is shown; a missing user changes nothing and shows no table |
| App.NutriScaleApp.RefreshedLines | nutriscale_app.py:407-420 | the log table: one entry line per row, in order, then the TOTAL line iff the calorie total is positive, and that line adds up exactly the entry lines |
| App.NutriScaleApp.ShowClientDashboard | nutriscale_app.py:284-342 | today's total is reset and then re-totalled from the fetched log; the target is unchanged |
| App.NutriScaleApp.RefreshLogTree | nutriscale_app.py:389-421 | today's total becomes the sum of the rows' scaled calories (zero when the query fails); the table is one line per row plus the TOTAL line iff the calorie total is positive; the target is unchanged |
| App.NutriScaleApp.GetFoodRecommendations | nutriscale_app.py:423-451 | target met iff nothing remains; otherwise the kind and size follow SizeSuggestion, a failed query and an empty result are reported, and the ideas are IdeasFor the fetched foods |

## Left out

- Widgets, screen switching, message boxes and the exact wording of messages are user interface. The number formatting (`:.0f`, `:.1f`) is left out too.
- When `sqlite3.connect` itself raises, no connection is bound, and the `finally` clause's `if conn:` then raises as well. `refresh_log_tree` and `get_food_recommendations` end there without writing today's total. This path is not modelled. `None` stands only for a failed query.
- The recommendation query returns at most three foods (`LIMIT 3`). The model accepts any number of fetched foods.
- Inserting an accepted profile can still fail, on a taken username (`sqlite3.IntegrityError`) or another database error. `Validation.SaveProfile` stops before the insert.
- Every database call is left out: the login lookup, the inserts, the upserts and the food and log queries. Their results are parameters. `Validation.ValidateMeal` receives the food table as a name-to-id map.
- `random.randint` and `ORDER BY RANDOM() LIMIT 3` are left out. The drawn size and the chosen foods are parameters. The draw's range is a precondition.
- Parsing by `int()` and `float()` is left out. Only its outcome is modelled: a value or a `ValueError`.
- Metabolism.Lower: lower-cases ASCII letters only. Python's `str.lower` also maps non-ASCII letters.
- IEEE-754 behaviour is left out: all quantities are exact reals. This includes rounding, infinities and `float('nan')`, which Python treats as truthy.
- The charts of the progress dashboard are rendering and date parsing, so they are left out.
- `admin_app.py` is a GUI over SQLite; it is not part of this model.
- `database_setup.py` is schema and seed data; it is not part of this model. SQLite enforces its uniqueness rules. Its foreign keys are only declared, since no connection turns on `PRAGMA foreign_keys`.
- After a successful meal log, `log_meal` calls `refresh_log_tree`. That call is `App.NutriScaleApp.RefreshLogTree` with the re-fetched rows. The insert between them is left out.
