/** The state NutriScale's main window keeps for the signed-in user, and the two screens'
    computations that read or write it: today's log table (`refresh_log_tree`) and the
    food suggestions (`get_food_recommendations`). Widgets and database calls are left out;
    the rows the database returns are parameters, `None` standing for an `sqlite3.Error`. */
module App {
  import opened Outcomes
  import opened Suggestions
  import opened DailyLog

  /** What `get_food_recommendations` writes into the suggestion box. */
  datatype Recommendation =
    | CalorieTargetMet
    | NoFoodAvailable(kind: Kind, size: real)
    | QueryFailed(kind: Kind, size: real)
    | Ideas(kind: Kind, size: real, ideas: seq<Idea>)

  /** The rows a fetch delivered; a failed fetch delivers none. */
  function Delivered<T>(fetched: Option<seq<T>>): seq<T>
  {
    if fetched.Some? then fetched.value else []
  }

  /** Logging the suggested grams of a suggested food adds to today's log exactly the
      suggested kcal and the suggested protein. */
  lemma LoggedSuggestionMatchesIdea(size: real, food: FoodRow, carbsPer100g: real, fatsPer100g: real)
    requires food.calPer100g != 0.0
    ensures var idea := IdeaFor(size, food);
            var logged := Scaled(LogRow(food.name, idea.grams, food.calPer100g,
                                        food.proteinPer100g, carbsPer100g, fatsPer100g));
            logged.cal == idea.kcal == size && logged.protein == idea.protein
  {
    assert ScalesBack(size, food, IdeaFor(size, food));
  }

  class NutriScaleApp {
    /** The signed-in user's daily calorie target, as stored with the profile. */
    var calorieTarget: real
    /** Calories logged today, as last totalled by `RefreshLogTree`. */
    var todayTotalCal: real

    constructor ()
      ensures calorieTarget == 0.0 && todayTotalCal == 0.0
    {
      calorieTarget := 0.0;
      todayTotalCal := 0.0;
    }

    /** `login_user` after the credential lookup: a found user's stored target becomes the
        current target and the main dashboard opens, which resets and then re-totals today's
        log. A missing user changes nothing. */
    method SignIn(storedTarget: Option<real>, fetched: Option<seq<LogRow>>) returns (lines: seq<Line>)
      modifies this
      ensures storedTarget.None? ==> lines == [] && calorieTarget == old(calorieTarget) &&
                                     todayTotalCal == old(todayTotalCal)
      ensures storedTarget.Some? ==> calorieTarget == storedTarget.value &&
                                     todayTotalCal == Total(Delivered(fetched)).cal &&
                                     lines == RefreshedLines(Delivered(fetched))
    {
      lines := [];
      if storedTarget.Some? {
        calorieTarget := storedTarget.value;
        lines := ShowClientDashboard(fetched);
      }
    }

    /** `show_client_dashboard`: today's total restarts at zero and the log is re-totalled. */
    method ShowClientDashboard(fetched: Option<seq<LogRow>>) returns (lines: seq<Line>)
      modifies this
      ensures calorieTarget == old(calorieTarget)
      ensures todayTotalCal == Total(Delivered(fetched)).cal
      ensures lines == RefreshedLines(Delivered(fetched))
    {
      todayTotalCal := 0.0;
      lines := RefreshLogTree(fetched);
    }

    /** The table `refresh_log_tree` shows: one line per row, then the TOTAL line when the
        calorie total is positive. The TOTAL line adds up exactly the lines above it. */
    static function RefreshedLines(rows: seq<LogRow>): (r: seq<Line>)
      ensures |r| == |rows| + (if Total(rows).cal > 0.0 then 1 else 0)
      ensures forall i :: 0 <= i < |rows| ==> r[i] == EntryFor(rows[i])
      ensures |r| > |rows| ==> r[|rows|] == TotalLine(SumOfLines(r[..|rows|]))
    {
      EntriesSumToTotal(rows);
      assert (Entries(rows) + [TotalLine(Total(rows))])[..|rows|] == Entries(rows);
      Entries(rows) + (if Total(rows).cal > 0.0 then [TotalLine(Total(rows))] else [])
    }

    /** `refresh_log_tree`: four running totals start at zero and take each row's scaled
        values; the calorie total becomes today's total. A failed fetch leaves them zero. */
    method RefreshLogTree(fetched: Option<seq<LogRow>>) returns (lines: seq<Line>)
      modifies this
      ensures calorieTarget == old(calorieTarget)
      ensures todayTotalCal == Total(Delivered(fetched)).cal
      ensures lines == RefreshedLines(Delivered(fetched))
    {
      var totalCal, totalPro, totalCarb, totalFat := 0.0, 0.0, 0.0, 0.0;
      lines := [];
      var rows := Delivered(fetched);
      var i := 0;
      while i < |rows|
        invariant 0 <= i <= |rows|
        invariant Nutrients(totalCal, totalPro, totalCarb, totalFat) == Total(rows[..i])
        invariant lines == Entries(rows[..i])
      {
        assert rows[..i + 1][..i] == rows[..i];
        var amounts := Scaled(rows[i]);
        lines := lines + [Entry(rows[i].name, rows[i].quantityGrams, amounts)];
        totalCal := totalCal + amounts.cal;
        totalPro := totalPro + amounts.protein;
        totalCarb := totalCarb + amounts.carbs;
        totalFat := totalFat + amounts.fats;
        i := i + 1;
      }
      assert rows[..i] == rows;
      todayTotalCal := totalCal;
      if totalCal > 0.0 {
        lines := lines + [TotalLine(Nutrients(totalCal, totalPro, totalCarb, totalFat))];
      }
    }

    /** `get_food_recommendations`: size a meal or snack from the calories still open, then
        suggest grams of each fetched food, skipping foods with no energy. `drawn` is the
        value `random.randint` returned for the band the remainder falls in. */
    method GetFoodRecommendations(drawn: int, fetched: Option<seq<FoodRow>>) returns (rec: Recommendation)
      requires calorieTarget - todayTotalCal > 500.0 ==> 350 <= drawn <= 500
      requires 200.0 < calorieTarget - todayTotalCal <= 500.0 ==> 150 <= drawn <= 250
      ensures rec.CalorieTargetMet? <==> calorieTarget - todayTotalCal <= 0.0
      ensures !rec.CalorieTargetMet? ==>
                SizeSuggestion(calorieTarget - todayTotalCal, drawn) == Suggest(rec.kind, rec.size)
      ensures !rec.CalorieTargetMet? ==>
                (rec.QueryFailed? <==> fetched.None?) &&
                (rec.NoFoodAvailable? <==> fetched == Some([])) &&
                (rec.Ideas? ==> rec.ideas == IdeasFor(rec.size, fetched.value))
    {
      var remaining := calorieTarget - todayTotalCal;
      var sizing := SizeSuggestion(remaining, drawn);
      if sizing.TargetMet? {
        return CalorieTargetMet;
      }
      var kind, size := sizing.kind, sizing.size;
      if fetched.None? {
        return QueryFailed(kind, size);
      }
      var foods := fetched.value;
      if foods == [] {
        return NoFoodAvailable(kind, size);
      }
      var ideas: seq<Idea> := [];
      var i := 0;
      while i < |foods|
        invariant 0 <= i <= |foods|
        invariant ideas == IdeasFor(size, foods[..i])
      {
        var food := foods[i];
        assert foods[..i + 1][..i] == foods[..i] && foods[..i + 1][i] == food;
        i := i + 1;
        if food.calPer100g == 0.0 {
          assert IdeasFor(size, foods[..i]) == IdeasFor(size, foods[..i - 1]);
          assert ideas == IdeasFor(size, foods[..i]);
          continue;
        }
        var suggestedQty := SuggestedGrams(size, food.calPer100g);
        var suggestedPro := (food.proteinPer100g / 100.0) * suggestedQty;
        ideas := ideas + [Idea(food.name, suggestedQty, size, suggestedPro)];
        assert IdeasFor(size, foods[..i]) == IdeasFor(size, foods[..i - 1]) + [IdeaFor(size, food)];
        assert IdeaFor(size, food) == Idea(food.name, suggestedQty, size, suggestedPro);
        assert ideas == IdeasFor(size, foods[..i]);
      }
      assert foods[..i] == foods;
      rec := Ideas(kind, size, ideas);
    }
  }
}
