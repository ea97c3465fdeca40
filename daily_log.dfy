/** The nutrient arithmetic of today's meal log (`refresh_log_tree`): each logged row is
    scaled from per-100 g values to its quantity, and the rows are summed. */
module DailyLog {

  /** A joined meal-log row: food name, grams eaten and the food's values per 100 g. */
  datatype LogRow = LogRow(name: string, quantityGrams: real,
                           calPer100g: real, proteinPer100g: real,
                           carbsPer100g: real, fatsPer100g: real)

  /** Calories, protein, carbohydrate and fat of a row or of a day. */
  datatype Nutrients = Nutrients(cal: real, protein: real, carbs: real, fats: real)
  {
    function Plus(other: Nutrients): Nutrients
    {
      Nutrients(cal + other.cal, protein + other.protein, carbs + other.carbs, fats + other.fats)
    }
  }

  const Zero := Nutrients(0.0, 0.0, 0.0, 0.0)

  /** The SQL expressions `value_per_100g * quantity_grams / 100` of the log query. */
  function Scaled(row: LogRow): (n: Nutrients)
    ensures row.quantityGrams == 100.0 ==>
              n == Nutrients(row.calPer100g, row.proteinPer100g, row.carbsPer100g, row.fatsPer100g)
    ensures row.quantityGrams >= 0.0 && row.calPer100g >= 0.0 ==> n.cal >= 0.0
  {
    Nutrients(row.calPer100g * row.quantityGrams / 100.0,
              row.proteinPer100g * row.quantityGrams / 100.0,
              row.carbsPer100g * row.quantityGrams / 100.0,
              row.fatsPer100g * row.quantityGrams / 100.0)
  }

  /** The day's totals: the scaled rows added up, first row first. An empty day totals zero
      and a one-row day totals that row's scaled values. */
  function Total(rows: seq<LogRow>): (t: Nutrients)
    ensures rows == [] ==> t == Zero
    ensures |rows| == 1 ==> t == Scaled(rows[0])
  {
    if rows == [] then Zero else Total(rows[..|rows| - 1]).Plus(Scaled(rows[|rows| - 1]))
  }

  /** A line of the log table: a food row, or the bold TOTAL row. */
  datatype Line = Entry(name: string, quantityGrams: real, amounts: Nutrients) | TotalLine(amounts: Nutrients)

  /** The table line shown for one row. */
  function EntryFor(row: LogRow): Line
  {
    Entry(row.name, row.quantityGrams, Scaled(row))
  }

  /** Adding nutrient amounts is associative. */
  lemma PlusAssociative(x: Nutrients, y: Nutrients, z: Nutrients)
    ensures x.Plus(y).Plus(z) == x.Plus(y.Plus(z))
  {
  }

  /** The table lines shown for the rows, one per row, in order. */
  function Entries(rows: seq<LogRow>): (r: seq<Line>)
    ensures |r| == |rows|
    ensures forall i :: 0 <= i < |rows| ==> r[i] == EntryFor(rows[i])
  {
    seq(|rows|, i requires 0 <= i < |rows| => EntryFor(rows[i]))
  }

  /** The amounts of table lines added up, first line first. */
  function SumOfLines(lines: seq<Line>): Nutrients
  {
    if lines == [] then Zero else SumOfLines(lines[..|lines| - 1]).Plus(lines[|lines| - 1].amounts)
  }

  /** The entry lines of a log add up to the log's totals. */
  lemma {:induction false} EntriesSumToTotal(rows: seq<LogRow>)
    ensures SumOfLines(Entries(rows)) == Total(rows)
  {
    if rows != [] {
      var init := rows[..|rows| - 1];
      EntriesSumToTotal(init);
      assert Entries(rows)[..|rows| - 1] == Entries(init);
    }
  }

  /** Totals are additive over concatenated logs, so the order rows were logged in, and how
      the day is split, does not change the total. */
  lemma {:induction false} TotalAppend(a: seq<LogRow>, b: seq<LogRow>)
    ensures Total(a + b) == Total(a).Plus(Total(b))
  {
    if b == [] {
      assert a + b == a;
    } else {
      var bInit, last := b[..|b| - 1], b[|b| - 1];
      assert (a + b)[..|a + b| - 1] == a + bInit;
      assert (a + b)[|a + b| - 1] == last;
      TotalAppend(a, bInit);
      calc {
        Total(a + b);
        Total(a + bInit).Plus(Scaled(last));
        Total(a).Plus(Total(bInit)).Plus(Scaled(last));
        { PlusAssociative(Total(a), Total(bInit), Scaled(last)); }
        Total(a).Plus(Total(bInit).Plus(Scaled(last)));
        Total(a).Plus(Total(b));
      }
    }
  }

  /** When nothing negative is logged, the calorie total is positive exactly when some row
      carries calories: the TOTAL row is shown iff a logged food has energy. */
  lemma {:induction false} TotalPositiveIffSomeCalories(rows: seq<LogRow>)
    requires forall i :: 0 <= i < |rows| ==> rows[i].quantityGrams >= 0.0 && rows[i].calPer100g >= 0.0
    ensures Total(rows).cal >= 0.0
    ensures Total(rows).cal > 0.0 <==> exists i :: 0 <= i < |rows| && Scaled(rows[i]).cal > 0.0
  {
    if rows != [] {
      var init := rows[..|rows| - 1];
      var last := rows[|rows| - 1];
      TotalPositiveIffSomeCalories(init);
      assert Scaled(last).cal >= 0.0;
      if Total(rows).cal > 0.0 {
        if Scaled(last).cal <= 0.0 {
          var j :| 0 <= j < |init| && Scaled(init[j]).cal > 0.0;
          assert rows[j] == init[j];
        }
      } else {
        forall i | 0 <= i < |rows|
          ensures Scaled(rows[i]).cal <= 0.0
        {
          if i < |init| { assert rows[i] == init[i]; }
        }
      }
    }
  }
}
