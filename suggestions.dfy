/** The sizing and quantity arithmetic of `get_food_recommendations`. The random meal size
    and the randomly chosen foods are parameters: `drawn` is the value `random.randint`
    returned, and the food rows are those the database query returned. */
module Suggestions {

  datatype Kind = Meal | Snack

  /** What the remaining calories call for: nothing (target met) or a suggestion of a size. */
  datatype Sizing = TargetMet | Suggest(kind: Kind, size: real)

  /** The size rule: above 500 kcal remaining a meal of `randint(350, 500)` kcal, above 200 a
      snack of `randint(150, 250)`, otherwise a snack of exactly what remains. */
  function SizeSuggestion(remaining: real, drawn: int): (s: Sizing)
    requires remaining > 500.0 ==> 350 <= drawn <= 500
    requires 200.0 < remaining <= 500.0 ==> 150 <= drawn <= 250
    ensures s.TargetMet? <==> remaining <= 0.0
    ensures s.Suggest? ==> 0.0 < s.size < remaining + 50.0
    ensures s.Suggest? ==> (s.kind == Meal <==> remaining > 500.0)
    ensures s.Suggest? && s.kind == Meal ==> 350.0 <= s.size <= 500.0 && s.size < remaining
    ensures 200.0 < remaining <= 500.0 ==> s.Suggest? && 150.0 <= s.size <= 250.0
    ensures remaining > 200.0 ==> s.Suggest? && s.size == drawn as real
    ensures 0.0 < remaining <= 200.0 ==> s == Suggest(Snack, remaining)
  {
    if remaining <= 0.0 then TargetMet
    else if remaining > 500.0 then Suggest(Meal, drawn as real)
    else if remaining > 200.0 then Suggest(Snack, drawn as real)
    else Suggest(Snack, remaining)
  }

  /** A snack in the middle band can be larger than what remains (by less than 50 kcal). */
  lemma SnackMayOvershoot()
    ensures SizeSuggestion(201.0, 250).size > 201.0
  {
  }

  /** A food row of the recommendation query: name, kcal and protein per 100 g. */
  datatype FoodRow = FoodRow(name: string, calPer100g: real, proteinPer100g: real)

  /** One suggestion line: grams of a food, and the kcal and protein that quantity carries. */
  datatype Idea = Idea(name: string, grams: real, kcal: real, protein: real)

  /** Grams of a food with `calPer100g` kcal per 100 g that carry `size` kcal. */
  function SuggestedGrams(size: real, calPer100g: real): (g: real)
    requires calPer100g != 0.0
    ensures size > 0.0 && calPer100g > 0.0 ==> g > 0.0
  {
    (size / calPer100g) * 100.0
  }

  /** The suggested grams carry back exactly the suggested size. */
  lemma SuggestedGramsScaleBack(size: real, calPer100g: real)
    requires calPer100g != 0.0
    ensures SuggestedGrams(size, calPer100g) * calPer100g / 100.0 == size
  {
  }

  /** The idea for one food with non-zero energy: its grams carry back exactly `size`. */
  function IdeaFor(size: real, food: FoodRow): (idea: Idea)
    requires food.calPer100g != 0.0
    ensures ScalesBack(size, food, idea)
  {
    var qty := SuggestedGrams(size, food.calPer100g);
    SuggestedGramsScaleBack(size, food.calPer100g);
    Idea(food.name, qty, size, (food.proteinPer100g / 100.0) * qty)
  }

  /** The foods the loop does not skip, in order. */
  function Served(foods: seq<FoodRow>): (r: seq<FoodRow>)
    ensures |r| <= |foods|
    ensures forall i :: 0 <= i < |r| ==> r[i].calPer100g != 0.0
  {
    if foods == [] then []
    else if foods[|foods| - 1].calPer100g == 0.0 then Served(foods[..|foods| - 1])
    else Served(foods[..|foods| - 1]) + [foods[|foods| - 1]]
  }

  /** The ideas the loop of `get_food_recommendations` prints, one per served food. */
  function IdeasFor(size: real, foods: seq<FoodRow>): (r: seq<Idea>)
    ensures |r| <= |foods|
    ensures forall i :: 0 <= i < |r| ==> r[i].kcal == size
  {
    if foods == [] then []
    else if foods[|foods| - 1].calPer100g == 0.0 then IdeasFor(size, foods[..|foods| - 1])
    else IdeasFor(size, foods[..|foods| - 1]) + [IdeaFor(size, foods[|foods| - 1])]
  }

  /** The ideas follow the served foods one to one, in order. */
  lemma {:induction false} IdeasFollowServed(size: real, foods: seq<FoodRow>)
    ensures |IdeasFor(size, foods)| == |Served(foods)|
    ensures forall i :: 0 <= i < |Served(foods)| ==> IdeasFor(size, foods)[i] == IdeaFor(size, Served(foods)[i])
  {
    if foods != [] {
      IdeasFollowServed(size, foods[..|foods| - 1]);
    }
  }

  /** Exactly the foods with non-zero energy are served: each food of the rows is served
      iff its kcal per 100 g is non-zero, and nothing else is. */
  lemma {:induction false} ServedIsNonZeroFoods(foods: seq<FoodRow>)
    ensures forall f :: f in Served(foods) <==> f in foods && f.calPer100g != 0.0
  {
    if foods != [] {
      var init := foods[..|foods| - 1];
      ServedIsNonZeroFoods(init);
      assert foods == init + [foods[|foods| - 1]];
    }
  }

  /** `idea` is the suggestion for `food` at `size` kcal: same name, the full size in kcal,
      grams that carry exactly that size back, and the protein of those grams. */
  predicate ScalesBack(size: real, food: FoodRow, idea: Idea)
  {
    idea.name == food.name && idea.kcal == size &&
    idea.grams * food.calPer100g / 100.0 == size &&
    idea.protein == food.proteinPer100g / 100.0 * idea.grams
  }

  /** Every idea is a food that was served, its grams carry exactly the suggested size, and
      its protein is that of the suggested grams. */
  lemma IdeasScaleBack(size: real, foods: seq<FoodRow>)
    ensures |IdeasFor(size, foods)| == |Served(foods)|
    ensures forall i :: 0 <= i < |IdeasFor(size, foods)| ==>
              ScalesBack(size, Served(foods)[i], IdeasFor(size, foods)[i])
  {
    var ideas, served := IdeasFor(size, foods), Served(foods);
    IdeasFollowServed(size, foods);
    forall i | 0 <= i < |ideas|
      ensures ScalesBack(size, served[i], ideas[i])
    {
      assert ideas[i] == IdeaFor(size, served[i]);
    }
  }

  /** The recommendation query keeps only foods with 50 to 400 kcal per 100 g, so on its rows
      the zero-energy skip never fires and every fetched food is served. */
  lemma {:induction false} QueryRowsAllServed(foods: seq<FoodRow>)
    requires forall i :: 0 <= i < |foods| ==> 50.0 <= foods[i].calPer100g <= 400.0
    ensures Served(foods) == foods
  {
    if foods != [] {
      var init := foods[..|foods| - 1];
      QueryRowsAllServed(init);
      assert foods == init + [foods[|foods| - 1]];
    }
  }
}
