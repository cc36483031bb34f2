/** The static table of foods with their energy per 100 g, lookup by category and the
    calorie computation for a weighed portion. */
module FoodDatabase {
  import opened Common

  datatype Category = Vegetable | Fruit | Oil | Other

  /** The string literal the table uses for each category. */
  function CategoryName(c: Category): string {
    match c
    case Vegetable => "vegetable"
    case Fruit => "fruit"
    case Oil => "oil"
    case Other => "other"
  }

  datatype FoodItem = FoodItem(id: string, name: string, category: Category, caloriesPer100g: int)

  /** The table in its order: ten vegetables, ten fruits, five oils. */
  const Foods: seq<FoodItem> := Vegetables + Fruits + Oils

  const Vegetables: seq<FoodItem> := [
    FoodItem("v1", "Carrot", Vegetable, 41),
    FoodItem("v2", "Broccoli", Vegetable, 34),
    FoodItem("v3", "Spinach", Vegetable, 23),
    FoodItem("v4", "Potato", Vegetable, 77),
    FoodItem("v5", "Tomato", Vegetable, 18),
    FoodItem("v6", "Cucumber", Vegetable, 15),
    FoodItem("v7", "Bell Pepper", Vegetable, 31),
    FoodItem("v8", "Onion", Vegetable, 40),
    FoodItem("v9", "Lettuce", Vegetable, 15),
    FoodItem("v10", "Cabbage", Vegetable, 25)
  ]

  const Fruits: seq<FoodItem> := [
    FoodItem("f1", "Apple", Fruit, 52),
    FoodItem("f2", "Banana", Fruit, 89),
    FoodItem("f3", "Orange", Fruit, 47),
    FoodItem("f4", "Grapes", Fruit, 69),
    FoodItem("f5", "Strawberry", Fruit, 32),
    FoodItem("f6", "Blueberry", Fruit, 57),
    FoodItem("f7", "Mango", Fruit, 60),
    FoodItem("f8", "Pineapple", Fruit, 50),
    FoodItem("f9", "Watermelon", Fruit, 30),
    FoodItem("f10", "Avocado", Fruit, 160)
  ]

  const Oils: seq<FoodItem> := [
    FoodItem("o1", "Olive Oil", Oil, 884),
    FoodItem("o2", "Coconut Oil", Oil, 862),
    FoodItem("o3", "Sunflower Oil", Oil, 884),
    FoodItem("o4", "Canola Oil", Oil, 884),
    FoodItem("o5", "Butter", Oil, 717)
  ]

  predicate IdsDistinct(foods: seq<FoodItem>) {
    forall i, j :: 0 <= i < j < |foods| ==> foods[i].id != foods[j].id
  }

  predicate CaloriesPositive(foods: seq<FoodItem>) {
    forall i :: 0 <= i < |foods| ==> foods[i].caloriesPer100g > 0
  }

  /** Every id of `foods` starts with one of `initials`. */
  predicate IdsStartWith(foods: seq<FoodItem>, initials: set<char>) {
    forall i :: 0 <= i < |foods| ==> |foods[i].id| > 0 && foods[i].id[0] in initials
  }

  /** Two lists with distinct ids whose ids start with different letters join without a clash. */
  lemma DistinctConcat(a: seq<FoodItem>, b: seq<FoodItem>, ca: set<char>, cb: set<char>)
    requires IdsDistinct(a) && IdsDistinct(b) && IdsStartWith(a, ca) && IdsStartWith(b, cb) && ca !! cb
    ensures IdsDistinct(a + b) && IdsStartWith(a + b, ca + cb)
  {
    var s := a + b;
    forall i, j | 0 <= i < j < |s| ensures s[i].id != s[j].id {
      if i < |a| && j >= |a| {
        assert s[i] == a[i] && s[j] == b[j - |a|];
        assert s[i].id[0] in ca && s[j].id[0] in cb;
      } else if i >= |a| {
        assert s[i] == b[i - |a|] && s[j] == b[j - |a|];
      }
    }
  }

  lemma PositiveConcat(a: seq<FoodItem>, b: seq<FoodItem>)
    requires CaloriesPositive(a) && CaloriesPositive(b)
    ensures CaloriesPositive(a + b)
  {
    forall i | 0 <= i < |a + b| ensures (a + b)[i].caloriesPer100g > 0 {
      if i >= |a| {
        assert (a + b)[i] == b[i - |a|];
      }
    }
  }

  lemma VegetableIdsDistinct()
    ensures IdsDistinct(Vegetables)
  {
  }

  lemma FruitIdsDistinct()
    ensures IdsDistinct(Fruits)
  {
  }

  lemma OilIdsDistinct()
    ensures IdsDistinct(Oils)
  {
  }

  /** Each group's ids start with its own letter. */
  lemma GroupInitials()
    ensures IdsStartWith(Vegetables, {'v'}) && IdsStartWith(Fruits, {'f'}) && IdsStartWith(Oils, {'o'})
  {
  }

  lemma GroupCaloriesPositive()
    ensures CaloriesPositive(Vegetables) && CaloriesPositive(Fruits) && CaloriesPositive(Oils)
  {
  }

  /** No two rows of the table share an id. */
  lemma FoodIdsDistinct()
    ensures IdsDistinct(Foods)
  {
    VegetableIdsDistinct();
    FruitIdsDistinct();
    OilIdsDistinct();
    GroupInitials();
    DistinctConcat(Vegetables, Fruits, {'v'}, {'f'});
    DistinctConcat(Vegetables + Fruits, Oils, {'v'} + {'f'}, {'o'});
  }

  /** Every food of the table has a positive energy density. */
  lemma FoodCaloriesPositive()
    ensures CaloriesPositive(Foods)
  {
    GroupCaloriesPositive();
    PositiveConcat(Vegetables, Fruits);
    PositiveConcat(Vegetables + Fruits, Oils);
  }

  /** The rows of `foods` whose category literal equals `category`, in their order. */
  function FoodsInCategory(foods: seq<FoodItem>, category: string): (r: seq<FoodItem>)
    ensures forall f :: f in r <==> f in foods && CategoryName(f.category) == category
    ensures forall i :: 0 <= i < |r| ==> CategoryName(r[i].category) == category
    ensures SubsequenceOf(r, foods)
  {
    Filter((f: FoodItem) => CategoryName(f.category) == category, foods)
  }

  /** `getFoodsByCategory`: the category filter applied to the table. */
  function GetFoodsByCategory(category: string): seq<FoodItem>
  {
    FoodsInCategory(Foods, category)
  }

  /** A string that names none of the four categories selects nothing. */
  lemma UnknownCategoryIsEmpty(category: string)
    requires category != "vegetable" && category != "fruit" && category != "oil" && category != "other"
    ensures GetFoodsByCategory(category) == []
  {
    UnknownCategorySelectsNothing(Foods, category);
  }

  lemma {:induction false} UnknownCategorySelectsNothing(foods: seq<FoodItem>, category: string)
    requires category != "vegetable" && category != "fruit" && category != "oil" && category != "other"
    ensures FoodsInCategory(foods, category) == []
  {
    if foods != [] {
      UnknownCategorySelectsNothing(foods[1..], category);
    }
  }

  /** `Array.prototype.find` on the id: the first row of `foods` whose id is `id`, if any. */
  function Find(id: string, foods: seq<FoodItem>): (r: Option<FoodItem>)
    ensures r.None? <==> forall i :: 0 <= i < |foods| ==> foods[i].id != id
    ensures r.Some? ==> r.value in foods && r.value.id == id
    ensures r.Some? ==> exists k :: 0 <= k < |foods| && foods[k] == r.value && forall m :: 0 <= m < k ==> foods[m].id != id
  {
    if foods == [] then None
    else if foods[0].id == id then Some(foods[0])
    else
      var r := Find(id, foods[1..]);
      assert r.Some? ==> forall k | 0 <= k < |foods| - 1 :: foods[1..][k] == foods[k + 1];
      r
  }

  /** When ids are distinct, `find` returns the only row that carries the id. */
  lemma FindIsUnique(foods: seq<FoodItem>, k: nat)
    requires IdsDistinct(foods) && k < |foods|
    ensures Find(foods[k].id, foods) == Some(foods[k])
  {
    var r := Find(foods[k].id, foods);
    var j :| 0 <= j < |foods| && foods[j] == r.value;
  }

  /** JavaScript's `Math.round`: the nearest integer, halves rounded up. */
  function JsRound(x: real): (r: int)
    ensures x - 0.5 < r as real <= x + 0.5
  {
    (x + 0.5).Floor
  }

  /** The calorie computation against a given table. */
  function CaloriesFrom(foods: seq<FoodItem>, foodId: string, weightInGrams: real): (r: int)
    ensures Find(foodId, foods).None? ==> r == 0
  {
    match Find(foodId, foods)
    case None => 0
    case Some(food) => JsRound((food.caloriesPer100g as real * weightInGrams) / 100.0)
  }

  /** `calculateCalories`: 0 for an id not in the table, otherwise the rounded energy of the portion. */
  function CalculateCalories(foodId: string, weightInGrams: real): (r: int)
    ensures (forall i :: 0 <= i < |Foods| ==> Foods[i].id != foodId) ==> r == 0
  {
    CaloriesFrom(Foods, foodId, weightInGrams)
  }

  /** Rounding c * w / 100 for whole numbers is integer arithmetic: (c * w + 50) div 100. */
  lemma RoundHundredths(c: int, w: int)
    ensures JsRound((c as real * w as real) / 100.0) == (c * w + 50) / 100
  {
    var n := c * w;
    var q := (n + 50) / 100;
    var rem := (n + 50) % 100;
    assert n + 50 == 100 * q + rem && 0 <= rem < 100;
    assert c as real * w as real == n as real;
    var x := n as real / 100.0;
    assert x + 0.5 == q as real + rem as real / 100.0;
    assert x - 0.5 < q as real <= x + 0.5;
  }

  lemma CaloriesFromWholeGrams(foods: seq<FoodItem>, k: nat, w: int)
    requires IdsDistinct(foods) && k < |foods|
    ensures CaloriesFrom(foods, foods[k].id, w as real) == (foods[k].caloriesPer100g * w + 50) / 100
  {
    FindIsUnique(foods, k);
    RoundHundredths(foods[k].caloriesPer100g, w);
  }

  /** For a whole number of grams of a listed food the result is (c * w + 50) div 100. */
  lemma CaloriesForWholeGrams(k: nat, w: int)
    requires k < |Foods|
    ensures CalculateCalories(Foods[k].id, w as real) == (Foods[k].caloriesPer100g * w + 50) / 100
  {
    FoodIdsDistinct();
    CaloriesFromWholeGrams(Foods, k, w);
  }

  lemma CaloriesFromNonNegative(foods: seq<FoodItem>, foodId: string, w: real)
    requires CaloriesPositive(foods) && w >= 0.0
    ensures CaloriesFrom(foods, foodId, w) >= 0
  {
    var found := Find(foodId, foods);
    if found.Some? {
      var j :| 0 <= j < |foods| && foods[j] == found.value;
      var c := found.value.caloriesPer100g;
      assert c > 0;
      assert c as real * w >= 0.0;
    }
  }

  /** A non-negative weight never gives a negative count. */
  lemma CaloriesNonNegative(foodId: string, w: real)
    requires w >= 0.0
    ensures CalculateCalories(foodId, w) >= 0
  {
    FoodCaloriesPositive();
    CaloriesFromNonNegative(Foods, foodId, w);
  }
}
