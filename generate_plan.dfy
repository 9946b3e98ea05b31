/** The plan generators of the plan service: a 30-day workout programme
    built from the areas a user wants to work on, and a 7-day meal plan that
    splits a daily calorie budget evenly over three or four meals. */
module GeneratePlan {

  // ---------------------------------------------------------------------
  // Workouts: data
  // ---------------------------------------------------------------------

  /** Repetitions are a count for most exercises and a duration text for the
      plank. */
  datatype Reps = Count(n: int) | Text(s: string)

  datatype Exercise = Exercise(name: string, sets: int, reps: Reps)

  /** One day of the programme. */
  datatype Workout = Workout(name: string, duration: int, calories: int, exercises: seq<Exercise>)

  /** Length of the programme in days. */
  const PlanDays: int := 30

  /** The exercise templates, keyed by body area. */
  function BaseWorkouts(): (base: map<string, seq<Exercise>>)
    ensures base.Keys == {"chest", "arms", "abs", "legs", "full_body"}
    ensures forall area :: area in base ==> |base[area]| == 2
  {
    map[
      "chest" := [Exercise("Отжимания от пола", 3, Count(12)), Exercise("Жим гантелей лёжа", 3, Count(10))],
      "arms" := [Exercise("Сгибания на бицепс", 3, Count(12)), Exercise("Разгибания на трицепс", 3, Count(12))],
      "abs" := [Exercise("Скручивания", 3, Count(20)), Exercise("Планка", 3, Text("60 сек"))],
      "legs" := [Exercise("Приседания", 4, Count(15)), Exercise("Выпады", 3, Count(12))],
      "full_body" := [Exercise("Берпи", 3, Count(10)), Exercise("Jumping Jacks", 3, Count(30))]
    ]
  }

  /** The slice `s[:n]` for `n >= 0`: at most the first `n` elements. */
  function Take<T>(s: seq<T>, n: nat): (r: seq<T>)
    ensures |r| == if n <= |s| then n else |s|
    ensures r <= s
  {
    if n <= |s| then s[..n] else s
  }

  /** What one area contributes to a day when `full_body` is not requested:
      the area's first exercise if the area is known, nothing otherwise. */
  function AreaContribution(area: string): (r: seq<Exercise>)
    ensures area in BaseWorkouts() ==> r == [BaseWorkouts()[area][0]]
    ensures area !in BaseWorkouts() ==> r == []
  {
    if area in BaseWorkouts() then Take(BaseWorkouts()[area], 1) else []
  }

  /** The exercises of a day built area by area, in list order. */
  function AreaExercises(areas: seq<string>): (r: seq<Exercise>)
    ensures |r| <= |areas|
    decreases |areas|
  {
    if areas == [] then []
    else AreaExercises(areas[..|areas| - 1]) + AreaContribution(areas[|areas| - 1])
  }

  /** The exercises of every day: the two full-body exercises when
      `full_body` is requested, otherwise the area-by-area list. */
  function DayExercises(areas: seq<string>): (r: seq<Exercise>)
    ensures "full_body" in areas ==> |r| == 2
    ensures "full_body" !in areas ==> |r| <= |areas|
  {
    if "full_body" in areas then BaseWorkouts()["full_body"] else AreaExercises(areas)
  }

  /** The areas of the list that have templates, in list order, duplicates
      kept. */
  function Recognized(areas: seq<string>): seq<string>
    decreases |areas|
  {
    if areas == [] then []
    else
      var last := areas[|areas| - 1];
      Recognized(areas[..|areas| - 1]) + (if last in BaseWorkouts() then [last] else [])
  }

  /** Daily session length in minutes. */
  function Duration(targetBody: int): (minutes: int)
    ensures minutes == 45 <==> targetBody >= 4
    ensures minutes == 30 <==> targetBody < 4
  {
    if targetBody >= 4 then 45 else 30
  }

  /** Calories burnt per session. */
  function CaloriesBurnt(targetBody: int): (kcal: int)
    ensures kcal == 350 <==> targetBody >= 4
    ensures kcal == 250 <==> targetBody < 4
  {
    if targetBody >= 4 then 350 else 250
  }

  /** The area named in every day's title: the first requested area, or
      "full_body" when none was requested. */
  function TitleArea(areas: seq<string>): (area: string)
    ensures area in areas || (areas == [] && area == "full_body")
    ensures |areas| > 0 ==> area == areas[0]
  {
    if |areas| > 0 then areas[0] else "full_body"
  }

  // ---------------------------------------------------------------------
  // Decimal rendering of day numbers
  // ---------------------------------------------------------------------

  function DigitChar(d: nat): char
    requires d < 10
  {
    "0123456789"[d]
  }

  function DigitValue(c: char): nat
  {
    if '0' <= c <= '9' then (c as int - '0' as int) as nat else 0
  }

  /** `str(n)` for a natural number: its decimal digits, most significant
      first, with no leading zero. */
  function Decimal(n: nat): (s: string)
    ensures |s| >= 1
    ensures forall i :: 0 <= i < |s| ==> '0' <= s[i] <= '9'
    ensures n > 0 ==> s[0] != '0'
    decreases n
  {
    if n < 10 then [DigitChar(n)] else Decimal(n / 10) + [DigitChar(n % 10)]
  }

  /** The number a string of decimal digits denotes. */
  function DecimalValue(s: string): nat
    decreases |s|
  {
    if s == [] then 0 else DecimalValue(s[..|s| - 1]) * 10 + DigitValue(s[|s| - 1])
  }

  /** Reading back a rendered number gives the number. */
  lemma {:induction false} DecimalRoundTrip(n: nat)
    ensures DecimalValue(Decimal(n)) == n
    decreases n
  {
    var s := Decimal(n);
    assert DigitValue(DigitChar(n % 10)) == n % 10;
    if n >= 10 {
      DecimalRoundTrip(n / 10);
      assert s[..|s| - 1] == Decimal(n / 10);
    }
  }

  /** A day's title: "День <n>: Тренировка <area>". */
  function DayName(day: nat, area: string): (name: string)
    ensures |name| == 5 + |Decimal(day)| + 13 + |area|
  {
    "День " + Decimal(day) + ": Тренировка " + area
  }

  /** A title is "День ", then the day number, then ": Тренировка ", then
      the area. */
  lemma DayNameLayout(day: nat, area: string)
    ensures DayName(day, area)[..5] == "День "
    ensures DayName(day, area)[5..5 + |Decimal(day)|] == Decimal(day)
    ensures DayName(day, area)[5 + |Decimal(day)|..5 + |Decimal(day)| + 13] == ": Тренировка "
    ensures DayName(day, area)[|DayName(day, area)| - |area|..] == area
  {
  }

  /** Two days of one programme never share a title. */
  lemma DayNamesDistinct(d1: nat, d2: nat, area: string)
    requires d1 != d2
    ensures DayName(d1, area) != DayName(d2, area)
  {
    if DayName(d1, area) == DayName(d2, area) {
      var n1, n2 := DayName(d1, area), DayName(d2, area);
      assert |Decimal(d1)| == |Decimal(d2)|;
      assert n1[5..5 + |Decimal(d1)|] == Decimal(d1);
      assert n2[5..5 + |Decimal(d2)|] == Decimal(d2);
      DecimalRoundTrip(d1);
      DecimalRoundTrip(d2);
    }
  }

  /** The titles begin "День 1" and "День 30" for the first and last day. */
  lemma FirstAndLastTitles(area: string)
    ensures DayName(1, area)[..6] == "День 1"
    ensures DayName(30, area)[..7] == "День 30"
  {
  }

  // ---------------------------------------------------------------------
  // Workouts: properties of the exercise selection
  // ---------------------------------------------------------------------

  /** With `full_body` requested, every day holds exactly Burpees and Jumping
      Jacks, whatever else is listed. */
  lemma FullBodyOverrides(areas: seq<string>)
    requires "full_body" in areas
    ensures DayExercises(areas) == [Exercise("Берпи", 3, Count(10)), Exercise("Jumping Jacks", 3, Count(30))]
  {
  }

  /** The area-by-area list holds, in order, the first exercise of each
      recognised area; unknown areas add nothing, so the list is never
      longer than the request. */
  lemma {:induction false} AreaExercisesAreFirsts(areas: seq<string>)
    ensures |AreaExercises(areas)| == |Recognized(areas)| <= |areas|
    ensures forall k :: 0 <= k < |Recognized(areas)| ==>
      Recognized(areas)[k] in BaseWorkouts() &&
      AreaExercises(areas)[k] == BaseWorkouts()[Recognized(areas)[k]][0]
    decreases |areas|
  {
    if areas != [] {
      AreaExercisesAreFirsts(areas[..|areas| - 1]);
    }
  }

  /** An area is kept exactly when it is requested and has a template. */
  lemma {:induction false} RecognizedMembers(areas: seq<string>, a: string)
    ensures a in Recognized(areas) <==> a in areas && a in BaseWorkouts()
    decreases |areas|
  {
    if areas != [] {
      var init := areas[..|areas| - 1];
      RecognizedMembers(init, a);
      assert areas == init + [areas[|areas| - 1]];
    }
  }

  /** The area-by-area list of a concatenation is the concatenation of the
      lists: order is preserved and a repeated area repeats its exercise. */
  lemma {:induction false} AreaExercisesAppend(s: seq<string>, t: seq<string>)
    ensures AreaExercises(s + t) == AreaExercises(s) + AreaExercises(t)
    decreases |t|
  {
    if t == [] {
      assert s + t == s;
    } else {
      var t' := t[..|t| - 1];
      assert (s + t)[..|s + t| - 1] == s + t';
      AreaExercisesAppend(s, t');
    }
  }

  // ---------------------------------------------------------------------
  // Workouts: the generator
  // ---------------------------------------------------------------------

  /** `generate_workouts`: thirty days, titled "День 1" to "День 30" in
      order, all with the same exercises, duration and calories. `gender` is
      accepted and not used. */
  method GenerateWorkouts(workAreas: seq<string>, targetBody: int, gender: string)
    returns (workouts: seq<Workout>)
    ensures |workouts| == PlanDays
    ensures forall k :: 0 <= k < |workouts| ==> workouts[k].name == DayName(k + 1, TitleArea(workAreas))
    ensures forall k :: 0 <= k < |workouts| ==> workouts[k].exercises == DayExercises(workAreas)
    ensures forall k :: 0 <= k < |workouts| ==>
      workouts[k].duration == Duration(targetBody) && workouts[k].calories == CaloriesBurnt(targetBody)
  {
    var base := BaseWorkouts();
    workouts := [];
    var day := 0;
    while day < PlanDays
      invariant 0 <= day <= PlanDays
      invariant |workouts| == day
      invariant forall k :: 0 <= k < day ==>
        workouts[k] == Workout(DayName(k + 1, TitleArea(workAreas)), Duration(targetBody),
                               CaloriesBurnt(targetBody), DayExercises(workAreas))
    {
      var exercises: seq<Exercise> := [];
      if "full_body" in workAreas {
        exercises := exercises + base["full_body"];
      } else {
        var j := 0;
        while j < |workAreas|
          invariant 0 <= j <= |workAreas|
          invariant exercises == AreaExercises(workAreas[..j])
        {
          var area := workAreas[j];
          if area in base {
            exercises := exercises + Take(base[area], 1);
          }
          assert workAreas[..j + 1][..j] == workAreas[..j];
          j := j + 1;
        }
        assert workAreas[..j] == workAreas;
      }
      assert exercises == DayExercises(workAreas);

      var intensity := if targetBody >= 4 then "Высокая" else "Средняя";
      var duration := if targetBody >= 4 then 45 else 30;
      var calories := if intensity == "Высокая" then 350 else 250;

      var area := if |workAreas| > 0 then workAreas[0] else "full_body";
      var workout := Workout("День " + Decimal(day + 1) + ": Тренировка " + area,
                             duration, calories, exercises);
      assert workout == Workout(DayName(day + 1, TitleArea(workAreas)), Duration(targetBody),
                                CaloriesBurnt(targetBody), DayExercises(workAreas));
      workouts := workouts + [workout];
      day := day + 1;
    }
  }

  // ---------------------------------------------------------------------
  // Meals: data
  // ---------------------------------------------------------------------

  /** A recipe template. */
  datatype Recipe = Recipe(name: string, protein: int, carbs: int, fat: int, ingredients: seq<string>)

  /** A meal of the plan: a copy of a recipe with day, meal type and calories
      filled in. */
  datatype Meal = Meal(
    name: string, protein: int, carbs: int, fat: int, ingredients: seq<string>,
    day: int, mealType: string, calories: int)

  /** Length of the meal plan in days. */
  const MealDays: int := 7

  function VegetarianMeals(): (rs: seq<Recipe>)
    ensures |rs| == 3
  {
    [
      Recipe("Овсянка с бананом", 12, 54, 8, ["Овсянка", "Банан", "Мёд"]),
      Recipe("Греческий салат", 8, 18, 20, ["Огурцы", "Помидоры", "Оливки", "Сыр фета"]),
      Recipe("Тофу с овощами", 20, 25, 15, ["Тофу", "Брокколи", "Морковь", "Соевый соус"])
    ]
  }

  function RegularMeals(): (rs: seq<Recipe>)
    ensures |rs| == 3
  {
    [
      Recipe("Омлет с овощами", 18, 12, 14, ["Яйца", "Помидоры", "Шпинат"]),
      Recipe("Куриная грудка с рисом", 42, 45, 12, ["Курица", "Рис", "Овощи"]),
      Recipe("Рыба на пару с брокколи", 35, 20, 18, ["Лосось", "Брокколи", "Лимон"])
    ]
  }

  /** Breakfast, lunch, dinner, snack. */
  function MealTypes(): (types: seq<string>)
    ensures |types| == 4
    ensures forall i, j :: 0 <= i < j < |types| ==> types[i] != types[j]
  {
    ["Завтрак", "Обед", "Ужин", "Перекус"]
  }

  /** Four meals a day when the user asked for a snack, three otherwise. */
  function MealsPerDay(mealSchedule: string): (m: int)
    ensures m == 4 <==> mealSchedule == "yes"
    ensures m == 3 || m == 4
  {
    if mealSchedule == "yes" then 4 else 3
  }

  /** The recipe list: vegetarian exactly for the "vegetarian" diet. */
  function MealList(diet: string): (rs: seq<Recipe>)
    ensures |rs| == 3
    ensures rs == VegetarianMeals() <==> diet == "vegetarian"
    ensures rs == RegularMeals() <==> diet != "vegetarian"
  {
    if diet == "vegetarian" then VegetarianMeals() else RegularMeals()
  }

  /** A recipe copied into the plan. */
  function Serve(r: Recipe, day: int, mealType: string, calories: int): (m: Meal)
    ensures m.name == r.name && m.protein == r.protein && m.carbs == r.carbs
    ensures m.fat == r.fat && m.ingredients == r.ingredients
    ensures m.day == day && m.mealType == mealType && m.calories == calories
  {
    Meal(r.name, r.protein, r.carbs, r.fat, r.ingredients, day, mealType, calories)
  }

  /** Entry `k` of a plan with `m` meals a day: meal `k % m` of day
      `k / m + 1`, the recipe cycling through the three of the chosen list,
      carrying the floor share of the day's calories. */
  function PlannedMeal(k: nat, dailyCalories: int, diet: string, mealSchedule: string): (meal: Meal)
    ensures meal.day >= 1 && meal.mealType in MealTypes()
    ensures var m := MealsPerDay(mealSchedule);
      m * meal.calories <= dailyCalories < m * meal.calories + m
  {
    var m := MealsPerDay(mealSchedule);
    Serve(MealList(diet)[(k % m) % 3], k / m + 1, MealTypes()[k % m], dailyCalories / m)
  }

  /** What `generate_meals` returns: seven days of `m` entries, entry by
      entry as `PlannedMeal` says. */
  predicate IsMealPlan(meals: seq<Meal>, dailyCalories: int, diet: string, mealSchedule: string): (b: bool)
    ensures b ==> |meals| == 21 || |meals| == 28
    ensures b && mealSchedule == "yes" ==> |meals| == 28
    ensures b && mealSchedule != "yes" ==> |meals| == 21
  {
    |meals| == MealDays * MealsPerDay(mealSchedule) &&
    forall k :: 0 <= k < |meals| ==> meals[k] == PlannedMeal(k, dailyCalories, diet, mealSchedule)
  }

  // ---------------------------------------------------------------------
  // Meals: the generator
  // ---------------------------------------------------------------------

  /** Quotient and remainder of `q * m + r` by `m` when `0 <= r < m`. */
  lemma DivModOfMul(q: int, r: int, m: int)
    requires 0 < m && 0 <= r < m
    ensures (q * m + r) / m == q && (q * m + r) % m == r
  {
    var k := q * m + r;
    var d := k / m - q;
    assert m * d == r - k % m by {
      assert k == m * (k / m) + k % m;
      assert m * d == m * (k / m) - m * q;
    }
  }

  /** `generate_meals`: seven days of three or four meals. */
  method GenerateMeals(dailyCalories: int, diet: string, mealSchedule: string)
    returns (meals: seq<Meal>)
    ensures IsMealPlan(meals, dailyCalories, diet, mealSchedule)
  {
    var mealsPerDay := if mealSchedule == "yes" then 4 else 3;
    var caloriesPerMeal := dailyCalories / mealsPerDay;
    var mealList := if diet == "vegetarian" then VegetarianMeals() else RegularMeals();
    var mealTypes := MealTypes();
    assert mealsPerDay == MealsPerDay(mealSchedule) && mealList == MealList(diet);

    meals := [];
    var day := 1;
    while day < MealDays + 1
      invariant 1 <= day <= MealDays + 1
      invariant |meals| == (day - 1) * mealsPerDay
      invariant forall k :: 0 <= k < |meals| ==> meals[k] == PlannedMeal(k, dailyCalories, diet, mealSchedule)
    {
      var i := 0;
      while i < mealsPerDay
        invariant 0 <= i <= mealsPerDay
        invariant |meals| == (day - 1) * mealsPerDay + i
        invariant forall k :: 0 <= k < |meals| ==> meals[k] == PlannedMeal(k, dailyCalories, diet, mealSchedule)
      {
        var meal := Serve(mealList[i % |mealList|], day, mealTypes[i], caloriesPerMeal);
        assert meal == PlannedMeal(|meals|, dailyCalories, diet, mealSchedule) by {
          DivModOfMul(day - 1, i, mealsPerDay);
        }
        meals := meals + [meal];
        i := i + 1;
      }
      day := day + 1;
    }
  }

  // ---------------------------------------------------------------------
  // Meals: properties of a plan
  // ---------------------------------------------------------------------

  /** Sum of the calories of a list of meals. */
  function TotalCalories(meals: seq<Meal>): int
    decreases |meals|
  {
    if meals == [] then 0 else meals[0].calories + TotalCalories(meals[1..])
  }

  /** Meals that all carry `c` calories add up to `|meals| * c`. */
  lemma {:induction false} TotalOfEqualMeals(meals: seq<Meal>, c: int)
    requires forall k :: 0 <= k < |meals| ==> meals[k].calories == c
    ensures TotalCalories(meals) == |meals| * c
    decreases |meals|
  {
    if meals != [] {
      TotalOfEqualMeals(meals[1..], c);
    }
  }

  /** Day `d` of a plan is exactly the block of entries from `(d-1)*m` to
      `d*m`, and within it the meal types come in table order. */
  lemma MealPlanDays(meals: seq<Meal>, dailyCalories: int, diet: string, mealSchedule: string, k: int)
    requires IsMealPlan(meals, dailyCalories, diet, mealSchedule)
    requires 0 <= k < |meals|
    ensures var m := MealsPerDay(mealSchedule);
      1 <= meals[k].day <= MealDays &&
      (meals[k].day - 1) * m <= k < meals[k].day * m &&
      meals[k].mealType == MealTypes()[k - (meals[k].day - 1) * m]
  {
    var m := MealsPerDay(mealSchedule);
    var q, r := k / m, k % m;
    assert k == q * m + r;
  }

  /** Recipes come from the vegetarian list exactly for the vegetarian diet,
      and the snack, when there is one, repeats the breakfast recipe. */
  lemma MealPlanRecipes(meals: seq<Meal>, dailyCalories: int, diet: string, mealSchedule: string, k: int)
    requires IsMealPlan(meals, dailyCalories, diet, mealSchedule)
    requires 0 <= k < |meals|
    ensures diet == "vegetarian" ==> meals[k].name in RecipeNames(VegetarianMeals())
    ensures diet != "vegetarian" ==> meals[k].name in RecipeNames(RegularMeals())
    ensures meals[k].name in RecipeNames(VegetarianMeals()) <==> diet == "vegetarian"
    ensures meals[k].mealType == MealTypes()[3] ==> meals[k].name == MealList(diet)[0].name
  {
    var m := MealsPerDay(mealSchedule);
    var i := k % m;
    var j := i % 3;
    var r := MealList(diet)[j];
    assert meals[k] == Serve(r, k / m + 1, MealTypes()[i], dailyCalories / m);
    assert RecipeNames(MealList(diet))[j] == r.name;
    if diet != "vegetarian" {
      RecipeListsDisjoint(j);
    }
    if meals[k].mealType == MealTypes()[3] {
      assert i == 3 by {
        assert MealTypes()[0][0] != MealTypes()[3][0];
        assert MealTypes()[1][0] != MealTypes()[3][0];
        assert MealTypes()[2][0] != MealTypes()[3][0];
      }
    }
  }

  /** No regular recipe shares its name with a vegetarian one. */
  lemma RecipeListsDisjoint(j: int)
    requires 0 <= j < 3
    ensures RegularMeals()[j].name !in RecipeNames(VegetarianMeals())
  {
    var veg := RecipeNames(VegetarianMeals());
    var name := RegularMeals()[j].name;
    assert name[1] != veg[0][1] && name[0] != veg[1][0] && name[0] != veg[2][0];
  }

  /** The names of a list of recipes, in order. */
  function RecipeNames(rs: seq<Recipe>): (names: seq<string>)
    ensures |names| == |rs| && forall i :: 0 <= i < |rs| ==> names[i] == rs[i].name
  {
    seq(|rs|, i requires 0 <= i < |rs| => rs[i].name)
  }

  /** Every day's meals add up to `m * (dailyCalories // m)`: never more
      than the budget and less than `m` calories short of it, for negative
      budgets too. */
  lemma DailyCaloriesWithinBudget(meals: seq<Meal>, dailyCalories: int, diet: string, mealSchedule: string, d: int)
    requires IsMealPlan(meals, dailyCalories, diet, mealSchedule)
    requires 1 <= d <= MealDays
    ensures var m := MealsPerDay(mealSchedule);
      var total := TotalCalories(meals[(d - 1) * m .. d * m]);
      total == m * (dailyCalories / m) &&
      dailyCalories - m < total <= dailyCalories
  {
    var m := MealsPerDay(mealSchedule);
    assert d * m <= MealDays * m;
    var block := meals[(d - 1) * m .. d * m];
    TotalOfEqualMeals(block, dailyCalories / m);
  }

  /** A meal plan from the generator with a concrete budget of 1000 calories
      and three meals: 333 calories each, 999 a day. */
  lemma ThreeMealSplit(meals: seq<Meal>)
    requires IsMealPlan(meals, 1000, "regular", "no")
    ensures |meals| == 21
    ensures forall k :: 0 <= k < |meals| ==> meals[k].calories == 333
  {
  }

  /** A negative budget is split by floor division: -1000 over three meals
      gives -334 per meal, -1002 a day. */
  lemma NegativeBudgetSplit(meals: seq<Meal>)
    requires IsMealPlan(meals, -1000, "regular", "no")
    ensures forall k :: 0 <= k < |meals| ==> meals[k].calories == -334
    ensures TotalCalories(meals[0..3]) == -1002
  {
    DailyCaloriesWithinBudget(meals, -1000, "regular", "no", 1);
  }

  /** Legs, arms, legs again and an unknown area: squats, curls, squats. */
  lemma AreaExercisesExample()
    ensures DayExercises(["legs", "arms", "legs", "yoga"]) ==
      [Exercise("Приседания", 4, Count(15)), Exercise("Сгибания на бицепс", 3, Count(12)),
       Exercise("Приседания", 4, Count(15))]
  {
    var areas := ["legs", "arms", "legs", "yoga"];
    assert "full_body" !in areas;
    var squat, curl := Exercise("Приседания", 4, Count(15)), Exercise("Сгибания на бицепс", 3, Count(12));
    assert AreaContribution("legs") == [squat];
    assert AreaContribution("arms") == [curl];
    assert AreaContribution("yoga") == [];
    assert AreaExercises(["legs"]) == [squat] by { assert ["legs"][..0] == []; }
    assert AreaExercises(["legs", "arms"]) == [squat, curl] by { assert ["legs", "arms"][..1] == ["legs"]; }
    assert AreaExercises(["legs", "arms", "legs"]) == [squat, curl, squat] by {
      assert ["legs", "arms", "legs"][..2] == ["legs", "arms"];
    }
    assert AreaExercises(areas) == [squat, curl, squat] by {
      assert areas[..3] == ["legs", "arms", "legs"];
    }
  }
}
