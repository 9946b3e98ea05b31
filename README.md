# Onboarding flow and plan generators of "Худей за 30 дней"

This project is a Dafny model of two small pieces of the fitness app.

- **`Onboarding`** (`onboarding.dfy`) models the onboarding wizard. It has a step index over five screens and a four-field answer record: current weight, target weight, current body type and target body type. `nextStep` moves one screen forward. On the last screen it hands the record to `onComplete` instead. `updateData` overwrites one field of the record. The two option tables feed the pickers: weights 40..160 and body-type ids 1..5.
  - The component's two state cells are the fields of the class `Flow`. A ghost field logs every `onComplete` emission.
  - The same transitions are also written as a pure function `Apply` over `FlowState` values. `Run` applies a sequence of user actions. The methods of `Flow` are proved equal to `Apply`. The lemmas about whole click sequences are stated over `Run`.
- **`GeneratePlan`** (`generate_plan.dfy`) models the plan service's two generators.
  - `generate_workouts` builds a 30-day programme. Which exercises appear depends on the requested body areas. Duration and calories depend on the target body type.
  - `generate_meals` builds a 7-day plan of three or four meals a day. The daily calorie budget is split by floor division.
  - Both are methods with the source's nested loops. They are proved against spec functions and predicates (`DayExercises`, `DayName`, `IsMealPlan`), and the lemmas state the plan-level properties.

Integers are unbounded `int`. The source's numbers here are small integers, and Python's `//` by a positive divisor is floor division, which is what Dafny's `/` computes for a positive divisor. Strings are `seq<char>`, and the Cyrillic exercise, recipe and meal-type names are kept verbatim.

The flow only moves forward. It has no multi-select answers and no "submitted" state: on the last screen every further click emits the record again.

## Model

| member | source | states |
|---|---|---|
| `Onboarding.With` | src/components/OnboardingFlow.tsx:29-31 | the updated record holds `v` in field `f` and keeps the other three fields |
| `Onboarding.Weights` | src/components/OnboardingFlow.tsx:49 | the weight options: 121 entries from 40 to 160 |
| `Onboarding.BodyTypeIds` | src/components/OnboardingFlow.tsx:41-47 | the ids of the five body-type cards, 1 to 5 in display order |
| `Onboarding.WeightsStrictlyIncreasing` | src/components/OnboardingFlow.tsx:49 | the weight option list has 121 entries, strictly increasing |
| `Onboarding.WeightOptionsAreRange` | src/components/OnboardingFlow.tsx:49 | a weight is offered exactly when it lies in [40, 160] |
| `Onboarding.BodyTypeIdsAreRange` | src/components/OnboardingFlow.tsx:41-47 | a body-type id is offered exactly when it lies in [1, 5] |
| `Onboarding.Options` | src/components/OnboardingFlow.tsx:150-233 | the weight fields are picked from [40, 160] and the body fields from [1, 5] |
| `Onboarding.DefaultsInRange` | src/components/OnboardingFlow.tsx:19-24 | the default record {70, 65, 3, 4} holds only offered values |
| `Onboarding.Apply` | src/components/OnboardingFlow.tsx:29-38 | one `nextStep` or `updateData` call; it keeps the step in [0, 4] and only appends emissions; step plus emissions grows by one per `nextStep`; `nextStep` never changes the record |
| `Onboarding.NextSemantics` | src/components/OnboardingFlow.tsx:33-38 | below the last step `nextStep` adds exactly one and emits nothing; on step 4 it emits the current record and stays on 4; the record never changes |
| `Onboarding.UpdateSemantics` | src/components/OnboardingFlow.tsx:29-31 | `updateData(f, v)` sets `f` to `v`, keeps the other fields, the step and the emissions |
| `Onboarding.RunKeepsStepInRange` | src/components/OnboardingFlow.tsx:18-38 | across any sequence of `nextStep`/`updateData` calls the step stays in [0, 4] |
| `Onboarding.RunCountsForwardClicks` | src/components/OnboardingFlow.tsx:33-38 | emissions are only appended; step plus number of emissions grows by exactly the number of `nextStep` calls |
| `Onboarding.RunNexts` | src/components/OnboardingFlow.tsx:33-38 | `n` clicks climb to step 4, leave the record alone, and each click past step 4 emits the same record again (no reentrancy guard) |
| `Onboarding.DefaultScenario` | src/components/OnboardingFlow.tsx:18-38 | from mount, four clicks reach step 4 with nothing emitted; the fifth emits the default record; the sixth emits it again |
| `Onboarding.PickedValuesStayInRange` | src/components/OnboardingFlow.tsx:150-233 | when every edit comes from a picker, the record and every emitted record stay within the option tables |
| `Onboarding.CompletedRecordsInRange` | src/components/OnboardingFlow.tsx:18-49 | every record emitted after picker-only edits has weights in [40, 160] and body ids in [1, 5] |
| `Onboarding.Flow.constructor` | src/components/OnboardingFlow.tsx:18-24 | the flow mounts on step 0 with the default record and nothing emitted |
| `Onboarding.Flow.NextStep` | src/components/OnboardingFlow.tsx:33-38 | `nextStep` on the state cells: emits `data` on step 4, otherwise increments `step`; keeps `data` and the step range |
| `Onboarding.Flow.UpdateData` | src/components/OnboardingFlow.tsx:29-31 | `updateData` on the state cells: replaces one field, leaves the others, `step` and the emissions unchanged |
| `Onboarding.FiveClicks` | src/components/OnboardingFlow.tsx:18-38 | a client of `Flow`: five clicks with no edits end on step 4 having emitted the default record once |
| `GeneratePlan.BaseWorkouts` | backend/generate-plan/index.py:124-145 | the exercise templates: exactly the areas chest, arms, abs, legs and full_body, two exercises each |
| `GeneratePlan.Take` | backend/generate-plan/index.py:156 | the slice `[:n]`: a prefix of at most `n` elements |
| `GeneratePlan.AreaContribution` | backend/generate-plan/index.py:154-156 | a known area contributes exactly its first exercise, an unknown one nothing |
| `GeneratePlan.AreaExercises` | backend/generate-plan/index.py:153-156 | the area-by-area exercise list, never longer than the request |
| `GeneratePlan.DayExercises` | backend/generate-plan/index.py:149-156 | a day's exercises: exactly two when `full_body` is requested, otherwise at most one per requested area |
| `GeneratePlan.Duration` | backend/generate-plan/index.py:158-159 | the session lasts 45 minutes exactly when `target_body >= 4`, otherwise 30 |
| `GeneratePlan.CaloriesBurnt` | backend/generate-plan/index.py:158-160 | the session burns 350 calories exactly when `target_body >= 4`, otherwise 250 |
| `GeneratePlan.TitleArea` | backend/generate-plan/index.py:163 | the area in the title is the first requested area, or "full_body" when none is requested |
| `GeneratePlan.Decimal` | backend/generate-plan/index.py:163 | the day number is rendered as a non-empty string of decimal digits with no leading zero |
| `GeneratePlan.DayName` | backend/generate-plan/index.py:163 | a day's title "День <n>: Тренировка <area>"; its length is the parts' lengths plus the 18 fixed characters |
| `GeneratePlan.DayNameLayout` | backend/generate-plan/index.py:163 | a title is "День ", the day number, ": Тренировка " and the area, in that order |
| `GeneratePlan.DecimalRoundTrip` | backend/generate-plan/index.py:163 | reading the rendered day number back gives the day number |
| `GeneratePlan.DayNamesDistinct` | backend/generate-plan/index.py:163 | different days of one programme get different titles |
| `GeneratePlan.FirstAndLastTitles` | backend/generate-plan/index.py:148-163 | the first title begins "День 1" and the last "День 30" |
| `GeneratePlan.FullBodyOverrides` | backend/generate-plan/index.py:151-152 | with `full_body` requested, a day holds exactly Burpees and Jumping Jacks, whatever else is listed |
| `GeneratePlan.AreaExercisesAreFirsts` | backend/generate-plan/index.py:153-156 | otherwise a day holds, in list order, the first exercise of each recognised area; its length is the number of recognised entries, at most the number requested |
| `GeneratePlan.RecognizedMembers` | backend/generate-plan/index.py:155 | an area contributes exactly when it is requested and has a template |
| `GeneratePlan.AreaExercisesAppend` | backend/generate-plan/index.py:154-156 | the exercise list of concatenated requests is the concatenation of their lists, so order is kept and duplicates repeat |
| `GeneratePlan.AreaExercisesExample` | backend/generate-plan/index.py:124-156 | legs, arms, legs, and an unknown area give squats, curls, squats |
| `GeneratePlan.GenerateWorkouts` | backend/generate-plan/index.py:121-169 | exactly 30 days titled "День k: Тренировка <first area or full_body>" in order, each with the same exercises, duration 45/30 and calories 350/250 by `target_body >= 4` |
| `GeneratePlan.VegetarianMeals` | backend/generate-plan/index.py:178-185 | the three vegetarian recipe templates |
| `GeneratePlan.RegularMeals` | backend/generate-plan/index.py:187-194 | the three regular recipe templates |
| `GeneratePlan.MealTypes` | backend/generate-plan/index.py:197 | the four meal types, pairwise different |
| `GeneratePlan.MealList` | backend/generate-plan/index.py:196 | the recipe list is the vegetarian one exactly when `diet == 'vegetarian'`, otherwise the regular one |
| `GeneratePlan.MealsPerDay` | backend/generate-plan/index.py:175 | four meals a day exactly when `meal_schedule == 'yes'`, otherwise three |
| `GeneratePlan.Serve` | backend/generate-plan/index.py:202-205 | a served meal keeps the recipe's name, macros and ingredients and carries the given day, type and calories |
| `GeneratePlan.PlannedMeal` | backend/generate-plan/index.py:199-206 | entry k of a plan: its day is at least 1, its type is one of the meal types, and its calories are the floor share c // m (m·cal ≤ c < m·cal + m) |
| `GeneratePlan.IsMealPlan` | backend/generate-plan/index.py:199-206 | the whole plan entry by entry; a plan has 28 entries when `meal_schedule == 'yes'` and 21 otherwise |
| `GeneratePlan.GenerateMeals` | backend/generate-plan/index.py:172-208 | 7·m entries; entry k is meal type `k % m` of day `k // m + 1`, recipe `(k % m) % 3` of the diet's list, calories `daily_calories // m` |
| `GeneratePlan.MealPlanDays` | backend/generate-plan/index.py:199-204 | every entry's day is in 1..7, day d is exactly the block of entries (d-1)·m .. d·m, and meal types run in table order within it |
| `GeneratePlan.RecipeListsDisjoint` | backend/generate-plan/index.py:178-194 | no regular recipe has the name of a vegetarian recipe |
| `GeneratePlan.MealPlanRecipes` | backend/generate-plan/index.py:196-202 | a meal's recipe name is in the vegetarian list if and only if the diet is vegetarian, and otherwise in the regular list; the snack repeats the breakfast recipe |
| `GeneratePlan.DailyCaloriesWithinBudget` | backend/generate-plan/index.py:176-205 | each day's meals sum to m·(daily_calories // m): at most the budget and more than budget − m, negative budgets included |
| `GeneratePlan.ThreeMealSplit` | backend/generate-plan/index.py:175-205 | a 1000-calorie budget with three meals gives 21 entries of 333 calories |
| `GeneratePlan.NegativeBudgetSplit` | backend/generate-plan/index.py:176-205 | a budget of −1000 over three meals gives −334 per meal (floor division), −1002 a day |

## Left out

- The dashboard page (`src/pages/Index.tsx`) is not part of this model. It shows mock data, uses random numbers and float chart heights, and its only state is tab and overlay toggles.
- The wheel picker's scroll handler (`OnboardingFlow.tsx:57-65`) reads the DOM scroll position and rounds a float. The model instead takes a picked weight to be any entry of the option list (`Picked`).
- The progress percentage (`OnboardingFlow.tsx:27`, `104-105`) is float arithmetic for display. It is left out, and so is all rendering.
- `Onboarding.Flow.NextStep` reads the current `step`. The source's `nextStep` reads the `step` captured at render time, while `setStep` applies its increment to the latest value. The two agree when each click is followed by a render. Two calls within one render are not modelled.
- Backward navigation and multi-select toggling do not exist in this version of the flow, so they are not modelled.
- The HTTP `handler` (`index.py:6-118`) is I/O plumbing and is left out: method dispatch, JSON parsing, database inserts, environment variables and the catch-all error response. So is its `workouts[:30]` slice.
- The BMI and calorie-deficit computation (`index.py:44-49`) is floating point and is left out. `GenerateMeals` takes `daily_calories` as an integer parameter, which may be negative.
- `GeneratePlan.GenerateWorkouts` takes `work_areas` as a list of strings and `target_body` as an integer. Other JSON values are not modelled.
  - A missing `target_body` makes the comparison `None >= 4` raise.
  - An area that is a number, boolean or null is skipped by the template lookup and, when it is the first area, it appears in the title.
  - An array or object area raises at the lookup, but only when `full_body` is absent.
  - A string `workArea` is not rejected. The `full_body` test (`index.py:151`) then becomes a substring test, so `"full_body"` sent as a bare string yields Берпи and Jumping Jacks every day. Otherwise the area loop (`index.py:154`) iterates over the characters, none of which is a template key, and the title (`index.py:163`) shows the first character.
  - A null `workArea` raises at the `full_body` test.
- `GeneratePlan.GenerateMeals` builds each meal as a new value. The source shallow-copies a template dict, so the ingredient list is shared with the template. Because the templates are never mutated, this aliasing is not observable and is not modelled.
- `gender` is accepted by `GenerateWorkouts` and, as in the source, not used.
