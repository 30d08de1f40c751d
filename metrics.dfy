/**
 * The metrics engine: energy targets (Mifflin-St Jeor BMR, TDEE, daily calorie
 * goal), the weight-progress record, the calorie-balance verdict, the macro
 * breakdown, the coaching sentence, the deficiency list and the relative-time
 * label. JavaScript numbers are exact reals or integers here; `Math.round(x)` is
 * `floor(x + 0.5)`; the clock is a parameter.
 */
module Metrics {
  import opened Wrappers
  import opened Text
  import opened Profile
  import opened Constants

  // ---------------------------------------------------------------------------
  // Rounding

  /** JavaScript `Math.round`: the nearest integer, halves rounded up. */
  function Round(x: real): (r: int)
    ensures r as real <= x + 0.5 < r as real + 1.0
  {
    (x + 0.5).Floor
  }

  /** Only one integer lies within the half-open window that defines Round. */
  lemma RoundUnique(x: real, n: int)
    requires n as real <= x + 0.5 < n as real + 1.0
    ensures Round(x) == n
  {
  }

  /** Rounding commutes with adding a whole number. */
  lemma RoundShift(x: real, k: int)
    ensures Round(x + k as real) == Round(x) + k
  {
    RoundUnique(x + k as real, Round(x) + k);
  }

  // ---------------------------------------------------------------------------
  // Energy

  /** Mifflin-St Jeor basal metabolic rate (kcal/day); 'female' and 'other' share a branch. */
  function Bmr(weight: real, height: real, age: real, gender: Gender): real {
    if gender == Male then 10.0 * weight + 6.25 * height - 5.0 * age + 5.0
    else 10.0 * weight + 6.25 * height - 5.0 * age - 161.0
  }

  /** For the same body, the male BMR exceeds the female and 'other' BMR by exactly 166,
      and 'other' is computed as female. */
  lemma BmrGenderGap(weight: real, height: real, age: real)
    ensures Bmr(weight, height, age, Male) - Bmr(weight, height, age, Female) == 166.0
    ensures Bmr(weight, height, age, Other) == Bmr(weight, height, age, Female)
  {
  }

  /** BMR of a profile, reading the weight from `currentWeight`. */
  function BmrOf(u: User): real {
    Bmr(u.currentWeight, u.height, u.age, u.gender)
  }

  /** `Math.round(bmr * multiplier)` */
  function ScaledBmr(bmr: real, level: ActivityLevel): int {
    Round(bmr * CalorieMultiplier(level))
  }

  /** `Math.round(tdee + adjustment)` */
  function AdjustedGoal(tdee: int, goal: Goal): int {
    Round(tdee as real + GoalAdjustment(goal) as real)
  }

  /** Total daily energy expenditure: the BMR scaled by the activity multiplier, rounded. */
  function Tdee(u: User): (t: int)
    ensures t as real - 0.5 <= BmrOf(u) * CalorieMultiplier(u.activityLevel) < t as real + 0.5
  {
    ScaledBmr(BmrOf(u), u.activityLevel)
  }

  /** Daily calorie goal: the rounded TDEE plus the goal adjustment. */
  function DailyCalorieGoal(u: User): int {
    AdjustedGoal(Tdee(u), u.goal)
  }

  /** The second rounding does nothing: the goal is the TDEE plus the adjustment. */
  lemma DailyGoalIsTdeePlusAdjustment(u: User)
    ensures DailyCalorieGoal(u) == Tdee(u) + GoalAdjustment(u.goal)
  {
    RoundShift(0.0, Tdee(u) + GoalAdjustment(u.goal));
  }

  /** For one profile, the 'gain' goal is 800 kcal above the 'lose' goal and the
      'maintain' goal is the TDEE itself. */
  lemma DailyGoalSpread(u: User)
    ensures DailyCalorieGoal(u.(goal := Gain)) - DailyCalorieGoal(u.(goal := Lose)) == 800
    ensures DailyCalorieGoal(u.(goal := Maintain)) == Tdee(u)
    ensures DailyCalorieGoal(u.(goal := Lose)) < DailyCalorieGoal(u.(goal := Maintain)) < DailyCalorieGoal(u.(goal := Gain))
  {
    GoalOnlyAdjusts(u, Gain);
    GoalOnlyAdjusts(u, Lose);
    GoalOnlyAdjusts(u, Maintain);
    AdjustmentSpread();
  }

  /** Changing the goal leaves the TDEE alone and only changes the adjustment. */
  lemma GoalOnlyAdjusts(u: User, g: Goal)
    ensures DailyCalorieGoal(u.(goal := g)) == Tdee(u) + GoalAdjustment(g)
  {
    var v := u.(goal := g);
    assert BmrOf(v) == BmrOf(u);
    DailyGoalIsTdeePlusAdjustment(v);
  }

  /** A male of 70 kg, 170 cm, 30 years, moderately active, losing weight:
      BMR 1617.5, TDEE round(2507.125) = 2507, goal 2007. */
  lemma DailyGoalExample()
    ensures var u := User("u", 70.0, 65.0, 170.0, 30.0, Male, Moderate, Lose, [], []);
      BmrOf(u) == 1617.5 && Tdee(u) == 2507 && DailyCalorieGoal(u) == 2007
  {
    var u := User("u", 70.0, 65.0, 170.0, 30.0, Male, Moderate, Lose, [], []);
    assert BmrOf(u) == 1617.5;
    assert CalorieMultiplier(Moderate) == 1.55 by { ActivityTablesAgree(); }
    RoundUnique(1617.5 * 1.55, 2507);
    DailyGoalIsTdeePlusAdjustment(u);
  }

  // ---------------------------------------------------------------------------
  // The BMR as the source writes it

  /** A JavaScript number: finite, or NaN. */
  datatype JsNumber = Finite(value: real) | NaN

  /** `calculateBMR` reads `user.weight`, which the User record does not declare;
      `weightProperty` is what that lookup finds on the object at run time
      (None: `undefined`, so every product with it is NaN). */
  function BmrAsWritten(u: User, weightProperty: Option<real>): JsNumber {
    match weightProperty
    case None => NaN
    case Some(w) => Finite(Bmr(w, u.height, u.age, u.gender))
  }

  /** `calculateDailyCalorieGoal` as written: NaN flows through the multiplication,
      both `Math.round` calls and the addition. */
  function DailyCalorieGoalAsWritten(u: User, weightProperty: Option<real>): JsNumber {
    match BmrAsWritten(u, weightProperty)
    case NaN => NaN
    case Finite(b) => Finite(AdjustedGoal(ScaledBmr(b, u.activityLevel), u.goal) as real)
  }

  /** On a User object (which carries `currentWeight` and no `weight`) the goal as
      written is NaN for every profile. */
  lemma GoalAsWrittenIsNaN(u: User)
    ensures DailyCalorieGoalAsWritten(u, None) == NaN
  {
  }

  /** Had the object carried `weight == currentWeight`, the source would compute the
      corrected goal. */
  lemma GoalAsWrittenAgreesWithCorrected(u: User)
    ensures DailyCalorieGoalAsWritten(u, Some(u.currentWeight)) == Finite(DailyCalorieGoal(u) as real)
  {
    assert BmrAsWritten(u, Some(u.currentWeight)) == Finite(BmrOf(u));
  }

  // ---------------------------------------------------------------------------
  // Weight progress

  datatype WeightProgress = WeightProgress(current: real, target: real, remaining: real, percentage: real)

  function Abs(x: real): (r: real)
    ensures r >= 0.0 && (r == x || r == -x)
  {
    if x < 0.0 then -x else x
  }

  /** `Math.min(x, 100)` */
  function AtMost100(x: real): (r: real)
    ensures r <= 100.0 && (r == x || r == 100.0)
  {
    if x < 100.0 then x else 100.0
  }

  /** `calculateWeightProgress` as written: the distance already covered is computed
      from the current weight twice, so it is always zero. */
  function CalculateWeightProgress(u: User): (p: WeightProgress)
    ensures p.current == u.currentWeight && p.target == u.targetWeight
    ensures p.remaining == Abs(u.currentWeight - u.targetWeight)
    ensures p.percentage == 0.0
  {
    var totalToLose := Abs(u.currentWeight - u.targetWeight);
    var remaining := Abs(u.currentWeight - u.targetWeight);
    var lost := totalToLose - remaining;
    var percentage := if totalToLose > 0.0 then (lost / totalToLose) * 100.0 else 0.0;
    WeightProgress(u.currentWeight, u.targetWeight, remaining, AtMost100(percentage))
  }

  /** Progress measured from a starting weight: the share of the start-to-target
      distance already covered, capped at 100. */
  function WeightProgressFrom(start: real, current: real, target: real): (p: WeightProgress)
    ensures p.current == current && p.target == target
    ensures p.remaining == Abs(current - target)
    ensures p.percentage <= 100.0
  {
    var totalToLose := Abs(start - target);
    var remaining := Abs(current - target);
    var lost := totalToLose - remaining;
    var percentage := if totalToLose > 0.0 then (lost / totalToLose) * 100.0 else 0.0;
    WeightProgress(current, target, remaining, AtMost100(percentage))
  }

  /** With a real starting weight the record moves: 0 at the start, 100 at the target,
      and between 0 and 100 whenever the current weight lies between the two. */
  lemma WeightProgressFromMilestones(start: real, current: real, target: real)
    requires start != target
    ensures WeightProgressFrom(start, start, target).percentage == 0.0
    ensures WeightProgressFrom(start, target, target).percentage == 100.0
    ensures (start <= current <= target || target <= current <= start) ==>
      0.0 <= WeightProgressFrom(start, current, target).percentage <= 100.0
  {
    var total := Abs(start - target);
    assert total > 0.0;
    SelfQuotient(total);
    assert Abs(target - target) == 0.0;
    assert total - 0.0 == total;
    if start <= current <= target || target <= current <= start {
      var remaining := Abs(current - target);
      assert remaining <= total;
      NonNegativeQuotient(total - remaining, total);
    }
  }

  lemma SelfQuotient(t: real)
    requires t > 0.0
    ensures t / t == 1.0
  {
  }

  lemma NonNegativeQuotient(a: real, t: real)
    requires a >= 0.0 && t > 0.0
    ensures a / t >= 0.0
  {
  }

  /** The record as written is the corrected record with the current weight standing
      in for the starting weight. */
  lemma WeightProgressUsesCurrentAsStart(u: User)
    ensures CalculateWeightProgress(u) == WeightProgressFrom(u.currentWeight, u.currentWeight, u.targetWeight)
  {
  }

  // ---------------------------------------------------------------------------
  // Calorie balance

  datatype BalanceStatus = Deficit | Surplus | Balanced

  datatype CalorieBalance = CalorieBalance(balance: int, status: BalanceStatus, message: string)

  const BALANCED_MESSAGE := "Você está no caminho certo! Calorias equilibradas."
  const DEFICIT_PREFIX := "Déficit de "
  const DEFICIT_SUFFIX := " calorias. Ótimo para emagrecimento!"
  const SURPLUS_PREFIX := "Superávit de "
  const SURPLUS_SUFFIX := " calorias. Cuidado para não exceder a meta."

  /** Net intake against the goal: within 100 kcal either way is balanced, further
      below is a deficit, further above a surplus; the message quotes the gap. */
  function AnalyzeCalorieBalance(stats: DailyStats, goal: int): (r: CalorieBalance)
    ensures r.balance == stats.caloriesConsumed - stats.caloriesBurned - goal
    ensures r.status == Balanced <==> -100 < r.balance < 100
    ensures r.status == Deficit <==> r.balance <= -100
    ensures r.status == Surplus <==> r.balance >= 100
    ensures r.status == Balanced ==> r.message == BALANCED_MESSAGE
    ensures r.status == Deficit ==> DEFICIT_PREFIX <= r.message
    ensures r.status == Surplus ==> SURPLUS_PREFIX <= r.message
  {
    var netCalories := stats.caloriesConsumed - stats.caloriesBurned;
    var balance := netCalories - goal;
    if -100 < balance < 100 then
      CalorieBalance(balance, Balanced, BALANCED_MESSAGE)
    else if balance < 0 then
      CalorieBalance(balance, Deficit, DEFICIT_PREFIX + NatToString(-balance) + DEFICIT_SUFFIX)
    else
      CalorieBalance(balance, Surplus, SURPLUS_PREFIX + NatToString(balance) + SURPLUS_SUFFIX)
  }

  /** The number a deficit or surplus message quotes, read back from the text. */
  function QuotedAmount(message: string, prefix: string): Option<nat> {
    if prefix <= message then
      var digits := LeadingDigits(message[|prefix|..]);
      if digits == [] then None else Some(DigitsValue(digits))
    else None
  }

  /** The message quotes the size of the gap: reading its number back gives |balance|. */
  lemma BalanceMessageQuotesGap(stats: DailyStats, goal: int)
    ensures var r := AnalyzeCalorieBalance(stats, goal);
      (r.status == Deficit ==> QuotedAmount(r.message, DEFICIT_PREFIX) == Some(-r.balance)) &&
      (r.status == Surplus ==> QuotedAmount(r.message, SURPLUS_PREFIX) == Some(r.balance))
  {
    var r := AnalyzeCalorieBalance(stats, goal);
    if r.status == Deficit {
      var gap: nat := -r.balance;
      assert r.message == DEFICIT_PREFIX + NatToString(gap) + DEFICIT_SUFFIX;
      QuotedBetween(DEFICIT_PREFIX, gap, DEFICIT_SUFFIX);
    } else if r.status == Surplus {
      var gap: nat := r.balance;
      assert r.message == SURPLUS_PREFIX + NatToString(gap) + SURPLUS_SUFFIX;
      QuotedBetween(SURPLUS_PREFIX, gap, SURPLUS_SUFFIX);
    }
  }

  /** A number printed between a prefix and a suffix that does not start with a digit
      is read back whole. */
  lemma QuotedBetween(prefix: string, n: nat, suffix: string)
    requires suffix == [] || !IsDigit(suffix[0])
    ensures QuotedAmount(prefix + NatToString(n) + suffix, prefix) == Some(n)
  {
    var digits := NatToString(n);
    var message := prefix + digits + suffix;
    assert prefix <= message;
    assert message[|prefix|..] == digits + suffix;
    LeadingDigitsOfPrinted(digits, suffix);
    NatToStringRoundTrip(n);
  }

  // ---------------------------------------------------------------------------
  // Macro breakdown

  datatype MacroAnalysis = MacroAnalysis(
    protein: real,
    carbs: real,
    fat: real,
    proteinPercentage: real,
    carbsPercentage: real,
    fatPercentage: real,
    recommendations: seq<string>)

  const PROTEIN_TIP := "Sua ingestão de proteína está baixa. Adicione mais carnes magras, ovos ou leguminosas."
  const CARBS_TIP := "Seu consumo de carboidratos está alto. Considere reduzir pães e massas."
  const FAT_TIP := "Gorduras saudáveis são importantes! Adicione abacate, castanhas ou azeite."

  /** Grams of protein over all entries. */
  function TotalProtein(entries: seq<FoodEntry>): real {
    if entries == [] then 0.0 else TotalProtein(entries[..|entries| - 1]) + entries[|entries| - 1].protein
  }

  /** Grams of carbohydrate over all entries. */
  function TotalCarbs(entries: seq<FoodEntry>): real {
    if entries == [] then 0.0 else TotalCarbs(entries[..|entries| - 1]) + entries[|entries| - 1].carbs
  }

  /** Grams of fat over all entries. */
  function TotalFat(entries: seq<FoodEntry>): real {
    if entries == [] then 0.0 else TotalFat(entries[..|entries| - 1]) + entries[|entries| - 1].fat
  }

  /** kcal from macros at 4 kcal/g for protein and carbohydrate, 9 kcal/g for fat. */
  function MacroCalories(protein: real, carbs: real, fat: real): real {
    protein * 4.0 + carbs * 4.0 + fat * 9.0
  }

  /** Share of `part` in `total` as a percentage; 0 when the total is not positive. */
  function Share(part: real, total: real): real {
    if total > 0.0 then (part / total) * 100.0 else 0.0
  }

  /** The breakdown `analyzeMacros` returns for the given entries. */
  function MacroReport(entries: seq<FoodEntry>): MacroAnalysis {
    var p, c, f := TotalProtein(entries), TotalCarbs(entries), TotalFat(entries);
    var kcal := MacroCalories(p, c, f);
    var pp, cp, fp := Share(p * 4.0, kcal), Share(c * 4.0, kcal), Share(f * 9.0, kcal);
    MacroAnalysis(p, c, f, pp, cp, fp,
      (if pp < 20.0 then [PROTEIN_TIP] else []) +
      (if cp > 50.0 then [CARBS_TIP] else []) +
      (if fp < 20.0 then [FAT_TIP] else []))
  }

  /** `analyzeMacros`: fold the entries into totals, then push one recommendation per
      rule that fires. */
  method AnalyzeMacros(entries: seq<FoodEntry>) returns (r: MacroAnalysis)
    ensures r == MacroReport(entries)
    ensures r.protein == TotalProtein(entries) && r.carbs == TotalCarbs(entries) && r.fat == TotalFat(entries)
    ensures PROTEIN_TIP in r.recommendations <==> r.proteinPercentage < 20.0
    ensures CARBS_TIP in r.recommendations <==> r.carbsPercentage > 50.0
    ensures FAT_TIP in r.recommendations <==> r.fatPercentage < 20.0
  {
    var protein, carbs, fat := 0.0, 0.0, 0.0;
    var i := 0;
    while i < |entries|
      invariant 0 <= i <= |entries|
      invariant protein == TotalProtein(entries[..i])
      invariant carbs == TotalCarbs(entries[..i])
      invariant fat == TotalFat(entries[..i])
    {
      assert entries[..i + 1][..i] == entries[..i];
      protein := protein + entries[i].protein;
      carbs := carbs + entries[i].carbs;
      fat := fat + entries[i].fat;
      i := i + 1;
    }
    assert entries[..|entries|] == entries;
    var totalCalories := protein * 4.0 + carbs * 4.0 + fat * 9.0;
    var proteinPercentage := if totalCalories > 0.0 then (protein * 4.0 / totalCalories) * 100.0 else 0.0;
    var carbsPercentage := if totalCalories > 0.0 then (carbs * 4.0 / totalCalories) * 100.0 else 0.0;
    var fatPercentage := if totalCalories > 0.0 then (fat * 9.0 / totalCalories) * 100.0 else 0.0;
    var recommendations: seq<string> := [];
    if proteinPercentage < 20.0 {
      recommendations := recommendations + [PROTEIN_TIP];
    }
    if carbsPercentage > 50.0 {
      recommendations := recommendations + [CARBS_TIP];
    }
    if fatPercentage < 20.0 {
      recommendations := recommendations + [FAT_TIP];
    }
    r := MacroAnalysis(protein, carbs, fat, proteinPercentage, carbsPercentage, fatPercentage, recommendations);
  }

  /** When the macros carry energy the three shares add up to 100; otherwise all are 0. */
  lemma MacroSharesSumTo100(entries: seq<FoodEntry>)
    ensures var r := MacroReport(entries);
      var kcal := MacroCalories(r.protein, r.carbs, r.fat);
      (kcal > 0.0 ==> r.proteinPercentage + r.carbsPercentage + r.fatPercentage == 100.0) &&
      (kcal <= 0.0 ==> r.proteinPercentage == 0.0 && r.carbsPercentage == 0.0 && r.fatPercentage == 0.0)
  {
    var r := MacroReport(entries);
    var kcal := MacroCalories(r.protein, r.carbs, r.fat);
    if kcal > 0.0 {
      calc {
        r.proteinPercentage + r.carbsPercentage + r.fatPercentage;
        (r.protein * 4.0 / kcal) * 100.0 + (r.carbs * 4.0 / kcal) * 100.0 + (r.fat * 9.0 / kcal) * 100.0;
        ((r.protein * 4.0 + r.carbs * 4.0 + r.fat * 9.0) / kcal) * 100.0;
        (kcal / kcal) * 100.0;
        100.0;
      }
    }
  }

  /** `xs` lists some of the elements of `ys`, in the same order. */
  predicate OrderedSubsequence<T(==)>(xs: seq<T>, ys: seq<T>) {
    if ys == [] then xs == []
    else OrderedSubsequence(xs, ys[1..]) || (xs != [] && xs[0] == ys[0] && OrderedSubsequence(xs[1..], ys[1..]))
  }

  /** Keeping or dropping each of three items independently leaves them in order. */
  lemma SelectionInOrder<T>(x: T, y: T, z: T, a: bool, b: bool, c: bool)
    ensures OrderedSubsequence((if a then [x] else []) + (if b then [y] else []) + (if c then [z] else []), [x, y, z])
  {
    var zs: seq<T> := if c then [z] else [];
    var yzs := (if b then [y] else []) + zs;
    assert OrderedSubsequence(zs, [z]) by {
      assert [z][1..] == [];
      assert OrderedSubsequence<T>([], []);
    }
    assert OrderedSubsequence(yzs, [y, z]) by {
      assert [y, z][1..] == [z];
      if b { assert yzs[1..] == zs; }
    }
    var all := (if a then [x] else []) + yzs;
    assert OrderedSubsequence(all, [x, y, z]) by {
      assert [x, y, z][1..] == [y, z];
      if a { assert all[1..] == yzs; } else { assert all == yzs; }
    }
  }

  /** The recommendations are always drawn, in order and without repetition, from
      protein, carbohydrate, fat. */
  lemma RecommendationsInOrder(entries: seq<FoodEntry>)
    ensures OrderedSubsequence(MacroReport(entries).recommendations, [PROTEIN_TIP, CARBS_TIP, FAT_TIP])
  {
    var r := MacroReport(entries);
    SelectionInOrder(PROTEIN_TIP, CARBS_TIP, FAT_TIP, r.proteinPercentage < 20.0, r.carbsPercentage > 50.0, r.fatPercentage < 20.0);
  }

  /** With nothing logged the totals and shares are zero and the advice is exactly:
      more protein, more healthy fat. */
  lemma MacrosOfNothing()
    ensures var r := MacroReport([]);
      r.protein == 0.0 && r.carbs == 0.0 && r.fat == 0.0 &&
      r.proteinPercentage == 0.0 && r.carbsPercentage == 0.0 && r.fatPercentage == 0.0 &&
      r.recommendations == [PROTEIN_TIP, FAT_TIP]
  {
    assert TotalProtein([]) == 0.0 && TotalCarbs([]) == 0.0 && TotalFat([]) == 0.0;
    assert MacroCalories(0.0, 0.0, 0.0) == 0.0;
    assert [PROTEIN_TIP] + [] + [FAT_TIP] == [PROTEIN_TIP, FAT_TIP];
  }

  // ---------------------------------------------------------------------------
  // Coaching sentence

  const EATING_TOO_LITTLE := "Você está comendo muito pouco! Isso pode desacelerar seu metabolismo."
  const OVER_GOAL := "Cuidado! Você ultrapassou sua meta calórica em mais de 20%."
  const ON_TARGET := "Ótimo trabalho mantendo suas calorias dentro da meta!"
  const WATER_VERY_LOW := "⚠️ Sua hidratação está muito baixa! Beba mais água."
  const WATER_EXCELLENT := "💧 Excelente hidratação hoje!"
  const NO_ACTIVITY := "Que tal fazer uma caminhada de 15 minutos hoje?"
  const ACTIVE_ENOUGH := "🏃 Parabéns pelos exercícios! Continue assim!"

  const CALORIE_SENTENCES: set<string> := {EATING_TOO_LITTLE, OVER_GOAL, ON_TARGET}
  const HYDRATION_SENTENCES: set<string> := {WATER_VERY_LOW, WATER_EXCELLENT}
  const ACTIVITY_SENTENCES: set<string> := {NO_ACTIVITY, ACTIVE_ENOUGH}

  /** The calorie sentence: under 70 % of the goal, over 120 % of it, or on target. */
  function CalorieSentence(consumed: int, calorieGoal: int): (s: string)
    ensures s in CALORIE_SENTENCES
    ensures s == EATING_TOO_LITTLE <==> (consumed as real) < (calorieGoal as real) * 0.7
    ensures s == OVER_GOAL <==>
      !((consumed as real) < (calorieGoal as real) * 0.7) && (consumed as real) > (calorieGoal as real) * 1.2
    ensures s == ON_TARGET <==>
      (calorieGoal as real) * 0.7 <= (consumed as real) <= (calorieGoal as real) * 1.2
  {
    if (consumed as real) < (calorieGoal as real) * 0.7 then EATING_TOO_LITTLE
    else if (consumed as real) > (calorieGoal as real) * 1.2 then OVER_GOAL
    else ON_TARGET
  }

  /** At most one hydration sentence: under half the goal, or the goal reached. */
  function HydrationSentence(water: int, waterGoal: int): (s: seq<string>)
    ensures |s| <= 1 && forall i :: 0 <= i < |s| ==> s[i] in HYDRATION_SENTENCES
    ensures s == [] <==> waterGoal * 5 <= water * 10 < waterGoal * 10
    ensures s == [WATER_VERY_LOW] <==> water * 10 < waterGoal * 5
    ensures s == [WATER_EXCELLENT] <==> waterGoal * 5 <= water * 10 && water >= waterGoal
  {
    if (water as real) < (waterGoal as real) * 0.5 then [WATER_VERY_LOW]
    else if water >= waterGoal then [WATER_EXCELLENT]
    else []
  }

  /** At most one activity sentence: no activity yet, or half an hour or more. */
  function ActivitySentence(minutes: int): (s: seq<string>)
    ensures |s| <= 1 && forall i :: 0 <= i < |s| ==> s[i] in ACTIVITY_SENTENCES
    ensures s == [] <==> 0 < minutes < 30 || minutes < 0
    ensures s == [NO_ACTIVITY] <==> minutes == 0
    ensures s == [ACTIVE_ENOUGH] <==> minutes >= 30
  {
    if minutes == 0 then [NO_ACTIVITY]
    else if minutes >= 30 then [ACTIVE_ENOUGH]
    else []
  }

  /** The sentences `generateCoachingMessage` collects, in order: calories,
      hydration, activity. */
  function CoachingSentences(stats: DailyStats, u: User): seq<string> {
    [CalorieSentence(stats.caloriesConsumed, DailyCalorieGoal(u))] +
    HydrationSentence(stats.waterIntake, WaterGoal(u.gender)) +
    ActivitySentence(stats.activityMinutes)
  }

  /** `generateCoachingMessage`: push the sentences that apply, then join them with
      single spaces. */
  method GenerateCoachingMessage(stats: DailyStats, u: User) returns (message: string)
    ensures message == Join(CoachingSentences(stats, u), " ")
  {
    var calorieGoal := DailyCalorieGoal(u);
    var waterGoal := WaterGoal(u.gender);
    var messages: seq<string> := [];
    if (stats.caloriesConsumed as real) < (calorieGoal as real) * 0.7 {
      messages := messages + [EATING_TOO_LITTLE];
    } else if (stats.caloriesConsumed as real) > (calorieGoal as real) * 1.2 {
      messages := messages + [OVER_GOAL];
    } else {
      messages := messages + [ON_TARGET];
    }
    assert messages == [CalorieSentence(stats.caloriesConsumed, calorieGoal)];
    if (stats.waterIntake as real) < (waterGoal as real) * 0.5 {
      messages := messages + [WATER_VERY_LOW];
    } else if stats.waterIntake >= waterGoal {
      messages := messages + [WATER_EXCELLENT];
    }
    assert messages == [CalorieSentence(stats.caloriesConsumed, calorieGoal)] + HydrationSentence(stats.waterIntake, waterGoal);
    if stats.activityMinutes == 0 {
      messages := messages + [NO_ACTIVITY];
    } else if stats.activityMinutes >= 30 {
      messages := messages + [ACTIVE_ENOUGH];
    }
    assert messages == CoachingSentences(stats, u);
    message := Join(messages, " ");
  }

  /** The message opens with exactly one calorie sentence, followed by at most one
      hydration sentence and then at most one activity sentence. */
  lemma CoachingShape(stats: DailyStats, u: User)
    ensures var s := CoachingSentences(stats, u);
      1 <= |s| <= 3 &&
      s[0] in CALORIE_SENTENCES &&
      (forall i :: 1 <= i < |s| ==> s[i] in HYDRATION_SENTENCES || s[i] in ACTIVITY_SENTENCES) &&
      (forall i, j :: 1 <= i < j < |s| ==> s[i] in HYDRATION_SENTENCES && s[j] in ACTIVITY_SENTENCES)
    ensures CalorieSentence(stats.caloriesConsumed, DailyCalorieGoal(u)) <= Join(CoachingSentences(stats, u), " ")
  {
    var h := HydrationSentence(stats.waterIntake, WaterGoal(u.gender));
    var a := ActivitySentence(stats.activityMinutes);
    var s := CoachingSentences(stats, u);
    assert s[1..] == h + a;
  }

  /** The calorie sentence as the source picks it, from the goal as written: every
      comparison with NaN is false, so a NaN goal always falls through to ON_TARGET,
      whatever was eaten. */
  function CalorieSentenceAsWritten(consumed: int, u: User, weightProperty: Option<real>): (s: string)
    ensures weightProperty.None? ==> s == ON_TARGET
    ensures weightProperty == Some(u.currentWeight) ==> s == CalorieSentence(consumed, DailyCalorieGoal(u))
  {
    GoalAsWrittenAgreesWithCorrected(u);
    match DailyCalorieGoalAsWritten(u, weightProperty)
    case NaN => ON_TARGET
    case Finite(g) =>
      if (consumed as real) < g * 0.7 then EATING_TOO_LITTLE
      else if (consumed as real) > g * 1.2 then OVER_GOAL
      else ON_TARGET
  }

  /** As written, a day with nothing eaten still earns the on-target sentence, where
      the corrected goal (positive for any profile whose TDEE exceeds 500 kcal) warns
      about eating too little. */
  lemma NothingEatenAsWrittenIsOnTarget(u: User)
    requires DailyCalorieGoal(u) > 0
    ensures CalorieSentenceAsWritten(0, u, None) == ON_TARGET
    ensures CalorieSentence(0, DailyCalorieGoal(u)) == EATING_TOO_LITTLE
  {
  }

  // ---------------------------------------------------------------------------
  // Deficiencies

  datatype Area = Hydration | Calories | Activity | NoArea

  datatype Priority = High | Medium | Low

  datatype Deficiency = Deficiency(area: Area, priority: Priority, message: string)

  const HYDRATION_CRITICAL := Deficiency(Hydration, High, "Hidratação crítica! Beba água agora.")
  const HYDRATION_LOW := Deficiency(Hydration, Medium, "Você precisa beber mais água hoje.")
  const CALORIES_LOW := Deficiency(Calories, High, "Você comeu muito pouco hoje!")
  const ACTIVITY_MISSING := Deficiency(Activity, Medium, "Ainda não se exercitou hoje. Que tal uma caminhada?")

  /** The sort key: high 3, medium 2, low 1. */
  function Rank(p: Priority): int {
    match p
    case High => 3
    case Medium => 2
    case Low => 1
  }

  predicate SortedByPriority(s: seq<Deficiency>) {
    forall i, j :: 0 <= i < j < |s| ==> Rank(s[i].priority) >= Rank(s[j].priority)
  }

  /** No two findings concern the same area. */
  predicate DistinctAreas(s: seq<Deficiency>) {
    forall i, j :: 0 <= i < j < |s| ==> s[i].area != s[j].area
  }

  /** Insert `d` before the first element that does not outrank it. */
  function InsertByPriority(d: Deficiency, s: seq<Deficiency>): seq<Deficiency> {
    if s == [] || Rank(d.priority) >= Rank(s[0].priority) then [d] + s
    else [s[0]] + InsertByPriority(d, s[1..])
  }

  /** Insertion adds exactly `d`. */
  lemma {:induction false} InsertAddsOne(d: Deficiency, s: seq<Deficiency>)
    ensures multiset(InsertByPriority(d, s)) == multiset(s) + multiset{d}
    ensures forall x :: x in InsertByPriority(d, s) <==> x == d || x in s
  {
    var r := InsertByPriority(d, s);
    if s != [] && Rank(d.priority) < Rank(s[0].priority) {
      InsertAddsOne(d, s[1..]);
      assert s == [s[0]] + s[1..];
      assert r == [s[0]] + InsertByPriority(d, s[1..]);
    }
    MembershipOfMultiset(r, s, d);
  }

  /** Insertion into a sorted sequence keeps it sorted. */
  lemma {:induction false} InsertSorted(d: Deficiency, s: seq<Deficiency>)
    requires SortedByPriority(s)
    ensures SortedByPriority(InsertByPriority(d, s))
  {
    HeadBoundsTail(s);
    if s == [] || Rank(d.priority) >= Rank(s[0].priority) {
      ConsSorted(d, s);
    } else {
      var rest := InsertByPriority(d, s[1..]);
      InsertSorted(d, s[1..]);
      InsertAddsOne(d, s[1..]);
      assert forall x :: x in rest ==> Rank(x.priority) <= Rank(s[0].priority);
      ConsSorted(s[0], rest);
    }
  }

  /** Adding one element to a multiset adds exactly that element to the members. */
  lemma MembershipOfMultiset(r: seq<Deficiency>, s: seq<Deficiency>, d: Deficiency)
    requires multiset(r) == multiset(s) + multiset{d}
    ensures forall x :: x in r <==> x == d || x in s
  {
    forall x
      ensures x in r <==> x == d || x in s
    {
      assert x in r <==> x in multiset(r);
      assert x in s <==> x in multiset(s);
    }
  }

  /** In a sorted sequence the head ranks at least as high as every later element. */
  lemma HeadBoundsTail(s: seq<Deficiency>)
    requires SortedByPriority(s)
    ensures s != [] ==> forall x :: x in s[1..] ==> Rank(x.priority) <= Rank(s[0].priority)
  {
    if s != [] {
      forall x | x in s[1..]
        ensures Rank(x.priority) <= Rank(s[0].priority)
      {
        var k :| 0 <= k < |s[1..]| && s[1..][k] == x;
        assert s[k + 1] == x;
      }
    }
  }

  /** Putting an element in front of a sorted sequence whose elements it outranks keeps it sorted. */
  lemma ConsSorted(h: Deficiency, t: seq<Deficiency>)
    requires SortedByPriority(t)
    requires forall x :: x in t ==> Rank(x.priority) <= Rank(h.priority)
    ensures SortedByPriority([h] + t)
  {
    var r := [h] + t;
    forall i, j | 0 <= i < j < |r|
      ensures Rank(r[i].priority) >= Rank(r[j].priority)
    {
      assert r[j] == t[j - 1];
      if i > 0 {
        assert r[i] == t[i - 1];
      } else {
        assert t[j - 1] in t;
      }
    }
  }

  /** `Array.prototype.sort` with the comparator `order[b] - order[a]`: a stable sort
      by descending priority. */
  function SortByPriority(s: seq<Deficiency>): (r: seq<Deficiency>)
    ensures SortedByPriority(r)
    ensures multiset(r) == multiset(s)
    ensures forall x :: x in r <==> x in s
  {
    if s == [] then []
    else
      assert s == [s[0]] + s[1..];
      InsertSorted(s[0], SortByPriority(s[1..]));
      InsertAddsOne(s[0], SortByPriority(s[1..]));
      InsertByPriority(s[0], SortByPriority(s[1..]))
  }

  /** The elements of `s` with priority `p`, in order. */
  function WithPriority(s: seq<Deficiency>, p: Priority): seq<Deficiency> {
    if s == [] then []
    else (if s[0].priority == p then [s[0]] else []) + WithPriority(s[1..], p)
  }

  /** Insertion puts `d` among the elements of its own priority after none of them. */
  lemma {:induction false} InsertKeepsPriorityClasses(d: Deficiency, s: seq<Deficiency>, p: Priority)
    ensures WithPriority(InsertByPriority(d, s), p) == (if d.priority == p then [d] else []) + WithPriority(s, p)
  {
    if s == [] || Rank(d.priority) >= Rank(s[0].priority) {
      assert ([d] + s)[1..] == s;
    } else {
      var rest := InsertByPriority(d, s[1..]);
      InsertKeepsPriorityClasses(d, s[1..], p);
      assert ([s[0]] + rest)[1..] == rest;
      if s[0].priority == p {
        assert d.priority != p;
      }
    }
  }

  /** The sort is stable: among findings of equal priority the detection order is kept. */
  lemma {:induction false} SortIsStable(s: seq<Deficiency>, p: Priority)
    ensures WithPriority(SortByPriority(s), p) == WithPriority(s, p)
  {
    if s != [] {
      SortIsStable(s[1..], p);
      InsertKeepsPriorityClasses(s[0], SortByPriority(s[1..]), p);
    }
  }

  lemma {:induction false} InsertKeepsAreasDistinct(d: Deficiency, s: seq<Deficiency>)
    requires SortedByPriority(s) && DistinctAreas(s)
    requires forall x :: x in s ==> x.area != d.area
    ensures DistinctAreas(InsertByPriority(d, s))
  {
    if s != [] && Rank(d.priority) < Rank(s[0].priority) {
      InsertKeepsAreasDistinct(d, s[1..]);
      InsertAddsOne(d, s[1..]);
      var r := InsertByPriority(d, s);
      var rest := InsertByPriority(d, s[1..]);
      assert r == [s[0]] + rest;
      assert forall x :: x in rest ==> x.area != s[0].area;
    }
  }

  /** Sorting never puts two findings of one area side by side when there were none. */
  lemma {:induction false} SortKeepsAreasDistinct(s: seq<Deficiency>)
    requires DistinctAreas(s)
    ensures DistinctAreas(SortByPriority(s))
  {
    if s != [] {
      assert DistinctAreas(s[1..]);
      SortKeepsAreasDistinct(s[1..]);
      InsertKeepsAreasDistinct(s[0], SortByPriority(s[1..]));
    }
  }

  /** `(waterIntake / waterGoal) * 100` */
  function WaterPercentage(stats: DailyStats, g: Gender): real {
    (stats.waterIntake as real / WaterGoal(g) as real) * 100.0
  }

  /** `(caloriesConsumed / calorieGoal) * 100 < 50` in floating point. A zero goal makes
      the share +Infinity (intake above 0), NaN (intake 0) or -Infinity (intake below
      0), and only -Infinity is below 50. */
  predicate CalorieShareBelowHalf(consumed: int, calorieGoal: int) {
    if calorieGoal == 0 then consumed < 0
    else (consumed as real / calorieGoal as real) * 100.0 < 50.0
  }

  function HydrationFinding(stats: DailyStats, g: Gender): seq<Deficiency> {
    var water := WaterPercentage(stats, g);
    if water < 30.0 then [HYDRATION_CRITICAL] else if water < 60.0 then [HYDRATION_LOW] else []
  }

  function CalorieFinding(stats: DailyStats, calorieGoal: int, hour: int): seq<Deficiency> {
    if CalorieShareBelowHalf(stats.caloriesConsumed, calorieGoal) && hour > 18 then [CALORIES_LOW] else []
  }

  /** The calorie rule as the source applies it, from the goal as written:
      `caloriePercentage` is NaN when the goal is, and `NaN < 50` is false, so no
      calorie finding ever appears. */
  function CalorieFindingAsWritten(stats: DailyStats, u: User, weightProperty: Option<real>, hour: int): (s: seq<Deficiency>)
    ensures weightProperty.None? ==> s == []
    ensures weightProperty == Some(u.currentWeight) ==> s == CalorieFinding(stats, DailyCalorieGoal(u), hour)
  {
    GoalAsWrittenAgreesWithCorrected(u);
    match DailyCalorieGoalAsWritten(u, weightProperty)
    case NaN => []
    case Finite(g) =>
      var low := if g == 0.0 then stats.caloriesConsumed < 0
                 else (stats.caloriesConsumed as real / g) * 100.0 < 50.0;
      if low && hour > 18 then [CALORIES_LOW] else []
  }

  function ActivityFinding(stats: DailyStats, hour: int): seq<Deficiency> {
    if stats.activityMinutes == 0 && hour > 16 then [ACTIVITY_MISSING] else []
  }

  /** The findings in the order `detectDeficientAreas` pushes them: hydration,
      calories, activity. `hour` is the local hour of the clock. */
  function DetectedInOrder(stats: DailyStats, u: User, hour: int): (s: seq<Deficiency>)
  {
    HydrationFinding(stats, u.gender) + CalorieFinding(stats, DailyCalorieGoal(u), hour) + ActivityFinding(stats, hour)
  }

  /** Detection yields one finding per area at most, never a low-priority one. */
  lemma DetectedShape(stats: DailyStats, u: User, hour: int)
    ensures var s := DetectedInOrder(stats, u, hour);
      DistinctAreas(s) && |s| <= 3 &&
      (forall x :: x in s ==> x in {HYDRATION_CRITICAL, HYDRATION_LOW, CALORIES_LOW, ACTIVITY_MISSING})
  {
  }

  /** Which findings detection yields, rule by rule. */
  lemma DetectedMembership(stats: DailyStats, u: User, hour: int)
    ensures var s := DetectedInOrder(stats, u, hour);
      (HYDRATION_CRITICAL in s <==> WaterPercentage(stats, u.gender) < 30.0) &&
      (HYDRATION_LOW in s <==> 30.0 <= WaterPercentage(stats, u.gender) < 60.0) &&
      (CALORIES_LOW in s <==> CalorieShareBelowHalf(stats.caloriesConsumed, DailyCalorieGoal(u)) && hour > 18) &&
      (ACTIVITY_MISSING in s <==> stats.activityMinutes == 0 && hour > 16)
  {
    var h := HydrationFinding(stats, u.gender);
    var c := CalorieFinding(stats, DailyCalorieGoal(u), hour);
    var a := ActivityFinding(stats, hour);
    assert forall x :: x in h + c + a <==> x in h || x in c || x in a;
    assert forall x :: x in h ==> x.area == Hydration;
    assert forall x :: x in c ==> x.area == Calories;
    assert forall x :: x in a ==> x.area == Activity;
  }

  /** A list of findings for one day: sorted by priority, one per area at most, no
      low-priority entry, and exactly the findings whose rule fired. */
  predicate ReportsFindings(r: seq<Deficiency>, stats: DailyStats, u: User, hour: int)
  {
    SortedByPriority(r) && DistinctAreas(r) &&
    (HYDRATION_CRITICAL in r <==> WaterPercentage(stats, u.gender) < 30.0) &&
    (HYDRATION_LOW in r <==> 30.0 <= WaterPercentage(stats, u.gender) < 60.0) &&
    (CALORIES_LOW in r <==> CalorieShareBelowHalf(stats.caloriesConsumed, DailyCalorieGoal(u)) && hour > 18) &&
    (ACTIVITY_MISSING in r <==> stats.activityMinutes == 0 && hour > 16) &&
    (forall x :: x in r ==> x in {HYDRATION_CRITICAL, HYDRATION_LOW, CALORIES_LOW, ACTIVITY_MISSING}) &&
    (forall x :: x in r ==> x.priority != Low)
  }

  /** What the sorted list holds: exactly the findings whose rule fired. */
  lemma SortedFindings(stats: DailyStats, u: User, hour: int)
    ensures ReportsFindings(SortByPriority(DetectedInOrder(stats, u, hour)), stats, u, hour)
  {
    var s := DetectedInOrder(stats, u, hour);
    var r := SortByPriority(s);
    DetectedShape(stats, u, hour);
    DetectedMembership(stats, u, hour);
    SortKeepsAreasDistinct(s);
    assert forall x :: x in r <==> x in s;
    assert forall x :: x in r ==> x.priority != Low by {
      forall x | x in r ensures x.priority != Low {
        assert x in {HYDRATION_CRITICAL, HYDRATION_LOW, CALORIES_LOW, ACTIVITY_MISSING};
      }
    }
  }

  /** `detectDeficientAreas`: push the findings of the three rules, then sort them by
      priority. */
  method DetectDeficientAreas(stats: DailyStats, u: User, hour: int) returns (r: seq<Deficiency>)
    ensures r == SortByPriority(DetectedInOrder(stats, u, hour))
    ensures ReportsFindings(r, stats, u, hour)
  {
    var calorieGoal := DailyCalorieGoal(u);
    var waterGoal := WaterGoal(u.gender);
    var deficiencies: seq<Deficiency> := [];
    var waterPercentage := (stats.waterIntake as real / waterGoal as real) * 100.0;
    assert waterPercentage == WaterPercentage(stats, u.gender);
    if waterPercentage < 30.0 {
      deficiencies := deficiencies + [HYDRATION_CRITICAL];
    } else if waterPercentage < 60.0 {
      deficiencies := deficiencies + [HYDRATION_LOW];
    }
    assert deficiencies == HydrationFinding(stats, u.gender);
    var caloriesLow := if calorieGoal == 0 then stats.caloriesConsumed < 0
                       else (stats.caloriesConsumed as real / calorieGoal as real) * 100.0 < 50.0;
    assert caloriesLow == CalorieShareBelowHalf(stats.caloriesConsumed, calorieGoal);
    if caloriesLow && hour > 18 {
      deficiencies := deficiencies + [CALORIES_LOW];
    }
    assert deficiencies == HydrationFinding(stats, u.gender) + CalorieFinding(stats, calorieGoal, hour);
    if stats.activityMinutes == 0 && hour > 16 {
      deficiencies := deficiencies + [ACTIVITY_MISSING];
    }
    assert deficiencies == DetectedInOrder(stats, u, hour);
    r := SortByPriority(deficiencies);
    SortedFindings(stats, u, hour);
  }

  /** As written, `detectDeficientAreas` never reports eating too little, even for a
      day with nothing eaten late in the evening, which the corrected goal flags. */
  lemma NoCalorieFindingAsWritten(stats: DailyStats, u: User, hour: int)
    ensures CALORIES_LOW !in SortByPriority(HydrationFinding(stats, u.gender) +
                                            CalorieFindingAsWritten(stats, u, None, hour) +
                                            ActivityFinding(stats, hour))
    ensures stats.caloriesConsumed == 0 && DailyCalorieGoal(u) > 0 && hour > 18 ==>
      CALORIES_LOW in SortByPriority(DetectedInOrder(stats, u, hour))
  {
    var h := HydrationFinding(stats, u.gender);
    var a := ActivityFinding(stats, hour);
    var asWritten := h + CalorieFindingAsWritten(stats, u, None, hour) + a;
    assert asWritten == h + a;
    assert CALORIES_LOW !in asWritten by {
      assert forall x :: x in h ==> x.area == Hydration;
      assert forall x :: x in a ==> x.area == Activity;
    }
    if stats.caloriesConsumed == 0 && DailyCalorieGoal(u) > 0 && hour > 18 {
      var c := CalorieFinding(stats, DailyCalorieGoal(u), hour);
      assert c == [CALORIES_LOW];
      assert DetectedInOrder(stats, u, hour)[|h|] == CALORIES_LOW;
    }
  }

  /** Water as a share of the goal, in whole numbers: below 30 % means fewer than
      900 ml for a man and 750 ml otherwise. */
  lemma HydrationThresholds(stats: DailyStats, g: Gender)
    ensures WaterPercentage(stats, g) < 30.0 <==> stats.waterIntake * 10 < 3 * WaterGoal(g)
    ensures WaterPercentage(stats, g) < 60.0 <==> stats.waterIntake * 10 < 6 * WaterGoal(g)
  {
  }

  // ---------------------------------------------------------------------------
  // Relative time

  /** How long ago something happened, in the unit the label uses. */
  datatype Elapsed = JustNow | MinutesAgo(minutes: nat) | HoursAgo(hours: nat) | DaysAgo(days: nat)

  /** Whole seconds between two instants given in ms, `Math.floor(diff / 1000)`. */
  function ElapsedSeconds(nowMs: int, thenMs: int): (s: int)
    ensures s * 1000 <= nowMs - thenMs < s * 1000 + 1000
  {
    (nowMs - thenMs) / 1000
  }

  /** The unit and count `getRelativeTime` chooses for an elapsed time. */
  function ClassifyElapsed(seconds: int): (e: Elapsed)
    ensures e == JustNow <==> seconds < 60
    ensures e.MinutesAgo? ==> 1 <= e.minutes < 60 && e.minutes * 60 <= seconds < e.minutes * 60 + 60
    ensures e.HoursAgo? ==> 1 <= e.hours < 24 && e.hours * 3600 <= seconds < e.hours * 3600 + 3600
    ensures e.DaysAgo? ==> 1 <= e.days && e.days * 86400 <= seconds < e.days * 86400 + 86400
  {
    if seconds < 60 then JustNow
    else if seconds < 3600 then MinutesAgo(seconds / 60)
    else if seconds < 86400 then HoursAgo(seconds / 3600)
    else DaysAgo(seconds / 86400)
  }

  function Count(e: Elapsed): nat {
    match e
    case JustNow => 0
    case MinutesAgo(m) => m
    case HoursAgo(h) => h
    case DaysAgo(d) => d
  }

  function UnitText(e: Elapsed): string {
    match e
    case JustNow => "agora"
    case MinutesAgo(_) => "min atrás"
    case HoursAgo(_) => "h atrás"
    case DaysAgo(_) => "d atrás"
  }

  /** The label: "agora", or the count followed by its unit. */
  function RenderElapsed(e: Elapsed): string {
    if e.JustNow? then UnitText(e) else NatToString(Count(e)) + UnitText(e)
  }

  /** `getRelativeTime`, with the current time passed in. */
  function GetRelativeTime(nowMs: int, thenMs: int): string {
    RenderElapsed(ClassifyElapsed(ElapsedSeconds(nowMs, thenMs)))
  }

  /** Distinct elapsed classes never print alike: the label can be read back. */
  lemma RenderElapsedInjective(a: Elapsed, b: Elapsed)
    requires a != b
    ensures RenderElapsed(a) != RenderElapsed(b)
  {
    var ra, rb := RenderElapsed(a), RenderElapsed(b);
    if a.JustNow? || b.JustNow? {
      var other := if a.JustNow? then b else a;
      assert IsDigit(RenderElapsed(other)[0]);
      assert !IsDigit("agora"[0]);
    } else {
      var da, db := NatToString(Count(a)), NatToString(Count(b));
      LeadingDigitsOfPrinted(da, UnitText(a));
      LeadingDigitsOfPrinted(db, UnitText(b));
      if Count(a) != Count(b) {
        NatToStringRoundTrip(Count(a));
        NatToStringRoundTrip(Count(b));
        assert LeadingDigits(ra) != LeadingDigits(rb);
      } else {
        assert UnitText(a) != UnitText(b);
        assert ra[|da|..] == UnitText(a);
        assert rb[|db|..] == UnitText(b);
      }
    }
  }
}
