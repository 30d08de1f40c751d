/**
 * The records of the application that the metrics and the relay handlers read:
 * the user profile, one day's statistics, one logged food entry and one day of
 * the weekly history. The string unions of the TypeScript declarations become
 * enumerations, and `*Key` gives back the string each case stands for.
 */
module Profile {
  import opened Wrappers

  datatype Gender = Male | Female | Other

  datatype ActivityLevel = Sedentary | Light | Moderate | Active | VeryActive

  datatype Goal = Lose | Maintain | Gain

  /** The profile fields the core reads. `currentWeight` is in kg, `height` in cm, `age` in years. */
  datatype User = User(
    id: string,
    currentWeight: real,
    targetWeight: real,
    height: real,
    age: real,
    gender: Gender,
    activityLevel: ActivityLevel,
    goal: Goal,
    dietaryRestrictions: seq<string>,
    healthConditions: seq<string>)

  /** Grams of each macronutrient. */
  datatype Macros = Macros(protein: real, carbs: real, fat: real)

  /** One day's totals: kcal eaten and burned, ml of water, minutes of activity. */
  datatype DailyStats = DailyStats(
    caloriesConsumed: int,
    caloriesBurned: int,
    waterIntake: int,
    activityMinutes: int,
    macros: Macros)

  /** One logged food item; only the nutrient fields matter to the core. */
  datatype FoodEntry = FoodEntry(foodName: string, calories: real, protein: real, carbs: real, fat: real)

  /** One day of the weekly history sent to the progress analysis. */
  datatype WeeklySample = WeeklySample(weight: real, caloriesConsumed: real, caloriesBurned: real)

  function GenderKey(g: Gender): string {
    match g
    case Male => "male"
    case Female => "female"
    case Other => "other"
  }

  function LevelKey(l: ActivityLevel): string {
    match l
    case Sedentary => "sedentary"
    case Light => "light"
    case Moderate => "moderate"
    case Active => "active"
    case VeryActive => "very_active"
  }

  /** Position of a level in the order sedentary, light, moderate, active, very_active. */
  function LevelRank(l: ActivityLevel): nat {
    match l
    case Sedentary => 0
    case Light => 1
    case Moderate => 2
    case Active => 3
    case VeryActive => 4
  }

  function GoalKey(g: Goal): string {
    match g
    case Lose => "lose"
    case Maintain => "maintain"
    case Gain => "gain"
  }

  /** The activity level a key string names, if any. */
  function ParseLevel(k: string): (l: Option<ActivityLevel>)
    ensures l.Some? ==> LevelKey(l.value) == k
  {
    if k == "sedentary" then Some(Sedentary)
    else if k == "light" then Some(Light)
    else if k == "moderate" then Some(Moderate)
    else if k == "active" then Some(Active)
    else if k == "very_active" then Some(VeryActive)
    else None
  }

  /** The goal a key string names, if any. */
  function ParseGoal(k: string): (g: Option<Goal>)
    ensures g.Some? ==> GoalKey(g.value) == k
  {
    if k == "lose" then Some(Lose)
    else if k == "maintain" then Some(Maintain)
    else if k == "gain" then Some(Gain)
    else None
  }

  /** Every level's key is read back as that level. */
  lemma LevelKeyRoundTrip(l: ActivityLevel)
    ensures ParseLevel(LevelKey(l)) == Some(l)
  {
  }

  /** Every goal's key is read back as that goal. */
  lemma GoalKeyRoundTrip(g: Goal)
    ensures ParseGoal(GoalKey(g)) == Some(g)
  {
  }
}
