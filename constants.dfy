/**
 * The lookup tables of the application: activity-level and goal labels, the
 * activity multipliers and goal adjustments used by the energy formulas, the
 * daily water goals and the catalogue of challenges.
 */
module Constants {
  import opened Profile

  const ACTIVITY_LEVELS: map<string, string> := map[
    "sedentary" := "Sedentário",
    "light" := "Levemente Ativo",
    "moderate" := "Moderadamente Ativo",
    "active" := "Muito Ativo",
    "very_active" := "Extremamente Ativo"]

  const GOALS: map<string, string> := map[
    "lose" := "Emagrecer",
    "maintain" := "Manter Peso",
    "gain" := "Ganhar Massa"]

  /** Daily water goal in ml. */
  const WATER_GOALS: map<string, int> := map[
    "male" := 3000,
    "female" := 2500,
    "default" := 2500]

  const CALORIE_MULTIPLIERS: map<string, real> := map[
    "sedentary" := 1.2,
    "light" := 1.375,
    "moderate" := 1.55,
    "active" := 1.725,
    "very_active" := 1.9]

  /** kcal added to the TDEE for each goal. */
  const GOAL_ADJUSTMENTS: map<string, int> := map[
    "lose" := -500,
    "maintain" := 0,
    "gain" := 300]

  datatype Challenge = Challenge(id: string, title: string, kind: string, duration: int, goal: int)

  const CHALLENGES: seq<Challenge> := [
    Challenge("hydration-7", "Desafio de 7 Dias de Hidratação", "hydration", 7, 2000),
    Challenge("sugar-free-30", "Desafio 30 Dias Sem Açúcar", "sugar_free", 30, 30),
    Challenge("steps-10k", "Desafio 10.000 Passos", "steps", 21, 10000)]

  /** The activity levels of the profile and of the multiplier table are the same
      five keys, and each of them is the key of exactly one enumeration case. */
  lemma ActivityTablesAgree()
    ensures ACTIVITY_LEVELS.Keys == CALORIE_MULTIPLIERS.Keys
    ensures forall l: ActivityLevel :: LevelKey(l) in CALORIE_MULTIPLIERS
    ensures forall k :: k in CALORIE_MULTIPLIERS ==> ParseLevel(k).Some?
  {
  }

  /** The goals of the profile and of the adjustment table are the same three keys,
      and each of them is the key of exactly one enumeration case. */
  lemma GoalTablesAgree()
    ensures GOALS.Keys == GOAL_ADJUSTMENTS.Keys
    ensures forall g: Goal :: GoalKey(g) in GOAL_ADJUSTMENTS
    ensures forall k :: k in GOAL_ADJUSTMENTS ==> ParseGoal(k).Some?
  {
  }

  /** `CALORIE_MULTIPLIERS[user.activityLevel]`: total, between 1.2 and 1.9. */
  function CalorieMultiplier(l: ActivityLevel): (m: real)
    ensures 1.2 <= m <= 1.9
    ensures m == 1.2 <==> l == Sedentary
    ensures m == 1.9 <==> l == VeryActive
  {
    ActivityTablesAgree();
    CALORIE_MULTIPLIERS[LevelKey(l)]
  }

  /** `GOAL_ADJUSTMENTS[user.goal]`: a deficit for losing, a surplus for gaining. */
  function GoalAdjustment(g: Goal): (a: int)
    ensures a < 0 <==> g == Lose
    ensures a > 0 <==> g == Gain
  {
    GoalTablesAgree();
    GOAL_ADJUSTMENTS[GoalKey(g)]
  }

  /** The multipliers strictly increase from sedentary to very_active. */
  lemma MultipliersIncrease(a: ActivityLevel, b: ActivityLevel)
    requires LevelRank(a) < LevelRank(b)
    ensures CalorieMultiplier(a) < CalorieMultiplier(b)
  {
  }

  /** Gaining adds 800 kcal more than losing; maintaining adds nothing. */
  lemma AdjustmentSpread()
    ensures GoalAdjustment(Gain) - GoalAdjustment(Lose) == 800
    ensures GoalAdjustment(Maintain) == 0
  {
  }

  /** `user.gender === 'male' ? 3000 : 2500`, the literal the metrics and the coaching
      handler use; it is the WATER_GOALS entry for the gender ('other' takes the default). */
  function WaterGoal(g: Gender): (ml: int)
    ensures ml == WATER_GOALS[if g == Other then "default" else GenderKey(g)]
  {
    if g == Male then 3000 else 2500
  }

  /** Every challenge has its own id and lasts at least one day. */
  lemma ChallengesWellFormed()
    ensures forall i, j :: 0 <= i < j < |CHALLENGES| ==> CHALLENGES[i].id != CHALLENGES[j].id
    ensures forall i :: 0 <= i < |CHALLENGES| ==> CHALLENGES[i].duration > 0
  {
  }
}
