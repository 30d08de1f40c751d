/**
 * The coaching-tips handler: its own calorie goal (Harris-Benedict BMR, the
 * activity multipliers, a single rounding after the goal adjustment), the water
 * goal, the `[…]` extraction of the tips, and the fixed tips it answers with on
 * every failure.
 */
module CoachingTips {
  import opened Wrappers
  import opened Profile
  import opened Constants
  import opened Relay
  import Metrics

  // ---------------------------------------------------------------------------
  // Calorie goal

  /** Harris-Benedict basal metabolic rate from `currentWeight`, height and age;
      'female' and 'other' share the second branch. */
  function HarrisBenedictBmr(weight: real, height: real, age: real, gender: Gender): real {
    if gender == Male then 88.362 + 13.397 * weight + 4.799 * height - 5.677 * age
    else 447.593 + 9.247 * weight + 3.098 * height - 4.33 * age
  }

  /** The multiplier table the handler declares for itself. */
  const ACTIVITY_MULTIPLIERS: map<string, real> := map[
    "sedentary" := 1.2,
    "light" := 1.375,
    "moderate" := 1.55,
    "active" := 1.725,
    "very_active" := 1.9]

  /** The handler's table is the shared CALORIE_MULTIPLIERS table, entry for entry. */
  lemma ActivityMultipliersMatch()
    ensures ACTIVITY_MULTIPLIERS == CALORIE_MULTIPLIERS
  {
  }

  /** `activityMultipliers[user.activityLevel]`: total on the five levels, and the same
      number the metrics engine uses. */
  function LocalMultiplier(l: ActivityLevel): (m: real)
    ensures m == CalorieMultiplier(l)
  {
    ActivityMultipliersMatch();
    ActivityTablesAgree();
    ACTIVITY_MULTIPLIERS[LevelKey(l)]
  }

  /** The unrounded TDEE: the Harris-Benedict BMR times the activity multiplier. */
  function CoachingTdee(u: User): real {
    HarrisBenedictBmr(u.currentWeight, u.height, u.age, u.gender) * LocalMultiplier(u.activityLevel)
  }

  /** `calculateCalorieGoal`: 500 kcal below the TDEE to lose, 300 above it to gain,
      the TDEE itself otherwise, rounded once at the end. */
  function CalculateCalorieGoal(u: User): int {
    var tdee := CoachingTdee(u);
    if u.goal == Lose then Metrics.Round(tdee - 500.0)
    else if u.goal == Gain then Metrics.Round(tdee + 300.0)
    else Metrics.Round(tdee)
  }

  /** Rounding once after the adjustment is the same as rounding the TDEE and adding
      the GOAL_ADJUSTMENTS entry for the goal. */
  lemma CalorieGoalIsRoundedTdeePlusAdjustment(u: User)
    ensures CalculateCalorieGoal(u) == Metrics.Round(CoachingTdee(u)) + GoalAdjustment(u.goal)
  {
    var tdee := CoachingTdee(u);
    match u.goal
    case Lose => Metrics.RoundShift(tdee, -500);
    case Gain => Metrics.RoundShift(tdee, 300);
    case Maintain =>
  }

  /** For one profile the 'gain' goal is 800 kcal above the 'lose' goal, and the
      'maintain' goal lies strictly between them. */
  lemma CalorieGoalSpread(u: User)
    ensures CalculateCalorieGoal(u.(goal := Gain)) - CalculateCalorieGoal(u.(goal := Lose)) == 800
    ensures CalculateCalorieGoal(u.(goal := Lose)) < CalculateCalorieGoal(u.(goal := Maintain)) < CalculateCalorieGoal(u.(goal := Gain))
  {
    GoalKeepsTdee(u, Gain);
    GoalKeepsTdee(u, Lose);
    GoalKeepsTdee(u, Maintain);
  }

  /** Changing the goal leaves the TDEE alone and only changes the adjustment. */
  lemma GoalKeepsTdee(u: User, g: Goal)
    ensures CalculateCalorieGoal(u.(goal := g)) == Metrics.Round(CoachingTdee(u)) + GoalAdjustment(g)
  {
    var v := u.(goal := g);
    assert CoachingTdee(v) == CoachingTdee(u);
    CalorieGoalIsRoundedTdeePlusAdjustment(v);
  }

  /** A male of 70 kg, 170 cm, 30 years, moderately active, losing weight:
      BMR 1671.672, TDEE 2591.0916, goal round(2091.0916) = 2091 (the metrics
      engine's Mifflin-St Jeor goal for the same profile is 2007). */
  lemma CalorieGoalExample()
    ensures var u := User("u", 70.0, 65.0, 170.0, 30.0, Male, Moderate, Lose, [], []);
      CoachingTdee(u) == 2591.0916 && CalculateCalorieGoal(u) == 2091
  {
    var u := User("u", 70.0, 65.0, 170.0, 30.0, Male, Moderate, Lose, [], []);
    assert HarrisBenedictBmr(70.0, 170.0, 30.0, Male) == 1671.672;
    assert LocalMultiplier(Moderate) == 1.55;
    Metrics.RoundUnique(2591.0916 - 500.0, 2091);
  }

  // ---------------------------------------------------------------------------
  // Handler

  /** What the system prompt interpolates: the goal label, the calorie goal, the
      day's statistics and the water goal. */
  datatype CoachingPrompt = CoachingPrompt(goal: string, calorieGoal: int, stats: DailyStats, waterGoal: int)

  const TIPS_REQUEST := "Gere dicas de coaching personalizadas para hoje."

  /** The three tips sent whenever anything fails. */
  const FALLBACK_TIPS: seq<string> := [
    "Continue se hidratando ao longo do dia!",
    "Lembre-se de incluir proteínas em todas as refeições.",
    "Pequenas caminhadas fazem grande diferença!"]

  /** `{ tips: [...] }` with the three fixed tips. */
  const FALLBACK_BODY: Json := JObject(map["tips" := JArray([JString(FALLBACK_TIPS[0]), JString(FALLBACK_TIPS[1]), JString(FALLBACK_TIPS[2])])])

  /** The request the handler sends for a profile and a day. */
  function TipsRequest(u: User, stats: DailyStats): ChatRequest<CoachingPrompt> {
    var prompt := CoachingPrompt(GoalLabel(u.goal), CalculateCalorieGoal(u), stats, WaterGoal(u.gender));
    ChatRequest(MODEL, prompt, Text(TIPS_REQUEST), 500, 0.8)
  }

  /** `POST /api/coaching-tips`. The call is always made; the answer is always a 200
      holding `tips`: the parsed array payload when there is one, the fixed tips
      otherwise. */
  function CoachingTips(u: User, stats: DailyStats,
                        service: ChatRequest<CoachingPrompt> -> Upstream,
                        parse: string -> Option<Json>): (r: Exchange<CoachingPrompt>)
    ensures r.sent == Some(TipsRequest(u, stats))
    ensures r.sent.value.maxTokens == 500 && r.sent.value.temperature == 0.8
    ensures r.sent.value.system.waterGoal == (if u.gender == Male then 3000 else 2500)
    ensures r.response.status == 200
    ensures r.response.body.JObject? && r.response.body.fields.Keys == {"tips"}
    ensures ParsedReply(service(TipsRequest(u, stats)), '[', ']', parse).Some? ==>
      r.response.body.fields["tips"] == ParsedReply(service(TipsRequest(u, stats)), '[', ']', parse).value
    ensures ParsedReply(service(TipsRequest(u, stats)), '[', ']', parse).None? ==>
      r.response.body == FALLBACK_BODY
  {
    var q := TipsRequest(u, stats);
    match ParsedReply(service(q), '[', ']', parse)
    case Some(tips) => Exchange(Some(q), Response(200, JObject(map["tips" := tips])))
    case None => Exchange(Some(q), Response(200, FALLBACK_BODY))
  }

  /** An unreachable or failing service, or a reply with no '[' before a ']', gets
      exactly the three fixed tips. */
  lemma FailureGetsFixedTips(u: User, stats: DailyStats,
                             service: ChatRequest<CoachingPrompt> -> Upstream,
                             parse: string -> Option<Json>)
    requires var outcome := service(TipsRequest(u, stats));
      !outcome.Reply? ||
      forall i, j :: 0 <= i < j < |outcome.content| && outcome.content[i] == '[' ==> outcome.content[j] != ']'
    ensures CoachingTips(u, stats, service, parse).response == Response(200, FALLBACK_BODY)
  {
  }

  /** Whatever the reply, the handler never answers with an error body. */
  lemma NeverAnError(u: User, stats: DailyStats,
                     service: ChatRequest<CoachingPrompt> -> Upstream,
                     parse: string -> Option<Json>)
    ensures var r := CoachingTips(u, stats, service, parse).response;
      r.status == 200 && "error" !in r.body.fields
  {
  }
}
