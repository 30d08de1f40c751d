/**
 * The meal-plan handler: it describes the goal, the restrictions, the calorie
 * target and the health conditions to the model, and returns the plan found in
 * the reply spread over a fresh id, the user id and the date, or a 500.
 */
module MealPlan {
  import opened Wrappers
  import opened Profile
  import opened Relay
  import opened Text

  const NONE_LABEL := "nenhuma"
  const PLAN_ERROR := "Erro ao gerar plano alimentar"
  const PLAN_REQUEST := "Crie um plano alimentar personalizado para hoje."
  const PLAN_ID_PREFIX := "plan-"

  /** What the client sends beside the user. `dislikes` travels with the request but
      the handler never reads it. */
  datatype Preferences = Preferences(restrictions: seq<string>, dislikes: seq<string>, targetCalories: real)

  /** What the system prompt interpolates. */
  datatype MealPlanPrompt = MealPlanPrompt(goal: string, restrictions: string, targetCalories: real, conditions: string)

  /** `xs.join(', ') || 'nenhuma'`: the joined list, or 'nenhuma' when the join is empty. */
  function JoinOrNone(xs: seq<string>): (s: string)
    ensures s != ""
    ensures s == NONE_LABEL <== |xs| == 0 || (|xs| == 1 && xs[0] == "")
    ensures |xs| >= 1 && xs[0] != "" ==> xs[0] <= s
    ensures |xs| == 1 && xs[0] != "" ==> s == xs[0]
  {
    JoinEmptyIff(xs, ", ");
    var joined := Join(xs, ", ");
    if joined == "" then NONE_LABEL else joined
  }

  /** Every listed item appears in the prompt text, in order, separated by ", ". */
  lemma {:induction false} JoinOrNoneLists(xs: seq<string>)
    requires |xs| >= 2
    ensures JoinOrNone(xs) == xs[0] + ", " + Join(xs[1..], ", ")
  {
    JoinEmptyIff(xs, ", ");
  }

  /** `plan-${Date.now()}`. */
  function PlanId(nowMs: nat): (id: string)
    ensures PLAN_ID_PREFIX <= id && AllDigits(id[|PLAN_ID_PREFIX|..])
  {
    PLAN_ID_PREFIX + NatToString(nowMs)
  }

  /** The clock reading can be read back from the id, so plans made at different
      milliseconds have different ids. */
  lemma PlanIdRoundTrip(nowMs: nat)
    ensures DigitsValue(PlanId(nowMs)[|PLAN_ID_PREFIX|..]) == nowMs
  {
    assert PlanId(nowMs)[|PLAN_ID_PREFIX|..] == NatToString(nowMs);
    NatToStringRoundTrip(nowMs);
  }

  /** `{ ...base, ...payload }`: every property of an object payload overrides the
      property of the same name in `base`; a payload that is not an object adds nothing. */
  function Spread(base: map<string, Json>, payload: Json): (m: map<string, Json>)
    ensures payload.JObject? ==> m.Keys == base.Keys + payload.fields.Keys
    ensures !payload.JObject? ==> m == base
    ensures payload.JObject? ==> forall k :: k in payload.fields ==> m[k] == payload.fields[k]
    ensures forall k :: k in base && !(payload.JObject? && k in payload.fields) ==> m[k] == base[k]
  {
    if payload.JObject? then base + payload.fields else base
  }

  /** The properties the handler sets before spreading the plan: the id, the user id
      and the date (`new Date()`, serialised as its ISO text `nowIso`). */
  function PlanBase(u: User, nowMs: nat, nowIso: string): map<string, Json> {
    map["id" := JString(PlanId(nowMs)), "userId" := JString(u.id), "date" := JString(nowIso)]
  }

  /** The prompt for a user and preferences. */
  function PlanPrompt(u: User, prefs: Preferences): MealPlanPrompt {
    MealPlanPrompt(GoalLabel(u.goal), JoinOrNone(prefs.restrictions), prefs.targetCalories, JoinOrNone(u.healthConditions))
  }

  /** `POST /api/generate-meal-plan`. The call is always made; a parsed plan is spread
      over the id, user id and date and returned with 200, anything else is a 500.
      `nowMs` and `nowIso` are the two clock readings. */
  function GenerateMealPlan(u: User, prefs: Preferences, nowMs: nat, nowIso: string,
                            service: ChatRequest<MealPlanPrompt> -> Upstream,
                            parse: string -> Option<Json>): (r: Exchange<MealPlanPrompt>)
    ensures r.sent.Some?
    ensures var q := r.sent.value;
      q.model == MODEL && q.maxTokens == 2000 && q.temperature == 0.7 &&
      q.user == Text(PLAN_REQUEST) && q.system == PlanPrompt(u, prefs)
    ensures r.response.status == 200 || r.response.status == 500
    ensures r.response.status == 200 <==> ParsedReply(service(r.sent.value), '{', '}', parse).Some?
    ensures r.response.status == 200 ==>
      r.response.body == JObject(Spread(PlanBase(u, nowMs, nowIso), ParsedReply(service(r.sent.value), '{', '}', parse).value))
    ensures r.response.status == 500 ==> r.response == ErrorResponse(500, PLAN_ERROR)
  {
    var q := ChatRequest(MODEL, PlanPrompt(u, prefs), Text(PLAN_REQUEST), 2000, 0.7);
    match ParsedReply(service(q), '{', '}', parse)
    case Some(plan) => Exchange(Some(q), Response(200, JObject(Spread(PlanBase(u, nowMs, nowIso), plan))))
    case None => Exchange(Some(q), ErrorResponse(500, PLAN_ERROR))
  }

  /** A successful answer keeps every property of the plan, and carries the generated
      id, the user id and the date unless the plan itself names them. */
  lemma PlanKeepsModelFields(u: User, prefs: Preferences, nowMs: nat, nowIso: string,
                             service: ChatRequest<MealPlanPrompt> -> Upstream,
                             parse: string -> Option<Json>)
    requires GenerateMealPlan(u, prefs, nowMs, nowIso, service, parse).response.status == 200
    ensures var r := GenerateMealPlan(u, prefs, nowMs, nowIso, service, parse);
      var plan := ParsedReply(service(r.sent.value), '{', '}', parse).value;
      var body := r.response.body.fields;
      (plan.JObject? ==> forall k :: k in plan.fields ==> k in body && body[k] == plan.fields[k]) &&
      (!(plan.JObject? && "id" in plan.fields) ==> body["id"] == JString(PlanId(nowMs))) &&
      (!(plan.JObject? && "userId" in plan.fields) ==> body["userId"] == JString(u.id)) &&
      (!(plan.JObject? && "date" in plan.fields) ==> body["date"] == JString(nowIso))
  {
    var r := GenerateMealPlan(u, prefs, nowMs, nowIso, service, parse);
    var plan := ParsedReply(service(r.sent.value), '{', '}', parse).value;
    var base := PlanBase(u, nowMs, nowIso);
    assert "id" in base && "userId" in base && "date" in base;
    assert r.response.body.fields == Spread(base, plan);
  }

  /** Two plans generated at different milliseconds for which the model names no id
      of its own get different ids. */
  lemma PlansAtDifferentTimesDiffer(u: User, prefs: Preferences, t1: nat, t2: nat, nowIso: string,
                                    service: ChatRequest<MealPlanPrompt> -> Upstream,
                                    parse: string -> Option<Json>)
    requires t1 != t2
    requires var r := GenerateMealPlan(u, prefs, t1, nowIso, service, parse);
      r.response.status == 200 &&
      var plan := ParsedReply(service(r.sent.value), '{', '}', parse).value;
      !(plan.JObject? && "id" in plan.fields)
    ensures GenerateMealPlan(u, prefs, t1, nowIso, service, parse).response.body.fields["id"] !=
            GenerateMealPlan(u, prefs, t2, nowIso, service, parse).response.body.fields["id"]
  {
    PlanKeepsModelFields(u, prefs, t1, nowIso, service, parse);
    PlanKeepsModelFields(u, prefs, t2, nowIso, service, parse);
    PlanIdRoundTrip(t1);
    PlanIdRoundTrip(t2);
  }

  /** With no restrictions and no health conditions the prompt says 'nenhuma' for both. */
  lemma EmptyListsSayNone(u: User, prefs: Preferences)
    requires prefs.restrictions == [] && u.healthConditions == []
    ensures PlanPrompt(u, prefs).restrictions == NONE_LABEL && PlanPrompt(u, prefs).conditions == NONE_LABEL
  {
  }
}
