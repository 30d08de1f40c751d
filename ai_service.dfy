/**
 * The client-side wrappers around the six routes: each posts its arguments to
 * its route, and on a network failure or a status outside 200-299 either
 * rethrows or returns a fixed fallback. `fetch` stands for the call to the
 * app's own route; composing it with a handler function gives the whole
 * round trip.
 */
module AiService {
  import opened Wrappers
  import opened Profile
  import opened Relay
  import AnalyzeFood
  import SearchFood
  import VoiceCommand
  import CoachingTips
  import MealPlan

  /** What `fetch` to a route gave: it rejected, or the route's response arrived. */
  datatype Reached = NetworkError | Delivered(response: Response)

  /** `response.ok`: a status in 200-299. */
  predicate Ok(status: int) {
    200 <= status <= 299
  }

  /** What a wrapper throws: the fetch's own rejection, or the Error it raises
      for a status that is not ok. */
  datatype Failure = FetchRejected | HttpError(message: string)

  /** A wrapper either returns a value or throws. */
  datatype Outcome<T> = Returned(value: T) | Thrown(error: Failure)

  /** What reading a property of a parsed body gives: `null` throws a TypeError; any
      other value gives the property, or `undefined` when it has none. */
  datatype Property = TypeError | Undefined | Found(value: Json)

  /** `data[key]`. Only objects carry the keys the wrappers read (`tips`, `results`):
      arrays, strings, numbers and booleans give `undefined`. */
  function Member(data: Json, key: string): (r: Property)
    ensures r == TypeError <==> data.JNull?
    ensures r.Found? <==> data.JObject? && key in data.fields
    ensures r.Found? ==> r.value == data.fields[key]
  {
    if data.JNull? then TypeError
    else if data.JObject? && key in data.fields then Found(data.fields[key])
    else Undefined
  }

  /** The shape shared by the three wrappers that rethrow: a rejected fetch is
      rethrown, a status that is not ok throws `message`, an ok response returns
      its body. */
  function Relayed(reached: Reached, message: string): (r: Outcome<Json>)
    ensures r.Returned? <==> reached.Delivered? && Ok(reached.response.status)
    ensures r.Returned? ==> r.value == reached.response.body
    ensures reached.NetworkError? ==> r == Thrown(FetchRejected)
    ensures reached.Delivered? && !Ok(reached.response.status) ==> r == Thrown(HttpError(message))
  {
    match reached
    case NetworkError => Thrown(FetchRejected)
    case Delivered(resp) => if Ok(resp.status) then Returned(resp.body) else Thrown(HttpError(message))
  }

  // ---------------------------------------------------------------------------
  // fileToBase64

  /** `v` is the field after the first comma of `s`, at position `i`: it starts right
      after that comma and runs up to the next comma or the end. */
  predicate SecondField(s: string, i: int, v: string) {
    0 <= i < |s| && s[i] == ',' && ',' !in s[..i] &&
    v <= s[i + 1..] && ',' !in v &&
    (|v| == |s| - i - 1 || s[i + 1 + |v|] == ',')
  }

  /** `dataUrl.split(',')[1]`: the text between the first comma and the next one
      (or the end); None (`undefined`) when there is no comma. */
  function FileToBase64(dataUrl: string): (r: Option<string>)
    ensures r.None? <==> ',' !in dataUrl
    ensures r.Some? ==> ',' !in r.value
    ensures r.Some? ==> exists i :: SecondField(dataUrl, i, r.value)
  {
    match FirstIndex(dataUrl, ',')
    case None => None
    case Some(i) =>
      var rest := dataUrl[i + 1..];
      match FirstIndex(rest, ',')
      case None =>
        assert SecondField(dataUrl, i, rest);
        Some(rest)
      case Some(j) =>
        assert dataUrl[i + 1 + j] == rest[j];
        assert SecondField(dataUrl, i, rest[..j]);
        Some(rest[..j])
  }

  /** A data URL `data:<mime>;base64,<payload>` as FileReader produces it (neither part
      holds a comma) gives back exactly the payload. */
  lemma DataUrlRoundTrip(mime: string, payload: string)
    requires ',' !in mime && ',' !in payload
    ensures FileToBase64("data:" + mime + ";base64," + payload) == Some(payload)
  {
    var header := "data:" + mime + ";base64";
    var url := header + "," + payload;
    assert "data:" + mime + ";base64," + payload == url;
    assert url[..|header|] == header;
    assert url[|header|] == ',';
    FirstIndexAt(url, ',', |header|);
    assert url[|header| + 1..] == payload;
  }

  /** The route rebuilds the image URL with a JPEG type whatever type the file had:
      only the payload of the file's data URL survives the trip. */
  lemma ImageUrlRebuilt(mime: string, payload: string)
    requires ',' !in mime && ',' !in payload
    ensures AnalyzeFood.ImageUrl(FileToBase64("data:" + mime + ";base64," + payload).value) ==
            AnalyzeFood.ImageUrl(payload)
  {
    DataUrlRoundTrip(mime, payload);
  }

  /** For a JPEG file the round trip is exact: the URL the route sends to the model
      is the data URL the browser read. */
  lemma JpegUrlRoundTrip(payload: string)
    requires ',' !in payload
    ensures AnalyzeFood.ImageUrl(FileToBase64(AnalyzeFood.ImageUrl(payload)).value) == AnalyzeFood.ImageUrl(payload)
  {
    var mime := "image/jpeg";
    assert ',' !in mime by {
      assert forall k :: 0 <= k < |mime| ==> mime[k] != ',';
    }
    assert AnalyzeFood.ImageUrl(payload) == "data:" + mime + ";base64," + payload by {
      assert AnalyzeFood.DATA_URL_PREFIX == "data:" + mime + ";base64,";
    }
    DataUrlRoundTrip(mime, payload);
  }

  // ---------------------------------------------------------------------------
  // The wrappers

  /** `analyzeFoodImage`: posts `{ image: fileToBase64(file) }`; rethrows. */
  function AnalyzeFoodImage(dataUrl: string, fetch: Option<string> -> Reached): (r: Outcome<Json>)
    ensures r.Returned? <==> fetch(FileToBase64(dataUrl)).Delivered? && Ok(fetch(FileToBase64(dataUrl)).response.status)
    ensures r.Returned? ==> r.value == fetch(FileToBase64(dataUrl)).response.body
    ensures r.Thrown? && fetch(FileToBase64(dataUrl)).Delivered? ==> r.error == HttpError(AnalyzeFood.FOOD_ERROR)
  {
    Relayed(fetch(FileToBase64(dataUrl)), AnalyzeFood.FOOD_ERROR)
  }

  /** `generateMealPlan`: posts `{ user, preferences }`; rethrows. */
  function GenerateMealPlan(u: User, prefs: MealPlan.Preferences,
                            fetch: (User, MealPlan.Preferences) -> Reached): (r: Outcome<Json>)
    ensures r.Returned? <==> fetch(u, prefs).Delivered? && Ok(fetch(u, prefs).response.status)
    ensures r.Returned? ==> r.value == fetch(u, prefs).response.body
    ensures r.Thrown? && fetch(u, prefs).Delivered? ==> r.error == HttpError(MealPlan.PLAN_ERROR)
  {
    Relayed(fetch(u, prefs), MealPlan.PLAN_ERROR)
  }

  /** `analyzeProgressAndAdjust`: posts `{ user, weeklyStats }`; rethrows. */
  function AnalyzeProgressAndAdjust(u: User, weekly: seq<WeeklySample>,
                                    fetch: (User, seq<WeeklySample>) -> Reached): (r: Outcome<Json>)
    ensures r.Returned? <==> fetch(u, weekly).Delivered? && Ok(fetch(u, weekly).response.status)
    ensures r.Returned? ==> r.value == fetch(u, weekly).response.body
    ensures r.Thrown? && fetch(u, weekly).Delivered? ==> r.error == HttpError("Erro ao analisar progresso")
  {
    Relayed(fetch(u, weekly), "Erro ao analisar progresso")
  }

  /** The tips the client falls back on. */
  const CLIENT_FALLBACK_TIPS: seq<string> := [
    "Continue se hidratando ao longo do dia!",
    "Lembre-se de incluir proteínas em todas as refeições.",
    "Pequenas caminhadas fazem grande diferença!"]

  /** The fallback tips as the JSON array the client returns. */
  const CLIENT_TIPS: Json := JArray(seq(3, i requires 0 <= i < 3 => JString(CLIENT_FALLBACK_TIPS[i])))

  /** `generateCoachingTips`: posts `{ user, stats }`; an ok response gives `data.tips`
      (None: undefined). Any failure, including the TypeError of reading `tips` off a
      `null` body, gives the fixed tips. Never throws. */
  function GenerateCoachingTips(u: User, stats: DailyStats,
                                fetch: (User, DailyStats) -> Reached): (r: Option<Json>)
    ensures fetch(u, stats).Delivered? && Ok(fetch(u, stats).response.status) &&
            Member(fetch(u, stats).response.body, "tips").Found? ==>
      r == Some(Member(fetch(u, stats).response.body, "tips").value)
    ensures r.None? <==> fetch(u, stats).Delivered? && Ok(fetch(u, stats).response.status) &&
                         Member(fetch(u, stats).response.body, "tips").Undefined?
    ensures !(fetch(u, stats).Delivered? && Ok(fetch(u, stats).response.status)) ||
            fetch(u, stats).response.body.JNull? ==>
      r == Some(CLIENT_TIPS)
  {
    var reached := fetch(u, stats);
    if reached.Delivered? && Ok(reached.response.status) then
      match Member(reached.response.body, "tips")
      case Found(tips) => Some(tips)
      case Undefined => None
      case TypeError => Some(CLIENT_TIPS)
    else Some(CLIENT_TIPS)
  }

  /** The client's fallback after an error is the route's fallback body's `tips`. */
  lemma TipsFallbacksAgree()
    ensures Member(CoachingTips.FALLBACK_BODY, "tips") == Found(CLIENT_TIPS)
  {
    assert CLIENT_FALLBACK_TIPS == CoachingTips.FALLBACK_TIPS;
    assert CLIENT_TIPS.items ==
           [JString(CoachingTips.FALLBACK_TIPS[0]), JString(CoachingTips.FALLBACK_TIPS[1]), JString(CoachingTips.FALLBACK_TIPS[2])];
  }

  /** End to end: whether the route is reached or not, and whatever the model replies,
      the client gets an array of tips, never undefined: the parsed array, or the
      three fixed tips. */
  lemma CoachingTipsAlwaysArrive(u: User, stats: DailyStats,
                                 service: ChatRequest<CoachingTips.CoachingPrompt> -> Upstream,
                                 parse: string -> Option<Json>,
                                 fetch: (User, DailyStats) -> Reached)
    requires fetch(u, stats) == NetworkError ||
             fetch(u, stats) == Delivered(CoachingTips.CoachingTips(u, stats, service, parse).response)
    ensures var tips := GenerateCoachingTips(u, stats, fetch);
      tips.Some? &&
      (tips == Some(CLIENT_TIPS) ||
       tips == ParsedReply(service(CoachingTips.TipsRequest(u, stats)), '[', ']', parse))
  {
    TipsFallbacksAgree();
  }

  /** `processVoiceCommand`: posts `{ command }`; an ok response gives its body, any
      failure the 'unknown' action. Never throws. */
  function ProcessVoiceCommand(command: string, fetch: string -> Reached): (r: Json)
    ensures fetch(command).Delivered? && Ok(fetch(command).response.status) ==> r == fetch(command).response.body
    ensures !(fetch(command).Delivered? && Ok(fetch(command).response.status)) ==>
      r == JObject(map["action" := JString("unknown"), "response" := JString("Desculpe, não entendi o comando. Tente novamente.")])
  {
    var reached := fetch(command);
    if reached.Delivered? && Ok(reached.response.status) then reached.response.body
    else JObject(map["action" := JString("unknown"), "response" := JString("Desculpe, não entendi o comando. Tente novamente.")])
  }

  /** End to end: a command whose reply holds no object gets the same answer as one
      that never reached the route. */
  lemma VoiceFallbacksAgree(command: string,
                            service: ChatRequest<FixedPrompt> -> Upstream,
                            parse: string -> Option<Json>)
    requires ParsedReply(service(ChatRequest(MODEL, FixedPrompt, Text(command), 300, 0.3)), '{', '}', parse).None?
    ensures ProcessVoiceCommand(command, c => Delivered(VoiceCommand.VoiceCommand(c, service, parse).response)) ==
            ProcessVoiceCommand(command, c => NetworkError)
    ensures ProcessVoiceCommand(command, c => NetworkError) == VoiceCommand.UNKNOWN_COMMAND
  {
  }

  /** `searchFoodNutrition`: GETs `?q=<foodName>` (URL-encoded, decoded again by the
      route); an ok response gives `data.results` (None: undefined). Any failure,
      including the TypeError of reading `results` off a `null` body, gives an empty
      list. Never throws. */
  function SearchFoodNutrition(foodName: string, fetch: string -> Reached): (r: Option<Json>)
    ensures fetch(foodName).Delivered? && Ok(fetch(foodName).response.status) &&
            Member(fetch(foodName).response.body, "results").Found? ==>
      r == Some(Member(fetch(foodName).response.body, "results").value)
    ensures r.None? <==> fetch(foodName).Delivered? && Ok(fetch(foodName).response.status) &&
                         Member(fetch(foodName).response.body, "results").Undefined?
    ensures !(fetch(foodName).Delivered? && Ok(fetch(foodName).response.status)) ||
            fetch(foodName).response.body.JNull? ==>
      r == Some(JArray([]))
  {
    var reached := fetch(foodName);
    if reached.Delivered? && Ok(reached.response.status) then
      match Member(reached.response.body, "results")
      case Found(results) => Some(results)
      case Undefined => None
      case TypeError => Some(JArray([]))
    else Some(JArray([]))
  }

  /** End to end: an empty food name is refused by the route before any model call,
      and the client turns the 400 into an empty list. */
  lemma EmptySearchFindsNothing(service: ChatRequest<FixedPrompt> -> Upstream,
                                parse: string -> Option<Json>)
    ensures SearchFood.SearchFood(Some(""), service, parse).sent.None?
    ensures SearchFoodNutrition("", q => Delivered(SearchFood.SearchFood(Some(q), service, parse).response)) == Some(JArray([]))
  {
  }

  /** End to end: a file read that yields no comma sends `image: undefined`; the
      route refuses it with a 400 before any model call and the client throws. */
  lemma ImageWithoutCommaThrows(dataUrl: string,
                                service: ChatRequest<FixedPrompt> -> Upstream,
                                parse: string -> Option<Json>)
    requires ',' !in dataUrl
    ensures AnalyzeFood.AnalyzeFood(FileToBase64(dataUrl), service, parse).sent.None?
    ensures AnalyzeFoodImage(dataUrl, img => Delivered(AnalyzeFood.AnalyzeFood(img, service, parse).response)) ==
            Thrown(HttpError(AnalyzeFood.FOOD_ERROR))
  {
  }
}
