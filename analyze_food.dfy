/**
 * The food-photo handler: it refuses a request without an image, sends the
 * base64 image to the vision model inside a JPEG data URL, and returns the
 * object found in the reply or a 500.
 */
module AnalyzeFood {
  import opened Wrappers
  import opened Relay

  const IMAGE_MISSING := "Imagem não fornecida"
  const FOOD_ERROR := "Erro ao analisar imagem"
  const FOOD_REQUEST := "Analise esta refeição e identifique todos os alimentos com suas informações nutricionais."
  const DATA_URL_PREFIX := "data:image/jpeg;base64,"

  /** `data:image/jpeg;base64,${image}`: the image is everything after the prefix. */
  function ImageUrl(image: string): (url: string)
    ensures DATA_URL_PREFIX <= url && url[|DATA_URL_PREFIX|..] == image
  {
    DATA_URL_PREFIX + image
  }

  /** Different images make different URLs. */
  lemma ImageUrlInjective(a: string, b: string)
    requires ImageUrl(a) == ImageUrl(b)
    ensures a == b
  {
    assert a == ImageUrl(a)[|DATA_URL_PREFIX|..];
  }

  /** `POST /api/analyze-food`. A missing or empty image is a 400 and no call; otherwise
      one call with the image, a 200 carrying the parsed object, or a 500. */
  function AnalyzeFood(image: Option<string>,
                       service: ChatRequest<FixedPrompt> -> Upstream,
                       parse: string -> Option<Json>): (r: Exchange<FixedPrompt>)
    ensures r.sent.None? <==> Falsy(image)
    ensures r.sent.None? ==> r.response == ErrorResponse(400, IMAGE_MISSING)
    ensures r.sent.Some? ==> var q := r.sent.value;
      q.model == MODEL && q.maxTokens == 1000 && q.temperature == 0.3 &&
      q.user.TextWithImage? && q.user.text == FOOD_REQUEST && q.user.imageUrl == ImageUrl(image.value)
    ensures r.response.status in {200, 400, 500}
    ensures r.response.status == 200 <==>
      r.sent.Some? && ParsedReply(service(r.sent.value), '{', '}', parse).Some?
    ensures r.response.status == 200 ==>
      r.response.body == ParsedReply(service(r.sent.value), '{', '}', parse).value
    ensures r.response.status == 500 ==> r.response == ErrorResponse(500, FOOD_ERROR)
  {
    if Falsy(image) then Exchange(None, ErrorResponse(400, IMAGE_MISSING))
    else
      var q := ChatRequest(MODEL, FixedPrompt, TextWithImage(FOOD_REQUEST, ImageUrl(image.value)), 1000, 0.3);
      match ParsedReply(service(q), '{', '}', parse)
      case Some(analysis) => Exchange(Some(q), Response(200, analysis))
      case None => Exchange(Some(q), ErrorResponse(500, FOOD_ERROR))
  }

  /** The request is decided by the image alone: two requests with different images
      send different URLs, whatever the service does. */
  lemma DistinctImagesDistinctRequests(a: string, b: string,
                                       service: ChatRequest<FixedPrompt> -> Upstream,
                                       parse: string -> Option<Json>)
    requires a != "" && b != "" && a != b
    ensures AnalyzeFood(Some(a), service, parse).sent != AnalyzeFood(Some(b), service, parse).sent
  {
    if AnalyzeFood(Some(a), service, parse).sent == AnalyzeFood(Some(b), service, parse).sent {
      ImageUrlInjective(a, b);
    }
  }

  /** A reply in which no '{' comes before a '}' is a 500, whatever `JSON.parse` would do. */
  lemma ReplyWithoutObjectFails(image: string,
                                service: ChatRequest<FixedPrompt> -> Upstream,
                                parse: string -> Option<Json>)
    requires image != ""
    requires var r := AnalyzeFood(Some(image), service, parse);
      service(r.sent.value).Reply? &&
      var text := service(r.sent.value).content;
      forall i, j :: 0 <= i < j < |text| && text[i] == '{' ==> text[j] != '}'
    ensures AnalyzeFood(Some(image), service, parse).response == ErrorResponse(500, FOOD_ERROR)
  {
  }
}
