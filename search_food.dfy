/**
 * The food-search handler: it refuses a request without a `q` parameter, asks
 * the model for the nutrition of the named food, and returns the object found
 * in the reply or a 500.
 */
module SearchFood {
  import opened Wrappers
  import opened Relay

  const QUERY_MISSING := "Query não fornecida"
  const SEARCH_ERROR := "Erro ao buscar alimento"
  const SEARCH_PREFIX := "Busque informações nutricionais para: "

  /** `Busque informações nutricionais para: ${query}`: the query is everything after
      the fixed prefix. */
  function SearchMessage(query: string): (m: string)
    ensures SEARCH_PREFIX <= m && m[|SEARCH_PREFIX|..] == query
  {
    SEARCH_PREFIX + query
  }

  /** The query can be read back from the message. */
  lemma SearchMessageInjective(a: string, b: string)
    requires SearchMessage(a) == SearchMessage(b)
    ensures a == b
  {
    assert a == SearchMessage(a)[|SEARCH_PREFIX|..];
  }

  /** `GET /api/search-food?q=…`. A missing or empty `q` is a 400 and no call;
      otherwise one call naming the query, a 200 carrying the parsed object, or a 500. */
  function SearchFood(q: Option<string>,
                      service: ChatRequest<FixedPrompt> -> Upstream,
                      parse: string -> Option<Json>): (r: Exchange<FixedPrompt>)
    ensures r.sent.None? <==> Falsy(q)
    ensures r.sent.None? ==> r.response == ErrorResponse(400, QUERY_MISSING)
    ensures r.sent.Some? ==> var req := r.sent.value;
      req.model == MODEL && req.maxTokens == 800 && req.temperature == 0.3 &&
      req.user == Text(SearchMessage(q.value))
    ensures r.response.status in {200, 400, 500}
    ensures r.response.status == 200 <==>
      r.sent.Some? && ParsedReply(service(r.sent.value), '{', '}', parse).Some?
    ensures r.response.status == 200 ==>
      r.response.body == ParsedReply(service(r.sent.value), '{', '}', parse).value
    ensures r.response.status == 500 ==> r.response == ErrorResponse(500, SEARCH_ERROR)
  {
    if Falsy(q) then Exchange(None, ErrorResponse(400, QUERY_MISSING))
    else
      var req := ChatRequest(MODEL, FixedPrompt, Text(SearchMessage(q.value)), 800, 0.3);
      match ParsedReply(service(req), '{', '}', parse)
      case Some(results) => Exchange(Some(req), Response(200, results))
      case None => Exchange(Some(req), ErrorResponse(500, SEARCH_ERROR))
  }

  /** Different queries reach the model as different messages. */
  lemma DistinctQueriesDistinctRequests(a: string, b: string,
                                        service: ChatRequest<FixedPrompt> -> Upstream,
                                        parse: string -> Option<Json>)
    requires a != "" && b != "" && a != b
    ensures SearchFood(Some(a), service, parse).sent != SearchFood(Some(b), service, parse).sent
  {
    if SearchFood(Some(a), service, parse).sent == SearchFood(Some(b), service, parse).sent {
      SearchMessageInjective(a, b);
    }
  }

  /** A reply in which no '{' comes before a '}' is a 500, whatever `JSON.parse` would do. */
  lemma ReplyWithoutObjectFails(q: string,
                                service: ChatRequest<FixedPrompt> -> Upstream,
                                parse: string -> Option<Json>)
    requires q != ""
    requires var r := SearchFood(Some(q), service, parse);
      service(r.sent.value).Reply? &&
      var text := service(r.sent.value).content;
      forall i, j :: 0 <= i < j < |text| && text[i] == '{' ==> text[j] != '}'
    ensures SearchFood(Some(q), service, parse).response == ErrorResponse(500, SEARCH_ERROR)
  {
  }
}
