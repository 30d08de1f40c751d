/**
 * The voice-command handler: the transcribed command goes to the model as the
 * user message verbatim; the object found in the reply is returned, and every
 * failure becomes a 200 with action 'unknown' and an apology.
 */
module VoiceCommand {
  import opened Wrappers
  import opened Relay

  const APOLOGY := "Desculpe, não entendi o comando. Tente novamente."

  /** `{ action: 'unknown', response: APOLOGY }`: no `data` field. */
  const UNKNOWN_COMMAND: Json := JObject(map["action" := JString("unknown"), "response" := JString(APOLOGY)])

  /** `POST /api/voice-command`. The call is always made with the command as the user
      message; the answer is always a 200: the parsed object, or UNKNOWN_COMMAND. */
  function VoiceCommand(command: string,
                        service: ChatRequest<FixedPrompt> -> Upstream,
                        parse: string -> Option<Json>): (r: Exchange<FixedPrompt>)
    ensures r.sent.Some?
    ensures r.sent.value.model == MODEL && r.sent.value.user == Text(command)
    ensures r.sent.value.maxTokens == 300 && r.sent.value.temperature == 0.3
    ensures r.response.status == 200
    ensures ParsedReply(service(r.sent.value), '{', '}', parse).Some? ==>
      r.response.body == ParsedReply(service(r.sent.value), '{', '}', parse).value
    ensures ParsedReply(service(r.sent.value), '{', '}', parse).None? ==>
      r.response.body == UNKNOWN_COMMAND
  {
    var q := ChatRequest(MODEL, FixedPrompt, Text(command), 300, 0.3);
    match ParsedReply(service(q), '{', '}', parse)
    case Some(result) => Exchange(Some(q), Response(200, result))
    case None => Exchange(Some(q), Response(200, UNKNOWN_COMMAND))
  }

  /** The fallback names the action 'unknown', carries the apology and no data, so a
      client cannot mistake it for a logged meal, drink or activity. */
  lemma UnknownCommandShape()
    ensures UNKNOWN_COMMAND.fields.Keys == {"action", "response"}
    ensures UNKNOWN_COMMAND.fields["action"] == JString("unknown")
    ensures "data" !in UNKNOWN_COMMAND.fields
  {
  }

  /** An unreachable or failing service, or a reply without an object, gets the
      fallback: the handler never answers with an error status. */
  lemma FailureIsUnknownCommand(command: string,
                                service: ChatRequest<FixedPrompt> -> Upstream,
                                parse: string -> Option<Json>)
    requires var outcome := service(ChatRequest(MODEL, FixedPrompt, Text(command), 300, 0.3));
      !outcome.Reply? ||
      forall i, j :: 0 <= i < j < |outcome.content| && outcome.content[i] == '{' ==> outcome.content[j] != '}'
    ensures VoiceCommand(command, service, parse).response == Response(200, UNKNOWN_COMMAND)
  {
  }
}
