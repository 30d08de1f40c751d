/**
 * What the six route handlers share: JSON values, the outcome of the call to the
 * chat-completion service, the request sent to it, the HTTP response returned,
 * the extraction of the JSON payload from the free-text reply with the greedy
 * regular expression `/\{[\s\S]*\}/` (or `/\[[\s\S]*\]/`), and the goal label
 * interpolated into several prompts.
 */
module Relay {
  import opened Wrappers
  import opened Profile

  /** A JSON value. Objects are maps: property order is not modelled. */
  datatype Json =
    | JNull
    | JBool(b: bool)
    | JNumber(n: real)
    | JString(s: string)
    | JArray(items: seq<Json>)
    | JObject(fields: map<string, Json>)

  /** What the call to the chat-completion service gave back: the fetch threw (or the
      completion carried no `choices[0].message.content`), the status was not ok, or
      the reply text. */
  datatype Upstream = Unreachable | NotOk | Reply(content: string)

  /** The user message: text alone, or text with an inline image URL. */
  datatype UserContent = Text(text: string) | TextWithImage(text: string, imageUrl: string)

  /** One chat-completion request. `P` holds what the handler interpolates into its
      system prompt; the fixed prose around it is not modelled. */
  datatype ChatRequest<P> = ChatRequest(model: string, system: P, user: UserContent, maxTokens: nat, temperature: real)

  /** The system prompt of a handler that interpolates nothing into it. */
  datatype FixedPrompt = FixedPrompt

  /** An HTTP response: status and JSON body. */
  datatype Response = Response(status: int, body: Json)

  /** What one handler invocation did: the request it sent upstream (None: no call
      was made) and the response it returned. */
  datatype Exchange<P> = Exchange(sent: Option<ChatRequest<P>>, response: Response)

  const MODEL := "gpt-4o"

  /** `{ error: message }` with the given status. */
  function ErrorResponse(status: int, message: string): (r: Response)
    ensures r.status == status && r.body.JObject? && r.body.fields.Keys == {"error"}
    ensures r.body.fields["error"] == JString(message)
  {
    Response(status, JObject(map["error" := JString(message)]))
  }

  /** Index of the first occurrence of `c` in `s`. */
  function FirstIndex(s: string, c: char): (r: Option<nat>)
    ensures r.None? <==> c !in s
    ensures r.Some? ==> r.value < |s| && s[r.value] == c && c !in s[..r.value]
    ensures r.Some? ==> forall k :: 0 <= k < r.value ==> s[k] != c
  {
    if s == [] then None
    else if s[0] == c then Some(0)
    else
      var k := FirstIndex(s[1..], c);
      if k.None? then None
      else
        assert s[..k.value + 1] == [s[0]] + s[1..][..k.value];
        Some(k.value + 1)
  }

  /** Index of the last occurrence of `c` in `s`. */
  function LastIndex(s: string, c: char): (r: Option<nat>)
    ensures r.None? <==> c !in s
    ensures r.Some? ==> r.value < |s| && s[r.value] == c && c !in s[r.value + 1..]
    ensures r.Some? ==> forall k :: r.value < k < |s| ==> s[k] != c
  {
    if s == [] then None
    else if s[|s| - 1] == c then Some(|s| - 1)
    else
      var k := LastIndex(s[..|s| - 1], c);
      if k.None? then None
      else
        assert s[k.value + 1..] == s[..|s| - 1][k.value + 1..] + [s[|s| - 1]];
        Some(k.value)
  }

  /** When the first `open` does not precede the last `close`, no `open` precedes any `close`. */
  lemma NoPairAfterLastClose(text: string, open: char, close: char)
    requires var first, last := FirstIndex(text, open), LastIndex(text, close);
      !(first.Some? && last.Some? && first.value < last.value)
    ensures !exists i, j :: 0 <= i < j < |text| && text[i] == open && text[j] == close
  {
    var first, last := FirstIndex(text, open), LastIndex(text, close);
    forall i, j | 0 <= i < j < |text| && text[i] == open
      ensures text[j] != close
    {
      assert text[i] in text && text[j] in text;
    }
  }

  /** `text.match(/<open>[\s\S]*<close>/)`: the regex matches from its leftmost
      possible start, the first `open`, and the greedy `[\s\S]*` runs to the last
      `close`; there is a match exactly when some `open` precedes some `close`. */
  function ExtractJson(text: string, open: char, close: char): (r: Option<string>)
    ensures r.Some? <==> exists i, j :: 0 <= i < j < |text| && text[i] == open && text[j] == close
    ensures r.Some? ==> exists i, j :: (0 <= i < j < |text| && r.value == text[i..j + 1] &&
                                        text[i] == open && text[j] == close &&
                                        open !in text[..i] && close !in text[j + 1..])
  {
    var first, last := FirstIndex(text, open), LastIndex(text, close);
    if first.Some? && last.Some? && first.value < last.value then
      var i, j := first.value, last.value;
      assert text[i] == open && text[j] == close;
      Some(text[i..j + 1])
    else
      NoPairAfterLastClose(text, open, close);
      None
  }

  /** The payload is framed by the delimiters: it starts with `open` and ends with `close`. */
  lemma ExtractedIsFramed(text: string, open: char, close: char)
    requires ExtractJson(text, open, close).Some?
    ensures var t := ExtractJson(text, open, close).value;
      |t| >= 2 && t[0] == open && t[|t| - 1] == close
  {
  }

  /** FirstIndex is the position of the first occurrence. */
  lemma FirstIndexAt(s: string, c: char, k: nat)
    requires k < |s| && s[k] == c && c !in s[..k]
    ensures FirstIndex(s, c) == Some(k)
  {
    var r := FirstIndex(s, c);
    assert s[k] in s;
  }

  /** LastIndex is the position of the last occurrence. */
  lemma LastIndexAt(s: string, c: char, k: nat)
    requires k < |s| && s[k] == c && c !in s[k + 1..]
    ensures LastIndex(s, c) == Some(k)
  {
    var r := LastIndex(s, c);
    assert s[k] in s;
  }

  /** A reply with prose around the object yields just the object. */
  lemma ExtractFromProse()
    ensures var payload := "{\"foods\":[],\"totalCalories\":0}";
      ExtractJson("Here is your result: " + payload + " thanks!", '{', '}') == Some(payload)
  {
    var pre, payload, post := "Here is your result: ", "{\"foods\":[],\"totalCalories\":0}", " thanks!";
    var text := pre + payload + post;
    var j := |pre| + |payload| - 1;
    assert text[..|pre|] == pre && text[j + 1..] == post;
    FirstIndexAt(text, '{', |pre|);
    LastIndexAt(text, '}', j);
    assert text[|pre|..j + 1] == payload;
  }

  /** A reply without braces yields nothing. */
  lemma ExtractWithoutBraces()
    ensures ExtractJson("no json here", '{', '}') == None
  {
    var text := "no json here";
    assert forall m :: 0 <= m < |text| ==> text[m] != '{';
    assert '{' !in text;
  }

  /** Greediness: two objects in one reply are taken together with the prose between them. */
  lemma ExtractSpansTwoObjects()
    ensures ExtractJson("a " + "{x} b {y}" + " c", '{', '}') == Some("{x} b {y}")
  {
    var pre, payload, post := "a ", "{x} b {y}", " c";
    var text := pre + payload + post;
    assert text[..2] == pre && text[11..] == post;
    FirstIndexAt(text, '{', 2);
    LastIndexAt(text, '}', 10);
    assert text[2..11] == payload;
  }

  /** The common pipeline after the call: a reply, a payload found in it, and a
      successful `JSON.parse` of that payload (`parse` stands for `JSON.parse`;
      None is a thrown SyntaxError). */
  function ParsedReply(outcome: Upstream, open: char, close: char, parse: string -> Option<Json>): (r: Option<Json>)
    ensures r.Some? <==> (outcome.Reply? && ExtractJson(outcome.content, open, close).Some? &&
                          parse(ExtractJson(outcome.content, open, close).value).Some?)
    ensures r.Some? ==> r == parse(ExtractJson(outcome.content, open, close).value)
  {
    match outcome
    case Reply(content) =>
      (match ExtractJson(content, open, close)
       case Some(payload) => parse(payload)
       case None => None)
    case _ => None
  }

  /** The goal as the prompts of the meal-plan, progress and coaching handlers name it. */
  function GoalLabel(g: Goal): (s: string)
    ensures s == "emagrecimento" <==> g == Lose
    ensures s == "ganho de massa" <==> g == Gain
    ensures s == "manutenção" <==> g == Maintain
  {
    match g
    case Lose => "emagrecimento"
    case Gain => "ganho de massa"
    case Maintain =>
      assert "manutenção" != "ganho de massa" && "manutenção" != "emagrecimento";
      "manutenção"
  }

  /** JavaScript truthiness of an optional string field: missing or empty is falsy. */
  predicate Falsy(s: Option<string>) {
    s.None? || s.value == ""
  }
}
