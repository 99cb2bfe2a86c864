/** The edge function's request handler (`Deno.serve` in
    supabase/functions/interpret-dream/index.ts) as a decision over its
    inputs. What the handler awaits from outside is given to it: the parsed
    request body, the API key from the environment, the model endpoint
    (`call`), `JSON.parse` together with the shape checks `generateVisualData`
    makes on its result (`parse`), and the `Math.random` draws (`rand`). */
module InterpretDream {
  import opened Wrappers
  import opened JsText
  import opened DreamTypes
  import opened CodeFence
  import opened VisualDeriver
  import opened Fallback

  /** The `dreamText` field of the JSON body. */
  datatype DreamField =
    | Missing                 // undefined or null
    | Text(text: string)
    | NotText(truthy: bool)   // a number, boolean, object or array; `truthy` as JavaScript judges it

  /** A POST to the function. `body` is None when `await req.json()` throws
      or its result cannot be destructured; `reread` is what the second
      `await req.json()` in the catch block yields, None when it throws. */
  datatype Request = Request(body: Option<DreamField>, reread: Option<string>)

  datatype ChatMessage = ChatMessage(role: string, content: string)

  /** The chat-completion request the handler posts to the model endpoint. */
  datatype ModelRequest = ModelRequest(
    endpoint: string,
    authorization: string,
    model: string,
    messages: seq<ChatMessage>,
    temperature: real,
    maxTokens: nat)

  /** What the model endpoint comes back with: `fetch` rejecting, or a
      response with its `ok` flag and the text at
      `data.choices[0]?.message?.content || ''` (None when reading the body
      as JSON, or getting at that text, throws). */
  datatype ModelReply =
    | NetworkFailure
    | Reply(ok: bool, content: Option<string>)

  datatype Payload =
    | ErrorBody(error: string)
    | Interpreted(interpretation: DreamInterpretation, visualData: VisualData, usedFallback: bool)

  datatype Response = Response(status: nat, payload: Payload)

  const Endpoint: string := "https://api.groq.com/openai/v1/chat/completions"
  const ModelName: string := "llama-3.3-70b-versatile"
  const SystemInstruction: string :=
    "You are a dream interpretation expert. Always respond with valid JSON only, no markdown formatting."
  const PromptHead: string := @"You are an expert dream analyst. Analyze the following dream and provide a detailed interpretation in JSON format.

Dream: """
  const PromptTail: string := @"""

Return ONLY valid JSON (no markdown, no code blocks) with this exact structure:
{
  ""summary"": ""A brief 2-3 sentence summary of the dream's core meaning"",
  ""themes"": [
    {""name"": ""theme name"", ""description"": ""brief description"", ""intensity"": 0-100}
  ],
  ""symbols"": [
    {""name"": ""symbol"", ""meaning"": ""what it represents"", ""category"": ""nature/people/objects/abstract"", ""color"": ""#hex""}
  ],
  ""emotions"": [
    {""name"": ""emotion"", ""intensity"": 0-100, ""color"": ""#hex""}
  ],
  ""insights"": [""insight 1"", ""insight 2"", ""insight 3""],
  ""lucidDreamPotential"": 0-100
}

Include 3-5 themes, 5-8 symbols, 3-5 emotions, and 3-5 insights. Use vibrant hex colors for visualization."

  const BadRequest: Response := Response(400, ErrorBody("Dream text is required"))
  const ServerError: Response := Response(500, ErrorBody("Failed to process dream interpretation"))

  /** `!GROQ_API_KEY`: the key is unset or empty. */
  predicate KeyMissing(apiKey: Option<string>) {
    apiKey.None? || apiKey.value == ""
  }

  /** `!dreamText || dreamText.trim().length === 0`, for the values on which
      it does not throw. */
  predicate IsBlankField(f: DreamField) {
    f.Missing? || (f.NotText? && !f.truthy) || (f.Text? && IsBlank(f.text))
  }

  /** A text field is blank exactly when `trim` leaves nothing of it. */
  lemma BlankFieldTrimsToEmpty(text: string)
    ensures IsBlankField(Text(text)) <==> |Trim(text)| == 0
  {
  }

  /** The request body carries a dream text that is not blank. */
  predicate HasDreamText(req: Request) {
    req.body.Some? && req.body.value.Text? && !IsBlank(req.body.value.text)
  }

  /** The request reaches the model: a dream text and a key. */
  predicate ReachesModel(req: Request, apiKey: Option<string>) {
    HasDreamText(req) && !KeyMissing(apiKey)
  }

  /** The response carrying the fallback interpretation. */
  function FallbackResponse(rand: nat -> real): Response {
    Response(200, Interpreted(Canned, GenerateVisualData(Canned, rand), true))
  }

  /** The catch block: the fallback when the body can be read again, else 500. */
  function Recovered(req: Request, rand: nat -> real): Response {
    if req.reread.Some? then FallbackResponse(rand) else ServerError
  }

  /** The prompt: fixed instructions around the dream text, which appears in
      it verbatim. */
  function BuildPrompt(dreamText: string): (prompt: string)
    ensures Includes(prompt, dreamText)
  {
    var prompt := PromptHead + dreamText + PromptTail;
    assert dreamText <= prompt[|PromptHead|..];
    prompt
  }

  /** The request posted to the model: a bearer token, a system message and
      a user message holding the prompt, temperature 0.7, at most 2000
      tokens. */
  function BuildModelRequest(apiKey: string, dreamText: string): (r: ModelRequest)
    ensures r.endpoint == Endpoint && r.authorization == "Bearer " + apiKey
    ensures |r.messages| == 2
    ensures r.messages[0] == ChatMessage("system", SystemInstruction)
    ensures r.messages[1].role == "user" && Includes(r.messages[1].content, dreamText)
    ensures r.temperature == 0.7 && r.maxTokens == 2000
  {
    ModelRequest(
      Endpoint,
      "Bearer " + apiKey,
      ModelName,
      [ChatMessage("system", SystemInstruction), ChatMessage("user", BuildPrompt(dreamText))],
      0.7,
      2000)
  }

  /** The handler for a POST. `contacted` tells whether the model endpoint was
      called. Where the source's `try` block throws, control reaches the
      catch block at the end. */
  method Serve(req: Request, apiKey: Option<string>, call: ModelRequest -> ModelReply,
               parse: string -> Option<DreamInterpretation>, rand: nat -> real)
    returns (resp: Response, contacted: bool)
    // a blank dream text is refused before anything else happens
    ensures req.body.Some? && IsBlankField(req.body.value) ==> resp == BadRequest && !contacted
    // without a key the fallback is served and the model is not called
    ensures HasDreamText(req) && KeyMissing(apiKey) ==> resp == FallbackResponse(rand) && !contacted
    // with a key the model is called, and a non-ok status yields the fallback
    ensures ReachesModel(req, apiKey) ==> contacted
    ensures ReachesModel(req, apiKey) &&
            call(BuildModelRequest(apiKey.value, req.body.value.text)).Reply? &&
            !call(BuildModelRequest(apiKey.value, req.body.value.text)).ok ==>
            resp == FallbackResponse(rand)
    // an ok reply whose de-fenced content parses is served with its visual data
    ensures ReachesModel(req, apiKey) ==>
            var reply := call(BuildModelRequest(apiKey.value, req.body.value.text));
            reply.Reply? && reply.ok && reply.content.Some? &&
            parse(StripFences(reply.content.value)).Some? ==>
            var d := parse(StripFences(reply.content.value)).value;
            resp == Response(200, Interpreted(d, GenerateVisualData(d, rand), false))
    // every failure inside the try block ends in the catch block
    ensures req.body.None? ==> resp == Recovered(req, rand) && !contacted
    ensures req.body == Some(NotText(true)) ==> resp == Recovered(req, rand) && !contacted
    ensures ReachesModel(req, apiKey) ==>
            var reply := call(BuildModelRequest(apiKey.value, req.body.value.text));
            reply.NetworkFailure? ||
            (reply.ok && (reply.content.None? || parse(StripFences(reply.content.value)).None?)) ==>
            resp == Recovered(req, rand)
    // the shape of every response
    ensures resp.status == 200 || resp == BadRequest || resp == ServerError
    ensures resp == ServerError ==> req.reread.None?
    ensures resp.status == 200 ==>
              resp.payload.Interpreted? &&
              resp.payload.visualData == GenerateVisualData(resp.payload.interpretation, rand)
    ensures resp.status == 200 && resp.payload.usedFallback ==>
              resp.payload.interpretation == Canned && WellFormed(resp.payload.interpretation)
    ensures resp.status == 200 && !resp.payload.usedFallback ==> contacted && ReachesModel(req, apiKey)
  {
    contacted := false;
    CannedIsWellFormed();
    match req.body {
      case None =>
      case Some(field) =>
        if field.Missing? || (field.NotText? && !field.truthy) {
          return BadRequest, false;
        }
        if field.Text? {
          var dreamText := field.text;
          if dreamText == "" || |Trim(dreamText)| == 0 {
            return BadRequest, false;
          }
          if KeyMissing(apiKey) {
            resp := Response(200, Interpreted(
              GenerateFallbackInterpretation(dreamText, rand).interpretation,
              GenerateFallbackInterpretation(dreamText, rand).visualData,
              true));
            return resp, false;
          }
          contacted := true;
          var reply := call(BuildModelRequest(apiKey.value, dreamText));
          if reply.Reply? {
            if !reply.ok {
              var fallback := GenerateFallbackInterpretation(dreamText, rand);
              return Response(200, Interpreted(fallback.interpretation, fallback.visualData, true)), true;
            }
            if reply.content.Some? {
              var cleanedContent := StripFences(reply.content.value);
              var parsed := parse(cleanedContent);
              if parsed.Some? {
                var interpretation := parsed.value;
                var visualData := GenerateVisualData(interpretation, rand);
                return Response(200, Interpreted(interpretation, visualData, false)), true;
              }
            }
          }
        }
    }
    // catch (error)
    if req.reread.Some? {
      var fallback := GenerateFallbackInterpretation(req.reread.value, rand);
      resp := Response(200, Interpreted(fallback.interpretation, fallback.visualData, true));
    } else {
      resp := ServerError;
    }
  }
}
