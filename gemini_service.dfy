/** The one outbound call: the credential check done when the service module
    is loaded, the prompt and the two-part request, and the acceptance of the
    model's reply, where every failure collapses into one message. The hosted
    model itself and `JSON.parse` are parameters: `call` answers a request and
    `parse` gives the parsed value or `None` when the text is not JSON. */
module GeminiService {
  import opened Wrappers
  import opened Text
  import opened Json

  // ---------------------------------------------------------------- credential

  const ApiKeyMissingMessage := "API_KEY environment variable not set"

  /** A credential that passed the load-time check (`!API_KEY` rejects both
      an unset variable and the empty string). */
  type ApiKey = s: string | s != "" witness "key"

  /** The SDK client built from the credential. */
  datatype Client = Client(apiKey: ApiKey)

  /** Loading the module: a missing or empty `API_KEY` throws before any
      client exists, so no request can be made without a credential. */
  function Initialize(apiKeyVariable: Option<string>): (r: Result<Client, string>)
    ensures r.Success? <==> apiKeyVariable.Some? && apiKeyVariable.value != ""
    ensures r.Success? ==> r.value.apiKey == apiKeyVariable.value
    ensures r.Failure? ==> r.error == ApiKeyMissingMessage
  {
    match apiKeyVariable
    case Some(key) => if key == "" then Failure(ApiKeyMissingMessage) else Success(Client(key))
    case None => Failure(ApiKeyMissingMessage)
  }

  // ---------------------------------------------------------------- schema

  const ModelName := "gemini-2.5-flash"
  const ResponseMimeType := "application/json"

  datatype SchemaKind = ObjectKind | ArrayKind | StringKind

  /** A property of the declared output: its name, its kind, the kind of its
      items, and the description the model reads. */
  datatype PropertySchema = PropertySchema(name: string, kind: SchemaKind, items: SchemaKind, description: string)

  datatype ResponseSchema = ResponseSchema(kind: SchemaKind, properties: seq<PropertySchema>, required: seq<string>)

  /** The counts 5 and 15 appear only in the descriptions. */
  const DeclaredSchema := ResponseSchema(
    ObjectKind,
    [ PropertySchema("captions", ArrayKind, StringKind, "An array of 5 creative and engaging social media captions."),
      PropertySchema("hashtags", ArrayKind, StringKind, "An array of 15 relevant hashtags, without the # symbol.") ],
    ["captions", "hashtags"])

  /** The schema sent to the model requires both fields, each declared as an
      array of strings. */
  lemma DeclaredSchemaRequiresBothFields()
    ensures DeclaredSchema.required == ["captions", "hashtags"]
    ensures forall name :: name in DeclaredSchema.required ==>
      exists p :: p in DeclaredSchema.properties && p.name == name && p.kind == ArrayKind && p.items == StringKind
  {
    assert DeclaredSchema.properties[0].name == "captions";
    assert DeclaredSchema.properties[1].name == "hashtags";
  }

  // ---------------------------------------------------------------- prompt

  const PromptHead := "You are an expert social media manager. Based on the provided image and context, generate 5 creative, engaging captions in a "
  const PromptMiddle := " tone, and 15 relevant hashtags. The user-provided context is: \""
  const PromptTail := "\". Format the output as a single, valid JSON object that strictly adheres to the provided schema."
  const NoKeywordsPlaceholder := "None provided"

  /** `keywords || 'None provided'`: only the empty string is falsy, so
      blank but non-empty keywords are kept as they are. */
  function KeywordsOrPlaceholder(keywords: string): (r: string)
    ensures keywords != "" ==> r == keywords
    ensures keywords == "" ==> r == NoKeywordsPlaceholder
  {
    if keywords != "" then keywords else NoKeywordsPlaceholder
  }

  function Prompt(tone: string, keywords: string): string
  {
    PromptHead + tone + PromptMiddle + KeywordsOrPlaceholder(keywords) + PromptTail
  }

  /** Where the tone begins in the prompt and where the context begins. */
  function ToneStart(): nat { |PromptHead| }
  function ContextStart(toneLength: nat): nat { |PromptHead| + toneLength + |PromptMiddle| }

  /** Slicing a text made of five pieces at the pieces' boundaries gives
      the pieces back. */
  lemma FivePieces(a: string, b: string, c: string, d: string, e: string)
    ensures var p := a + b + c + d + e;
      |p| == |a| + |b| + |c| + |d| + |e|
      && p[..|a|] == a && p[|a|..|a| + |b|] == b && p[|a| + |b|..|a| + |b| + |c|] == c
      && p[|a| + |b| + |c|..|p| - |e|] == d && p[|p| - |e|..] == e
  {
    var p := a + b + c + d + e;
    assert p == a + (b + (c + (d + e)));
    assert p[|a|..] == b + (c + (d + e));
    assert p[|a| + |b|..] == c + (d + e);
    assert p[|a| + |b| + |c|..] == d + e;
  }

  /** The tone sits verbatim right after the fixed head, the context (the
      keywords, or the placeholder) verbatim between the fixed middle and the
      fixed tail. */
  lemma PromptEmbedsInputs(tone: string, keywords: string)
    ensures var p := Prompt(tone, keywords);
      |p| == ContextStart(|tone|) + |KeywordsOrPlaceholder(keywords)| + |PromptTail|
      && p[..ToneStart()] == PromptHead
      && p[ToneStart()..ToneStart() + |tone|] == tone
      && p[ToneStart() + |tone|..ContextStart(|tone|)] == PromptMiddle
      && p[ContextStart(|tone|)..|p| - |PromptTail|] == KeywordsOrPlaceholder(keywords)
      && p[|p| - |PromptTail|..] == PromptTail
  {
    FivePieces(PromptHead, tone, PromptMiddle, KeywordsOrPlaceholder(keywords), PromptTail);
  }

  /** Read back from a prompt, knowing the tone's length: the tone, and the
      context between the quotes. */
  function ToneOf(prompt: string, toneLength: nat): string
    requires ToneStart() + toneLength <= |prompt|
  {
    prompt[ToneStart()..ToneStart() + toneLength]
  }

  function ContextOf(prompt: string, toneLength: nat): string
    requires ContextStart(toneLength) + |PromptTail| <= |prompt|
  {
    prompt[ContextStart(toneLength)..|prompt| - |PromptTail|]
  }

  /** Reading a prompt back gives the tone it was built from and the
      keywords, or the placeholder when they were empty. */
  lemma PromptReadsBack(tone: string, keywords: string)
    ensures ContextStart(|tone|) + |PromptTail| <= |Prompt(tone, keywords)|
    ensures ToneOf(Prompt(tone, keywords), |tone|) == tone
    ensures ContextOf(Prompt(tone, keywords), |tone|) == (if keywords == "" then NoKeywordsPlaceholder else keywords)
  {
    PromptEmbedsInputs(tone, keywords);
  }

  /** Two prompts with tones of equal length are equal only when the tones
      are equal and the contexts are equal. */
  lemma PromptInjective(t1: string, k1: string, t2: string, k2: string)
    requires |t1| == |t2| && Prompt(t1, k1) == Prompt(t2, k2)
    ensures t1 == t2 && KeywordsOrPlaceholder(k1) == KeywordsOrPlaceholder(k2)
  {
    PromptEmbedsInputs(t1, k1);
    PromptEmbedsInputs(t2, k2);
  }

  /** Keywords made only of white space are not replaced by the placeholder. */
  lemma BlankKeywordsKept(tone: string, keywords: string)
    requires keywords != "" && AllWhitespace(keywords)
    ensures ContextOf(Prompt(tone, keywords), |tone|) == keywords
  {
    PromptReadsBack(tone, keywords);
  }

  // ---------------------------------------------------------------- request

  /** A request part: the inline image, or the instruction text. */
  datatype Part = InlineData(data: string, mimeType: string) | TextPart(text: string)

  /** What goes in `config`, apart from the sampling parameters. */
  datatype GenerationConfig = GenerationConfig(responseMimeType: string, responseSchema: ResponseSchema)

  datatype Request = Request(model: string, parts: seq<Part>, config: GenerationConfig)

  function BuildRequest(base64Image: string, mimeType: string, keywords: string, tone: string): Request
  {
    Request(ModelName,
            [InlineData(base64Image, mimeType), TextPart(Prompt(tone, keywords))],
            GenerationConfig(ResponseMimeType, DeclaredSchema))
  }

  /** Exactly two parts, the image first and the text second; the image part
      carries the given data and media type unchanged, and the text part is
      a prompt from which tone and context read back. */
  lemma RequestLayout(base64Image: string, mimeType: string, keywords: string, tone: string)
    ensures var req := BuildRequest(base64Image, mimeType, keywords, tone);
      |req.parts| == 2
      && req.parts[0].InlineData? && req.parts[0].data == base64Image && req.parts[0].mimeType == mimeType
      && req.parts[1].TextPart?
      && ContextStart(|tone|) + |PromptTail| <= |req.parts[1].text|
      && ToneOf(req.parts[1].text, |tone|) == tone
      && ContextOf(req.parts[1].text, |tone|) == KeywordsOrPlaceholder(keywords)
      && req.model == ModelName && req.config.responseSchema == DeclaredSchema
  {
    PromptReadsBack(tone, keywords);
  }

  // ---------------------------------------------------------------- response

  /** What the SDK call gives: a response, whose `text` may be undefined, or
      a failure (transport, service status). */
  datatype CallOutcome = Responded(text: Option<string>) | CallFailed(cause: string)

  /** The internal reason an attempt failed; each is logged and then
      replaced by the one message below. */
  datatype Fault =
    | CallFault(cause: string)
    | NoResponseText
    | NotJson
    | ReadOfNull
    | MissingField(name: string)

  const FailureMessage := "Could not generate content. The model may have returned an unexpected response."

  /** Both fields are present and truthy; counts and element types are not
      looked at. */
  predicate Accepts(parsed: Json)
  {
    var c := GetProperty(parsed, "captions");
    var h := GetProperty(parsed, "hashtags");
    c.Success? && TruthyValue(c.value) && h.Success? && TruthyValue(h.value)
  }

  /** `if (!parsedJson.captions || !parsedJson.hashtags) throw ...` then
      `return parsedJson`: the value passes unchanged or not at all. */
  function Validate(parsed: Json): (r: Result<Json, Fault>)
    ensures r.Success? <==> Accepts(parsed)
    ensures r.Success? ==> r.value == parsed && parsed.JObject?
  {
    match GetProperty(parsed, "captions")
    case Failure(_) => Failure(ReadOfNull)
    case Success(c) =>
      if !TruthyValue(c) then Failure(MissingField("captions"))
      else
        match GetProperty(parsed, "hashtags")
        case Failure(_) => Failure(ReadOfNull)
        case Success(h) =>
          if !TruthyValue(h) then Failure(MissingField("hashtags")) else Success(parsed)
  }

  /** `response.text.trim()`, `JSON.parse`, then the validation. */
  function AcceptResponse(outcome: CallOutcome, parse: string -> Option<Json>): (r: Result<Json, Fault>)
    ensures r.Success? <==>
      outcome.Responded? && outcome.text.Some? && parse(Trim(outcome.text.value)).Some?
      && Accepts(parse(Trim(outcome.text.value)).value)
    ensures r.Success? ==> r.value == parse(Trim(outcome.text.value)).value && r.value.JObject?
  {
    match outcome
    case CallFailed(cause) => Failure(CallFault(cause))
    case Responded(text) =>
      match text
      case None => Failure(NoResponseText)
      case Some(t) =>
        match parse(Trim(t))
        case None => Failure(NotJson)
        case Some(parsed) => Validate(parsed)
  }

  /** The try block of `generateCaptionsAndHashtags`. */
  function Attempt(client: Client, base64Image: string, mimeType: string, keywords: string, tone: string,
                   call: (Client, Request) -> CallOutcome, parse: string -> Option<Json>): Result<Json, Fault>
  {
    AcceptResponse(call(client, BuildRequest(base64Image, mimeType, keywords, tone)), parse)
  }

  /** `generateCaptionsAndHashtags`: the catch block throws a fresh error with
      the fixed message whatever went wrong. */
  function GenerateCaptionsAndHashtags(client: Client, base64Image: string, mimeType: string, keywords: string,
                                       tone: string, call: (Client, Request) -> CallOutcome,
                                       parse: string -> Option<Json>): (r: Result<Json, string>)
    ensures r.Failure? ==> r.error == FailureMessage
    ensures r.Success? <==> Attempt(client, base64Image, mimeType, keywords, tone, call, parse).Success?
    ensures r.Success? ==> r.value == Attempt(client, base64Image, mimeType, keywords, tone, call, parse).value
    ensures r.Success? ==> r.value.JObject?
  {
    match Attempt(client, base64Image, mimeType, keywords, tone, call, parse)
    case Success(content) => Success(content)
    case Failure(_) => Failure(FailureMessage)
  }

  /** The whole contract of one generation: the model receives exactly the
      built request; the result is the object parsed from the trimmed reply
      when that object has both fields truthy, and the fixed message in every
      other case (transport failure, missing text, text that is not JSON, a
      `null` reply, a missing or falsy field). */
  lemma GenerateContract(client: Client, base64Image: string, mimeType: string, keywords: string, tone: string,
                         call: (Client, Request) -> CallOutcome, parse: string -> Option<Json>)
    ensures var o := call(client, BuildRequest(base64Image, mimeType, keywords, tone));
      var r := GenerateCaptionsAndHashtags(client, base64Image, mimeType, keywords, tone, call, parse);
      (r.Success? <==> o.Responded? && o.text.Some? && parse(Trim(o.text.value)).Some?
                       && Accepts(parse(Trim(o.text.value)).value))
      && (r.Success? ==> r.value == parse(Trim(o.text.value)).value && r.value.JObject?)
      && (r.Failure? ==> r.error == FailureMessage)
  {
  }

  /** A reply padded with white space is read as the unpadded reply. */
  lemma PaddedReplyReadAlike(before: string, text: string, after: string, parse: string -> Option<Json>)
    requires AllWhitespace(before) && AllWhitespace(after)
    ensures AcceptResponse(Responded(Some(before + text + after)), parse)
         == AcceptResponse(Responded(Some(text)), parse)
  {
    TrimIgnoresPadding(before, text, after);
  }

  /** Counts are never checked: empty arrays are truthy and pass. */
  lemma EmptyArraysAccepted()
    ensures Accepts(JObject([Member("captions", JArray([])), Member("hashtags", JArray([]))]))
  {
    var ms := [Member("captions", JArray([])), Member("hashtags", JArray([]))];
    GetPropertyOfObject(ms, "captions", 0);
    GetPropertyOfObject(ms, "hashtags", 1);
  }

  /** Nor are the element types: a string and a number in place of the
      arrays pass as well. */
  lemma NonArraysAccepted()
    ensures Accepts(JObject([Member("captions", JString("one")), Member("hashtags", JNumber(1.0))]))
  {
    var ms := [Member("captions", JString("one")), Member("hashtags", JNumber(1.0))];
    GetPropertyOfObject(ms, "captions", 0);
    GetPropertyOfObject(ms, "hashtags", 1);
  }

  /** A reply without `hashtags`, with a `null` one, or a reply that is not
      an object is rejected. */
  lemma IncompleteRepliesRejected()
    ensures !Accepts(JObject([Member("captions", JArray([JString("a")]))]))
    ensures !Accepts(JObject([Member("captions", JArray([])), Member("hashtags", JNull)]))
    ensures !Accepts(JNull) && !Accepts(JArray([]))
  {
    GetPropertyOfObject([Member("captions", JArray([])), Member("hashtags", JNull)], "hashtags", 1);
    var single := [Member("captions", JArray([JString("a")]))];
    assert single[0].key != "hashtags";
  }
}
