/** The page: the form state, the tone actually sent, when Generate is
    disabled, what each handler does to the state, and which views show.
    The state and its transitions are first stated as values (`AppState`,
    `Generate`, `ToneChange`, ...) with their properties; the component class
    at the end keeps the same state in fields and its handlers are proved to
    perform exactly those transitions. */
module App {
  import opened Wrappers
  import opened Text
  import opened Json
  import opened GeminiService
  import opened ImageUploader
  import ResultsDisplay

  const PredefinedTones: seq<string> := [
    "Casual", "Funny", "Professional", "Inspirational", "Enthusiastic", "Sarcastic", "Informative", "Friendly",
    "Luxury", "Minimalist", "Playful", "Motivational", "Whimsical", "Serious", "Empathetic", "Authoritative"
  ]
  const CustomToneOptionValue := "custom-tone-option"

  const NoImageMessage := "Please upload an image first."
  const NoCustomToneMessage := "Please enter a custom tone."
  const FailurePrefix := "Failed to generate content: "
  const UnknownErrorMessage := "An unknown error occurred."

  /** The values the tone menu offers: the predefined tones, then "Custom...". */
  function ToneOptions(): seq<string>
  {
    PredefinedTones + [CustomToneOptionValue]
  }

  // ---------------------------------------------------------------- state

  /** The component's state hooks; `image` is the (`imageFile`,
      `imagePreviewUrl`) pair and `generatedContent` holds the parsed reply. */
  datatype AppState = AppState(
    image: Selection,
    keywords: string,
    selectedToneOption: string,
    customToneInput: string,
    generatedContent: Option<Json>,
    isLoading: bool,
    error: Option<string>)

  function Initial(): AppState
  {
    AppState(NoSelection(), "", PredefinedTones[0], "", None, false, None)
  }

  /** What every reachable state keeps: file and preview go together, and the
      tone menu holds one of its own options. */
  predicate Valid(s: AppState)
  {
    Paired(s.image) && s.selectedToneOption in ToneOptions()
  }

  /** `toneToSend`: the custom text when "Custom..." is selected, else the
      selected option. */
  function ToneToSend(s: AppState): string
  {
    if s.selectedToneOption == CustomToneOptionValue then s.customToneInput else s.selectedToneOption
  }

  predicate CustomToneBlank(s: AppState)
  {
    s.selectedToneOption == CustomToneOptionValue && Trim(s.customToneInput) == ""
  }

  /** The `disabled` expression of the Generate button. */
  predicate GenerateDisabled(s: AppState)
  {
    s.isLoading || s.image.file.None? || CustomToneBlank(s)
  }

  /** Generate is disabled exactly when a request is running, no image is
      chosen, or "Custom..." is selected with text that is all white space
      (empty text included). */
  lemma GenerateDisabledIff(s: AppState)
    ensures GenerateDisabled(s) <==>
      s.isLoading || s.image.file.None?
      || (s.selectedToneOption == CustomToneOptionValue && AllWhitespace(s.customToneInput))
  {
    TrimEmptyIff(s.customToneInput);
  }

  predicate ContentTruthy(s: AppState)
  {
    s.generatedContent.Some? && Truthy(s.generatedContent.value)
  }

  predicate PreviewTruthy(s: AppState)
  {
    s.image.previewUrl.Some? && s.image.previewUrl.value != ""
  }

  /** `!generatedContent && !isLoading`: the form card. */
  predicate ShowsForm(s: AppState) { !ContentTruthy(s) && !s.isLoading }

  /** Inside the form, keywords, tone and the buttons need a chosen file. */
  predicate ShowsFormInputs(s: AppState) { ShowsForm(s) && s.image.file.Some? }

  predicate ShowsSpinner(s: AppState) { s.isLoading }

  predicate ShowsError(s: AppState) { s.error.Some? && s.error.value != "" }

  /** `generatedContent && imagePreviewUrl`: the results panel. */
  predicate ShowsResults(s: AppState) { ContentTruthy(s) && PreviewTruthy(s) }

  /** The form and the results are never on screen together. */
  lemma FormAndResultsExclusive(s: AppState)
    ensures !(ShowsForm(s) && ShowsResults(s))
  {
  }

  /** The page opens on the empty form with "Casual" selected and Generate
      disabled for want of an image. */
  lemma InitialState()
    ensures Valid(Initial())
    ensures ShowsForm(Initial()) && !ShowsFormInputs(Initial()) && !ShowsResults(Initial())
    ensures !ShowsSpinner(Initial()) && !ShowsError(Initial())
    ensures GenerateDisabled(Initial()) && ToneToSend(Initial()) == "Casual"
  {
  }

  // ---------------------------------------------------------------- generate

  /** What `await` may give back or throw: an `Error` object carries a
      message, anything else thrown does not. */
  datatype Thrown = ErrorObject(message: string) | NonErrorValue

  /** The result of `fileToBase64` for a file. */
  datatype EncodeOutcome = Encoded(base64: string, mimeType: string) | EncodeFailed(thrown: Thrown)

  /** The world outside the page: the encoder, the hosted model and
      `JSON.parse`. */
  datatype Environment = Environment(
    encode: File -> EncodeOutcome,
    call: (Client, Request) -> CallOutcome,
    parse: string -> Option<Json>)

  /** The try block: encode, then ask the service. */
  function TryGenerate(client: Client, file: File, keywords: string, tone: string, env: Environment): (r: Result<Json, Thrown>)
    ensures r.Success? ==> r.value.JObject?
    ensures r.Failure? && env.encode(file).Encoded? ==> r.error == ErrorObject(FailureMessage)
  {
    match env.encode(file)
    case EncodeFailed(thrown) => Failure(thrown)
    case Encoded(base64, mimeType) =>
      match GenerateCaptionsAndHashtags(client, base64, mimeType, keywords, tone, env.call, env.parse)
      case Success(content) => Success(content)
      case Failure(message) => Failure(ErrorObject(message))
  }

  /** The request the attempt puts on the wire: none when encoding throws. */
  function RequestSent(file: File, keywords: string, tone: string, env: Environment): Option<Request>
  {
    match env.encode(file)
    case EncodeFailed(_) => None
    case Encoded(base64, mimeType) => Some(BuildRequest(base64, mimeType, keywords, tone))
  }

  /** The catch block's message. */
  function CaughtMessage(thrown: Thrown): string
  {
    match thrown
    case ErrorObject(message) => FailurePrefix + message
    case NonErrorValue => UnknownErrorMessage
  }

  /** `setIsLoading(true)`, `setError(null)` and `setGeneratedContent(null)`
      before the try block: loading on, error and previous content cleared. */
  function Loading(s: AppState): AppState
  {
    s.(isLoading := true, error := None, generatedContent := None)
  }

  /** Storing the content at the end of the try block, or the caught
      message in the catch block. */
  function Settle(s: AppState, outcome: Result<Json, Thrown>): AppState
  {
    match outcome
    case Success(content) => s.(generatedContent := Some(content))
    case Failure(thrown) => s.(error := Some(CaughtMessage(thrown)))
  }

  /** A transition together with the request it made, if any. */
  datatype Step = Step(state: AppState, sent: Option<Request>)

  /** `handleGenerate`, run to completion. */
  function Generate(s: AppState, client: Client, env: Environment): Step
  {
    if s.image.file.None? then Step(s.(error := Some(NoImageMessage)), None)
    else if CustomToneBlank(s) then Step(s.(error := Some(NoCustomToneMessage)), None)
    else
      var file := s.image.file.value;
      var tone := ToneToSend(s);
      var settled := Settle(Loading(s), TryGenerate(client, file, s.keywords, tone, env));
      Step(settled.(isLoading := false), RequestSent(file, s.keywords, tone, env))
  }

  /** Without an image: the error is set, nothing else changes and nothing is
      sent. */
  lemma NoImageRejected(s: AppState, client: Client, env: Environment)
    requires s.image.file.None?
    ensures Generate(s, client, env) == Step(s.(error := Some(NoImageMessage)), None)
  {
  }

  /** With "Custom..." selected and only white space typed: the error is set,
      nothing else changes and nothing is sent. */
  lemma BlankCustomToneRejected(s: AppState, client: Client, env: Environment)
    requires s.image.file.Some?
    requires s.selectedToneOption == CustomToneOptionValue && AllWhitespace(s.customToneInput)
    ensures Generate(s, client, env) == Step(s.(error := Some(NoCustomToneMessage)), None)
  {
    TrimEmptyIff(s.customToneInput);
  }

  /** An attempt that passes both guards ends not loading, with the form
      inputs as they were, and with exactly one of content (on success) and
      error (on failure); the request goes out unless encoding threw. */
  lemma AttemptSettles(s: AppState, client: Client, env: Environment)
    requires s.image.file.Some? && !CustomToneBlank(s)
    ensures var r := Generate(s, client, env);
      var outcome := TryGenerate(client, s.image.file.value, s.keywords, ToneToSend(s), env);
      !r.state.isLoading
      && r.state.image == s.image && r.state.keywords == s.keywords
      && r.state.selectedToneOption == s.selectedToneOption && r.state.customToneInput == s.customToneInput
      && (outcome.Success? ==> r.state.generatedContent == Some(outcome.value) && r.state.error == None)
      && (outcome.Failure? ==> r.state.generatedContent == None && r.state.error == Some(CaughtMessage(outcome.error)))
      && (r.sent.Some? <==> env.encode(s.image.file.value).Encoded?)
  {
  }

  /** Every enabled click passes both guards, so it always ends with loading
      off and the request sent once the image is encoded. */
  lemma EnabledClickPassesGuards(s: AppState, client: Client, env: Environment)
    requires !GenerateDisabled(s)
    ensures var r := Generate(s, client, env);
      r.state.error != Some(NoImageMessage) && r.state.error != Some(NoCustomToneMessage)
      && !r.state.isLoading
      && (env.encode(s.image.file.value).Encoded? ==> r.sent.Some?)
  {
    AttemptSettles(s, client, env);
    var outcome := TryGenerate(client, s.image.file.value, s.keywords, ToneToSend(s), env);
    if outcome.Failure? {
      match outcome.error
      case ErrorObject(m) =>
        assert CaughtMessage(outcome.error)[0] == 'F';
        assert NoImageMessage[0] == NoCustomToneMessage[0] == 'P';
      case NonErrorValue =>
    }
  }

  /** A failing service call shows "Failed to generate content: " followed by
      the service's fixed message, and no content. */
  lemma ServiceFailureMessage(s: AppState, client: Client, env: Environment)
    requires s.image.file.Some? && !CustomToneBlank(s)
    requires env.encode(s.image.file.value).Encoded?
    requires TryGenerate(client, s.image.file.value, s.keywords, ToneToSend(s), env).Failure?
    ensures Generate(s, client, env).state.error == Some(FailurePrefix + FailureMessage)
    ensures Generate(s, client, env).state.generatedContent == None
  {
  }

  /** The request carries the encoded image and the tone to send verbatim:
      the custom text (untrimmed) when "Custom..." is selected, the selected
      option otherwise. */
  lemma SentRequestCarriesTone(s: AppState, client: Client, env: Environment)
    requires Generate(s, client, env).sent.Some?
    ensures var req := Generate(s, client, env).sent.value;
      var e := env.encode(s.image.file.value);
      var tone := if s.selectedToneOption == CustomToneOptionValue then s.customToneInput else s.selectedToneOption;
      e.Encoded? && req == BuildRequest(e.base64, e.mimeType, s.keywords, tone)
      && req.parts[0] == InlineData(e.base64, e.mimeType)
      && ToneOf(req.parts[1].text, |tone|) == tone
      && ContextOf(req.parts[1].text, |tone|) == KeywordsOrPlaceholder(s.keywords)
  {
    var e := env.encode(s.image.file.value);
    RequestLayout(e.base64, e.mimeType, s.keywords, ToneToSend(s));
  }

  lemma PredefinedTonesNonEmpty()
    ensures forall i :: 0 <= i < |PredefinedTones| ==> |PredefinedTones[i]| > 0
  {
  }

  /** In a valid state, the tone of a request that is sent is never empty. */
  lemma SentToneNonEmpty(s: AppState, client: Client, env: Environment)
    requires Valid(s) && Generate(s, client, env).sent.Some?
    ensures ToneToSend(s) != ""
  {
    if s.selectedToneOption == CustomToneOptionValue {
      assert Trim(s.customToneInput) != "";
    } else {
      PredefinedTonesNonEmpty();
      assert s.selectedToneOption in PredefinedTones;
    }
  }

  /** A successful attempt with a preview on screen replaces the form by the
      results. */
  lemma SuccessShowsResults(s: AppState, client: Client, env: Environment)
    requires s.image.file.Some? && !CustomToneBlank(s) && PreviewTruthy(s)
    requires TryGenerate(client, s.image.file.value, s.keywords, ToneToSend(s), env).Success?
    ensures ShowsResults(Generate(s, client, env).state)
    ensures !ShowsForm(Generate(s, client, env).state) && !ShowsError(Generate(s, client, env).state)
  {
  }

  /** A failed attempt lands back on the form, idle, with the error shown and
      Generate enabled again, so the user can retry. */
  lemma FailureIsRetryable(s: AppState, client: Client, env: Environment)
    requires s.image.file.Some? && !CustomToneBlank(s)
    requires TryGenerate(client, s.image.file.value, s.keywords, ToneToSend(s), env).Failure?
    ensures var t := Generate(s, client, env).state;
      ShowsFormInputs(t) && ShowsError(t) && !ShowsSpinner(t) && !GenerateDisabled(t)
  {
    var thrown := TryGenerate(client, s.image.file.value, s.keywords, ToneToSend(s), env).error;
    match thrown
    case ErrorObject(m) =>
      assert |CaughtMessage(thrown)| >= |FailurePrefix|;
    case NonErrorValue =>
  }

  // ---------------------------------------------------------------- other handlers

  /** `handleSelectedToneOptionChange`. */
  function ToneChange(s: AppState, value: string): AppState
  {
    s.(selectedToneOption := value,
       customToneInput := if value != CustomToneOptionValue then "" else s.customToneInput)
  }

  /** Choosing a predefined tone sends that tone and drops the custom text;
      choosing "Custom..." keeps the text typed so far and sends it. Leaving
      "Custom..." and coming back starts from an empty text. */
  lemma ToneChangeEffect(s: AppState, value: string, other: string)
    requires other != CustomToneOptionValue
    ensures value != CustomToneOptionValue ==>
      ToneChange(s, value).customToneInput == "" && ToneToSend(ToneChange(s, value)) == value
    ensures ToneChange(s, CustomToneOptionValue).customToneInput == s.customToneInput
    ensures ToneToSend(ToneChange(s, CustomToneOptionValue)) == s.customToneInput
    ensures ToneChange(ToneChange(s, other), CustomToneOptionValue).customToneInput == ""
    ensures GenerateDisabled(ToneChange(ToneChange(s, other), CustomToneOptionValue))
    ensures ToneChange(s, value).image == s.image && ToneChange(s, value).keywords == s.keywords
      && ToneChange(s, value).generatedContent == s.generatedContent
      && ToneChange(s, value).isLoading == s.isLoading && ToneChange(s, value).error == s.error
  {
  }

  /** The image events of the uploader, on the App's state. */
  function ImageChange(s: AppState, files: Option<seq<File>>, objectUrl: string): AppState
  {
    s.(image := OnImageChange(s.image, files, objectUrl))
  }

  function RemoveImage(s: AppState): AppState
  {
    s.(image := NoSelection())
  }

  /** Every handler keeps the state valid (the tone menu can only report one
      of its options); reset lands on the valid initial state. */
  lemma TransitionsPreserveValid(s: AppState, client: Client, env: Environment, value: string,
                                 files: Option<seq<File>>, objectUrl: string)
    requires Valid(s)
    ensures Valid(Generate(s, client, env).state)
    ensures value in ToneOptions() ==> Valid(ToneChange(s, value))
    ensures Valid(ImageChange(s, files, objectUrl)) && Valid(RemoveImage(s))
    ensures Valid(s.(keywords := value)) && Valid(s.(customToneInput := value))
    ensures Valid(Initial())
  {
    TransitionsKeepPaired(s.image, files, objectUrl);
  }

  // ---------------------------------------------------------------- results

  function Strings(items: seq<Json>): (r: Option<seq<string>>)
    ensures r.Some? ==>
      |r.value| == |items| && forall i :: 0 <= i < |items| ==> items[i] == JString(r.value[i])
    ensures r.None? ==> exists i :: 0 <= i < |items| && !items[i].JString?
  {
    if items == [] then Some([])
    else if !items[0].JString? then None
    else
      match Strings(items[1..])
      case None => None
      case Some(rest) => Some([items[0].s] + rest)
  }

  /** Reading the accepted object as the content the results panel expects:
      both fields arrays of strings. */
  function StringArrayField(j: Json, key: string): Option<seq<string>>
  {
    match GetProperty(j, key)
    case Success(Defined(JArray(items))) => Strings(items)
    case _ => None
  }

  function AsContent(j: Json): Option<ResultsDisplay.GeneratedContent>
  {
    match (StringArrayField(j, "captions"), StringArrayField(j, "hashtags"))
    case (Some(c), Some(h)) => Some(ResultsDisplay.GeneratedContent(c, h))
    case _ => None
  }

  /** Content of the shape the panel expects always passes acceptance, but
      acceptance checks only truthiness: an object whose fields are a string
      and a number passes it too, and is not of that shape. */
  lemma AcceptanceWeakerThanContentType(j: Json)
    ensures AsContent(j).Some? ==> Accepts(j)
    ensures var odd := JObject([Member("captions", JString("one")), Member("hashtags", JNumber(1.0))]);
      Accepts(odd) && AsContent(odd).None?
  {
    NonArraysAccepted();
    var odd := JObject([Member("captions", JString("one")), Member("hashtags", JNumber(1.0))]);
    GetPropertyOfObject(odd.members, "captions", 0);
  }

  // ---------------------------------------------------------------- component

  class AppComponent {
    const client: Client
    const image: ImageState
    /** The mounted uploader, which writes the image state through its
        setters. */
    const uploader: Uploader
    var keywords: string
    var selectedToneOption: string
    var customToneInput: string
    var generatedContent: Option<Json>
    var isLoading: bool
    var error: Option<string>

    function State(): AppState
      reads this, image
    {
      AppState(image.Value(), keywords, selectedToneOption, customToneInput, generatedContent, isLoading, error)
    }

    /** The component needs a client, which exists only once the service
        has loaded with a credential. */
    constructor(client: Client)
      ensures State() == Initial() && this.client == client && fresh(image)
      ensures fresh(uploader) && uploader.state == image && uploader.inputValue == ""
    {
      this.client := client;
      var shared := new ImageState();
      image := shared;
      uploader := new Uploader(shared);
      keywords := "";
      selectedToneOption := PredefinedTones[0];
      customToneInput := "";
      generatedContent := None;
      isLoading := false;
      error := None;
    }

    method BeginAttempt()
      modifies this
      ensures State() == Loading(old(State()))
    {
      isLoading := true;
      error := None;
      generatedContent := None;
    }

    method SettleAttempt(outcome: Result<Json, Thrown>)
      modifies this
      ensures State() == Settle(old(State()), outcome)
    {
      match outcome {
        case Success(content) =>
          generatedContent := Some(content);
        case Failure(thrown) =>
          error := Some(CaughtMessage(thrown));
      }
    }

    /** The try/catch/finally of `handleGenerate`, once both guards have
        passed. */
    method RunAttempt(file: File, tone: string, env: Environment) returns (sent: Option<Request>)
      modifies this
      ensures State() == Settle(Loading(old(State())), TryGenerate(client, file, old(keywords), tone, env)).(isLoading := false)
      ensures sent == RequestSent(file, old(keywords), tone, env)
    {
      BeginAttempt();
      var outcome: Result<Json, Thrown>;
      match env.encode(file) {
        case EncodeFailed(thrown) =>
          sent := None;
          outcome := Failure(thrown);
        case Encoded(base64, mimeType) =>
          sent := Some(BuildRequest(base64, mimeType, keywords, tone));
          var result := GenerateCaptionsAndHashtags(client, base64, mimeType, keywords, tone, env.call, env.parse);
          match result {
            case Success(content) =>
              outcome := Success(content);
            case Failure(message) =>
              outcome := Failure(ErrorObject(message));
          }
      }
      SettleAttempt(outcome);
      isLoading := false;
    }

    /** `handleGenerate`; `sent` is the request that went to the model. */
    method HandleGenerate(env: Environment) returns (sent: Option<Request>)
      modifies this
      ensures Step(State(), sent) == Generate(old(State()), client, env)
    {
      if image.file.None? {
        error := Some(NoImageMessage);
        return None;
      }
      if selectedToneOption == CustomToneOptionValue && Trim(customToneInput) == "" {
        error := Some(NoCustomToneMessage);
        return None;
      }
      sent := RunAttempt(image.file.value, ToneToSend(State()), env);
    }

    /** Resetting does not touch the uploader's input, which keeps the name
        of the last file chosen. */
    method HandleReset()
      modifies this, image
      ensures State() == Initial()
      ensures uploader.inputValue == old(uploader.inputValue)
    {
      image.file := None;
      image.previewUrl := None;
      keywords := "";
      selectedToneOption := PredefinedTones[0];
      customToneInput := "";
      generatedContent := None;
      error := None;
      isLoading := false;
    }

    method HandleSelectedToneOptionChange(value: string)
      modifies this
      ensures State() == ToneChange(old(State()), value)
    {
      selectedToneOption := value;
      if value != CustomToneOptionValue {
        customToneInput := "";
      }
    }

    /** A file chosen in the uploader: its handler performs `ImageChange` on
        the App's state. */
    method HandleImageChange(files: Option<seq<File>>, objectUrl: string, path: string)
      requires uploader.state == image
      modifies image, uploader
      ensures State() == ImageChange(old(State()), files, objectUrl)
      ensures uploader.inputValue == path
    {
      uploader.HandleImageChange(files, objectUrl, path);
    }

    /** The uploader's remove button: it performs `RemoveImage` on the App's
        state and empties the input. */
    method HandleRemoveImage()
      requires uploader.state == image
      modifies image, uploader
      ensures State() == RemoveImage(old(State()))
      ensures uploader.inputValue == ""
    {
      uploader.HandleRemoveImage();
    }

    /** The keywords text area. */
    method HandleKeywordsChange(value: string)
      modifies this
      ensures State() == old(State()).(keywords := value)
    {
      keywords := value;
    }

    /** The custom tone text area. */
    method HandleCustomToneInputChange(value: string)
      modifies this
      ensures State() == old(State()).(customToneInput := value)
    {
      customToneInput := value;
    }
  }
}
