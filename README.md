# Caption & hashtag generator — verified model

A Dafny model of the logic of a small browser front-end. The user uploads an
image and adds optional keywords and a tone. The program then makes one call to
a hosted Gemini model and asks it for five captions and fifteen hashtags. Four modules model the
repository's four core files. They share three helpers:

- `Wrappers`: `Option` and `Result`.
- `Text`: JavaScript's `String.prototype.trim`, using ECMAScript's WhiteSpace
  and LineTerminator code points.
- `Json`: the value `JSON.parse` returns, JavaScript truthiness on it, and
  property reads (`null` throws; a repeated key keeps its last value).

The core modules:

- `GeminiService` (`services/geminiService.ts`):
  - the `API_KEY` check done when the module loads;
  - the declared response schema;
  - the prompt, with its `keywords || 'None provided'` default;
  - the two-part request;
  - trim, parse and validate of the reply;
  - the catch-all that turns every failure into one fixed message.

  The hosted model is a parameter `call: (Client, Request) -> CallOutcome`,
  and `JSON.parse` is a parameter `parse: string -> Option<Json>`.
- `ImageUploader` (`components/ImageUploader.tsx`):
  - the select and remove transitions on the (file, preview URL) pair, which
    the App owns and the uploader writes through its setters (modelled as a
    shared `ImageState` object);
  - the value of the file input;
  - which view the uploader shows.
- `ResultsDisplay` (`components/ResultsDisplay.tsx`):
  - the hashtag line `map(h => '#' + h).join(' ')`, with JavaScript's `join`
    and `split` written out;
  - one block per caption, each with its copy button.
- `App` (`App.tsx`). The form state is a value `AppState`; `Generate`,
  `ToneChange`, `ImageChange` and `RemoveImage` are its transitions, and
  lemmas state their properties. The class `AppComponent` keeps the same
  state in fields, and each handler is proved to perform exactly its
  transition. The encoder `fileToBase64`, the model call and the parser
  together form an `Environment` value.

The code's checks are weaker than what its prompt and schema descriptions ask for:

- The code checks only that `captions` and `hashtags` are truthy. It never
  checks the counts (5 and 15), whether the fields are arrays of strings, or
  whether hashtags start with `#`. Empty arrays are accepted.
  `GeminiService.EmptyArraysAccepted`, `GeminiService.NonArraysAccepted` and `App.AcceptanceWeakerThanContentType`
  state this.
- Encoding failures have no error kind of their own: a failure while encoding
  the image shows as "Failed to generate content: " plus its message, or "An
  unknown error occurred." when what was thrown is not an `Error`. The internal reason for a
  service failure is kept as `GeminiService.Fault`, but the caller only ever
  sees the fixed message.

## Model

| member | source | states |
|---|---|---|
| Text.Trim | services/geminiService.ts:56 | `String.prototype.trim`: ECMAScript white space and line terminators are cut from both ends; its properties are stated by the `Text.Trim*` lemmas below |
| Text.TrimIsInnerSlice | services/geminiService.ts:56 | the trimmed text is one contiguous slice of the input, and everything cut from either end is white space |
| Text.TrimEndsOnNonWhitespace | services/geminiService.ts:56 | a non-empty trimmed text neither starts nor ends with white space |
| Text.TrimEmptyIff | App.tsx:35 | a text trims to the empty string exactly when every character is white space, so a custom tone made of spaces or newlines counts as missing |
| Text.TrimIdempotent | services/geminiService.ts:56 | trimming an already trimmed text changes nothing |
| Text.TrimIgnoresPadding | services/geminiService.ts:56 | white space added before and after a text does not change what it trims to |
| Json.LastIndex | services/geminiService.ts:57 | the pair kept for a key is the last one with that key; the result is -1 exactly when no pair has the key |
| Json.GetProperty | services/geminiService.ts:60 | reading a property of `null` throws; any non-object value gives `undefined`; an object gives a value exactly when some member has the key |
| Json.GetPropertyOfObject | services/geminiService.ts:57-60 | an object gives, for a key, the value of the last pair with that key, whatever earlier duplicates held |
| Json.TruthyPropertyOnlyOnObjects | services/geminiService.ts:60 | only a parsed object can have a truthy `captions` or `hashtags` |
| GeminiService.Initialize | services/geminiService.ts:5-11 | a client exists exactly when `API_KEY` is set and non-empty, and it carries that key; otherwise loading fails with "API_KEY environment variable not set", so no request can ever be made |
| GeminiService.DeclaredSchemaRequiresBothFields | services/geminiService.ts:13-28 | the declared schema requires `captions` and `hashtags`, and declares each as an array of strings |
| GeminiService.KeywordsOrPlaceholder | services/geminiService.ts:34 | non-empty keywords are used as given; only the empty string is replaced by "None provided" |
| GeminiService.Prompt | services/geminiService.ts:34 | the template literal: the fixed text with the tone and `keywords \|\| 'None provided'` put in; `PromptEmbedsInputs`, `PromptReadsBack` and `PromptInjective` state what it contains |
| GeminiService.PromptEmbedsInputs | services/geminiService.ts:34 | the prompt is made of five pieces: the fixed head, the tone verbatim, the fixed middle, the context verbatim, and the fixed tail |
| GeminiService.PromptReadsBack | services/geminiService.ts:34 | given the tone's length, reading the prompt back recovers the tone and the keywords, or "None provided" when the keywords were empty |
| GeminiService.PromptInjective | services/geminiService.ts:34 | two prompts whose tones have the same length are equal only if their tones are equal and their contexts are equal |
| GeminiService.BlankKeywordsKept | services/geminiService.ts:34 | for any tone, non-empty keywords made only of white space reach the prompt unchanged; they are not replaced by the placeholder |
| GeminiService.BuildRequest | services/geminiService.ts:36-50 | the `generateContent` argument: model name, the image part and the prompt part, and the generation config with JSON output and the declared schema; `RequestLayout` states its layout |
| GeminiService.RequestLayout | services/geminiService.ts:36-50 | the request has exactly two parts: first the image, with the given base64 data and media type unchanged, then the text holding the prompt; it names the model and declares the schema |
| GeminiService.Accepts | services/geminiService.ts:60 | the test `!parsedJson.captions \|\| !parsedJson.hashtags`, negated: both property reads succeed and give truthy values; `EmptyArraysAccepted`, `NonArraysAccepted` and `IncompleteRepliesRejected` show what it lets through and what not |
| GeminiService.Validate | services/geminiService.ts:59-64 | a parsed value is accepted exactly when both fields are truthy; an accepted value is an object and is returned unchanged |
| GeminiService.AcceptResponse | services/geminiService.ts:56-64 | a reply is accepted exactly when the call succeeded, its text is present, the trimmed text parses, and the parsed value has both fields truthy; the result is that parsed value |
| GeminiService.GenerateCaptionsAndHashtags | services/geminiService.ts:30-70 | every failure, of any kind, becomes the one fixed message; success happens exactly when the attempt succeeds, and returns that attempt's value |
| GeminiService.GenerateContract | services/geminiService.ts:30-70 | end to end, for whatever the model answers to the built request: success exactly when the reply is present, parses after trimming, and has both fields truthy; the result is then the parsed object; every other case gives the fixed message and no partial result |
| GeminiService.PaddedReplyReadAlike | services/geminiService.ts:56-57 | a reply with white space around it is accepted or rejected exactly like the bare reply, and gives the same result |
| GeminiService.EmptyArraysAccepted | services/geminiService.ts:60-64 | an object with empty `captions` and `hashtags` arrays is accepted: the counts 5 and 15 are never checked |
| GeminiService.NonArraysAccepted | services/geminiService.ts:60-64 | a string and a number in place of the two arrays are accepted too: element types are never checked |
| GeminiService.IncompleteRepliesRejected | services/geminiService.ts:60-62 | a reply with no `hashtags`, a `null` `hashtags`, a `null` reply or an array reply is rejected |
| ImageUploader.OnImageChange | components/ImageUploader.tsx:14-20 | a change event with no file list, or an empty one, leaves the selection as it was; otherwise the first file and its object URL are set together |
| ImageUploader.TransitionsKeepPaired | components/ImageUploader.tsx:14-28 | both selecting and removing keep "file is null exactly when preview is null" |
| ImageUploader.OnlyFirstFileTaken | components/ImageUploader.tsx:15-16 | files after the first make no difference; the selected file is the first one |
| ImageUploader.Render | components/ImageUploader.tsx:40-65 | the upload prompt shows exactly when the preview is null or empty; otherwise the preview with its remove button shows, for that same URL |
| ImageUploader.SelectShowsPreviewRemoveShowsPrompt | components/ImageUploader.tsx:14-65 | after selecting a file the uploader shows its preview; after removing it, the prompt shows again |
| ImageUploader.ImageState.constructor | App.tsx:17-18 | the image state starts with no file and no preview |
| ImageUploader.Uploader.constructor | components/ImageUploader.tsx:11-12 | the uploader writes the App's image state, and its input starts empty |
| ImageUploader.Uploader.HandleImageChange | components/ImageUploader.tsx:14-20 | the shared image state becomes `OnImageChange` of the old state; the input holds the value the browser gave it for this choice |
| ImageUploader.Uploader.HandleRemoveImage | components/ImageUploader.tsx:22-28 | file and preview are both cleared, and the input's value is reset to the empty string |
| ResultsDisplay.Join | components/ResultsDisplay.tsx:14 | `Array.prototype.join`: the parts with the separator between neighbours; `JoinLength` and `SplitJoin` state its length and that `Split` inverts it |
| ResultsDisplay.AllHashtags | components/ResultsDisplay.tsx:14 | `hashtags.map(h => '#' + h).join(' ')`; `AllHashtagsShape` and `AllHashtagsReadsBack` state its shape and that it reads back to the list |
| ResultsDisplay.WithHash | components/ResultsDisplay.tsx:14 | one entry per hashtag, in the same order, each being `#` followed by that hashtag |
| ResultsDisplay.JoinLength | components/ResultsDisplay.tsx:14 | for n >= 1 parts, the joined text is as long as the parts together plus n - 1 separators |
| ResultsDisplay.AllHashtagsShape | components/ResultsDisplay.tsx:14 | no hashtags give "", one hashtag `h` gives `#h`, and n >= 1 hashtags give a text of length (sum of (len h + 1)) + (n - 1) |
| ResultsDisplay.SplitJoin | components/ResultsDisplay.tsx:14 | when no part contains the separator, splitting the joined text at the separator gives the parts back |
| ResultsDisplay.AllHashtagsReadsBack | components/ResultsDisplay.tsx:14 | when no hashtag contains a space and there is at least one, splitting the hashtag text at spaces and dropping the `#` gives exactly the original list, in order |
| ResultsDisplay.CaptionBlocks | components/ResultsDisplay.tsx:49-54 | one block per caption, in order; block i has key i, shows caption i and copies caption i |
| ResultsDisplay.Render | components/ResultsDisplay.tsx:13-55 | the panel: the preview URL, the hashtag line and its copy text, and one block per caption; `RenderCopiesWhatItShows` states what the copy buttons copy |
| ResultsDisplay.RenderCopiesWhatItShows | components/ResultsDisplay.tsx:13-55 | the hashtag copy button copies exactly the hashtag text on display; the caption copy buttons, in order, copy exactly the captions; no two blocks share a key |
| App.Initial | App.tsx:17-24 | the `useState` initial values: no file or preview, empty keywords, "Casual", empty custom text, no content, not loading, no error; `InitialState` states what it shows |
| App.ToneToSend | App.tsx:27 | the custom text when "Custom..." is selected, the selected option otherwise; `SentRequestCarriesTone` and `SentToneNonEmpty` state what reaches the request |
| App.GenerateDisabled | App.tsx:163 | the button's `disabled` expression; `GenerateDisabledIff` restates it without `trim` |
| App.ShowsForm | App.tsx:87 | `!generatedContent && !isLoading`; `FormAndResultsExclusive` relates it to the results panel |
| App.ShowsResults | App.tsx:186 | `generatedContent && imagePreviewUrl`; `FormAndResultsExclusive` and `SuccessShowsResults` state when it holds |
| App.GenerateDisabledIff | App.tsx:163 | Generate is disabled exactly when loading, or no image is chosen, or "Custom..." is selected with text that is empty or all white space |
| App.FormAndResultsExclusive | App.tsx:87-186 | the form and the results panel are never shown together |
| App.InitialState | App.tsx:17-24 | the initial state is valid; it shows the form without its inputs and shows no results, spinner or error; Generate is disabled and the tone to send is "Casual" |
| App.Generate | App.tsx:29-54 | `handleGenerate` run to completion: the two guards, the loading reset, the try/catch and the finally, and the request sent; the lemmas from `NoImageRejected` to `FailureIsRetryable` state its behaviour |
| App.CaughtMessage | App.tsx:49 | "Failed to generate content: " plus the message of a thrown `Error`, "An unknown error occurred." for anything else; `ServiceFailureMessage` and `FailureIsRetryable` use it |
| App.TryGenerate | App.tsx:44-47 | a successful attempt yields a parsed object; when the image was encoded, every failure is an `Error` carrying the service's fixed message |
| App.NoImageRejected | App.tsx:30-33 | with no image, only the error changes, to "Please upload an image first."; loading and content stay as they were and no request is sent |
| App.BlankCustomToneRejected | App.tsx:35-38 | with an image, "Custom..." selected and all-white-space text, only the error changes, to "Please enter a custom tone.", and no request is sent |
| App.AttemptSettles | App.tsx:40-53 | after an attempt that passed both guards, loading is off and the form inputs are as they were; on success the content is stored and the error is cleared; on failure the content is null and the error is the caught message; a request is sent exactly when encoding succeeded |
| App.EnabledClickPassesGuards | App.tsx:163 | a click on an enabled Generate passes both guards of the handler: it never ends in either guard's error, it always ends with loading off, and it sends the request whenever the image encodes |
| App.ServiceFailureMessage | App.tsx:48-49 | when the service fails, the error shown is "Failed to generate content: " followed by the service's fixed message, and there is no content |
| App.SentRequestCarriesTone | App.tsx:27 | the sent request carries the encoded image; its prompt holds the tone to send verbatim (the untrimmed custom text when "Custom..." is selected, the selected option otherwise) and the keywords or the placeholder |
| App.SentToneNonEmpty | App.tsx:27-38 | in a valid state, the tone of any request that is sent is never empty |
| App.SuccessShowsResults | App.tsx:186-191 | after a successful attempt, with a preview present, the results panel is shown and the form and error are not |
| App.FailureIsRetryable | App.tsx:48-53 | after a failed attempt the form and its inputs are back, the error is shown, there is no spinner, and Generate is enabled again |
| App.ToneChange | App.tsx:67-73 | `handleSelectedToneOptionChange`: the new option, and the custom text cleared unless the option is "Custom..."; `ToneChangeEffect` states its effect |
| App.ToneChangeEffect | App.tsx:67-73 | choosing a predefined tone sets it as the tone to send and clears the custom text; choosing "Custom..." keeps the typed text; switching to a predefined tone and back to "Custom..." leaves the text empty and Generate disabled; nothing else changes |
| App.ImageChange | components/ImageUploader.tsx:14-20 | the uploader's change handler, on the App's state: only the image pair changes, as `OnImageChange` says |
| App.RemoveImage | components/ImageUploader.tsx:22-28 | the uploader's remove handler, on the App's state: only the image pair changes, to no file and no preview |
| App.TransitionsPreserveValid | App.tsx:114-128 | every handler keeps file and preview paired, and keeps the tone in the menu's own options whenever the menu reports one of them; reset returns to a valid state |
| App.AcceptanceWeakerThanContentType | services/geminiService.ts:64 | content shaped as the results panel expects (two arrays of strings) always passes acceptance, but some accepted objects do not have that shape |
| App.AppComponent.constructor | App.tsx:17-24 | the component starts in the initial state: no file, no preview, empty keywords, "Casual", empty custom text, no content, no error, not loading; its uploader writes its image state and has an empty input |
| App.AppComponent.BeginAttempt | App.tsx:40-42 | before the call, loading is on and the error and any previous content are cleared; nothing else changes |
| App.AppComponent.SettleAttempt | App.tsx:47-49 | on success only the content changes, to the new content; on failure only the error changes, to the caught message |
| App.AppComponent.RunAttempt | App.tsx:40-53 | once the guards have passed: loading is cleared; the content or the error is set from what the try block gives; the sent request is the one built from the encoded image |
| App.AppComponent.HandleGenerate | App.tsx:29-54 | the handler performs exactly the transition `Generate` (both guards, the try/catch and the finally) and reports the request it sent |
| App.AppComponent.HandleReset | App.tsx:56-65 | reset restores exactly the initial state, whatever the state before; the uploader's input keeps its value |
| App.AppComponent.HandleSelectedToneOptionChange | App.tsx:67-73 | the handler performs exactly `ToneChange` |
| App.AppComponent.HandleImageChange | components/ImageUploader.tsx:14-20 | through the mounted uploader, the App's state becomes exactly `ImageChange` of the old state, and the input holds the chosen name |
| App.AppComponent.HandleRemoveImage | components/ImageUploader.tsx:22-28 | through the mounted uploader, the App's state becomes exactly `RemoveImage` of the old state, and the input is emptied |
| App.AppComponent.HandleKeywordsChange | App.tsx:104 | only the keywords change, to the typed value |
| App.AppComponent.HandleCustomToneInputChange | App.tsx:140 | only the custom tone text changes, to the typed value |

## Left out

- `fileToBase64`: `utils/fileUtils` is not part of this model. Encoding is the `encode` field of `App.Environment`. It may return data and a media type, or throw.
- The Gemini SDK call is abstract (the `call` parameter). So are `response.text`, which may be undefined, and the transport. `temperature` and `topP` are floating-point values that are only passed through, so `Request` leaves them out.
- `JSON.parse` is abstract (the `parse` parameter). JSON numbers are modelled as `real`.
- Property reads model only the own data properties that `JSON.parse` creates. Keys that name built-in properties of strings, arrays or `Object.prototype` are not modelled. The code reads only `captions` and `hashtags`, which are neither.
- Strings are sequences of Unicode scalar values, not UTF-16 code units. Lone surrogates are not modelled. Every white-space character `trim` removes lies in the Basic Multilingual Plane.
- The form, and with it the uploader, is unmounted while loading and while results show; when it comes back its file input is a new one, with an empty value. The model keeps one uploader per `App.AppComponent`, so its input value survives those remounts.
- App.AppComponent.HandleReset: like `handleReset` (App.tsx:56-65), it does not clear the uploader's input. While the form stays mounted, the input keeps the name of the file chosen before Reset. Because a browser fires no change event when the same file is chosen again, choosing that file right after the form's Reset button plausibly does nothing (not executed; the browser's event rule is outside the model).
- `console.error` logging in both catch blocks is output only and is left out.
- `URL.createObjectURL` becomes a parameter, and so does the value the browser gives the file input when a file is chosen. The browser's rule that a change event fires only when that value changes is not modelled. Neither is the click on the hidden input (`fileInputRef.current?.click()`). The input is always rendered, so its ref is always attached when a handler runs.
- The results panel takes typed `GeneratedContent`. The TypeScript cast `parsedJson as GeneratedContent` is unchecked at run time. What the panel would do with an accepted object of another shape (`map` on a non-array throws during rendering) is not modelled. `App.AsContent` says when an accepted object has the expected shape.
- Async scheduling and React's batching of state updates are left out. `handleGenerate` is one sequential step. Only one request is ever in flight: the button is disabled and the form is hidden while loading, and the handler reads nothing that changes during the attempt.
- `components/CopyButton.tsx` is left out: it is clipboard I/O plus a timer-driven "copied" flag. The model records only the text each button is given.
- `components/Icon.tsx`, `components/LoadingSpinner.tsx`, the style tag that `components/ResultsDisplay.tsx` injects, and all JSX layout and CSS are left out: they are markup and DOM side effects.
