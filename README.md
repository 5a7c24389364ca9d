# AgriGenius panels in Dafny

AgriGenius is a single-page web app with three panels:
- **Crop Doctor** diagnoses a plant from a photo.
- **Farming Assistant** is a streamed chat with a hosted model.
- **Market Watch** gives a crop market summary grounded in web search.

All the "intelligence" comes from the hosted model. What the application adds is the state each panel keeps and how that state changes when the farmer acts and the model answers. This project models that state and proves what the panels promise about it.

Layout, one module per file:

- `Types.dfy`: the records of `types.ts` (`ChatMessage`, `DiagnosisResult`, `MarketSource`, `MarketTrend`). Also `Option`, and `Outcome`, which is how an awaited call ends: `Success(value)` or `Failure(thrown)`.
- `JsText.dfy`: JavaScript's `String.prototype.trim`, with ECMAScript's whitespace and line-terminator set, and `split` on one character with its inverse `join`. Both round trips are proved.
- `ErrorAlert.dfy`: the shared rule that turns a caught value into alert text, and the `{error && …}` rendering rule.
- `GeminiService.dfy`: the two request functions, `diagnoseCrop` and `getMarketTrend`, as facts about their outcomes. They have fixed failure messages, and a missing list of grounding chunks becomes `[]`. The third export, `createFarmingChat`, is modelled only as the session flag that `FarmingAssistant.Panel.InitChat` sets.
- `FarmingAssistant.dfy`: a `Panel` class with `messages`, `input`, `loading` and the session handle. `SendMessage` runs the stream loop, and the pure chunk updater is proved against the in-order concatenation of the chunks.
- `CropDoctor.dfy`: a `Panel` class with `imagePreview`, `imageData`, `loading`, `result` and `error`. It also holds the data-URL payload extraction and the report display rules.
- `MarketWatch.dfy`: a `Panel` class with `cropName`, `loading`, `result` and `error`. It also holds the source-link and empty-sources display rules.

Each event handler is one atomic method. The call to the hosted model becomes a parameter of that method:
- the diagnosis and market panels take an `Outcome`;
- the chat panel takes a `StreamReply`, which is either `NotOpened`, or the received chunks plus whether the stream then threw.

The diagnosis and market handlers are also split at their `await` into `Begin…` and `Settle…` methods. That way the state in between can be stated: loading, with no result and no error. Each panel's `Valid()` predicate states those in-between facts and the panel's invariants. For example, in Crop Doctor a report and an error are never stored together.

Behaviours of the code worth noting:
- The chat roles are `'user'` and `'model'`, as in `types.ts`.
- An error that is the empty string is stored but not shown, because the alert is rendered by `{error && …}` (see `ErrorAlert.Banner`).
- In Market Watch, submitting a blank name after a successful analysis sets the error but keeps the old trend, so both are shown together (`MarketWatch.StaleTrendWithError`). Crop Doctor cannot reach that state.

## Model

| member | source | states |
|---|---|---|
| `JsText.Trim` | components/MarketWatch.tsx:16 | `trim` leaves a result no longer than its input that starts and ends with a non-whitespace character, and is empty exactly when the input is all whitespace |
| `JsText.TrimIsMiddleSlice` | components/MarketWatch.tsx:16 | the trimmed string is the slice of the input that starts where the leading whitespace ends, with only whitespace before and after it, which with `Trim`'s non-whitespace ends fixes its value |
| `JsText.IsBlank` | components/FarmingAssistant.tsx:39 | `!s.trim()` holds exactly when every character of `s` is ECMAScript whitespace or a line terminator |
| `JsText.TrimStart` | components/MarketWatch.tsx:16 | the leading part `trim` removes is all whitespace; what remains starts with a non-whitespace character and is a suffix of the input |
| `JsText.TrimEnd` | components/MarketWatch.tsx:16 | the trailing part `trim` removes is all whitespace; what remains ends with a non-whitespace character and is a prefix of the input |
| `JsText.Split` | components/CropDoctor.tsx:22 | `split(',')` yields at least one piece, and no piece contains the separator |
| `JsText.JoinSplit` | components/CropDoctor.tsx:22 | joining the pieces of a split with the separator gives back the original string |
| `JsText.SplitJoin` | components/CropDoctor.tsx:22 | pieces free of the separator come back unchanged from splitting their join |
| `JsText.SplitAfterPlain` | components/CropDoctor.tsx:22 | a separator-free prefix only extends the first piece of a split |
| `JsText.SplitManyIff` | components/CropDoctor.tsx:22 | a split has a second piece exactly when the separator occurs |
| `GeminiService.DiagnoseCrop` | services/geminiService.ts:20-73 | a reply becomes a successful diagnosis; any failure inside the call becomes an `Error` with the fixed diagnosis failure message |
| `GeminiService.GetMarketTrend` | services/geminiService.ts:84-102 | the summary is the reply text; the sources are the grounding chunks, or `[]` when those are missing; any failure becomes an `Error` with the fixed market failure message |
| `ErrorAlert.CaughtMessage` | components/CropDoctor.tsx:43 | a caught `Error` contributes its message, and any other thrown value contributes the fixed unknown-error text |
| `ErrorAlert.Banner` | components/CropDoctor.tsx:97 | the alert is shown exactly when an error is stored and it is not the empty string, and it shows that error |
| `FarmingAssistant.ApplyChunk` | components/FarmingAssistant.tsx:54-60 | the chunk updater keeps the length, the role of the last message and every earlier message; it appends the chunk to the last text when that message is the model's, and otherwise returns the transcript unchanged |
| `FarmingAssistant.ApplyChunks` | components/FarmingAssistant.tsx:52-61 | running the updater chunk after chunk keeps the transcript length |
| `FarmingAssistant.ApplyChunksToModel` | components/FarmingAssistant.tsx:49-61 | streaming into a trailing model message leaves earlier messages alone; that message's text becomes its old text followed by all chunks in order |
| `FarmingAssistant.ApplyChunksToUser` | components/FarmingAssistant.tsx:59 | when the last message is the user's, no chunk changes the transcript |
| `FarmingAssistant.StepGrows` | components/FarmingAssistant.tsx:42-65 | appending a message, or rewriting only the last message's text, never removes or reorders messages or changes a role; `SendMessage`, `ReceiveReply` and `ReceiveChunks` apply it at each of the assignments of lines 42, 50, 57 and 65 |
| `FarmingAssistant.GrowsTransitive` | components/FarmingAssistant.tsx:42-65 | the "later transcript" relation composes across steps |
| `FarmingAssistant.ApplyChunkIsStep` | components/FarmingAssistant.tsx:57 | the chunk updater is one such step |
| `FarmingAssistant.SendKeepsHistory` | components/FarmingAssistant.tsx:41-61 | after a send, the old transcript is a prefix and the user message follows it; on success exactly one model message follows, holding the concatenated chunks |
| `FarmingAssistant.FailedSendEndsWithError` | components/FarmingAssistant.tsx:62-65 | a failed send ends with exactly one fixed error message, after the partial model message when the stream had opened |
| `FarmingAssistant.Panel.constructor` | components/FarmingAssistant.tsx:9-12 | on mount there is no session and no message, the input is empty and loading is on |
| `FarmingAssistant.Panel.InitChat` | components/FarmingAssistant.tsx:16-27 | setup creates the session, sets the transcript to exactly the welcome model message and turns loading off |
| `FarmingAssistant.Panel.SetInput` | components/FarmingAssistant.tsx:103-106 | typing, possible only while the text box is enabled, replaces the input and changes nothing else |
| `FarmingAssistant.Panel.InputEnabled` | components/FarmingAssistant.tsx:106 | the text box is enabled exactly when no reply is pending, which in a valid state is exactly when the session exists |
| `FarmingAssistant.Panel.SendEnabled` | components/FarmingAssistant.tsx:110 | once a session exists, the Send button is enabled exactly when the handler's guard accepts |
| `FarmingAssistant.Panel.ReceiveChunks` | components/FarmingAssistant.tsx:52-61 | the stream loop grows the trailing model message by every chunk in order, each chunk being one step of a growing transcript; earlier messages, input, loading and session stay as they were |
| `FarmingAssistant.Panel.BeginSend` | components/FarmingAssistant.tsx:37-44 | a blank input, no session or a pending reply changes nothing and sends nothing; otherwise the untrimmed input is sent and appended as a user message, the input is cleared, loading is on, and the text box and Send button are disabled while the reply is awaited |
| `FarmingAssistant.Panel.ReceiveReply` | components/FarmingAssistant.tsx:46-66 | while the reply is pending, it appends what `StreamTail` says (the streamed model message, then the error message if the call or stream threw), one step at a time, so the transcript only grows |
| `FarmingAssistant.Panel.SendMessage` | components/FarmingAssistant.tsx:37-69 | `BeginSend`, then `ReceiveReply`, then the `finally`: a rejected send changes nothing and sends nothing; otherwise the untrimmed input is sent, the input is cleared, the transcript becomes the old one plus the user message plus what the stream produced, loading ends off, and the old transcript stays a prefix |
| `CropDoctor.Base64Payload` | components/CropDoctor.tsx:22 | the payload is present exactly when the data URL contains a comma, and it contains no comma itself |
| `CropDoctor.PayloadOfDataUrl` | components/CropDoctor.tsx:22 | for `<header>,<payload>` with comma-free parts, the stored payload is exactly `<payload>` |
| `CropDoctor.PayloadFollowsFirstComma` | components/CropDoctor.tsx:22 | the payload starts right after the first comma and runs to the next comma or to the end |
| `CropDoctor.ReportOf` | components/CropDoctor.tsx:99-127 | the heading is "Healthy Plant" when healthy and the disease name otherwise; list sections appear exactly when unhealthy, and then there are exactly three: "Common Causes" with the causes, "Organic Treatments" and "Chemical Treatments" with those lists, in stored order |
| `CropDoctor.HealthyReportIgnoresDetails` | components/CropDoctor.tsx:102-106 | a healthy report depends only on the description |
| `CropDoctor.ServiceFailureIsShown` | components/CropDoctor.tsx:39-46 | a failed service call leaves a visible alert with the fixed diagnosis failure text |
| `CropDoctor.Panel.constructor` | components/CropDoctor.tsx:9-13 | initially there is no preview, no image, no result, no error and no loading |
| `CropDoctor.Panel.PickFile` | components/CropDoctor.tsx:15-28 | without a file nothing changes; with one, the result and error are cleared and the payload, MIME type and preview of the file are stored |
| `CropDoctor.Panel.DiagnoseEnabled` | components/CropDoctor.tsx:89 | the Diagnose button is enabled exactly when image data is stored and no request is pending; in a valid state, exactly when a preview is shown and no request is pending |
| `CropDoctor.Panel.BeginDiagnosis` | components/CropDoctor.tsx:30-37 | without an image only the error becomes "Please select an image first." and no request is issued; otherwise the stored image is requested, loading is on, and the error and result are cleared |
| `CropDoctor.Panel.SettleDiagnosis` | components/CropDoctor.tsx:39-46 | success stores the diagnosis; failure stores the caught message and no result; loading ends off |
| `CropDoctor.Panel.Diagnose` | components/CropDoctor.tsx:30-47 | a request is issued exactly when the Diagnose button was enabled; the state ends as described for the start and finish of a diagnosis, and a report and an error are never stored together |
| `CropDoctor.Panel.ShownReport` | components/CropDoctor.tsx:99 | a report card is shown exactly when a result is stored |
| `MarketWatch.SourceLabel` | components/MarketWatch.tsx:91 | a source reads as its title if that is non-empty and as its URI otherwise; the label is empty exactly when both are |
| `MarketWatch.LinksOf` | components/MarketWatch.tsx:83-94 | one link per source, in stored order, each pointing at the source's URI and reading its label |
| `MarketWatch.SourcesViewOf` | components/MarketWatch.tsx:81-98 | the "No web sources" message is shown exactly when the sources are empty, and otherwise every source is listed |
| `MarketWatch.PopularCropsAreNotBlank` | components/MarketWatch.tsx:13 | no popular crop name is blank |
| `MarketWatch.ServiceFailureIsShown` | components/MarketWatch.tsx:24-31 | a failed service call leaves a visible alert with the fixed market failure text |
| `MarketWatch.Panel.constructor` | components/MarketWatch.tsx:8-11 | initially the crop name is 'Wheat', loading is off, and there is no result and no error |
| `MarketWatch.Panel.SetCropName` | components/MarketWatch.tsx:51 | typing replaces the crop name and changes nothing else |
| `MarketWatch.Panel.SubmitEnabled` | components/MarketWatch.tsx:57 | the Analyze button is enabled exactly when no request is pending (a blank name does not disable it); while it is disabled no trend and no error are stored |
| `MarketWatch.Panel.BeginAnalysis` | components/MarketWatch.tsx:15-22 | a blank name only sets the error to "Please enter a crop name." and issues no request; otherwise the untrimmed name is requested, loading is on, and the error and result are cleared |
| `MarketWatch.Panel.SettleAnalysis` | components/MarketWatch.tsx:24-31 | success stores the trend; failure stores the caught message and no result; loading ends off |
| `MarketWatch.Panel.Analyze` | components/MarketWatch.tsx:15-32 | a request is issued exactly when the name is not blank, and it carries the name as given; loading ends off |
| `MarketWatch.Panel.Submit` | components/MarketWatch.tsx:34-37 | submitting through the enabled Analyze button analyses the current crop name untrimmed |
| `MarketWatch.Panel.PickPopular` | components/MarketWatch.tsx:66 | a popular-crop click sets the crop name to that crop, always issues a request for that same crop, and settles it |
| `MarketWatch.Panel.ShownSources` | components/MarketWatch.tsx:75-98 | the sources section is shown exactly when a trend is stored, and it renders that trend's sources |
| `MarketWatch.StaleTrendWithError` | components/MarketWatch.tsx:16-19 | a blank submission after a successful analysis leaves the old trend's sources rendered beside the visible blank-name alert |

## Left out

- The hosted model, its SDK, the prompts, the response schema, `JSON.parse` of the reply, and the `API_KEY` startup check in `services/geminiService.ts`. Each call becomes an abstract reply handed to the model as a parameter.
- Asynchrony: `FileReader` and its later delivery of the data URL, `for await` streaming, and the interleaving of handlers. Each handler is atomic. The file reader's result is part of the selected file. The stream is its list of chunks plus where it failed.
- Overlapping requests. The panels rely on disabled controls to allow one request at a time, so the composed handlers require that no request is pending. The Market Watch popular-crop buttons are not disabled while loading; a click during a pending request, which would start a second one, is not modelled.
- `FarmingAssistant.Panel.SendMessage`: a chunk whose `text` is undefined (concatenated as the string "undefined" in JavaScript) is not modelled; chunks are strings.
- `MarketWatch.SourcesViewOf`: the "sources missing" case of line 81 is not representable, because `MarketTrend.sources` is a list in `types.ts` and the service defaults it to `[]`; only the empty case is stated.
- `FarmingAssistant.Panel.InitChat`: that the welcome message stays first is not a clause of `Valid()`. It follows from `SendMessage` keeping the old transcript as an exact prefix.
- The `console.error` calls in the catch blocks (`components/FarmingAssistant.tsx:63`, `services/geminiService.ts:70` and `:99`): logging to the developer console has no effect on the panel state.
- Rendering details: CSS classes, colours, the scroll-to-bottom effect, the typing spinner (`components/FarmingAssistant.tsx:88`), and the image preview element.
- `App.tsx` tab switching, `Header.tsx` and `TabButton.tsx`: equality checks and a switch over the `Tab` enum, with nothing to state beyond that.
