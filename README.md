# InspireCover: generation client and view state, in Dafny

InspireCover is a browser page for making social-media cover images. The user
types a quote and a subtitle and asks a hosted image model for a background.
The page then lays the text over the image. This project models the two parts
of it that hold logic:

- **The generation client** (`gemini_service.dfy`, module `GeminiService`).
  It builds the one request sent to the model: model `gemini-2.5-flash-image`,
  a single text part holding the prompt, and aspect ratio `16:9`. It then
  decodes the structured reply in one of three ways. A missing
  `candidates[0].content.parts` chain throws `"No response from AI model."`.
  A present part list gives the data URI `data:<mimeType>;base64,<data>` of
  its first part with inline data; the form is the one in section 2 of
  RFC 2397. A present part list with no such part gives `null`. An error
  raised by the network call is rethrown unchanged. `Decode` and `Generate`
  are the specification functions. `GenerateBaseImage` is the method that runs
  the source's `for … of` scan with early return, and it is proved equal to
  `Generate`.
- **The view state** (`app.dfy`, module `CoverApp`). Class `App` holds the
  five state cells: `quote`, `subtitle`, `imageSrc`, `isGenerating` and
  `error`. It has one method per event: the two text edits, the start of a
  generation, its resolution, the whole generate click (`HandleGenerate`,
  which is start, one client call, resolve), and the text reset.
  `GenerateEnabled` and `DownloadEnabled` give the enable rules of the two
  buttons (App.tsx:92 and App.tsx:160). `Valid()` is the invariant every event
  keeps:
  - while a generation is in flight, no error is shown;
  - a shown error is never empty;
  - a shown image is never empty.

`gen_ai.dfy` (module `GenAI`) declares the datatypes for the request, the reply
and the outcome. Each optional field of the reply is an `Option`.

Modelling choices:

- The network call is a parameter `service: Request -> Reply`. `Reply` is
  either the structured response or the error the call raised.
- JavaScript truthiness is written out. In `if (base64Image)`, an empty image
  string counts as a failure. In `err.message || …`, an empty message falls
  back to `"An unexpected error occurred."`.
- `handleGenerate` is split at its `await` into `StartGenerate` and `Resolve`.
  The generate button is disabled while a generation is in flight. That
  becomes the precondition `GenerateEnabled()` (that is, `!isGenerating`) of
  `StartGenerate` and `HandleGenerate`; `handleGenerate` itself does not check
  it.
- `generateBaseImage` throws `"No response from AI model."` when the part
  list of the first candidate is missing.
- A successful resolution does not itself clear `error`. The error was
  cleared at the start, and `Valid()` carries that fact to the resolution.
- The `candidates` list itself may be absent. That case throws like an empty
  list.

## Model

| member | source | states |
|---|---|---|
| GeminiService.BuildRequest | services/geminiService.ts:8-18 | the request has model `gemini-2.5-flash-image`, aspect ratio `16:9`, and exactly one part whose text is the prompt unchanged |
| GeminiService.OnlyThePromptRequestMatters | services/geminiService.ts:8-18 | the outcome depends only on the service's answer to the one request built from the prompt |
| GeminiService.DataUri | services/geminiService.ts:26 | the URI reads back as `data:`, the media type, `;base64,`, then the payload, with nothing else; its length is 13 plus both fields |
| GeminiService.DataUriInjective | services/geminiService.ts:26 | two payloads of the same media type give the same URI only if they are equal |
| GeminiService.FirstInline | services/geminiService.ts:24-28 | gives the index of the first part with inline data: no earlier part has any, and the part there has some; gives the list length when no part has any |
| GeminiService.GenerateBaseImage | services/geminiService.ts:4-35 | the loop with early return computes exactly `Generate`: a transport error is rethrown, then the structure check, then the first-inline-part URI or null |
| GeminiService.MissingStructureThrows | services/geminiService.ts:20-22 | no candidate list, an empty one, a first candidate without content, or content without parts each throw the fixed message, never return null |
| GeminiService.PresentStructureReturns | services/geminiService.ts:20-30 | when the first candidate's part list is present, the decoder returns and never throws |
| GeminiService.EmptyPartsReturnNull | services/geminiService.ts:20-30 | an empty but present part list yields null, not an error |
| GeminiService.NullIffNoInlinePart | services/geminiService.ts:24-30 | null is returned if and only if the part list is present and none of its parts carries inline data |
| GeminiService.FirstInlinePartReturned | services/geminiService.ts:24-27 | the returned URI is the data URI of the first part with inline data |
| GeminiService.LeadingPartsSkipped | services/geminiService.ts:24-27 | parts without inline data in front of the rest do not change the result |
| GeminiService.LaterPartsIgnored | services/geminiService.ts:24-27 | once a part with inline data exists, appended parts (a second image too) never change the result |
| GeminiService.OnlyFirstCandidateMatters | services/geminiService.ts:20-24 | candidates after the first never change the outcome |
| GeminiService.ReturnedImageIsDataUri | services/geminiService.ts:26 | every string the client returns starts with `data:` and is non-empty |
| GeminiService.TransportErrorRethrown | services/geminiService.ts:31-34 | an error raised by the network call reaches the caller with its message unchanged |
| CoverApp.FailureMessage | App.tsx:30-35 | the error after a failure is never empty: a null or empty image gives the retry message, a thrown error gives its own message when that is non-empty and `An unexpected error occurred.` when it is empty |
| CoverApp.App.constructor | App.tsx:10-18 | the initial state has the default quote and subtitle, no image, is idle, has no error, and only Generate is enabled |
| CoverApp.App.SetQuote | App.tsx:69 | the quote becomes the typed text, unchecked, and the other four cells are unchanged |
| CoverApp.App.SetSubtitle | App.tsx:83 | the subtitle becomes the typed text, unchecked, and the other four cells are unchanged |
| CoverApp.App.StartGenerate | App.tsx:22-24 | allowed only when Generate is enabled; sets busy and clears the error, keeps quote, subtitle and image, and disables both buttons |
| CoverApp.App.Resolve | App.tsx:27-38 | a truthy image string replaces the image and leaves no error; otherwise the image is kept and the error is the failure message; always ends idle, with Generate enabled and Download enabled if and only if an image is shown |
| CoverApp.App.HandleGenerate | App.tsx:22-39 | a whole click against any service ends idle with the resolution of `Generate` on the fixed prompt; an image that changed is a `data:` URI |
| CoverApp.App.ResetText | App.tsx:169-172 | quote and subtitle become the defaults; image, busy flag and error are unchanged |
| CoverApp.PngCoverScenario | App.tsx:10-39 | from the default page, one click answered by a single `image/png` part with data `Abc123` shows `data:image/png;base64,Abc123`, with no error and Download enabled |

## Left out

- The construction of the `GoogleGenAI` client and the reading of the `API_KEY` environment variable (services/geminiService.ts:6-7). This is foreign SDK code and configuration; a missing key shows up only as whatever error the service reports.
- The transport of the `generateContent` call (services/geminiService.ts:8-18). The request record it sends is modelled by `BuildRequest`; only sending it and receiving the reply are abstracted, as the function parameter `service`.
- `console.error` logging (services/geminiService.ts:32, App.tsx:34). It is a side effect with no state.
- The JavaScript detail that an absent `mimeType` or `data` stringifies to `"undefined"`. Both fields are modelled as strings.
- Overlapping generate clicks and asynchronous scheduling. At most one generation is in flight, as the disabled button ensures; `Resolve` requires `isGenerating`.
- Thrown values that are not `Error` objects. A thrown error is modelled by its message string, and a missing message is modelled as the empty string.
- `handleDownload` (App.tsx:41-48). It only shows an alert and does no rasterisation.
- components/QuoteOverlay.tsx, all JSX layout and styling, and the `previewRef` DOM reference. These are declarative rendering.
- The prompt and default texts are kept as constants, and nothing is proved about their content.
