# Griddy chat and agent core, modelled in Dafny

Griddy is a map-based chat page. A user describes a renewable-energy siting
request. The `POST /api/agent` handler asks a language model for a place and a
technology, biases the place towards Australia and geocodes it. The page
appends the answer to its chat log. This project models the three pieces of
that flow that carry decisions:

- `agent_route.dfy` (module `AgentRoute`) models the agent handler.
  - Prompt validation.
  - The step-by-step extraction of `{locationQuery, technology}`, with its defaults.
  - The `", Australia"` normalisation.
  - The four response outcomes: 400, 500, 200 with `error`, and 200 with a coordinate.
  - The language-model call, `JSON.parse` and the geocoding fetch are inputs (`ModelReply`, `GeocodeAnswer`). The API key's presence is a `bool`.
  - `Post` also reports whether the model was asked and which address was geocoded.
- `ai_input.dfy` (module `AIInputBox`) models the chat input box.
  - A class holds the draft `message`, the `loading` prop and the `onSubmit` calls made so far.
  - It has the submit guard, the Enter/Shift key handling and the disabled/hint conditions.
- `chat_page.dfy` (module `ChatPage`) models the `Home` page.
  - A class holds the append-only message log, the loading flag, the (never set) map markers and the selected filter.
  - `handleSubmitMessage` is split at its `await` into `BeginSubmit` and `FinishSubmit`.
  - `ReplyText` picks the AI reply from the outcome of the fetch.
- `conversation.dfy` (module `Conversation`) connects the two sides. It shows how the page words each kind of agent response.
- `text.dfy` (module `Text`) holds `String.prototype.trim`, ASCII case folding and substring search.
- `wrappers.dfy` holds `Option`.

Two behaviours of the code are worth knowing.
- The page never forwards coordinates to the map. `mapMarkers` is declared at
  app/page.tsx:32 and never set, so `Home.Valid()` keeps it `[]`.
- When geocoding finds nothing, the agent still answers 200 with a `result`.
  The page then says it "found coordinates" and prints them as
  `(undefined, undefined)`. `Conversation.GeocodeFailureReadsAsFound` states this.

Two more details of the code:
- An empty prompt is rejected with 400, like a missing or non-string one.
- A model reply that parses to `null` or to a primitive does not fall back to
  `"Australia"`. Reading or setting `locationQuery` on it throws (module code
  runs in strict mode), so the handler answers 500 `'Agent failed'`.

The regular expression `/australia/i` has no `u` flag. Its case-insensitive
matching never folds a non-ASCII character onto an ASCII one, so ASCII folding
decides it exactly. `AgentRoute.MentionsIsRegexTest` proves the folded search
equal to the expression's own upper-casing rule. `Text.IsTrimSpace` lists every code point
that ECMAScript's `trim()` removes.

## Model

| member | source | states |
|---|---|---|
| `AgentRoute.Post` | app/api/agent/route.ts:8-76 | Status is 200, 400 or 500. 400 `'Missing prompt'` exactly when the prompt is missing, empty or not a string, and the model is then not asked. 500 `'Missing Google Maps API key'` exactly when extraction succeeded and there is no key. 500 `'Agent failed'` exactly for a malformed or null body, a failed model call, an unreadable reply, or a failed geocoding fetch. Geocoding is requested only after extraction and the key check, and for the normalised query. A 200 always carries a result. Its query mentions Australia and its technology is the extracted one, else `'wind'`. It has a coordinate exactly when the first geocode result has one. That coordinate, address and place id are copied exactly, with source `'google-geocoding'`. Otherwise the result carries `error: 'Geocoding failed'` and no coordinate. |
| `AgentRoute.Extract` | app/api/agent/route.ts:29-36 | The sequence of updates to the `extracted` record (default, parse, empty-query default, country suffix) yields exactly `Extraction(reply)`. |
| `AgentRoute.Extraction` | app/api/agent/route.ts:29-36 | Extraction fails only when the parsed reply is not an object. An unparseable reply, or one whose query is missing or empty, gives `'Australia'`. A query that mentions Australia is kept. Any other query gets `", Australia"` appended. The technology passes through, and the resulting query always mentions Australia. |
| `AgentRoute.FallbackMentionsAustralia` | app/api/agent/route.ts:33-34 | The fallback `'Australia'` passes the `/australia/i` test, so line 35 leaves it alone. |
| `AgentRoute.Normalize` | app/api/agent/route.ts:34-36 | The normalised query always contains "australia" in some letter case. It equals the original if and only if the original already mentions Australia, and it always keeps the original as a prefix. When the original does not mention Australia, the result is exactly the original followed by `", Australia"`. |
| `AgentRoute.SuffixMentionsAustralia` | app/api/agent/route.ts:35 | Whatever the query, appending `", Australia"` makes it pass the Australia test. |
| `AgentRoute.MentionsIsRegexTest` | app/api/agent/route.ts:34 | Searching the ASCII-folded query for "australia" is equivalent to `/australia/i.test`. That test matches at some index where every character equals the pattern's once both are upper-cased, the rule of a non-unicode regular expression with the `i` flag. |
| `AgentRoute.MentionIgnoresCase` | app/api/agent/route.ts:34 | Two queries that differ only in the case of ASCII letters are both suffixed or both kept. |
| `AgentRoute.BuildResult` | app/api/agent/route.ts:49-71 | The result has a coordinate exactly when the first geocode result has a location. That location, the formatted address and the place id are copied exactly, with source `'google-geocoding'`. Otherwise the result carries `error: 'Geocoding failed'`. The query is the extracted one, and the technology is the extracted one when present, else `'wind'`. |
| `AgentRoute.NormalizeIdempotent` | app/api/agent/route.ts:34-36 | Normalising an already normalised query changes nothing. |
| `AgentRoute.DubboIsBiasedToAustralia` | app/api/agent/route.ts:31-36 | The reply `{"locationQuery":"Dubbo","technology":"solar"}` extracts to `"Dubbo, Australia"` with technology `solar`. |
| `AgentRoute.AustralianQueryIsKept` | app/api/agent/route.ts:34-36 | `"Western Australian outback"` matches case-insensitively and is kept unchanged. |
| `Text.TrimStart` | components/ui/ai-input.tsx:25 | The result is a suffix of the input, everything removed is trim-space, and the result does not start with trim-space. |
| `Text.TrimEnd` | components/ui/ai-input.tsx:25 | The result is a prefix of the input, everything removed is trim-space, and the result does not end with trim-space. |
| `Text.TrimIsSlice` | components/ui/ai-input.tsx:26 | `trim()` returns a contiguous slice of the draft that starts right after the leading whitespace. |
| `Text.TrimEmptyIffBlank` | components/ui/ai-input.tsx:25 | `message.trim()` is empty (falsy) if and only if every character of the draft is whitespace. |
| `Text.TrimHasCleanEnds` | components/ui/ai-input.tsx:26 | A non-empty trimmed text neither starts nor ends with whitespace. |
| `Text.TrimIdempotent` | components/ui/ai-input.tsx:26 | Trimming a trimmed text changes nothing. |
| `AIInputBox.SendDisabledIffBlankOrLoading` | components/ui/ai-input.tsx:60 | The send button is disabled exactly when the draft is all whitespace or `loading` is true. |
| `AIInputBox.ReadyHintIffBlankAndIdle` | components/ui/ai-input.tsx:71 | "Ready to submit!" shows exactly when the draft is all whitespace and nothing is loading. The button is then disabled. |
| `AIInputBox.EnabledButtonSubmits` | components/ui/ai-input.tsx:60 | With a handler, the button is enabled exactly when `handleSubmit`'s guard holds. |
| `AIInputBox.SubmittedTextIsTrimmed` | components/ui/ai-input.tsx:25-26 | Whatever passes the guard is handed over non-empty, already trimmed, and without whitespace at either end. |
| `AIInputBox.AIInput.constructor` | components/ui/ai-input.tsx:15-21 | The input starts with an empty draft and nothing submitted. |
| `AIInputBox.AIInput.Change` | components/ui/ai-input.tsx:48-54 | Typing replaces the draft, except while loading, when the textarea is disabled. |
| `AIInputBox.AIInput.SetLoading` | components/ui/ai-input.tsx:18 | The `loading` prop takes the parent's value. |
| `AIInputBox.AIInput.HandleSubmit` | components/ui/ai-input.tsx:24-29 | If the guard holds, `onSubmit` receives the trimmed draft exactly once and the draft becomes empty. Otherwise nothing is sent and the draft is unchanged. Everything ever sent stays non-empty and trimmed. |
| `AIInputBox.AIInput.HandleKeyDown` | components/ui/ai-input.tsx:31-36 | The default is prevented exactly for Enter without Shift. Only then does the submission of `HandleSubmit` happen. Any other key leaves the draft and the sent list unchanged. |
| `ChatPage.ReplyText` | app/page.tsx:52-79 | A thrown fetch or body parse gives the network-error text, and a non-OK response gives the apology. An OK response with a result gives the fixed "found coordinates" prefix followed by its `locationQuery`. An OK response without a result gives `data.message` when present (even empty), else `'Done.'`. |
| `ChatPage.FoundTextNamesPlace` | app/page.tsx:53-54 | The success sentence starts with "Using Google Maps, I found coordinates for " immediately followed by the result's place. |
| `ChatPage.Home.constructor` | app/page.tsx:16-32 | The filter starts as `'solar'` and the log holds user message `'1'` then AI message `'2'`. Loading is off and there are no markers. |
| `ChatPage.Home.SelectFilter` | app/page.tsx:125-130 | A primary filter button sets the selected filter to its own name and changes nothing else. |
| `ChatPage.Home.BeginSubmit` | app/page.tsx:35-43 | Exactly one user message with the submitted text is appended, earlier messages are unchanged, and loading turns on. |
| `ChatPage.Home.FinishSubmit` | app/page.tsx:45-82 | Exactly one AI message with `ReplyText` of the outcome is appended, and loading turns off on every path. |
| `ChatPage.Home.HandleSubmitMessage` | app/page.tsx:34-83 | One submission appends its user message and then one AI message and nothing else, and ends with loading off. The initial messages stay first, the markers stay `[]` and the filter is untouched. |
| `Conversation.Delivered` | app/page.tsx:51-54 | The page sees `res.ok` exactly for a 2xx status. An agent error body has no `result` and no `message`. A result body keeps its query and has a coordinate exactly when the agent located the place, rendered by `toFixed(4)`. |
| `Conversation.ErrorResponsesReadAsApology` | app/page.tsx:52-71 | Every 400 or 500 from the agent appears in the chat as `'Sorry, I could not process that request.'`, whatever its error text. |
| `Conversation.GeocodeFailureReadsAsFound` | app/page.tsx:52-55 | A 200 carrying `'Geocoding failed'` is shown as "I found coordinates for … : (undefined, undefined)." |
| `Conversation.LocatedResultReadsCoordinates` | app/page.tsx:52-55 | A located 200 is shown with its query and its two coordinates as rendered by `toFixed(4)`. |

## Left out

- The OpenAI chat-completion call, the Google Geocoding fetch, `req.json()`, `res.json()` and `JSON.parse`. Only their outcomes are modelled, as inputs to `Post` and `FinishSubmit`.
- Which model reply or geocode answer the external services give for a prompt or an address. Inputs cannot express this.
- Non-string `prompt`, `locationQuery`, `technology` and `data.message` values, which JavaScript would coerce. A non-string prompt is modelled only as rejected. A technology is any string, because the code does not check it against solar/wind/hydro.
- `console.error` logging of the caught error.
- The proxy routes `app/api/ml/score/route.ts` and `app/api/ml/dates/route.ts` and the wrappers in `lib/api.ts`: pure pass-through of the upstream status and body.
- `app/api/echo-ml/route.ts`: a random, floating-point mock generator. Its line 12 does not compile as written.
- `components/GoogleMap.tsx`: script injection and marker objects of the map SDK.
- `toFixed(4)` formatting of coordinates. It is a parameter of `Conversation.Delivered`, or already-rendered text in `ChatPage.CoordinateText`.
- Message ids and timestamps. `Clock(ms)` stands for the decimal text of a `Date.now()` reading. Timestamps are not modelled, and nothing is claimed about id uniqueness.
- Overlapping submissions. `BeginSubmit` and `FinishSubmit` of different submissions can interleave in the page, and their appends can come out of order. Only the non-overlapping sequence is proved as a whole (`HandleSubmitMessage`).
- `components/ui/ai-input-with-loading.tsx` is not part of this model. The page renders that component, not `AIInput`, so the input box and the page are not linked here.
- JSX rendering, styling, textarea auto-resize, the loading spinner and the secondary filter buttons, which have no behaviour.
- UTF-16 strings with lone surrogate halves. Dafny characters are Unicode scalar values.
