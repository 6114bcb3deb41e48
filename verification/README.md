# Fireremote controller and commentary normaliser, in Dafny

Fireremote is a browser remote control for a Fire TV, narrated by "The Editor", a film-critic persona
backed by a generative-language service. Two parts of it carry behaviour:

- **The commentary normaliser** (`EditorService.getFeedback`, module `EditorService`). It turns the
  backend's reply into an `EditorResponse`. An empty reply text becomes a fixed "speechless"
  placeholder. Grounding chunks become `{title, uri}` citations, with `Review Source` and `#` as
  defaults. The sentiment comes from a case-insensitive substring search for three positive and four
  critical keywords, positive first. Any failure becomes a fixed apology with no `sources` field.
  The backend call itself is not modelled: its result is an `Outcome` (a `Reply` or `Failed`).
- **The UI controller** (the `App` component, class `App.Controller`). It has one field per state slot:
  `lastAction`, `editorResponse`, `loading`, `isVoiceActive`, `searchQuery`, `connection`, the persisted
  address `storedIp`, and `serviceReady`, which says whether the service instance exists yet. A ghost
  log `effects` records what the controller asks of the outside world: bridge connects and commands,
  commentary requests, recogniser starts, the "unsupported" notice and scheduled submits. Each handler
  is a method. The asynchronous handlers `triggerEditor` and `handleConnect` are split at their `await`
  into Begin and Finish methods, and Finish takes what the awaited call produced as a parameter.

`Text` models the JavaScript string operations the two parts use: ASCII `toLowerCase`, `includes` and
`trim`. `Types` holds the types of types.ts.

Behaviour worth knowing, all modelled as the code has it:

- A commentary request is only made once the service instance exists. Before the mount effect has run,
  `triggerEditor` returns at once, so POWER and MUTE ask for nothing.
- Starting a connect keeps `isConnected` as it was: the update at App.tsx:40 spreads the previous
  state and sets only `isConnecting` and `ip`. The two flags are therefore not mutually exclusive.
  Reconnecting while connected makes both true until the attempt finishes.
- The address is persisted at App.tsx:41, when a connect starts and before its outcome is known. A
  failed attempt still replaces the stored address.
- A browsing recommendation is asked for when the draw is strictly greater than 0.97 (App.tsx:140).
  That is the top 3% of draws, not the bottom 3%.
- The voice `onend` handler tests the search query captured in the render that started the
  recognition, not the live transcript. The scheduled submit comes from that same render, so it also
  submits the captured query, and then clears the live field. `VoiceSession.capturedQuery` models the
  captured value.

## Model

| member | source | states |
|---|---|---|
| `Text.ContainsIff` | services/geminiService.ts:42-45 | `includes` as a scan agrees with "the keyword occurs at some position", in both directions |
| `Text.ContainsInContext` | services/geminiService.ts:42-45 | an occurrence survives any text placed before and after it |
| `Text.ContainsOnlyItsCharacters` | services/geminiService.ts:42-45 | every character of an included string occurs in the including string |
| `Text.LowerCaseVariant` | services/geminiService.ts:40 | two characters lower to the same character exactly when they are equal or are the two cases of one ASCII letter (code points 32 apart) |
| `Text.LowerStrSameUpToCase` | services/geminiService.ts:40 | two strings lower-case to the same string exactly when, position by position, they are equal or differ only in the case of an ASCII letter |
| `Text.LowerStrAbsent` | services/geminiService.ts:40 | a character missing from a text in both cases is missing from its lowered copy |
| `Text.LeadingSpaces` | App.tsx:64 | the count of leading whitespace: all of it is whitespace, and the next character is not |
| `Text.TrailingSpaces` | App.tsx:64 | the count of trailing whitespace: all of it is whitespace, and the character before it is not |
| `Text.BlankIff` | App.tsx:64 | a query is blank (`!q.trim()`) exactly when it consists of whitespace only |
| `EditorService.ClassifySpec` | services/geminiService.ts:40-46 | positive iff a positive keyword occurs in the lowered text; critical iff none does but a critical one does; neutral iff none of the seven occurs |
| `EditorService.PositiveWins` | services/geminiService.ts:42-46 | a text with keywords of both classes is positive |
| `EditorService.ClassifyIgnoresCase` | services/geminiService.ts:40 | texts that differ, position by position, only in the case of ASCII letters get the same class |
| `EditorService.ClassifyUpper` | services/geminiService.ts:40 | upper-casing a text never changes its class |
| `EditorService.PositiveInContext` | services/geminiService.ts:42-43 | a positive keyword inside any surrounding text, e.g. inside a longer word, makes it positive |
| `EditorService.CriticalInContext` | services/geminiService.ts:44-45 | a critical keyword inside any surrounding text makes it critical when no positive keyword occurs |
| `EditorService.KeywordAbsent` | services/geminiService.ts:42-45 | a keyword with a character the text lacks does not occur in it |
| `EditorService.NoPositiveKeyword` | services/geminiService.ts:42 | a text lacking one character of each positive keyword has no positive keyword |
| `EditorService.NoCriticalKeyword` | services/geminiService.ts:44 | a text lacking one character of each critical keyword has no critical keyword |
| `EditorService.PlaceholderIsNeutral` | services/geminiService.ts:33-46 | the "speechless" placeholder for an empty reply classifies neutral |
| `EditorService.ClassifyMasterpiece` | services/geminiService.ts:42-43 | "An absolute masterpiece." is positive |
| `EditorService.ClassifyBothClasses` | services/geminiService.ts:42-46 | "A mediocre masterpiece" is positive |
| `EditorService.ClassifyBrilliantly` | services/geminiService.ts:40-43 | "Brilliantly" is positive |
| `EditorService.ClassifyUnavoidable` | services/geminiService.ts:40-45 | "Unavoidable" is critical |
| `EditorService.ClassifyTedious` | services/geminiService.ts:40-45 | "Tedious and mediocre." is critical |
| `EditorService.ClassifyFine` | services/geminiService.ts:41-46 | "It was fine." is neutral |
| `EditorService.SourceOf` | services/geminiService.ts:35-36 | a citation never has an empty title or link |
| `EditorService.SourceDefaults` | services/geminiService.ts:35-36 | a chunk's own non-empty title and uri are kept; a missing or empty one becomes `Review Source` or `#` |
| `EditorService.SourcesOf` | services/geminiService.ts:34-37 | one citation per grounding chunk, same length and order |
| `EditorService.Sources` | services/geminiService.ts:34-37 | missing grounding data (no candidate, no metadata, no chunks) yields the empty list; otherwise one citation per chunk in order |
| `EditorService.GetFeedback` | services/geminiService.ts:33-55 | the text is never empty; a failure gives the fixed apology, neutral, with no sources field; a reply keeps its own text in its original case, or the neutral placeholder when empty, has the class of that text, and has as sources exactly `Sources` of the reply (its chunks' citations, in order, defaults filled in) |
| `EditorService.FailureHasNoSourcesField` | services/geminiService.ts:48-54 | only the failure response lacks `sources`, so it differs from a reply without citations |
| `App.PromptEmbeds` | App.tsx:52-65 | the search request embeds the query; the connect requests embed the attempted address |
| `App.DispatchCommands` | App.tsx:112-124 | a dispatch sends its action to the bridge exactly when connected, and sends nothing else |
| `App.DispatchPrompts` | App.tsx:126-144 | POWER and MUTE ask once with their fixed prompt; HOME and VOICE never ask; any other action asks for a browsing recommendation iff the draw exceeds 0.97; nothing is asked without a service instance |
| `App.RunCommands` | App.tsx:111-124 | over a run of presses the log's bridge commands are exactly the pressed actions, in order, while connected, and none otherwise |
| `App.RunWithoutService` | App.tsx:31-145 | before the service instance exists, a run of presses of any actions logs no request |
| `App.OrdinaryRun` | App.tsx:139-143 | over a run of other actions, the log holds one browsing request per draw above the threshold and no other request |
| `App.PowerMuteRun` | App.tsx:127-138 | over a run of POWER and MUTE presses, the log holds one request per press, in order, with that press's fixed prompt, whatever the draws |
| `App.TranscriptAppend` | App.tsx:88-91 | the transcript of more results extends the earlier transcript |
| `App.Controller.constructor` | App.tsx:12-22 | initial state: nothing shown, not loading, empty query, disconnected, address read back from storage or empty |
| `App.Controller.Mount` | App.tsx:27-29 | the service instance now exists |
| `App.Controller.BeginEditor` | App.tsx:31-33 | with a service instance: `loading` is set and one request logged; without one nothing changes |
| `App.Controller.FinishEditor` | App.tsx:34-36 | the normalised response is shown and `loading` cleared |
| `App.Controller.DismissOverlay` | App.tsx:252 | the shown response is cleared |
| `App.Controller.BeginConnect` | App.tsx:39-48 | the attempted address is shown and persisted; `isConnecting` is set; `isConnected` keeps its value |
| `App.Controller.FinishConnect` | App.tsx:49-59 | `isConnecting` is cleared in both branches; `isConnected` is true iff the response was ok and its body parsed; the address stays; one request about the outcome |
| `App.Controller.EditQuery` | App.tsx:191 | typing replaces the query |
| `App.Controller.SubmitQuery` | App.tsx:62-68 | a blank query changes nothing; any other asks one request embedding it and clears the field |
| `App.Controller.HandleSearchSubmit` | App.tsx:62-68 | the search form submits the live query |
| `App.Controller.StartVoiceInput` | App.tsx:70-109 | without a recogniser only the notice is logged; otherwise a session capturing the current query is started |
| `App.Controller.OnVoiceStart` | App.tsx:82-85 | voice input becomes active |
| `App.Controller.OnVoiceResult` | App.tsx:87-93 | the query is replaced by the concatenated first-alternative transcripts |
| `App.Controller.OnVoiceError` | App.tsx:95-98 | voice input becomes inactive; the partial query is kept |
| `App.Controller.OnVoiceEnd` | App.tsx:100-106 | voice input becomes inactive; one submit is scheduled iff the captured query is not blank; the live query is not consulted |
| `App.Controller.FireScheduledSubmit` | App.tsx:104 | the scheduled submit asks about the captured query and clears the live field |
| `App.Controller.HandleRemoteAction` | App.tsx:111-145 | `lastAction` is the action; `connection` is unchanged; the log grows by the bridge command (only while connected) and then the policy's effects; only HOME clears the response; only VOICE starts a session |

## Left out

- The generative-backend SDK call, its model name, the system persona and the API key
  (services/geminiService.ts:5-31): a foreign library. Its result is the `Outcome` parameter.
- The bridge requests for connect and command (App.tsx:44-49, 116-120) and discovery
  (components/SettingsModal.tsx): network I/O. Connect and command are log entries, and the awaited
  connect result is a `ConnectResult` parameter. Discovery is not part of this model.
- `localStorage` is the plain field `storedIp`, with no durability claim; a failing `setItem` is not
  modelled.
- `Math.random`: the handler takes the boolean outcome of `Math.random() > 0.97`.
- Browser capabilities: the speech recogniser's configuration, `alert`, focus and blur, and the 500 ms
  timer. Only the decision to start a recognition, show the notice or schedule a submit is modelled.
- Interleaving of overlapping commentary requests (the last to resolve wins): `FinishEditor` is one
  resolution, and nothing is claimed across interleavings.
- `toLowerCase` and `trim` cover ASCII letters and ASCII whitespace only, not Unicode.
- A grounding chunk that is itself `null`, which makes the mapping throw and so gives the apology, is
  not modelled: every chunk is a `Chunk` value. A reply text that is not a string is not modelled either.
- The settings dialog's visibility (`showSettings`) and all presentational components and JSX.
- `App.Controller.OnVoiceResult` requires every result to have at least one alternative, as the browser
  guarantees; the source reads `result[0]` without a check.
