# Wellness companion: a Dafny model

This project models the logic of a small journaling app and of the mock
language-model server behind it:

- the Flask server's `/api/chat` handler: how it pulls the emotion and the
  quoted passage out of the user message, how it routes between the analysis
  replies, the advisor replies and a generic text, and the reply tables with
  their defaults;
- the OpenAI wrapper of the mobile app, which answers from mock texts while its
  key constant is empty and turns client errors into an error envelope;
- the wizard of the mobile app (emotion selection, recording method, analysis,
  AI response) as classes whose fields are the screens' `useState` variables
  and whose methods are their handlers, and the navigator's edges; and
- the AI response screen of the wellness web client, with its fallback table.

Modules: `Wrappers` (Option), `Text` (substring search, `split`, `strip`,
`lower`, decimal rendering), `ChatMessages` (messages, requests, completions),
`Types` (the records of src/types/index.ts and the navigation targets),
`FlaskServer`, `OpenAIService`, `MobileAIResponse`, `EmotionSelectionScreen`,
`RecordingMethodScreen`, `AnalysisScreen`, `WellnessAIResponse`, `Flow`.

Two consequences are proved about the code as written:

- the sad keyword "unhappy" can never select the sad replies, because "happy"
  is tested first (`FlaskServer.UnhappyIsHappy`);
- the analysis screen forwards only the entry, so in the wired wizard the AI
  response screen always takes its "logged" branch and never calls the service
  (`Flow.WizardToAIResponse`, `Flow.OpenWiredAIResponse`); had it been given
  "advice" or "expression", the shipped wrapper would answer both with the same
  feelings mock text (`MobileAIResponse.OfflinePromptsGetFeelingsText`).

A reply of the Flask server is a list of texts and `random.choice`; here the
k-th text of each list is a function (`AnalysisReply`, `AdvisorReply`) and the
random draw is a parameter `pick`, the chosen text being the one at `pick % 3`.

Other versions of the app kept in the repository ask for a qualitative
intensity (`wellness/WellnessCompanion/app/(tabs)/AnalysisResultScreen.tsx:64`)
and trim the reply
(`.history/wellness/WellnessCompanion/app/(tabs)/index_20250315171048.tsx:69`);
the screen modelled here interpolates `${intensity}/10` and does not trim, and
the model follows it. The mobile
AI response screen reads `journalEntry.intensity`, which the declared
`JournalEntry` type does not have; the model gives `JournalEntry` an optional
`intensity` field, absent rendering as "undefined".

## Model

| member | source | states |
|---|---|---|
| Text.IndexOf | wellness/WellnessCompanion-ui/flask_server.py:47 | the leftmost occurrence of the pattern, no earlier one, and `None` exactly when there is none (Python `in`, JavaScript `includes`) |
| Text.ContainsIff | wellness/WellnessCompanion-ui/flask_server.py:47 | `Contains` holds exactly when some occurrence exists |
| Text.JoinSplit | wellness/WellnessCompanion-ui/flask_server.py:48 | joining the pieces of `split(sep)` with `sep` gives back the original string |
| Text.SplitPartsAvoid | wellness/WellnessCompanion-ui/flask_server.py:48-50 | no piece of `split(sep)` contains `sep` |
| Text.SplitMoreThanOne | wellness/WellnessCompanion-ui/flask_server.py:53-55 | `split(sep)` has more than one piece exactly when the string contains `sep` |
| Text.SplitHead | wellness/WellnessCompanion-ui/flask_server.py:50 | the first piece of `split(sep)` is the text before the first `sep`, or the whole string |
| Text.Strip | wellness/WellnessCompanion-ui/flask_server.py:50 | the result is the input with a run of leading and a run of trailing ASCII whitespace removed, and starts and ends with a non-space |
| Text.StripIdempotent | wellness/WellnessCompanion-ui/flask_server.py:50 | stripping twice is stripping once |
| Text.StripAvoids | wellness/WellnessCompanion-ui/flask_server.py:50 | stripping cannot introduce a pattern |
| Text.Lower | wellness/WellnessCompanion-ui/flask_server.py:59 | same length; each upper-case ASCII letter becomes its lower-case partner (code plus 32), every other character unchanged, so no upper-case letter is left |
| Text.LowerIdempotent | wellness/WellnessCompanion-ui/flask_server.py:59 | lowering twice is lowering once |
| Text.NatToString | src/screens/AnalysisScreen.tsx:48 | decimal digits with no leading zero |
| Text.NatToStringRoundTrip | src/screens/AnalysisScreen.tsx:48 | reading the digits back gives the number |
| Text.IntToString | src/screens/AnalysisScreen.tsx:48 | the decimal rendering of an integer: digits only with no leading zero, round-tripping to the number; for a negative number a minus sign followed by such digits for its magnitude |
| ChatMessages.FirstContent | wellness/WellnessCompanion-ui/flask_server.py:41-42 | the content of the first message with the role, or `""` when no message has it |
| ChatMessages.SingleText | src/services/openai.ts:46-48 | a completion with exactly one choice whose content is the given non-empty text |
| FlaskServer.FirstMatch | wellness/WellnessCompanion-ui/flask_server.py:61-67 | the first term in list order that occurs in the text; none earlier occurs; none at all exactly when no term occurs |
| FlaskServer.ExtractEmotion | wellness/WellnessCompanion-ui/flask_server.py:45-51 | the emotion read from the user message: "unknown" without "feeling", else the stripped text after the first "feeling" up to the next one and the first ":" (stated by `EmotionAfterFeeling`, `EmotionHasNoColon`) |
| FlaskServer.ExtractContent | wellness/WellnessCompanion-ui/flask_server.py:53-56 | the content read from the user message: the text between the first two double quotes, `""` with fewer than two (stated by `ContentBetweenQuotes`, `ContentHasNoQuote`) |
| FlaskServer.EmotionAfterFeeling | wellness/WellnessCompanion-ui/flask_server.py:45-51 | the emotion is the text after the first "feeling", up to the next one, cut before the first ":" and stripped; "unknown" without "feeling" |
| FlaskServer.EmotionHasNoColon | wellness/WellnessCompanion-ui/flask_server.py:50 | the extracted emotion never contains ":" |
| FlaskServer.ContentBetweenQuotes | wellness/WellnessCompanion-ui/flask_server.py:53-56 | the content is the text between the first double quote and the next one, `""` when there are fewer than two |
| FlaskServer.ContentHasNoQuote | wellness/WellnessCompanion-ui/flask_server.py:53-56 | the content never contains a double quote |
| FlaskServer.BucketOf | wellness/WellnessCompanion-ui/flask_server.py:192-202 | the reply set of an emotion: the first of the happy, sad, angry and anxious keyword lists with a term in the lowered emotion, else neutral (stated by `UnhappyIsHappy`, `SadNeedsOtherKeyword`, `GenerateAnalysisResponse`) |
| FlaskServer.UnhappyIsHappy | wellness/WellnessCompanion-ui/flask_server.py:192-195 | an emotion containing "unhappy" always gets the happy bucket, because "happy" is tested first |
| FlaskServer.SadNeedsOtherKeyword | wellness/WellnessCompanion-ui/flask_server.py:192-196 | the sad bucket is only ever chosen through "sad", "down", "depressed" or "disappointed" |
| FlaskServer.AnalysisReply | wellness/WellnessCompanion-ui/flask_server.py:151-189 | the k-th text (k < 3) of a bucket's reply list, which mentions the emotion |
| FlaskServer.GenerateAnalysisResponse | wellness/WellnessCompanion-ui/flask_server.py:192-204 | the reply is one of the three texts of the emotion's bucket and mentions the emotion |
| FlaskServer.Lookup | wellness/WellnessCompanion-ui/flask_server.py:244-251 | `dict.get` on the four-name table: a listed name maps to the advisor of that name, anything else to the default |
| FlaskServer.AdvisorReply | wellness/WellnessCompanion-ui/flask_server.py:212-242 | the k-th text (k < 3) of an advisor's reply list, which mentions the emotion |
| FlaskServer.GenerateAdvisorResponse | wellness/WellnessCompanion-ui/flask_server.py:244-252 | the reply is one of the three texts of the named perspective, the therapist's for an unknown one, and mentions the emotion |
| FlaskServer.FallbackReply | wellness/WellnessCompanion-ui/flask_server.py:257-262 | the advisor's fallback text, which interpolates the emotion |
| FlaskServer.GenerateFallbackResponse | wellness/WellnessCompanion-ui/flask_server.py:254-265 | the perspective's fallback text, the friend's for an unknown perspective; it mentions the emotion |
| FlaskServer.FindPerspective | wellness/WellnessCompanion-ui/flask_server.py:61-67 | the `for`/`break` search returns the first of therapist, friend, parent, mentor found in the lowered system text, or `""` |
| FlaskServer.Chat | wellness/WellnessCompanion-ui/flask_server.py:41-73 | analysis reply when the lowered user text contains "analyze" whatever the system text says; else the reply of the first matching perspective; else the generic text; emotion and content extracted as above |
| FlaskServer.HappyReply1 | wellness/WellnessCompanion-ui/flask_server.py:152 | this f-string of the happy list interpolates the emotion |
| FlaskServer.HappyReply2 | wellness/WellnessCompanion-ui/flask_server.py:154 | this f-string of the happy list interpolates the emotion |
| FlaskServer.HappyReply3 | wellness/WellnessCompanion-ui/flask_server.py:156 | this f-string of the happy list interpolates the emotion |
| FlaskServer.SadReply1 | wellness/WellnessCompanion-ui/flask_server.py:160 | this f-string of the sad list interpolates the emotion |
| FlaskServer.SadReply2 | wellness/WellnessCompanion-ui/flask_server.py:162 | this f-string of the sad list interpolates the emotion |
| FlaskServer.SadReply3 | wellness/WellnessCompanion-ui/flask_server.py:164 | this f-string of the sad list interpolates the emotion |
| FlaskServer.AngryReply1 | wellness/WellnessCompanion-ui/flask_server.py:168 | this f-string of the angry list interpolates the emotion |
| FlaskServer.AngryReply2 | wellness/WellnessCompanion-ui/flask_server.py:170 | this f-string of the angry list interpolates the emotion |
| FlaskServer.AngryReply3 | wellness/WellnessCompanion-ui/flask_server.py:172 | this f-string of the angry list interpolates the emotion |
| FlaskServer.AnxiousReply1 | wellness/WellnessCompanion-ui/flask_server.py:176 | this f-string of the anxious list interpolates the emotion |
| FlaskServer.AnxiousReply2 | wellness/WellnessCompanion-ui/flask_server.py:178 | this f-string of the anxious list interpolates the emotion |
| FlaskServer.AnxiousReply3 | wellness/WellnessCompanion-ui/flask_server.py:180 | this f-string of the anxious list interpolates the emotion |
| FlaskServer.NeutralReply1 | wellness/WellnessCompanion-ui/flask_server.py:184 | this f-string of the neutral list interpolates the emotion |
| FlaskServer.NeutralReply2 | wellness/WellnessCompanion-ui/flask_server.py:186 | this f-string of the neutral list interpolates the emotion |
| FlaskServer.NeutralReply3 | wellness/WellnessCompanion-ui/flask_server.py:188 | this f-string of the neutral list interpolates the emotion |
| FlaskServer.TherapistReply1 | wellness/WellnessCompanion-ui/flask_server.py:213 | this f-string of the therapist list interpolates the emotion |
| FlaskServer.TherapistReply2 | wellness/WellnessCompanion-ui/flask_server.py:215 | this f-string of the therapist list interpolates the emotion |
| FlaskServer.TherapistReply3 | wellness/WellnessCompanion-ui/flask_server.py:217 | this f-string of the therapist list interpolates the emotion |
| FlaskServer.FriendReply1 | wellness/WellnessCompanion-ui/flask_server.py:221 | this f-string of the friend list interpolates the emotion |
| FlaskServer.FriendReply2 | wellness/WellnessCompanion-ui/flask_server.py:223 | this f-string of the friend list interpolates the emotion |
| FlaskServer.FriendReply3 | wellness/WellnessCompanion-ui/flask_server.py:225 | this f-string of the friend list interpolates the emotion |
| FlaskServer.ParentReply1 | wellness/WellnessCompanion-ui/flask_server.py:229 | this f-string of the parent list interpolates the emotion |
| FlaskServer.ParentReply2 | wellness/WellnessCompanion-ui/flask_server.py:231 | this f-string of the parent list interpolates the emotion |
| FlaskServer.ParentReply3 | wellness/WellnessCompanion-ui/flask_server.py:233 | this f-string of the parent list interpolates the emotion |
| FlaskServer.MentorReply1 | wellness/WellnessCompanion-ui/flask_server.py:237 | this f-string of the mentor list interpolates the emotion |
| FlaskServer.MentorReply2 | wellness/WellnessCompanion-ui/flask_server.py:239 | this f-string of the mentor list interpolates the emotion |
| FlaskServer.MentorReply3 | wellness/WellnessCompanion-ui/flask_server.py:241 | this f-string of the mentor list interpolates the emotion |
| FlaskServer.TherapistFallback | wellness/WellnessCompanion-ui/flask_server.py:258 | the therapist fallback f-string interpolates the emotion |
| FlaskServer.FriendFallback | wellness/WellnessCompanion-ui/flask_server.py:259 | the friend fallback f-string interpolates the emotion |
| FlaskServer.ParentFallback | wellness/WellnessCompanion-ui/flask_server.py:260 | the parent fallback f-string interpolates the emotion |
| FlaskServer.MentorFallback | wellness/WellnessCompanion-ui/flask_server.py:261 | the mentor fallback f-string interpolates the emotion |
| OpenAIService.MockText | src/services/openai.ts:60-84 | "feeling" gets the feelings text even alongside "summarize"; "summarize" alone the summary text; anything else the thank-you text; never empty |
| OpenAIService.GetMockResponse | src/services/openai.ts:56-85 | one choice with non-empty content: the mock text for the first user message's content |
| OpenAIService.ErrorText | src/services/openai.ts:35-43 | 429 gives the rate-limit text, else 401 the auth text, else a non-empty message gives "Error: " and the message, else the default apology; never empty |
| OpenAIService.Create | src/services/openai.ts:18-50 | an empty key gives the mock whatever the client does; otherwise the client's completion, or the one-choice error envelope when it fails; it never fails itself |
| OpenAIService.CreateCompletion | src/services/openai.ts:6-26 | with the shipped empty key every request gets the mock completion and the client is never used |
| MobileAIResponse.IntensityText | src/screens/AIResponseScreen.tsx:23 | `${intensity}`: the integer's decimal rendering `IntToString` for a present intensity, "undefined" when absent |
| MobileAIResponse.FirstLine | src/screens/AIResponseScreen.tsx:23 | contains the quoted emotion name, the intensity followed by "/10", and "feeling" |
| MobileAIResponse.SecondLine | src/screens/AIResponseScreen.tsx:24 | contains the quoted entry text |
| MobileAIResponse.EntryLines | src/screens/AIResponseScreen.tsx:23-24 | the two shared lines contain the quoted name, the intensity with "/10", the quoted text and "feeling" |
| MobileAIResponse.Prompt | src/screens/AIResponseScreen.tsx:21-39 | advice and expression get the shared lines plus their own instruction, any other type (absent included) no prompt; every prompt contains the emotion fields and "feeling" |
| MobileAIResponse.LoggedText | src/screens/AIResponseScreen.tsx:35 | the logged text quotes the emotion name |
| MobileAIResponse.RequestFor | src/screens/AIResponseScreen.tsx:41-47 | model gpt-3.5-turbo, exactly two messages, the fixed system text first and the prompt as the user message |
| MobileAIResponse.ResultText | src/screens/AIResponseScreen.tsx:49-54 | the first choice's content when present and non-empty, else the "couldn't generate" text; a thrown call gives the apology |
| MobileAIResponse.Title | src/screens/AIResponseScreen.tsx:82-84 | "💡 Advice" for advice, "💬 Expression" for expression, "📝 Logged" for any other or absent type (stated by `TitleAgreesWithBranch`) |
| MobileAIResponse.TitleAgreesWithBranch | src/screens/AIResponseScreen.tsx:82-84 | the title is "📝 Logged" exactly when no prompt is built |
| MobileAIResponse.OfflinePromptsGetFeelingsText | src/screens/AIResponseScreen.tsx:21-47 | through the shipped wrapper, advice and expression both show the feelings mock text, since both prompts contain "feeling" |
| MobileAIResponse.AIResponseScreen.constructor | src/screens/AIResponseScreen.tsx:12-14 | the route parameters; loading, empty response |
| MobileAIResponse.AIResponseScreen.GenerateResponse | src/screens/AIResponseScreen.tsx:16-56 | no request and the logged text for any type but advice and expression; otherwise exactly the request for the prompt and the text of its result; loading ends false |
| MobileAIResponse.AIResponseScreen.HandleContinue | src/screens/AIResponseScreen.tsx:67-69 | Continue goes to Gratitude with the same entry |
| EmotionSelectionScreen.ResolveEmotion | src/screens/EmotionSelectionScreen.tsx:39-41 | "Other" with non-empty custom text becomes {custom, 📝, #A9A9A9}; any other selection is forwarded unchanged |
| EmotionSelectionScreen.EmotionSelectionScreen.constructor | src/screens/EmotionSelectionScreen.tsx:26-29 | no selection, empty custom text, intensity 5, detailed list hidden |
| EmotionSelectionScreen.EmotionSelectionScreen.HandleEmotionSelect | src/screens/EmotionSelectionScreen.tsx:31-34 | the selection is replaced by the tapped tile; nothing else changes |
| EmotionSelectionScreen.EmotionSelectionScreen.SetCustomEmotion | src/screens/EmotionSelectionScreen.tsx:106-112 | the custom text is set while "Other" is selected; nothing else changes |
| EmotionSelectionScreen.EmotionSelectionScreen.SetIntensity | src/screens/EmotionSelectionScreen.tsx:115-129 | the intensity takes the slider value, a whole number from 1 to 10; nothing else changes |
| EmotionSelectionScreen.EmotionSelectionScreen.ToggleDetailedEmotions | src/screens/EmotionSelectionScreen.tsx:73-75 | the detailed-list flag flips; nothing else changes |
| EmotionSelectionScreen.EmotionSelectionScreen.HandleContinue | src/screens/EmotionSelectionScreen.tsx:36-48 | nothing without a selection; otherwise RecordingMethod with the resolved emotion and the current intensity |
| EmotionSelectionScreen.EmotionSelectionScreen.ContinueEnabled | src/screens/EmotionSelectionScreen.tsx:135 | Continue is enabled when an emotion is selected and it is not "Other" with an empty custom text (stated by `EnabledContinueForwardsRealEmotion`) |
| EmotionSelectionScreen.EnabledContinueForwardsRealEmotion | src/screens/EmotionSelectionScreen.tsx:135 | when Continue is enabled the forwarded emotion is never the "Other" tile and has a non-empty name, and the forwarded intensity is in 1..10 |
| EmotionSelectionScreen.ToggleTwice | src/screens/EmotionSelectionScreen.tsx:75 | flipping the detailed list twice restores it and changes nothing else |
| RecordingMethodScreen.RecordingMethodScreen.constructor | src/screens/RecordingMethodScreen.tsx:15-17 | the route's emotion and intensity; not recording, empty text |
| RecordingMethodScreen.RecordingMethodScreen.HandleVoiceRecord | src/screens/RecordingMethodScreen.tsx:19-22 | the recording flag flips and the text is untouched |
| RecordingMethodScreen.RecordingMethodScreen.SetTextContent | src/screens/RecordingMethodScreen.tsx:43-48 | the text is replaced; the recording flag is untouched |
| RecordingMethodScreen.RecordingMethodScreen.ContinueEnabled | src/screens/RecordingMethodScreen.tsx:53 | Submit is enabled exactly when the typed text is non-empty (used by `Flow.WizardToAIResponse`) |
| RecordingMethodScreen.RecordingMethodScreen.HandleSubmit | src/screens/RecordingMethodScreen.tsx:24-31 | the only navigation, to Analysis, with the route's emotion and intensity, the text, and no voice note |
| RecordingMethodScreen.VoiceToggleTwice | src/screens/RecordingMethodScreen.tsx:19-22 | pressing the voice button twice restores the flag and leaves the text alone |
| AnalysisScreen.AnalysisScreen.constructor | src/screens/AnalysisScreen.tsx:29-34 | loading, empty summary, no advisor, no recipient, saving on |
| AnalysisScreen.AnalysisScreen.CompleteAnalysis | src/screens/AnalysisScreen.tsx:37-44 | the fixed summary is set and loading ends; the choices are untouched |
| AnalysisScreen.AnalysisScreen.SelectAdvisor | src/screens/AnalysisScreen.tsx:81-93 | the advisor becomes one of the four offered ids; nothing else changes |
| AnalysisScreen.AnalysisScreen.SelectRecipient | src/screens/AnalysisScreen.tsx:100-112 | the recipient becomes one of the four offered ids; nothing else changes |
| AnalysisScreen.AnalysisScreen.ToggleSave | src/screens/AnalysisScreen.tsx:117-119 | the save flag flips; nothing else changes |
| AnalysisScreen.AnalysisScreen.BuildEntry | src/screens/AnalysisScreen.tsx:47-57 | emotion, content and voice flag from the route, the current summary and choices, `isLogged` from the save flag, no intensity |
| AnalysisScreen.AnalysisScreen.ContinueEnabled | src/screens/AnalysisScreen.tsx:129-132 | Continue is enabled exactly when an advisor and a recipient are both chosen (stated by `EnabledEntryHasOfferedChoices`) |
| AnalysisScreen.AnalysisScreen.HandleContinue | src/screens/AnalysisScreen.tsx:46-60 | AIResponse with the built entry and no response type |
| AnalysisScreen.ToggleSaveTwice | src/screens/AnalysisScreen.tsx:119 | toggling the save flag twice restores it, and the choices, the summary and the loading flag stay |
| AnalysisScreen.EnabledEntryHasOfferedChoices | src/screens/AnalysisScreen.tsx:129-132 | an enabled Continue builds an entry whose advisor and recipient are offered ids |
| WellnessAIResponse.FallbackText | wellness/WellnessCompanion-ui/src/screens/AIResponseScreen.tsx:39-46 | the table text of a listed advisor, the friend text for an absent or unlisted one |
| WellnessAIResponse.AIResponseScreen.constructor | wellness/WellnessCompanion-ui/src/screens/AIResponseScreen.tsx:16-19 | the route's entry; loading, empty response, no error |
| WellnessAIResponse.AIResponseScreen.GetAIResponse | wellness/WellnessCompanion-ui/src/screens/AIResponseScreen.tsx:23-50 | `getResponse` is called only after `getModels` succeeds; success shows the reply and clears the error; any failure shows the error banner and the fallback text; loading ends false |
| WellnessAIResponse.AIResponseScreen.HandleContinue | wellness/WellnessCompanion-ui/src/screens/AIResponseScreen.tsx:90 | Continue goes to Gratitude with the same entry |
| Flow.Step | App.tsx:27-60 | the `navigate` edges of the stack: EmotionSelection to RecordingMethod to Analysis to AIResponse to Gratitude, Gratitude to Profile or EmotionSelection, Profile to EmotionSelection (stated by `OnlyPredecessor`, `AIResponseFollowsWizard`) |
| Flow.OnlyPredecessor | src/screens/GratitudeScreen.tsx:31-44 | each later wizard screen is entered only from the one before it, Profile only from Gratitude |
| Flow.AIResponseFollowsWizard | App.tsx:27 | in any run of `navigate` edges, every visit to the AI response ends a pass EmotionSelection, RecordingMethod, Analysis, AIResponse |
| Flow.WizardToAIResponse | src/screens/AnalysisScreen.tsx:46-60 | a pass through the first three screens, from any base or detailed tile, takes `Step` edges and hands the AI response the resolved emotion, the typed text, the chosen advisor and recipient, the fixed summary, `isLogged` set, the clock reading as id and date, and no response type or intensity |
| Flow.OpenWiredAIResponse | src/screens/AIResponseScreen.tsx:34-38 | opened as the wizard opens it, the AI response makes no request and shows the logged text under the "Logged" title |

## Left out

- HTTP plumbing of the Flask server (routes, CORS, `jsonify`, status codes, the `/analyze` and `/respond` wrappers, the exception handler's 500 reply): not part of the reply logic.
- `random.choice`: modelled by the `pick` parameter; its distribution is not modelled.
- `lower()`, `toLowerCase()` and `strip()` are modelled over ASCII only; Unicode case mapping and whitespace are not.
- FlaskServer.BucketOf has no contract of its own; its ordered tests are stated through `UnhappyIsHappy`, `SadNeedsOtherKeyword` and `GenerateAnalysisResponse`.
- FlaskServer.Chat: a message list is a sequence of role/content records; a message without those keys (a `KeyError` in Python) is not modelled.
- OpenAIService.Create: the real SDK call is the `ClientOutcome` parameter; what the SDK does with the request is not modelled.
- MobileAIResponse.AIResponseScreen.GenerateResponse: the awaited wrapper call is the `service` parameter, a total function; `async` scheduling is not modelled.
- The wellness `getModels`/`getResponse` calls (src/services/api.ts) are the two parameters of `GetAIResponse`; the `fetch` I/O is not modelled.
- WellnessAIResponse.FallbackText: a perspective naming a JavaScript object property such as "constructor" would index the prototype; the model treats it as unlisted.
- The two-second timer of the analysis screen is the `CompleteAnalysis` method; the delay is not modelled.
- Clipboard, `alert`, `console` logging, rendering and styles: user-interface side effects with no state of the model.
- Flow.Step: only the screens' `navigate` calls are edges; the stack's back navigation (the header back button that App.tsx:27-60 leaves on RecordingMethod, Analysis, AIResponse and Profile, and the platform back gesture) is not modelled, so `AIResponseFollowsWizard` does not cover a run such as AIResponse, back to Analysis, Continue to AIResponse.
- The profile and gratitude screens are modelled only by their navigate edges in `Flow.Step`; their mock charts and animation are not modelled.
- `Date.now()` and `new Date()` are the `now` parameter of `BuildEntry`; `date` is kept as the millisecond reading.
- The Ollama backend, the setup and run scripts, the port probe, src/services/api.ts, RecordingScreen.tsx, the wellness EmotionSelectionScreen.tsx and src/types.ts (entirely commented out) are not part of this model.
