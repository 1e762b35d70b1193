# Policy Lens — a verified model of the simulator and the policy chatbot

Policy Lens is a small React site about cancer-screening policy. This project
models its two pages that hold logic, and proves what they promise.

* **Access simulator** (`Simulator.dfy`). Each of three communities (urban,
  suburban, underserved) starts from a baseline access score: 40, 75 and 25.
  Three policy toggles (expand coverage, free screening programs, mobile
  clinics) each add a fixed boost per community. The sum is clamped to 0–100.
  Each score is coloured green (70 and up), orange (40–69) or red (below 40).
  `ComputeValue` is the stepwise computation of the page. It is proved equal to
  the specification `Score`, and `Data` is the three-bar list the chart draws.
* **Chatbot routing and reply extraction** (`ChatPolicy.dfy`). This covers:
  * the two keyword classifiers (a personal medical question; a cancer-policy
    question);
  * the request sent to the model: a system instruction, then the
    conversation without ids;
  * how a reply is read from the HTTP outcome: string content, array-of-segments
    content, a missing field, an error status, a thrown exception;
  * the missing-key short-circuit.
* **Chat session** (`ChatSession.dfy`). A `Session` class holds the page's
  state: the message list, the input box, the thinking flag, the error field,
  and the reply id captured by a pending call. Submitting is split at the
  awaited model call:
  * `Submit` is the part before the call. It ignores, deflects, declines, or
    appends the user message and sets the thinking flag.
  * `Resolve` is the part after the call. It appends the reply and clears the
    flag.
  * `HandleSubmit` composes the two around `FetchPolicyAnswer`.
* **JavaScript string built-ins** (`JsString.dfy`):
  * `toLowerCase`, on ASCII letters only;
  * `trim`, with ECMAScript's whitespace and line-terminator set;
  * `includes`, meaning the part occurs at some position;
  * `Array.prototype.join`.

The network call is not performed. Its outcome is an input value (`Outcome`),
and the API key is an `Option<string>` parameter.

The session keeps message ids strictly increasing (`Valid`). A medical prompt
is deflected even when it also looks like a policy prompt. A deflected or
declined prompt never produces a request. An on-topic prompt produces exactly
one request, and only when a key is configured.

## Model

| member | source | states |
|---|---|---|
| Simulator.Clamp | src/pages/SimulatorPage.tsx:61-62 | the result is in 0..100; values already in range are unchanged; values below 0 give 0 and above 100 give 100 |
| Simulator.ComputeValue | src/pages/SimulatorPage.tsx:39-63 | the stepwise `computeValue` (baseline, three conditional increments, clamp) returns exactly `Score`, which equals baseline plus the gain of the enabled policies, and lies in 0..100 |
| Simulator.ScoreIsUnclamped | src/pages/SimulatorPage.tsx:40-62 | for every toggle setting and community the unclamped sum lies in 0..93, so the clamp never changes it |
| Simulator.ScoreInRange | src/pages/SimulatorPage.tsx:61-62 | every score is between 0 and 100 |
| Simulator.AllOffIsBaseline | src/pages/SimulatorPage.tsx:15-19 | with every toggle off each score is its baseline: urban 40, suburban 75, underserved 25 |
| Simulator.AllOnValues | src/pages/SimulatorPage.tsx:40-62 | with every toggle on the scores are urban 58, suburban 93, underserved 66 |
| Simulator.ExpandCoverageAddsEight | src/pages/SimulatorPage.tsx:42-45 | switching expand-coverage on raises every community's score by exactly 8, whatever the other toggles |
| Simulator.FreeProgramsIncrements | src/pages/SimulatorPage.tsx:47-52 | switching free programs on raises underserved by 15, suburban by 6 and urban by 4, whatever the other toggles |
| Simulator.MobileClinicsIncrements | src/pages/SimulatorPage.tsx:54-59 | switching mobile clinics on raises underserved by 18, urban by 6 and suburban by 4, whatever the other toggles |
| Simulator.GainConcat | src/pages/SimulatorPage.tsx:42-59 | the gain of two orders applied one after the other is the sum of their gains |
| Simulator.GainExtract | src/pages/SimulatorPage.tsx:42-59 | removing one policy from anywhere in an order removes exactly its contribution from the gain |
| Simulator.GainPermutation | src/pages/SimulatorPage.tsx:42-59 | two orders holding the same policies (equal multisets) give the same gain |
| Simulator.GainOfPolicies | src/pages/SimulatorPage.tsx:42-59 | the gain in the page's order is the sum of the three individual contributions |
| Simulator.OrderIndependent | src/pages/SimulatorPage.tsx:42-62 | applying the three increments in any order and clamping once gives the page's score |
| Simulator.ScoreMonotone | src/pages/SimulatorPage.tsx:42-62 | turning more toggles on never lowers any community's score |
| Simulator.AccessColor | src/pages/SimulatorPage.tsx:27-31 | green exactly when the value is at least 70, orange exactly when it is in 40..69, red exactly when it is below 40 |
| Simulator.AccessColorMonotone | src/pages/SimulatorPage.tsx:27-31 | a higher value never gets a worse colour band |
| Simulator.Data | src/pages/SimulatorPage.tsx:65-73 | three entries in the order urban, suburban, underserved, each with its label, its score as access and the colour of that score |
| JsString.Lower | src/pages/ChatbotPage.tsx:16 | same length; every ASCII capital becomes the letter 32 code points above; every other character is kept; no capital remains |
| JsString.LowerIdempotent | src/pages/ChatbotPage.tsx:16 | lower-casing twice is lower-casing once |
| JsString.Trim | src/pages/ChatbotPage.tsx:135 | the input is the result with whitespace on both sides; the result has no whitespace at either end; it is empty exactly when the input is all whitespace |
| JsString.TrimOfTrimmed | src/pages/ChatbotPage.tsx:135 | trimming a string without whitespace at its ends leaves it unchanged |
| JsString.TrimIdempotent | src/pages/ChatbotPage.tsx:135 | trimming twice is trimming once |
| JsString.Includes | src/pages/ChatbotPage.tsx:18-34 | `includes`: a part longer than the string never occurs, the empty part always occurs, and a string includes itself |
| JsString.IncludesTransitive | src/pages/ChatbotPage.tsx:18-34 | a string that contains `mid` contains everything `mid` contains |
| JsString.Join | src/pages/ChatbotPage.tsx:110 | `join`: empty for no parts, the part itself for one, starts with the first part, and is as long as the parts together plus one separator per gap |
| JsString.JoinAllWhitespace | src/pages/ChatbotPage.tsx:108-111 | segments joined by a blank separator are all whitespace exactly when every segment is |
| ChatPolicy.LooksMedicalIff | src/pages/ChatbotPage.tsx:15-35 | `looksMedicalQuestion` holds exactly when the lower-cased prompt contains one of its fifteen markers |
| ChatPolicy.LooksPolicyIff | src/pages/ChatbotPage.tsx:37-56 | `looksLikeCancerPolicyQuestion` holds exactly when the lower-cased prompt contains one of its fourteen markers |
| ChatPolicy.ClassifiersIgnoreCase | src/pages/ChatbotPage.tsx:16-38 | both classifiers give the same answer for a prompt and for its lower-cased form |
| ChatPolicy.ScreeningResultMatchesBoth | src/pages/ChatbotPage.tsx:25-45 | a prompt containing "screening result" satisfies both classifiers |
| ChatPolicy.RedundantMarkers | src/pages/ChatbotPage.tsx:23-52 | "treatment" implies "treat", "what should i do" implies "should i", "acs can" implies "acs " |
| ChatPolicy.AcsNeedsTrailingSpace | src/pages/ChatbotPage.tsx:50-51 | "ACS" alone is not a policy question, "ACS CAN" is |
| ChatPolicy.StripIds | src/pages/ChatbotPage.tsx:171-173 | same length; each turn keeps the role and text of its message, in order |
| ChatPolicy.ToApi | src/pages/ChatbotPage.tsx:72-75 | same length; each entry carries the role and text of its turn as role and content, in order |
| ChatPolicy.MessagesForApi | src/pages/ChatbotPage.tsx:67-76 | one more entry than the conversation; the first is the system instruction; the rest mirror the conversation in order; no later entry has the system role |
| ChatPolicy.SegmentTexts | src/pages/ChatbotPage.tsx:108-110 | fails exactly when some segment is null; otherwise one text per segment, its `text` or "" |
| ChatPolicy.ContentReply | src/pages/ChatbotPage.tsx:97-114 | string content gives that string trimmed; absent content gives the no-content text trimmed; any other shape gives the try-again text; every reply is trimmed or one of the two fallback texts, and is empty exactly for blank string content |
| ChatPolicy.ExtractReply | src/pages/ChatbotPage.tsx:78-118 | transport failure and unparsable body give the failure text; a non-ok status gives the unreachable text; an ok response with parsed content gives that content's reply; any reply is trimmed or a fixed text; it is empty exactly for an ok response with blank string content |
| ChatPolicy.SegmentsReply | src/pages/ChatbotPage.tsx:107-112 | array content gives the try-again text exactly when every segment text is blank; otherwise the joined texts, trimmed and non-empty |
| ChatPolicy.NullSegmentFails | src/pages/ChatbotPage.tsx:107-118 | a null array element makes the reply the failure text |
| ChatPolicy.FixedRepliesDistinct | src/pages/ChatbotPage.tsx:64-160 | the seven fixed replies are pairwise different |
| ChatPolicy.FetchPolicyAnswer | src/pages/ChatbotPage.tsx:58-119 | no request exactly when the key is missing or empty, and then the configuration message; otherwise one request (system instruction plus conversation) and the extracted reply; the reply is empty only for blank string content |
| ChatSession.RouteFor | src/pages/ChatbotPage.tsx:135-165 | a blank prompt or a pending call is ignored; otherwise a medical prompt is deflected whatever else it says; only a prompt that is on-topic and not medical reaches the model; a declined prompt passes neither check |
| ChatSession.NextId | src/pages/ChatbotPage.tsx:140 | 1 for an empty list; on a list with increasing ids it exceeds every id |
| ChatSession.AppendNextKeepsIncreasing | src/pages/ChatbotPage.tsx:140-168 | appending a message with the next id keeps the ids strictly increasing |
| ChatSession.MedicalMarkerDeflects | src/pages/ChatbotPage.tsx:143-153 | a prompt containing any medical marker is deflected, whatever policy words it also contains |
| ChatSession.ScreeningResultDeflected | src/pages/ChatbotPage.tsx:143-165 | a prompt about a screening result looks like a policy question yet is deflected |
| ChatSession.NoMarkerDeclined | src/pages/ChatbotPage.tsx:155-165 | a non-blank prompt with no marker from either list is declined |
| ChatSession.Session.constructor | src/pages/ChatbotPage.tsx:122-131 | the welcome message with id 1, an empty input, not thinking, no error |
| ChatSession.Session.SetInput | src/pages/ChatbotPage.tsx:186-188 | the input becomes the given text and nothing else changes |
| ChatSession.Session.Submit | src/pages/ChatbotPage.tsx:133-173 | a blank input or a pending call changes nothing; otherwise the error is cleared and the input emptied; a medical or off-topic prompt appends the user message and its fixed reply with ids n and n+1; an on-topic prompt appends only the user message, sets thinking, records n+1 and hands the id-less conversation to the model; ids stay increasing |
| ChatSession.Session.Dispatch | src/pages/ChatbotPage.tsx:138-173 | the effect of a routed, non-ignored submission on the messages, input, error and thinking flag |
| ChatSession.Session.AnswerAtOnce | src/pages/ChatbotPage.tsx:144-164 | appends the user message and the fixed reply with consecutive ids, empties the input, clears the error, keeps ids increasing |
| ChatSession.Session.AskModel | src/pages/ChatbotPage.tsx:167-173 | appends the user message, empties the input, sets thinking with the reply id n+1, returns the conversation without ids |
| ChatSession.Session.Resolve | src/pages/ChatbotPage.tsx:174-183 | appends the reply with the recorded id, clears thinking, leaves the input and error alone, keeps ids increasing |
| ChatSession.Session.HandleSubmit | src/pages/ChatbotPage.tsx:133-183 | the whole submission: only an on-topic prompt reaches the model; it ends with the user message and the extracted reply at ids n and n+1, the request is exactly the one `FetchPolicyAnswer` sends, and thinking is cleared; a medical or off-topic prompt appends the user message and its fixed reply at ids n and n+1, empties the input and clears the error; a blank input or a pending call changes nothing; only the on-topic route sends a request |

## Left out

- The HTTP request itself is not modelled: headers, model name, token limit, JSON encoding and decoding. `Outcome` stands for its result: a thrown transport error, or a response with an ok flag and a body that is malformed or carries some content.
- `import.meta.env` is not modelled. The key is a parameter.
- `console.error` is left out. It has no effect on the state.
- React rendering, hooks, the chart, the example-question buttons' markup, `anythingOn` and the page text are left out. Clicking an example is `SetInput`.
- Concurrency between an awaited call and user edits is not modelled. `Submit`/`Resolve` split the handler at the await, and `Resolve` leaves the input as it finds it.
- `toLowerCase` is modelled on ASCII letters only. Other scripts' case mappings are not.
- A segment whose `text` is neither a string nor missing is not modelled. JavaScript would stringify it in `join`.
- ChatPolicy.ExtractReply: does not state that the fixed fallback texts have no whitespace at their ends. The contract instead lists them as the alternative to a trimmed reply.
- ChatPolicy.LooksMedicalQuestion and ChatPolicy.LooksLikeCancerPolicyQuestion: written as the source's chains of `includes` calls. Their contract is stated in `LooksMedicalIff` and `LooksPolicyIff`.
- The error field is only ever cleared by the page and never set to a message. The model keeps it as an `Option<string>`, and only `None` is ever written.
- A model reply whose string content is blank becomes an empty assistant message. The array branch falls back to a fixed text, but the string branch has no such fallback; `ExtractReply` states exactly when this happens.
- HomePage, Layout and App are not part of this model. They hold navigation and static content only.
