# Construction project risk assistant — a verified model of its core

The system predicts, for a construction project, whether it will be delayed and by how
many days, and by how much its cost will overrun. This project models its decision logic:

- **The chat assistant** (`ChatBot.jsx`), a dialogue state machine. It detects the
  user's intent from keywords. It asks six required questions and validates each answer.
  It then accepts optional `field: value` answers until a proceed word arrives. Next it
  completes the answers with per-domain defaults and sends the request. Finally it shows
  the answer as a report and resets on the next message.
  - The pure transition functions are in `ChatSession`.
  - The component with its state fields is the class `ChatBotComponent.ChatBot`.
  - The registries and intent detection are in `ChatFields`.
  - The default tables are in `ChatImputation` and `ChatDefaults`.
  - The report is in `ChatReport`.
- **The two prediction forms** (`OverrunForm.jsx`, `DelayForm.jsx`). They turn typed text
  into a payload with defaults (`OverrunForm`, `DelayForm`).
- **The cost-overrun back end**:
  - the request schema with its defaulting validators (`CostSchema`);
  - the input validator (`FeatureValidation`);
  - the drift monitor (`DriftMonitoring`);
  - the prediction service (`CostService`): its validation gate, its interval arithmetic,
    its risk, alert and recommendation rules, its prediction log and its scenario
    simulation.
- **The delay back end**:
  - both copies of the Flask delay endpoints (`DelayApi`);
  - the delay predictor's post-processing (`DelayPrediction`);
  - the dashboard aggregations over the prediction logs (`Storage`).

Where the source is imperative, the model is a method proved against a specification
function, as in `Storage.AggregateDelayStats`, `DriftMonitoring.DriftMonitor.Track`,
`FeatureValidation.Validate` and `CostService.CostOverrunService.Predict`. Where the
source computes a value, the model is a function, with lemmas relating it to an
independent description. For example, `ChatImputation.Impute` is related to the
declarative `Imputed`, and `DriftMonitoring.Signals` to `SignalIff`.

These become parameters:
- JavaScript's `parseFloat` / `parseInt` (`None` stands for NaN);
- the machine-learning models, the feature frame and the explanation of a prediction;
- the predictor behind the delay endpoints;
- the outcome of the HTTP request.

## Model

| member | source | states |
|---|---|---|
| `Text.TrimEmptyIffAllSpace` | construction_projects_management/frontend/src/components/ChatBot.jsx:345 | A message trims to the empty string exactly when every character is one `trim` removes: tab to carriage return, the space, the no-break spaces, the Unicode space separators, the line and paragraph separators and the byte order mark. So the guard drops exactly the blank messages. |
| `Text.RemoveSpaces` | construction_projects_management/frontend/src/components/ChatBot.jsx:328 | The field name typed in the optional phase has no `\s` character left, keeps every other character it had, and is empty exactly when it was all whitespace. |
| `Text.Split` | construction_projects_management/frontend/src/components/ChatBot.jsx:325 | Splitting on ":" gives one more part than there are colons, and no part contains a colon. |
| `Text.JoinSplit` | construction_projects_management/frontend/src/components/ChatBot.jsx:325 | Splitting loses nothing: joining the parts with the separator gives the text back. |
| `ChatFields.RegistryShape` | construction_projects_management/frontend/src/components/ChatBot.jsx:5-50 | Both domains have six required questions about six different keys. Every field's kind matches its key: select exactly for the three categorical keys. Every optional field asks for a number. |
| `ChatFields.RequiredIndex` | construction_projects_management/frontend/src/components/ChatBot.jsx:5-34 | The position of a key among the required questions, the same in both domains, lies in -1..5. |
| `ChatFields.RequiredIndexAt` | construction_projects_management/frontend/src/components/ChatBot.jsx:5-34 | The position is the inverse of the required list: question `i` asks about the one key at position `i`. |
| `ChatFields.RequiredKeySet` | construction_projects_management/frontend/src/components/ChatBot.jsx:5-34 | The required keys are exactly the keys that have a position. |
| `ChatFields.OptionalPosition` | construction_projects_management/frontend/src/components/ChatBot.jsx:14-50 | Every optional key of a domain is at some index of that domain's optional list. |
| `ChatFields.CountIsDistinctMatches` | construction_projects_management/frontend/src/components/ChatBot.jsx:88-89 | Over a keyword list without repeats, the filter count is the number of distinct keywords found in the text. |
| `ChatFields.DetectIntent` | construction_projects_management/frontend/src/components/ChatBot.jsx:83-98 | Delay exactly when delay keywords strictly outnumber cost keywords. Cost overrun exactly when the reverse holds. No intent exactly on a tie, 0–0 included. |
| `ChatFields.ProcessFieldValue` | construction_projects_management/frontend/src/components/ChatBot.jsx:116-122 | A number field accepts exactly what parses, with its parsed value. A select field always gives its trimmed text. |
| `ChatFields.AcceptedHasKind` | construction_projects_management/frontend/src/components/ChatBot.jsx:116-135 | An accepted answer has the kind its field asks for: a number for number fields, text for select fields. |
| `ChatFields.SelectAcceptedIffNonBlank` | construction_projects_management/frontend/src/components/ChatBot.jsx:116-135 | A select answer is accepted exactly when it is not all whitespace, and is then recorded as its trimmed text. |
| `ChatImputation.ApplyRules` | construction_projects_management/frontend/src/components/ChatBot.jsx:151-208 | Applying a rule chain adds no key other than the rules' targets. |
| `ChatImputation.Impute` | construction_projects_management/frontend/src/components/ChatBot.jsx:151-208 | The payload keeps every collected key and adds only keys the mode's default table fills. |
| `ChatImputation.UntargetedUnchanged` | construction_projects_management/frontend/src/components/ChatBot.jsx:151-208 | A field that no default rule targets comes out of the rule chain exactly as it went in. |
| `ChatImputation.TruthyKept` | construction_projects_management/frontend/src/components/ChatBot.jsx:151-208 | A field the user gave a truthy value is never overwritten by a default. |
| `ChatImputation.KeysGrow` | construction_projects_management/frontend/src/components/ChatBot.jsx:151-208 | Defaulting only adds or overwrites fields, never removes one. |
| `ChatImputation.AllRulesHold` | construction_projects_management/frontend/src/components/ChatBot.jsx:151-208 | After an ordered chain, every rule holds of the final payload. A falsy target with a truthy source holds the rule's value, computed from the source as it stands after the earlier rules. |
| `ChatImputation.ApplyRulesSatisfies` | construction_projects_management/frontend/src/components/ChatBot.jsx:151-208 | Applying an ordered chain gives a payload that satisfies the chain's declarative description. |
| `ChatImputation.SatisfiesUnique` | construction_projects_management/frontend/src/components/ChatBot.jsx:151-208 | At most one payload satisfies the declarative description of an ordered chain, so that description determines the result. |
| `ChatImputation.ApplyRulesIdempotent` | construction_projects_management/frontend/src/components/ChatBot.jsx:151-208 | Running an ordered chain a second time changes nothing. |
| `ChatImputation.TablesOrdered` | construction_projects_management/frontend/src/components/ChatBot.jsx:151-208 | Both default tables are ordered chains: targets are distinct, and no rule reads a field that it or a later rule fills. |
| `ChatImputation.DelayTableTargets` | construction_projects_management/frontend/src/components/ChatBot.jsx:155-174 | The delay defaults fill every optional delay field except the budget overrun. |
| `ChatImputation.CostTableTargets` | construction_projects_management/frontend/src/components/ChatBot.jsx:175-205 | The cost defaults fill every optional cost field except the government payables. |
| `ChatImputation.ImputeIsImputed` | construction_projects_management/frontend/src/components/ChatBot.jsx:151-208 | `buildPayload`'s result meets the declarative description of the domain's defaults, and is the only payload that does. |
| `ChatImputation.ImputeIdempotent` | construction_projects_management/frontend/src/components/ChatBot.jsx:151-208 | Building the payload from an already built payload gives it back unchanged. |
| `ChatImputation.ImputeKeepsTruthy` | construction_projects_management/frontend/src/components/ChatBot.jsx:151-208 | Every truthy collected value reaches the payload unchanged. |
| `ChatImputation.OnlyOptionalTargeted` | construction_projects_management/frontend/src/components/ChatBot.jsx:151-208 | No default rule targets a field outside the domain's optional list. |
| `ChatImputation.ImputeFrame` | construction_projects_management/frontend/src/components/ChatBot.jsx:151-208 | These fields keep their recorded value: required answers, keys outside the optional list, the delay budget overrun and the government payables. |
| `ChatDefaults.DelayCostShares` | construction_projects_management/frontend/src/components/ChatBot.jsx:156-161 | Delay: a falsy incurred cost becomes 0.6, and a falsy land cost 0.2, of a truthy project cost. |
| `ChatDefaults.DelayUnitDefaults` | construction_projects_management/frontend/src/components/ChatBot.jsx:163-173 | Delay: falsy booked units become the floor of half of truthy total units. A falsy floor area becomes 1000 per unit. |
| `ChatDefaults.DelayActualFromPlanned` | construction_projects_management/frontend/src/components/ChatBot.jsx:167-169 | Delay: a falsy actual duration becomes the truthy planned duration. |
| `ChatDefaults.DelayConstants` | construction_projects_management/frontend/src/components/ChatBot.jsx:162-171 | Delay: falsy values become these constants: progress 0.5, land utilisation 0.5, temperature 28, rain 50. |
| `ChatDefaults.DelayFalsyCost` | construction_projects_management/frontend/src/components/ChatBot.jsx:156-161 | Delay: without a truthy project cost, the incurred and land costs stay as recorded. |
| `ChatDefaults.DelayFalsyUnits` | construction_projects_management/frontend/src/components/ChatBot.jsx:163-173 | Delay: without truthy total units, the booked units and the floor area stay as recorded. |
| `ChatDefaults.DelayFalsyPlanned` | construction_projects_management/frontend/src/components/ChatBot.jsx:167-169 | Delay: without a truthy planned duration, the actual duration stays as recorded. |
| `ChatDefaults.CostCostShares` | construction_projects_management/frontend/src/components/ChatBot.jsx:177-188 | Cost: falsy incurred, land, selling and development costs become 0.65, 0.2, 1.2 and 0.4 of a truthy project cost. |
| `ChatDefaults.CostFromSelling` | construction_projects_management/frontend/src/components/ChatBot.jsx:189-194 | Cost: falsy receipts and booked sales become 0.45 and 0.7 of the selling amount as it stands after its own default. |
| `ChatDefaults.CostUnitDefaults` | construction_projects_management/frontend/src/components/ChatBot.jsx:195-204 | Cost: falsy booked units become the floor of 0.6 of truthy total units. A falsy floor area becomes 1000 per unit. |
| `ChatDefaults.CostConstants` | construction_projects_management/frontend/src/components/ChatBot.jsx:198-201 | Cost: falsy values become these constants: progress 0.5, land utilisation 0.8, temperature 28, rain 50. |
| `ChatDefaults.CostFalsyCost` | construction_projects_management/frontend/src/components/ChatBot.jsx:177-188 | Cost: without a truthy project cost, the four fields derived from it stay as recorded. |
| `ChatDefaults.CostFalsyUnits` | construction_projects_management/frontend/src/components/ChatBot.jsx:195-204 | Cost: without truthy total units, the booked units and the floor area stay as recorded. |
| `ChatSession.InvKeys` | construction_projects_management/frontend/src/components/ChatBot.jsx:62-65 | The recorded answers belong to the domain's registry. While collecting, they are exactly the questions answered so far. Afterwards they include every required key. |
| `ChatSession.InitialInv` | construction_projects_management/frontend/src/components/ChatBot.jsx:53-67 | The initial state satisfies the dialogue invariant. |
| `ChatSession.StartFieldCollection` | construction_projects_management/frontend/src/components/ChatBot.jsx:104-114 | The mode is set, the first question is next, collection is on, nothing is sent, and processing and the result are untouched. Outside a prediction the new state has no answers and satisfies the invariant. |
| `ChatSession.FindField` | construction_projects_management/frontend/src/components/ChatBot.jsx:329 | The field found is one of the list whose lower-cased key is the name. When none is found, no field of the list has that name. |
| `ChatSession.SplitTrimmed` | construction_projects_management/frontend/src/components/ChatBot.jsx:325 | Trimming keeps the number of parts of the split. |
| `ChatSession.CollectPreservesInv` | construction_projects_management/frontend/src/components/ChatBot.jsx:124-149 | An answer to a required question keeps the dialogue invariant. |
| `ChatSession.OptionalPreservesInv` | construction_projects_management/frontend/src/components/ChatBot.jsx:312-342 | An optional-phase message keeps the invariant: it records only an optional key, and only with a number. |
| `ChatSession.SendPreservesInv` | construction_projects_management/frontend/src/components/ChatBot.jsx:344-381 | Every message, in every state, keeps the invariant. |
| `ChatSession.MakePredictionPreservesInv` | construction_projects_management/frontend/src/components/ChatBot.jsx:210-214 | Sending the request keeps the invariant. |
| `ChatSession.CompletePreservesInv` | construction_projects_management/frontend/src/components/ChatBot.jsx:229-243 | Completing a prediction keeps the invariant, whether it succeeds, is refused, fails, or succeeds with a report that cannot be built. |
| `ChatSession.CollectField` | construction_projects_management/frontend/src/components/ChatBot.jsx:124-149 | An answer to a required question sends nothing and leaves the mode, the busy flag and the result alone. It forgets no recorded answer and records at most the current question's key, with exactly one reply. |
| `ChatSession.MakePrediction` | construction_projects_management/frontend/src/components/ChatBot.jsx:210-227 | The session turns busy with its answers kept. The request goes to the delay endpoint exactly in delay mode, and its payload holds every answer plus only keys the default table fills. |
| `ChatSession.CompletePrediction` | construction_projects_management/frontend/src/components/ChatBot.jsx:229-243 | Processing ends with one reply and no request. The result is kept exactly for a successful answer (or one already shown). The report is shown exactly when the answer succeeded and its report can be built: always in the delay conversation, and in the cost conversation for a cost-shaped answer. Otherwise an error reply. |
| `ChatSession.HandleOptionalField` | construction_projects_management/frontend/src/components/ChatBot.jsx:312-342 | A request is sent exactly for a proceed word. The phase, mode and result are unchanged, one reply is given, no answer is forgotten, and only an optional key of the mode is ever added. |
| `ChatSession.Idle` | construction_projects_management/frontend/src/components/ChatBot.jsx:369-379 | Outside a prediction nothing is sent and one reply is given. Without an intent the session is unchanged; with one, a fresh collection for that domain starts. |
| `ChatSession.Respond` | construction_projects_management/frontend/src/components/ChatBot.jsx:352-380 | A shown result resets the session. A request is sent only from the optional phase with no result shown, on a proceed word. The session turns busy only together with a request. |
| `ChatSession.SendMessage` | construction_projects_management/frontend/src/components/ChatBot.jsx:344-381 | A blank message, or any message while busy, changes nothing and shows nothing. Any other message is echoed, trimmed, first. A request is sent only while idle and on a proceed word. |
| `ChatSession.Run` | construction_projects_management/frontend/src/components/ChatBot.jsx:344-381 | After any sequence of messages the invariant still holds. |
| `ChatSession.DroppedUnseen` | construction_projects_management/frontend/src/components/ChatBot.jsx:345 | A message shows nothing exactly when it is blank or a prediction is pending. Such a message changes nothing. |
| `ChatSession.AnsweredOnce` | construction_projects_management/frontend/src/components/ChatBot.jsx:347-380 | Any other message is echoed trimmed and gets exactly one reply. |
| `ChatSession.ResultResets` | construction_projects_management/frontend/src/components/ChatBot.jsx:353-362 | Once a result has been shown, the next message returns the dialogue to its initial state and offers another prediction. |
| `ChatSession.CollectingTurn` | construction_projects_management/frontend/src/components/ChatBot.jsx:124-149 | While collecting, an unacceptable answer changes nothing and asks again. An acceptable one is recorded under the current key and moves to the next question. The sixth ends the collection with every required key recorded. |
| `ChatSession.RequestOnlyOnProceed` | construction_projects_management/frontend/src/components/ChatBot.jsx:316-319 | A request goes out exactly when a non-blank proceed word arrives in the optional phase. |
| `ChatSession.ProceedRequest` | construction_projects_management/frontend/src/components/ChatBot.jsx:210-227 | The request goes to the domain's endpoint. It carries the defaulted answers, which hold every required key. The dialogue then waits for the outcome. |
| `ChatSession.OptionalTurn` | construction_projects_management/frontend/src/components/ChatBot.jsx:321-341 | A `field: value` message for an optional field with a numeric value records it and confirms. Any other message changes nothing and is not understood. |
| `ChatSession.FailureKeepsAnswers` | construction_projects_management/frontend/src/components/ChatBot.jsx:231-243 | A failed or refused prediction shows its error and keeps the answers. The next proceed word sends the same request again. |
| `ChatSession.SuccessThenReset` | construction_projects_management/frontend/src/components/ChatBot.jsx:235-236 | A successful prediction shows its report, and the next message starts over. |
| `ChatSession.MalformedSuccessThenReset` | construction_projects_management/frontend/src/components/ChatBot.jsx:235-243 | A successful answer whose report throws is kept as the result, the error reply is shown, and the next message starts over as after a shown report. Only a delay-shaped answer in the cost conversation gets here. |
| `ChatSession.IdleTurn` | construction_projects_management/frontend/src/components/ChatBot.jsx:369-379 | When idle, a message with a clear intent starts that collection from scratch. Any other message leaves the dialogue idle with help or guidance. |
| `ChatSession.CollectRest` | construction_projects_management/frontend/src/components/ChatBot.jsx:124-149 | Answering the remaining required questions acceptably ends the collection with exactly the required keys recorded. |
| `ChatSession.CollectRestValue` | construction_projects_management/frontend/src/components/ChatBot.jsx:137 | Each answer in such a run ends up recorded under its own question's key. |
| `ChatSession.CollectAll` | construction_projects_management/frontend/src/components/ChatBot.jsx:124-149 | Six acceptable answers from the first question record every required key with its answer and end the collection. |
| `ChatSession.RequiredAnswersRecorded` | construction_projects_management/frontend/src/components/ChatBot.jsx:104-149 | After a fresh start, six acceptable answers record every required key with its answer and end the collection. |
| `ChatBotComponent.ChatBot.constructor` | construction_projects_management/frontend/src/components/ChatBot.jsx:53-67 | The component starts idle, showing only the greeting. |
| `ChatBotComponent.ChatBot.AddMessage` | construction_projects_management/frontend/src/components/ChatBot.jsx:79-81 | Appends one message to the conversation. |
| `ChatBotComponent.ChatBot.StartFieldCollection` | construction_projects_management/frontend/src/components/ChatBot.jsx:104-114 | The state fields become the session function's successor state, and its messages are appended. |
| `ChatBotComponent.ChatBot.CollectField` | construction_projects_management/frontend/src/components/ChatBot.jsx:124-149 | The state fields become the successor of one required answer, and its messages are appended. |
| `ChatBotComponent.ChatBot.MakePrediction` | construction_projects_management/frontend/src/components/ChatBot.jsx:210-227 | Marks the component as processing and returns the request the session function sends. |
| `ChatBotComponent.ChatBot.CompletePrediction` | construction_projects_management/frontend/src/components/ChatBot.jsx:229-243 | Applies the outcome to the fields: the result is kept on success and the report shown, or the error reply when the report cannot be built (a delay-shaped answer in the cost conversation); the error reply otherwise. Processing ends. |
| `ChatBotComponent.ChatBot.DisplayPredictionResult` | construction_projects_management/frontend/src/components/ChatBot.jsx:246-310 | Appends exactly the report of the answer. |
| `ChatBotComponent.ChatBot.HandleOptionalField` | construction_projects_management/frontend/src/components/ChatBot.jsx:312-342 | Moves to the optional-phase successor state and returns a request exactly when the session function does. |
| `ChatBotComponent.ChatBot.SendMessage` | construction_projects_management/frontend/src/components/ChatBot.jsx:344-350 | Moves to the successor state of one message, keeping the invariant, and returns the request, if any. |
| `ChatBotComponent.ChatBot.Respond` | construction_projects_management/frontend/src/components/ChatBot.jsx:352-380 | The scheduled reply: reset, collect, optional or intent branch, as the session function takes it. |
| `ChatReport.RiskGlyph` | construction_projects_management/frontend/src/components/ChatBot.jsx:251 | Red exactly for "High", yellow exactly for "Medium", green otherwise. |
| `ChatReport.SectionBlocks` | construction_projects_management/frontend/src/components/ChatBot.jsx:293-306 | A list section is a heading and one numbered line per item when the list is non-empty, and nothing otherwise. |
| `ChatReport.DelayReport` | construction_projects_management/frontend/src/components/ChatBot.jsx:247-267 | The delay report opens with its title and has the six header lines, plus a heading and one line per recommendation when there are any. |
| `ChatReport.MisreadDelayReport` | construction_projects_management/frontend/src/components/ChatBot.jsx:247-267 | The delay report of a cost-shaped answer has the delay title and six lines. |
| `ChatReport.CostAnswerInDelayMode` | construction_projects_management/frontend/src/components/ChatBot.jsx:247-267 | In the delay conversation a cost-shaped answer reads as on time, shows no probability, keeps its own risk line, and shows none of its alerts or recommendations, since `data.recommendations` is missing. |
| `ChatReport.IntervalBlocks` | construction_projects_management/frontend/src/components/ChatBot.jsx:286-291 | Four interval lines (a heading and three bands) exactly when the answer has intervals, each band showing one of the answer's percentages. |
| `ChatReport.CostReport` | construction_projects_management/frontend/src/components/ChatBot.jsx:268-309 | The cost report opens with its title and has four header lines, the interval block when present, and a headed list of alerts and of recommendations when each is non-empty. |
| `ChatReport.Report` | construction_projects_management/frontend/src/components/ChatBot.jsx:246-310 | The report for the mode opens with that mode's title and has at least four lines. In the delay conversation any answer is reported. |
| `ChatReport.NumberItems` | construction_projects_management/frontend/src/components/ChatBot.jsx:262-264 | Each item is shown, in order, numbered from 1. |
| `ChatReport.AppendSection` | construction_projects_management/frontend/src/components/ChatBot.jsx:293-306 | A section is added after the blocks already built. |
| `ChatReport.BuildReport` | construction_projects_management/frontend/src/components/ChatBot.jsx:246-310 | The report built block by block is the report of the answer. |
| `ChatReport.NumberedItemsOnly` | construction_projects_management/frontend/src/components/ChatBot.jsx:262-264 | Numbering a list yields only numbered lines. |
| `ChatReport.SectionContents` | construction_projects_management/frontend/src/components/ChatBot.jsx:293-306 | A section has its heading exactly when its list is non-empty. Line `n` of a section shows exactly item `n` of its list. |
| `ChatReport.TailOfReport` | construction_projects_management/frontend/src/components/ChatBot.jsx:286-306 | After the domain's header come only interval lines, headings and items. A heading appears only for a non-empty list. |
| `ChatReport.RiskLineShown` | construction_projects_management/frontend/src/components/ChatBot.jsx:257 | The report has exactly one risk line: the answer's level with its glyph. |
| `ChatReport.DelayUnitShown` | construction_projects_management/frontend/src/components/ChatBot.jsx:256 | The delay line says "day" exactly for a one-day delay and "days" otherwise. |
| `ChatReport.OverrunSignShown` | construction_projects_management/frontend/src/components/ChatBot.jsx:282 | The expected overrun carries "+" exactly when it is positive. |
| `ChatReport.SectionsShownIffNonEmpty` | construction_projects_management/frontend/src/components/ChatBot.jsx:260-306 | The recommendations and alerts sections appear exactly when their lists are non-empty. The delay report never shows alerts. |
| `ChatReport.ItemsNumberedFromOne` | construction_projects_management/frontend/src/components/ChatBot.jsx:260-306 | A numbered line `n. t` appears exactly when `t` is item `n` of the recommendations or of the alerts. |
| `ChatReport.IntervalsShown` | construction_projects_management/frontend/src/components/ChatBot.jsx:286-291 | The interval lines appear exactly when the answer has intervals. Without cost intervals they show 0 at the outer bands and the predicted final cost at P50. |
| `OverrunForm.NumberOrDefault` | construction_projects_management/frontend/src/pages/overrun/OverrunForm.jsx:37-43 | A number that parses finitely, 0 included, is kept. Otherwise the fallback is used, called first when it is a function. |
| `OverrunForm.Submit` | construction_projects_management/frontend/src/pages/overrun/OverrunForm.jsx:50-78 | A payload is built exactly when cost, units and duration are filled in. Its three choices are copied as typed. |
| `OverrunForm.SubmittedNumber` | construction_projects_management/frontend/src/pages/overrun/OverrunForm.jsx:56-102 | Each number sent is the typed one when it parses, and otherwise its documented default. |
| `DelayForm.Submit` | construction_projects_management/frontend/src/pages/delay/DelayForm.jsx:40-57 | The three choices are copied as typed. |
| `DelayForm.SubmittedNumber` | construction_projects_management/frontend/src/pages/delay/DelayForm.jsx:41-53 | A defaulted number keeps the parsed value only when it is truthy. A typed 0 is replaced by the default. A number without a default is sent as parsed. |
| `DelayForm.AlwaysNumbers` | construction_projects_management/frontend/src/pages/delay/DelayForm.jsx:44-48 | Progress and land utilisation are always non-zero, and the budget overrun is always a number. |
| `DelayForm.MissingCostGivesNaN` | construction_projects_management/frontend/src/pages/delay/DelayForm.jsx:41-42 | Without a parsable project cost, an unparsable incurred cost is NaN in the payload object, which JSON encoding sends as `null`. |
| `CostSchema.Failures` | construction_projects_management/backend/schemas.py:11-30 | The fields reported as failing are exactly the checked fields that are invalid. |
| `CostSchema.ParseAccepts` | construction_projects_management/backend/schemas.py:11-30 | A request validates exactly when its three positive fields are present and above 0 and its three categorical texts are present. |
| `CostSchema.CheckedValid` | construction_projects_management/backend/schemas.py:11-30 | All checked fields are valid exactly when the request is complete. |
| `CostSchema.ParsedNumber` | construction_projects_management/backend/schemas.py:11-61 | In a validated request, a numeric field holds a value exactly when its validated value exists, and holds that value. |
| `CostSchema.ParsedPositive` | construction_projects_management/backend/schemas.py:11-23 | A validated request holds its three positive fields, each above 0. |
| `CostSchema.PresentUnchanged` | construction_projects_management/backend/schemas.py:33-61 | Every defaulting validator returns a present value unchanged. |
| `CostSchema.DefaultProjectDuration` | construction_projects_management/backend/schemas.py:33-37 | A missing planned project duration becomes the planned duration. |
| `CostSchema.DefaultSelling` | construction_projects_management/backend/schemas.py:45-49 | A missing selling amount becomes 1.2 times the project cost. |
| `CostSchema.DefaultReceipts` | construction_projects_management/backend/schemas.py:51-55 | A missing receipts amount becomes 0.5 times the selling amount after its own default. |
| `CostSchema.DefaultBookedSales` | construction_projects_management/backend/schemas.py:57-61 | A missing booked-sales amount becomes 0.7 times the selling amount after its own default. |
| `CostSchema.BookingsDefaultAsDeclared` | construction_projects_management/backend/schemas.py:39-43 | As declared, a missing `bookedunits` is always 0, because its validator runs before `totalunits` has been validated. |
| `CostSchema.BookingsExample` | construction_projects_management/backend/schemas.py:19-20 | For one complete request the two orders differ: 0 bookings as declared, 60 with `totalunits` first. |
| `CostSchema.BookingsDefault` | construction_projects_management/backend/schemas.py:39-43 | With `totalunits` validated first, a missing `bookedunits` becomes 0.6 times the units. |
| `CostSchema.LayoutsAgree` | construction_projects_management/backend/schemas.py:11-61 | The two orders agree on every field except a missing `bookedunits`. |
| `CostSchema.Field` | construction_projects_management/backend/schemas.py:11-61 | A positive field validates exactly when present and above 0. A present value that passes its constraint is kept unchanged by every defaulting validator. |
| `CostSchema.Parse` | construction_projects_management/backend/schemas.py:11-61 | A refusal lists exactly the failing required fields and is never empty. An accepted request keeps the texts and holds only numeric fields. |
| `FeatureValidation.Validate` | construction_projects_management/backend/ml/features.py:128-145 | The issues are the required-field issues followed by the bounds issues. The row is valid exactly when there are none. |
| `FeatureValidation.CheckRequired` | construction_projects_management/backend/ml/features.py:132-134 | One issue per missing required field, in list order. |
| `FeatureValidation.CheckBounds` | construction_projects_management/backend/ml/features.py:136-143 | The bounds issues, field by field in table order, skipping missing values. |
| `FeatureValidation.RequiredIssuesExact` | construction_projects_management/backend/ml/features.py:116-134 | A required-field issue names a field exactly when that field is required and missing. There is one issue per missing field. |
| `FeatureValidation.BoundIssuesPresent` | construction_projects_management/backend/ml/features.py:136-143 | Bounds issues only concern present fields of the table. |
| `FeatureValidation.RequiredFirst` | construction_projects_management/backend/ml/features.py:128-145 | All required-field issues come before all bounds issues. |
| `FeatureValidation.FieldBoundsExact` | construction_projects_management/backend/ml/features.py:137-143 | A present field is reported below its minimum exactly when it is below it, and above its maximum exactly when it is above it. It gets no issue inside its bounds and never gets both. |
| `FeatureValidation.BoundsOrdered` | construction_projects_management/backend/ml/features.py:107-114 | Every bound in the table has its minimum at most its maximum. |
| `DriftMonitoring.DriftMonitor.constructor` | construction_projects_management/backend/ml/monitoring.py:25-26 | Missing reference statistics count as no statistics. |
| `DriftMonitoring.DriftMonitor.Track` | construction_projects_management/backend/ml/monitoring.py:28-54 | The signals are those of the reference features, in their order. |
| `DriftMonitoring.SignalsSound` | construction_projects_management/backend/ml/monitoring.py:35-52 | Every signal is for a reference feature that has a value and a non-zero standard deviation. It records the value, the mean, and a z-score of at least 3. |
| `DriftMonitoring.SignalListed` | construction_projects_management/backend/ml/monitoring.py:44-52 | Every feature that raises a signal appears among the signals. |
| `DriftMonitoring.SignalIff` | construction_projects_management/backend/ml/monitoring.py:35-52 | With one entry per feature, a feature is reported exactly when its value is present, its deviation is usable and its z-score reaches the threshold. |
| `DriftMonitoring.SignalsInOrder` | construction_projects_management/backend/ml/monitoring.py:35 | The signals follow the order of the reference statistics. |
| `DriftMonitoring.OnePerFeature` | construction_projects_management/backend/ml/monitoring.py:35-52 | With one entry per feature, no feature is reported twice. |
| `DriftMonitoring.Signals` | construction_projects_management/backend/ml/monitoring.py:35-52 | At most one signal per feature of the statistics, each with a z-score at or above the threshold. |
| `CostService.RiskBucket` | construction_projects_management/backend/services/cost_service.py:224-229 | Low below 10%. Medium from 10% up to but excluding 25%. High from 25%. |
| `CostService.RiskMonotone` | construction_projects_management/backend/services/cost_service.py:224-229 | A higher overrun never gives a lower risk. |
| `CostService.BuildAlerts` | construction_projects_management/backend/services/cost_service.py:231-241 | The alerts are those raised, in checking order. |
| `CostService.AlertsExact` | construction_projects_management/backend/services/cost_service.py:231-241 | An alert is listed exactly when its condition holds. Alerts keep the checking order and none is listed twice. |
| `CostService.AlertConditions` | construction_projects_management/backend/services/cost_service.py:233-240 | Overrun alert exactly at or above 25%. Low-progress alert exactly for a truthy progress below 0.4. Liquidity alert exactly when receipts over sales, both truthy, is below 0.5. At most three alerts. |
| `CostService.Recommendations` | construction_projects_management/backend/services/cost_service.py:243-264 | The recommendations are those the rule table gives. |
| `CostService.RecommendationsShape` | construction_projects_management/backend/services/cost_service.py:249-263 | One to three recommendations. The first is the risk tier, matching the risk bucket. Collection advice is given exactly when a cash factor leads the top two contributors, and then only once, last. |
| `CostService.RaisedAlerts` | construction_projects_management/backend/services/cost_service.py:231-241 | The alerts are exactly those of the order whose condition holds, no more of them than the order has. |
| `CostService.RecommendationsFor` | construction_projects_management/backend/services/cost_service.py:243-264 | One to three recommendations: the risk tier first, throughput exactly when progress is below 0.5, collection exactly when a cash factor leads the explanation. |
| `CostService.CostIntervalsAgree` | construction_projects_management/backend/services/cost_service.py:90-100 | The final cost is the project cost raised by the expected percentage. The cost bounds are the percentage bounds applied to the project cost and keep their order for a positive cost. |
| `CostService.CostAtMonotone` | construction_projects_management/backend/services/cost_service.py:94-100 | For a positive project cost, a higher percentage gives a higher cost. |
| `CostService.Response` | construction_projects_management/backend/services/cost_service.py:94-123 | The response's risk is the bucket of its expected overrun, its alerts are exactly the raised ones, and it has one to three recommendations led by the risk tier. |
| `CostService.CostOverrunService.Answer` | construction_projects_management/backend/services/cost_service.py:90-116 | The answer carries the service's model version, the point model's overrun, the quantile models' bands, and exactly the alerts its overrun raises. |
| `CostService.CostOverrunService.constructor` | construction_projects_management/backend/services/cost_service.py:46-70 | The service holds its model version, models and explainer, and an empty log. |
| `CostService.CostOverrunService.Predict` | construction_projects_management/backend/services/cost_service.py:75-145 | Refused, with the issues, exactly when the frame is invalid, and then nothing is logged. Otherwise it returns the response, logged exactly when `persist` holds. |
| `CostService.CostOverrunService.SimulateOne` | construction_projects_management/backend/services/cost_service.py:152-161 | One scenario: the base merged with the overrides and the scenario name, predicted without logging. |
| `CostService.CostOverrunService.Simulate` | construction_projects_management/backend/services/cost_service.py:147-163 | One entry per scenario, in order, each the prediction for its merged request. Nothing is logged. |
| `CostService.ScenarioOverrides` | construction_projects_management/backend/services/cost_service.py:153 | An override wins over the base, an untouched field keeps the base's value, and the scenario name is set. |
| `DelayApi.Render` | backend/app.py:205-226 | Each recommendation is shown in its copy's wording, in order. |
| `DelayApi.GenerateRecommendations` | construction_projects_management/backend/app.py:259-280 | The tier's messages, then the escalation's. |
| `DelayApi.OneTier` | construction_projects_management/backend/app.py:266-274 | The headline is the high tier exactly above 0.7, the moderate tier exactly in (0.4, 0.7], and the low tier exactly at or below 0.4. |
| `DelayApi.AdviceCount` | construction_projects_management/backend/app.py:259-280 | There are 3, 2 or 1 tier messages, plus two exactly when the delay exceeds 60 days. |
| `DelayApi.EscalationIffLongDelay` | construction_projects_management/backend/app.py:276-278 | The timeline message appears exactly when the delay exceeds 60 days, and the two escalation messages close the list. |
| `DelayApi.ConfidenceLabel` | construction_projects_management/backend/app.py:127 | "High" exactly when the probability is above 0.7 or below 0.3, and "Medium" otherwise. |
| `DelayApi.Missing` | construction_projects_management/backend/app.py:97-106 | The missing fields are exactly the required fields the body lacks, in declared order. |
| `DelayApi.DebugPrintsMaskChecks` | construction_projects_management/backend/app.py:80-94 | As written, the "no input data" answer is never given. A body without a numeric project cost or progress ratio gets a 500. |
| `DelayApi.MissingCostExample` | backend/app.py:70-96 | A body holding only a progress ratio gets a 500 as written, and a missing-field 400 naming the project cost first without the prints. |
| `DelayApi.ChecksBeforePrediction` | construction_projects_management/backend/app.py:93-106 | Without the prints, a non-empty body is refused exactly when it lacks a required field, with the missing fields listed in order. |
| `DelayApi.CheckAndPredict` | construction_projects_management/backend/app.py:97-130 | A 400 exactly when a required field is missing; a 500 exactly when none is and the predictor fails, with its message; a prediction carries the confidence label of its probability. |
| `DelayApi.PredictDelay` | construction_projects_management/backend/app.py:73-130 | With models loaded, an empty or null body gets "No input data provided". A 500 comes only from unloaded models or a failing predictor. |
| `DelayApi.PredictDelayAsWritten` | construction_projects_management/backend/app.py:73-106 | Whenever the handler as written does not answer 500, it answers as the handler without the debug prints does. |
| `DelayApi.PredictionReply` | construction_projects_management/backend/app.py:120-130 | A successful reply carries the predictor's figures, the confidence label and the recommendations. |
| `DelayApi.EntryFor` | construction_projects_management/backend/app.py:200-215 | Each batch entry carries the project's id, and is an error exactly when its prediction fails. |
| `DelayApi.PredictBatch` | construction_projects_management/backend/app.py:187-224 | Without models, a 500. An empty list is refused. Otherwise one entry per project, in order; a failing project does not stop the batch. |
| `DelayPrediction.DelayRisk` | construction_projects_management/backend/predict.py:159-165 | Low below 0.3, Medium from 0.3 up to but excluding 0.6, High from 0.6. |
| `DelayPrediction.DelayRiskMonotone` | construction_projects_management/backend/predict.py:159-165 | A higher probability never gives a lower risk. |
| `DelayPrediction.CategorizeRisk` | construction_projects_management/backend/predict.py:156-166 | One level per probability, in order. |
| `DelayPrediction.OutputsInRowOrder` | construction_projects_management/backend/predict.py:133-144 | Read back along the delayed rows, the days are the regressor's outputs, each used once and in order. |
| `DelayPrediction.MaskedDays` | construction_projects_management/backend/predict.py:133-144 | On-time rows get 0 days. The k-th delayed row gets the regressor's k-th output. |
| `DelayPrediction.PredictResults` | construction_projects_management/backend/predict.py:147-152 | Per row: the verdict, the probability, the days truncated to whole days, and the risk level. |
| `DelayPrediction.FillMissing` | construction_projects_management/backend/predict.py:118-120 | Missing feature columns are added filled with 0. Existing columns and the rows are unchanged. |
| `DelayPrediction.Available` | construction_projects_management/backend/predict.py:123-124 | The features present as columns, in feature order. |
| `DelayPrediction.AllAvailable` | construction_projects_management/backend/predict.py:118-124 | Once filled, every feature is available, in order. |
| `DelayPrediction.FirstRowFlag` | construction_projects_management/backend/predict.py:41-42 | 1 exactly when the first row exceeds the threshold, and 0 otherwise. |
| `DelayPrediction.FlagsFromFirstRow` | construction_projects_management/backend/predict.py:41-42 | Every row is flagged as large when the first row has more than 100 units, and as high-cost when the first row costs more than 50,000,000. The row's own values do not matter. |
| `DelayPrediction.FlagsIgnoreLaterRows` | construction_projects_management/backend/predict.py:41-42 | Frames whose first rows agree get the same indicator columns. |
| `Storage.AggregateDelayStats` | construction_projects_management/backend/storage.py:229-288 | Totals, delayed and on-time counts, the delay rate, the risk and confidence counters, the average probability, the average delay over delayed rows, both distributions and the latest stamp, each the figure of the whole log. |
| `Storage.AggregateStats` | construction_projects_management/backend/storage.py:290-325 | The total, the risk counter, the averages of the numeric overrun and final cost over all rows, and the latest stamp. |
| `Storage.DelayedCountBounds` | construction_projects_management/backend/storage.py:247-248 | At most all rows are delayed. The count is 0 exactly when none is delayed, and all rows exactly when every one is. |
| `Storage.DelayRateBounds` | construction_projects_management/backend/storage.py:280 | The delay rate is a percentage, and 0 without rows. |
| `Storage.DelayDaysOnlyDelayed` | construction_projects_management/backend/storage.py:247-249 | Only delayed rows contribute days. |
| `Storage.NoDelayNoDays` | construction_projects_management/backend/storage.py:271-274 | Without delayed rows, the day total and the average delay are 0. |
| `Storage.LevelCountsTotal` | construction_projects_management/backend/storage.py:251-253 | The counters are exactly High, Medium and Low. Together they count at most every row, and every row exactly when each level is one of the three. |
| `Storage.DistributionTotal` | construction_projects_management/backend/storage.py:261-267 | Empty values are not counted. The counts sum to the number of rows with a value. |
| `Storage.DistributionCounts` | construction_projects_management/backend/storage.py:261-267 | A value is a key exactly when it is non-empty and some row has it. Its count is the number of such rows. |
| `Storage.LatestUnique` | construction_projects_management/backend/storage.py:269 | The latest stamp is well defined: it has one value at most. |
| `Storage.LatestIsNewest` | construction_projects_management/backend/storage.py:269 | With rows newest first, the latest prediction is the newest row's stamp when it has one. |
| `Storage.NumericSumSkips` | construction_projects_management/backend/storage.py:309-312 | Missing and non-numeric figures are skipped in the sums. |
| `Storage.AverageOverAllRows` | construction_projects_management/backend/storage.py:315-317 | The averages divide by all rows, numeric or not. When every numeric figure is `c`, the sum is `c` times the count of numeric figures, which is at most the row count. |

## Left out

- Network calls (`fetch`), the 300 ms reply delay, scrolling, focus and rendering are not modelled. The dialogue is modelled as a sequence of events, and an HTTP outcome is an input event.
- Markdown text, emoji, currency and `toFixed` formatting are not modelled. The report is a sequence of blocks.
- `ChatBotComponent.ChatBot.MakePrediction`: the `await` is split in two events, sending and completing. The model has no interleaving between them other than dropped messages.
- `Text.ToLower`, `ChatFields.DetectIntent` and `ChatSession.FindField` lower-case A–Z and the Kelvin sign only. JavaScript also lower-cases other non-ASCII capitals. The lowered text is only compared with ASCII keywords, proceed words and field keys, so this changes no comparison. The only other capital whose lower case holds an ASCII letter is U+0130, which becomes "i" followed by U+0307, and no keyword or key ends in "i".
- `ChatSession.CompletePrediction` and `ChatBotComponent.ChatBot.CompletePrediction` tell a report that throws only by the answer's shape. The delay report never throws: fields that an answer lacks print as NaN or undefined. The cost report throws on a delay-shaped answer. An answer of either shape with only some fields missing cannot be represented. That covers a cost answer lacking a figure, whose report also throws, and a delay answer with blanks, whose report shows them as undefined. The error reply's text, the script engine's `TypeError` message, is not modelled (`ReportFailed`).
- `parseFloat`/`parseInt` and JavaScript's string-to-number coercion are parameters. A text source in a default rule gives NaN. Infinity is not modelled.
- `DelayForm.Submit` and `OverrunForm.Submit` yield the payload object. `JSON.stringify`, which sends each NaN in it as `null`, is not modelled.
- The machine-learning models, SHAP explanations, `engineer_features`, the feature frame built from a request, SQLite storage and JSON encoding are parameters or not modelled. `_payload_to_frame` is not part of this model.
- Logging, debug output and drift warnings are not modelled. Only the drift signals are.
- Python's `round` in the dashboard figures is not modelled. The figures are exact reals.
- Integer widths and floating-point rounding are not modelled. Reals are exact.
- Pydantic's type coercion is not modelled: a number field holds a real or is missing. A Python `bool` counting as a number in `isinstance` checks is not modelled.
- `Storage.AggregateDelayStats` and `Storage.AggregateStats` take the rows in the order the query returns them, newest first. The SQL `ORDER BY` itself is not modelled. A NULL text cell is the empty string.
- `CostService.CostOverrunService.Simulate` validates merged scenarios with `totalunits` before `bookedunits`. That is the corrected order in the finding below. An override is a present value: a `null` override, which would clear the base's field, is not modelled.
- `DelayApi.PredictBatch`: the outer handler's 500 is not modelled. It covers a body that is not an object and a project entry that is not one. Only per-project predictor failures are modelled.
- `DelayApi.Render`: the two copies' recommendation texts are given as constants. The number format of the delay days is `IntToString`.
- The health, history and dashboard HTTP routes, `check_db.py`, `pipeline.py`, `train_cost_model.py` and the dashboard pages are not part of this model.

## Findings

| source | as written | input that shows it | evidently intended | confidence | as-written member | corrected member |
|---|---|---|---|---|---|---|
| construction_projects_management/backend/schemas.py:39-43 | `bookedunits` is declared before `totalunits`, so its validator reads `values.get("totalunits", 0)` before that field exists. A missing `bookedunits` always defaults to 0. | A complete request with `totalunits` 100 and no `bookedunits` gets 0 bookings. | 0.6 times the total units, 60 here. | not executed | `CostSchema.BookingsDefaultAsDeclared` | `CostSchema.BookingsDefault` |
| construction_projects_management/backend/app.py:80-91 | The debug prints format `final_project_cost` and `progress_ratio` before the body is checked. A body lacking either, or an empty or null body, raises inside the handler and gets a 500. | `{"progress_ratio": 0.5}` gets a 500, not "Missing required fields: final_project_cost, ...". | An empty body gets "No input data provided". A body lacking a required field gets the missing-field 400. A progress ratio is not required. | not executed | `DelayApi.DebugPrintsMaskChecks` | `DelayApi.ChecksBeforePrediction` |
