/** The chat assistant's conversation (ChatBot.jsx: `startFieldCollection`, `collectField`,
    `handleOptionalField`, `makePrediction` and `sendMessage`) as transitions of a session value.
    Each transition yields the next session, the messages it appends and, when it sends one,
    the prediction request. */
module ChatSession {
  import opened Values
  import opened Text
  import opened ChatFields
  import opened ChatImputation
  import opened ChatReport

  /** The component's state besides its message list. */
  datatype Session = Session(
    mode: Option<Mode>, data: Payload, index: nat, collecting: bool, processing: bool, result: Option<Response>)

  /** What the assistant says; the text of each reply is a fixed template around these values. */
  datatype Reply =
    | Greeting
    | StartCollection(mode: Mode, first: FieldSpec)
    | InvalidValue(field: FieldSpec)
    | NextField(field: FieldSpec)
    | RequiredComplete
    | OptionalAdded(field: FieldSpec)
    | NotUnderstood
    | Processing
    | ResultShown(report: seq<Block>)
    | ErrorShown(message: string)
      /** The error reply for a successful answer whose report cannot be built: its text is the
          message of the script engine's `TypeError`, which is not modelled. */
    | ReportFailed
    | AnotherPrediction
    | HelpText
    | Guidance

  datatype Message = User(text: string) | Assistant(reply: Reply)

  datatype Endpoint = DelayEndpoint | CostOverrunEndpoint

  datatype Request = Request(endpoint: Endpoint, payload: Payload)

  /** How a prediction request ends: an answer from the back end (with its `success` flag and
      optional `error`), or a failure to reach it. */
  datatype Outcome =
    | Answer(success: bool, error: Option<string>, response: Response)
    | NetworkError(message: string)

  datatype Effect = Effect(next: Session, messages: seq<Message>, request: Option<Request>)

  const Initial := Session(None, map[], 0, false, false, None)

  function EndpointFor(mode: Option<Mode>): Endpoint
  {
    if mode == Some(Delay) then DelayEndpoint else CostOverrunEndpoint
  }

  /** The session's state invariant: a collection in progress has answered exactly the first
      `index` required questions, every recorded key belongs to the mode's registry with a value
      of its kind, and the optional phase starts with every required answer in hand. */
  predicate Inv(s: Session)
  {
    && s.index < 6
    && !(s.processing && s.result.Some?)
    && (s.mode.None? ==> s.data == map[] && s.index == 0 && !s.collecting && !s.processing && s.result.None?)
    && (s.mode.Some? ==>
          && (forall k :: k in s.data ==>
                (RequiredIndex(k) >= 0 || IsOptionalKey(s.mode.value, k)) && HasKind(k, s.data[k]))
          && (s.collecting ==>
                (forall k :: k in s.data <==> 0 <= RequiredIndex(k) < s.index) && !s.processing && s.result.None?)
          && (!s.collecting ==> forall k :: RequiredIndex(k) >= 0 ==> k in s.data))
  }

  /** The invariant in terms of the registry: the recorded keys belong to the mode's schema; while
      collecting they are the keys of the questions answered so far, and afterwards they include
      every required key. */
  lemma InvKeys(s: Session)
    requires Inv(s) && s.mode.Some?
    ensures s.data.Keys <= SchemaKeys(s.mode.value)
    ensures s.collecting ==> s.data.Keys == KeysOf(RequiredFields(s.mode.value)[..s.index])
    ensures !s.collecting ==> KeysOf(RequiredFields(s.mode.value)) <= s.data.Keys
  {
    var m := s.mode.value;
    SchemaKeysByKind(m);
    RequiredPrefixKeys(m, s.index);
    RequiredKeySet(m);
  }

  lemma InitialInv()
    ensures Inv(Initial)
  {
  }

  /** `startFieldCollection`: a fresh collection in mode `m`, asking the first required question. */
  function StartFieldCollection(s: Session, m: Mode): (e: Effect)
    ensures e.next.mode == Some(m) && e.next.index == 0 && e.next.collecting && e.request.None?
    ensures e.next.processing == s.processing && e.next.result == s.result
    ensures !s.processing && s.result.None? ==> Inv(e.next) && e.next.data.Keys == {}
  {
    var fields := RequiredFields(m);
    Effect(s.(mode := Some(m), data := map[], index := 0, collecting := true),
           [Assistant(StartCollection(m, fields[0]))], None)
  }

  /** `collectField`: an unacceptable answer re-asks the same question; an acceptable one is
      recorded and the next question asked, or, after the last one, the optional phase begins. */
  function CollectField(s: Session, value: string, parseFloat: string -> Option<real>): (e: Effect)
    requires s.index < 6
    ensures e.request.None? && e.next.mode == s.mode
    ensures e.next.processing == s.processing && e.next.result == s.result
    ensures s.data.Keys <= e.next.data.Keys
    ensures s.mode.Some? ==>
      |e.messages| == 1 && e.next.data.Keys <= s.data.Keys + {RequiredFields(s.mode.value)[s.index].key}
  {
    if s.mode.None? then Effect(s, [], None)
    else
      var fields := RequiredFields(s.mode.value);
      var field := fields[s.index];
      var processed := ProcessFieldValue(field, value, parseFloat);
      if !Acceptable(processed) then Effect(s, [Assistant(InvalidValue(field))], None)
      else
        var data := s.data[field.key := processed.value];
        if s.index < |fields| - 1 then
          Effect(s.(data := data, index := s.index + 1), [Assistant(NextField(fields[s.index + 1]))], None)
        else
          Effect(s.(data := data, collecting := false), [Assistant(RequiredComplete)], None)
  }

  /** `makePrediction`, up to the request: the session turns busy and the completed payload is
      sent to the mode's endpoint. */
  function MakePrediction(s: Session): (e: Effect)
    ensures e.next.processing && e.next.data == s.data && e.next.result == s.result
    ensures e.request.Some? && (e.request.value.endpoint == DelayEndpoint <==> s.mode == Some(Delay))
    ensures s.data.Keys <= e.request.value.payload.Keys <= s.data.Keys + Targets(RulesFor(s.mode))
  {
    Effect(s.(processing := true), [Assistant(Processing)],
           Some(Request(EndpointFor(s.mode), Impute(s.mode, s.data))))
  }

  /** The text of the error reply: the back end's `error`, else "Prediction failed"; for an
      unreachable back end, the failure's message, else a hint to start it. */
  function ErrorMessage(outcome: Outcome): string
  {
    match outcome
    case Answer(_, error, _) =>
      if error.Some? && error.value != "" then error.value else "Prediction failed"
    case NetworkError(message) =>
      if message != "" then message else "Unable to fetch prediction. Please ensure the backend is running."
  }

  /** The rest of `makePrediction`: a successful answer is kept and reported, anything else is
      reported as an error; the session is idle again either way. In the cost conversation a
      successful answer of the delay endpoint's shape is kept too, but building its report
      throws, so the error reply is shown in its place. */
  function CompletePrediction(s: Session, outcome: Outcome): (e: Effect)
    ensures e.request.None? && !e.next.processing && |e.messages| == 1
    ensures e.next.result.Some? <==> (outcome.Answer? && outcome.success) || s.result.Some?
    ensures e.next == s.(processing := false, result := e.next.result)
    ensures e.messages[0].Assistant? && (e.messages[0].reply.ResultShown? <==>
              outcome.Answer? && outcome.success && Renders(s.mode, outcome.response))
  {
    if outcome.Answer? && outcome.success then
      var kept := s.(result := Some(outcome.response), processing := false);
      if Renders(s.mode, outcome.response) then
        Effect(kept, [Assistant(ResultShown(Report(s.mode, outcome.response)))], None)
      else
        Effect(kept, [Assistant(ReportFailed)], None)
    else
      Effect(s.(processing := false), [Assistant(ErrorShown(ErrorMessage(outcome)))], None)
  }

  /** The words that end the optional phase. */
  predicate WantsToProceed(text: string)
  {
    var lower := ToLower(text);
    Contains(lower, "proceed") || Contains(lower, "continue") || Contains(lower, "yes") || lower == "y"
  }

  /** `fields.find(f => f.key.toLowerCase() === name)`. */
  function FindField(fields: seq<FieldSpec>, name: string): (r: Option<FieldSpec>)
    ensures r.Some? ==> r.value in fields && ToLower(Name(r.value.key)) == name
    ensures r.None? ==> forall f :: f in fields ==> ToLower(Name(f.key)) != name
  {
    if fields == [] then None
    else if ToLower(Name(fields[0].key)) == name then Some(fields[0])
    else FindField(fields[1..], name)
  }

  /** `text.split(":").map(s => s.trim())`. */
  function SplitTrimmed(text: string): (parts: seq<string>)
    ensures |parts| == |Split(text, ':')|
  {
    var raw := Split(text, ':');
    seq(|raw|, i requires 0 <= i < |raw| => Trim(raw[i]))
  }

  /** The optional field a `name: value` message names, if any. */
  function NamedField(m: Mode, text: string): Option<FieldSpec>
  {
    var parts := SplitTrimmed(text);
    if |parts| == 2 then FindField(OptionalFields(m), RemoveSpaces(ToLower(parts[0]))) else None
  }

  /** `handleOptionalField`: a proceed word sends the request; a `name: value` message naming
      an optional field of the mode with a number records it; anything else is not understood. */
  function HandleOptionalField(s: Session, text: string, parseFloat: string -> Option<real>): (e: Effect)
    requires s.mode.Some?
    ensures e.request.Some? <==> WantsToProceed(text)
    ensures e.next.mode == s.mode && e.next.collecting == s.collecting && e.next.result == s.result
    ensures |e.messages| == 1
    ensures s.data.Keys <= e.next.data.Keys
    ensures e.next.data.Keys <= s.data.Keys + (set f | f in OptionalFields(s.mode.value) :: f.key)
  {
    if WantsToProceed(text) then MakePrediction(s)
    else
      var field := NamedField(s.mode.value, text);
      if field.None? then Effect(s, [Assistant(NotUnderstood)], None)
      else
        var processed := ProcessFieldValue(field.value, SplitTrimmed(text)[1], parseFloat);
        if processed.None? then Effect(s, [Assistant(NotUnderstood)], None)
        else Effect(s.(data := s.data[field.value.key := processed.value]), [Assistant(OptionalAdded(field.value))], None)
  }

  /** Asking for help: the message mentions "help" or "what can". */
  predicate AsksForHelp(text: string)
  {
    Contains(ToLower(text), "help") || Contains(ToLower(text), "what can")
  }

  /** The reply to a message outside any prediction: start the detected domain, or help, or
      guidance. */
  function Idle(s: Session, text: string): (e: Effect)
    ensures e.request.None? && |e.messages| == 1
    ensures DetectIntent(text).None? ==> e.next == s
    ensures DetectIntent(text).Some? ==>
      e.next.mode == DetectIntent(text) && e.next.collecting && e.next.index == 0 && e.next.data == map[]
  {
    match DetectIntent(text)
    case Some(m) => StartFieldCollection(s, m)
    case None => Effect(s, [Assistant(if AsksForHelp(text) then HelpText else Guidance)], None)
  }

  /** The answer to a non-blank message while no prediction is pending, by the phase the
      session is in: a shown result is cleared, a collection goes on, the optional phase goes
      on, or the message is read for an intent. */
  function Respond(s: Session, text: string, parseFloat: string -> Option<real>): (e: Effect)
    requires s.index < 6
    ensures s.result.Some? ==> e.next == Initial
    ensures e.request.Some? ==> s.mode.Some? && !s.collecting && s.result.None? && WantsToProceed(text)
    ensures !s.processing && e.next.processing ==> e.request.Some?
  {
    if s.result.Some? then Effect(Initial, [Assistant(AnotherPrediction)], None)
    else if s.collecting then CollectField(s, text, parseFloat)
    else if s.mode.Some? then HandleOptionalField(s, text, parseFloat)
    else Idle(s, text)
  }

  /** `sendMessage`: a blank message, or any message while a prediction is pending, is dropped
      unseen; otherwise it is echoed, trimmed, and then answered. */
  function SendMessage(s: Session, input: string, parseFloat: string -> Option<real>): (e: Effect)
    requires s.index < 6
    ensures Trim(input) == "" || s.processing ==> e == Effect(s, [], None)
    ensures Trim(input) != "" && !s.processing ==> |e.messages| >= 1 && e.messages[0] == User(Trim(input))
    ensures e.request.Some? ==> !s.processing && WantsToProceed(Trim(input))
  {
    var text := Trim(input);
    if text == "" || s.processing then Effect(s, [], None)
    else
      var answer := Respond(s, text, parseFloat);
      answer.(messages := [User(text)] + answer.messages)
  }

  // ---------------------------------------------------------------- the invariant

  /** An answer to a required question keeps the invariant: it records the current question's
      key, which is the next key of the required list. */
  lemma CollectPreservesInv(s: Session, value: string, parseFloat: string -> Option<real>)
    requires Inv(s) && s.collecting
    ensures Inv(CollectField(s, value, parseFloat).next)
  {
    var m := s.mode.value;
    RequiredIndexAt(m, s.index);
    var field := RequiredFields(m)[s.index];
    if Acceptable(ProcessFieldValue(field, value, parseFloat)) {
      AcceptedHasKind(m, field, value, parseFloat);
    }
  }

  lemma OptionalFieldIsNumber(m: Mode, i: nat)
    requires i < |OptionalFields(m)|
    ensures OptionalFields(m)[i].kind.Number? && !IsSelectKey(OptionalFields(m)[i].key)
  {
    RegistryShape(m);
  }

  /** An optional-phase message keeps the invariant: it records only an optional key, with a
      number. */
  lemma OptionalPreservesInv(s: Session, text: string, parseFloat: string -> Option<real>)
    requires Inv(s) && s.mode.Some? && !s.collecting && !s.processing && s.result.None?
    ensures Inv(HandleOptionalField(s, text, parseFloat).next)
  {
    var m := s.mode.value;
    var field := NamedField(m, text);
    if !WantsToProceed(text) && field.Some? {
      var processed := ProcessFieldValue(field.value, SplitTrimmed(text)[1], parseFloat);
      if processed.Some? {
        var i :| 0 <= i < |OptionalFields(m)| && OptionalFields(m)[i] == field.value;
        OptionalFieldIsNumber(m, i);
        OptionalKeyAt(m, i);
        RecordOptional(s, field.value.key, processed.value);
      }
    }
  }

  /** Recording a value of the right kind under an optional key keeps the invariant. */
  lemma RecordOptional(s: Session, k: Key, v: Value)
    requires Inv(s) && s.mode.Some? && !s.collecting && IsOptionalKey(s.mode.value, k) && HasKind(k, v)
    ensures Inv(s.(data := s.data[k := v]))
  {
    var data := s.data[k := v];
    forall j | j in data ensures (RequiredIndex(j) >= 0 || IsOptionalKey(s.mode.value, j)) && HasKind(j, data[j]) {
      if j != k {
        assert j in s.data && data[j] == s.data[j];
      }
    }
    assert forall j :: RequiredIndex(j) >= 0 ==> j in data;
  }

  /** Every transition of a message keeps the invariant. */
  lemma SendPreservesInv(s: Session, input: string, parseFloat: string -> Option<real>)
    requires Inv(s)
    ensures Inv(SendMessage(s, input, parseFloat).next)
  {
    var text := Trim(input);
    if text != "" && !s.processing && s.result.None? {
      if s.collecting {
        CollectPreservesInv(s, text, parseFloat);
      } else if s.mode.Some? {
        OptionalPreservesInv(s, text, parseFloat);
      } else if DetectIntent(text).Some? {
      }
    }
  }

  /** Sending a request keeps the invariant. */
  lemma MakePredictionPreservesInv(s: Session)
    requires Inv(s) && s.mode.Some? && !s.collecting && s.result.None?
    ensures Inv(MakePrediction(s).next)
  {
  }

  /** The end of a prediction keeps the invariant. */
  lemma CompletePreservesInv(s: Session, outcome: Outcome)
    requires Inv(s) && s.processing
    ensures Inv(CompletePrediction(s, outcome).next)
  {
  }

  /** The session after a sequence of messages, none of them sent while a prediction is pending. */
  function Run(s: Session, inputs: seq<string>, parseFloat: string -> Option<real>): (r: Session)
    requires Inv(s)
    ensures Inv(r)
    decreases |inputs|
  {
    if inputs == [] then s
    else
      SendPreservesInv(s, inputs[0], parseFloat);
      Run(SendMessage(s, inputs[0], parseFloat).next, inputs[1..], parseFloat)
  }

  // ---------------------------------------------------------------- what a message does

  /** A blank message, or any message while a prediction is pending, changes nothing and shows
      nothing. */
  lemma DroppedUnseen(s: Session, input: string, parseFloat: string -> Option<real>)
    requires Inv(s)
    ensures SendMessage(s, input, parseFloat).messages == [] <==> AllSpace(input) || s.processing
    ensures AllSpace(input) || s.processing ==> SendMessage(s, input, parseFloat) == Effect(s, [], None)
  {
    TrimEmptyIffAllSpace(input);
    if !AllSpace(input) && !s.processing {
      assert SendMessage(s, input, parseFloat).messages[0] == User(Trim(input));
    }
  }

  /** Any other message is echoed, trimmed, and gets exactly one reply. */
  lemma AnsweredOnce(s: Session, input: string, parseFloat: string -> Option<real>)
    requires Inv(s) && !AllSpace(input) && !s.processing
    ensures var e := SendMessage(s, input, parseFloat);
      |e.messages| == 2 && e.messages[0] == User(Trim(input)) && e.messages[1].Assistant?
  {
    TrimEmptyIffAllSpace(input);
  }

  /** Once a result is shown, the next message starts over from the initial session. */
  lemma ResultResets(s: Session, input: string, parseFloat: string -> Option<real>)
    requires Inv(s) && s.result.Some? && !AllSpace(input)
    ensures SendMessage(s, input, parseFloat) ==
      Effect(Initial, [User(Trim(input)), Assistant(AnotherPrediction)], None)
  {
    TrimEmptyIffAllSpace(input);
  }

  /** While collecting, an unacceptable answer leaves the session as it was and re-asks; an
      acceptable one is recorded under the current question's key and moves on, the sixth ending
      the collection with every required key recorded. */
  lemma CollectingTurn(s: Session, input: string, parseFloat: string -> Option<real>)
    requires Inv(s) && s.collecting && !AllSpace(input)
    ensures var e := SendMessage(s, input, parseFloat);
      var field := RequiredFields(s.mode.value)[s.index];
      var v := ProcessFieldValue(field, Trim(input), parseFloat);
      && e.request.None?
      && (!Acceptable(v) ==> e.next == s && e.messages == [User(Trim(input)), Assistant(InvalidValue(field))])
      && (Acceptable(v) ==>
            && e.next.mode == s.mode
            && e.next.data == s.data[field.key := v.value]
            && (s.index < 5 ==> e.next.collecting && e.next.index == s.index + 1)
            && (s.index == 5 ==> !e.next.collecting && e.next.data.Keys == KeysOf(RequiredFields(s.mode.value))))
  {
    TrimEmptyIffAllSpace(input);
    RequiredIndexAt(s.mode.value, s.index);
    RequiredKeySet(s.mode.value);
  }

  /** The optional phase, idle: the only phase in which a request can go out. */
  predicate AwaitingProceed(s: Session)
  {
    s.mode.Some? && !s.collecting && !s.processing && s.result.None?
  }

  /** A request goes out exactly when a proceed word arrives in the optional phase. */
  lemma RequestOnlyOnProceed(s: Session, input: string, parseFloat: string -> Option<real>)
    requires Inv(s)
    ensures SendMessage(s, input, parseFloat).request.Some? <==>
      !AllSpace(input) && AwaitingProceed(s) && WantsToProceed(Trim(input))
  {
    TrimEmptyIffAllSpace(input);
    var text := Trim(input);
    if s.mode.None? && text != "" && DetectIntent(text).Some? {
      assert SendMessage(s, input, parseFloat).request.None?;
    }
  }

  /** The request carries the mode's completion of the recorded answers, which holds every
      required key, and the session waits for its outcome. */
  lemma ProceedRequest(s: Session, input: string, parseFloat: string -> Option<real>)
    requires Inv(s) && AwaitingProceed(s) && !AllSpace(input) && WantsToProceed(Trim(input))
    ensures var e := SendMessage(s, input, parseFloat);
      && e.request == Some(Request(EndpointFor(s.mode), Impute(s.mode, s.data)))
      && e.next == s.(processing := true)
      && KeysOf(RequiredFields(s.mode.value)) <= e.request.value.payload.Keys
  {
    TrimEmptyIffAllSpace(input);
    InvKeys(s);
    KeysGrow(s.data, RulesFor(s.mode));
  }

  /** In the optional phase, a message other than a proceed word records the optional field it
      names when its value reads as a number, and otherwise changes nothing. */
  lemma OptionalTurn(s: Session, text: string, parseFloat: string -> Option<real>)
    requires s.mode.Some? && !WantsToProceed(text)
    ensures var e := HandleOptionalField(s, text, parseFloat);
      var field := NamedField(s.mode.value, text);
      var value := if field.Some? then parseFloat(SplitTrimmed(text)[1]) else None;
      && e.request.None?
      && (value.Some? ==>
            e.next == s.(data := s.data[field.value.key := Num(value.value)])
            && e.messages == [Assistant(OptionalAdded(field.value))])
      && (value.None? ==> e.next == s && e.messages == [Assistant(NotUnderstood)])
  {
    var field := NamedField(s.mode.value, text);
    if field.Some? {
      var i :| 0 <= i < |OptionalFields(s.mode.value)| && OptionalFields(s.mode.value)[i] == field.value;
      OptionalFieldIsNumber(s.mode.value, i);
    }
  }

  /** After a failed prediction the recorded answers are kept and the optional phase goes on:
      the next proceed word sends the same request again. */
  lemma FailureKeepsAnswers(s: Session, outcome: Outcome, input: string, parseFloat: string -> Option<real>)
    requires Inv(s) && s.processing && !(outcome.Answer? && outcome.success)
    requires !AllSpace(input) && WantsToProceed(Trim(input))
    ensures var after := CompletePrediction(s, outcome);
      && after.messages == [Assistant(ErrorShown(ErrorMessage(outcome)))]
      && SendMessage(after.next, input, parseFloat).request ==
           Some(Request(EndpointFor(s.mode), Impute(s.mode, s.data)))
  {
    var after := CompletePrediction(s, outcome);
    CompletePreservesInv(s, outcome);
    ProceedRequest(after.next, input, parseFloat);
  }

  /** After a successful prediction the report is shown, and the next message starts over. */
  lemma SuccessThenReset(s: Session, outcome: Outcome, input: string, parseFloat: string -> Option<real>)
    requires Inv(s) && s.processing && outcome.Answer? && outcome.success && Renders(s.mode, outcome.response)
    requires !AllSpace(input)
    ensures var after := CompletePrediction(s, outcome);
      && after.messages == [Assistant(ResultShown(Report(s.mode, outcome.response)))]
      && SendMessage(after.next, input, parseFloat).next == Initial
  {
    var after := CompletePrediction(s, outcome);
    CompletePreservesInv(s, outcome);
    ResultResets(after.next, input, parseFloat);
  }

  /** A successful answer whose report fails is kept: the error reply is shown, and the next
      message still starts over as after a shown result. Only the cost conversation gets here,
      with an answer of the delay endpoint's shape. */
  lemma MalformedSuccessThenReset(s: Session, outcome: Outcome, input: string, parseFloat: string -> Option<real>)
    requires Inv(s) && s.processing && outcome.Answer? && outcome.success && !Renders(s.mode, outcome.response)
    requires !AllSpace(input)
    ensures s.mode != Some(Delay) && outcome.response.DelayResponse?
    ensures var after := CompletePrediction(s, outcome);
      && after.messages == [Assistant(ReportFailed)]
      && after.next.result == Some(outcome.response)
      && SendMessage(after.next, input, parseFloat) ==
           Effect(Initial, [User(Trim(input)), Assistant(AnotherPrediction)], None)
  {
    var after := CompletePrediction(s, outcome);
    CompletePreservesInv(s, outcome);
    ResultResets(after.next, input, parseFloat);
  }

  /** Outside a prediction, a message with a clear intent starts that collection from scratch;
      any other message leaves the session idle and gets help or guidance. */
  lemma IdleTurn(s: Session, input: string, parseFloat: string -> Option<real>)
    requires Inv(s) && s.mode.None? && !AllSpace(input)
    ensures var e := SendMessage(s, input, parseFloat);
      var text := Trim(input);
      && e.request.None?
      && (DetectIntent(text).Some? ==>
            var m := DetectIntent(text).value;
            e.next == Session(Some(m), map[], 0, true, false, None)
            && e.messages == [User(text), Assistant(StartCollection(m, RequiredFields(m)[0]))])
      && (DetectIntent(text).None? ==>
            e.next == Initial
            && e.messages == [User(text), Assistant(if AsksForHelp(text) then HelpText else Guidance)])
  {
    TrimEmptyIffAllSpace(input);
  }

  // ---------------------------------------------------------------- a whole collection

  /** The answers `answers` are acceptable replies to the required questions from `from` on. */
  predicate AcceptableAnswers(m: Mode, from: nat, answers: seq<string>, parseFloat: string -> Option<real>)
    requires from + |answers| <= 6
  {
    forall i :: 0 <= i < |answers| ==>
      !AllSpace(answers[i])
      && Acceptable(ProcessFieldValue(RequiredFields(m)[from + i], Trim(answers[i]), parseFloat))
  }

  /** One acceptable answer while collecting: what `CollectingTurn` says, in the form the
      induction below uses. */
  lemma CollectStep(s: Session, answer: string, parseFloat: string -> Option<real>)
    requires Inv(s) && s.collecting && !AllSpace(answer)
    requires Acceptable(ProcessFieldValue(RequiredFields(s.mode.value)[s.index], Trim(answer), parseFloat))
    ensures var s1 := SendMessage(s, answer, parseFloat).next;
      var field := RequiredFields(s.mode.value)[s.index];
      && Inv(s1) && s1.mode == s.mode
      && s1.data == s.data[field.key := ProcessFieldValue(field, Trim(answer), parseFloat).value]
      && (s.index < 5 ==> s1.collecting && s1.index == s.index + 1)
      && (s.index == 5 ==> !s1.collecting && forall k :: k in s1.data <==> RequiredIndex(k) >= 0)
  {
    TrimEmptyIffAllSpace(answer);
    RequiredIndexAt(s.mode.value, s.index);
    SendPreservesInv(s, answer, parseFloat);
  }

  /** Running a non-empty sequence of messages is sending the first, then running the rest. */
  lemma RunStep(s: Session, inputs: seq<string>, parseFloat: string -> Option<real>)
    requires Inv(s) && inputs != []
    ensures Inv(SendMessage(s, inputs[0], parseFloat).next)
    ensures Run(s, inputs, parseFloat) == Run(SendMessage(s, inputs[0], parseFloat).next, inputs[1..], parseFloat)
  {
    SendPreservesInv(s, inputs[0], parseFloat);
  }

  /** The answers after the first. */
  lemma RestAcceptable(m: Mode, from: nat, answers: seq<string>, parseFloat: string -> Option<real>)
    requires from + |answers| <= 6 && |answers| > 0
    requires AcceptableAnswers(m, from, answers, parseFloat)
    ensures AcceptableAnswers(m, from + 1, answers[1..], parseFloat)
  {
    var rest := answers[1..];
    forall i | 0 <= i < |rest|
      ensures !AllSpace(rest[i]) && Acceptable(ProcessFieldValue(RequiredFields(m)[from + 1 + i], Trim(rest[i]), parseFloat))
    {
      assert rest[i] == answers[i + 1];
    }
  }

  /** Answering the remaining required questions acceptably ends the collection with every
      required key recorded. */
  lemma {:induction false} CollectRest(s: Session, answers: seq<string>, parseFloat: string -> Option<real>)
    requires Inv(s) && s.collecting && s.index + |answers| == 6
    requires AcceptableAnswers(s.mode.value, s.index, answers, parseFloat)
    ensures var r := Run(s, answers, parseFloat);
      r.mode == s.mode && !r.collecting && forall k :: k in r.data <==> RequiredIndex(k) >= 0
    decreases |answers|
  {
    CollectStep(s, answers[0], parseFloat);
    var s1 := SendMessage(s, answers[0], parseFloat).next;
    assert Run(s, answers, parseFloat) == Run(s1, answers[1..], parseFloat);
    if s.index < 5 {
      RestAcceptable(s.mode.value, s.index, answers, parseFloat);
      CollectRest(s1, answers[1..], parseFloat);
    } else {
      assert answers[1..] == [];
    }
  }

  /** ... and overwrites nothing recorded before ... */
  lemma {:induction false} CollectRestKeeps(s: Session, answers: seq<string>, parseFloat: string -> Option<real>)
    requires Inv(s) && s.collecting && s.index + |answers| == 6
    requires AcceptableAnswers(s.mode.value, s.index, answers, parseFloat)
    ensures forall k :: k in s.data ==> Holds(Run(s, answers, parseFloat).data, k, s.data[k])
    decreases |answers|
  {
    RequiredIndexAt(s.mode.value, s.index);
    var s1 := AnswerStep(s, answers, parseFloat);
    if s.index < 5 {
      CollectRestKeeps(s1, answers[1..], parseFloat);
      assert forall k :: k in s.data ==> k in s1.data && s1.data[k] == s.data[k];
    } else {
      assert answers[1..] == [];
    }
  }

  /** ... records the first answer under the current question's key ... */
  lemma CollectFirstValue(s: Session, answers: seq<string>, parseFloat: string -> Option<real>)
    requires Inv(s) && s.collecting && s.index + |answers| == 6
    requires AcceptableAnswers(s.mode.value, s.index, answers, parseFloat)
    ensures var field := RequiredFields(s.mode.value)[s.index];
      Holds(Run(s, answers, parseFloat).data, field.key, ProcessFieldValue(field, Trim(answers[0]), parseFloat).value)
  {
    var s1 := AnswerStep(s, answers, parseFloat);
    var rest := answers[1..];
    if s.index < 5 {
      var field := RequiredFields(s.mode.value)[s.index];
      CollectRestKeeps(s1, rest, parseFloat);
      assert field.key in s1.data;
    } else {
      assert rest == [];
    }
  }

  /** ... and records each later answer under its own question's key. */
  lemma {:induction false} CollectRestValue(s: Session, answers: seq<string>, parseFloat: string -> Option<real>, i: nat)
    requires Inv(s) && s.collecting && s.index + |answers| == 6
    requires AcceptableAnswers(s.mode.value, s.index, answers, parseFloat)
    requires i < |answers|
    ensures var field := RequiredFields(s.mode.value)[s.index + i];
      Holds(Run(s, answers, parseFloat).data, field.key, ProcessFieldValue(field, Trim(answers[i]), parseFloat).value)
    decreases |answers|
  {
    if i == 0 {
      CollectFirstValue(s, answers, parseFloat);
    } else {
      var s1 := AnswerStep(s, answers, parseFloat);
      var rest := answers[1..];
      CollectRestValue(s1, rest, parseFloat, i - 1);
      assert RequiredFields(s.mode.value)[s.index + i] == RequiredFields(s1.mode.value)[s1.index + (i - 1)];
      assert answers[i] == rest[i - 1];
    }
  }

  /** The session after the first of the acceptable answers, from which the run goes on. */
  lemma AnswerStep(s: Session, answers: seq<string>, parseFloat: string -> Option<real>) returns (s1: Session)
    requires Inv(s) && s.collecting && s.index + |answers| == 6
    requires AcceptableAnswers(s.mode.value, s.index, answers, parseFloat)
    ensures var field := RequiredFields(s.mode.value)[s.index];
      && Inv(s1) && s1.mode == s.mode
      && s1.data == s.data[field.key := ProcessFieldValue(field, Trim(answers[0]), parseFloat).value]
    ensures s.index < 5 ==>
      (s1.collecting && s1.index == s.index + 1 && AcceptableAnswers(s1.mode.value, s1.index, answers[1..], parseFloat))
    ensures s.index == 5 ==> answers[1..] == []
    ensures Run(s, answers, parseFloat) == Run(s1, answers[1..], parseFloat)
  {
    s1 := SendMessage(s, answers[0], parseFloat).next;
    CollectStep(s, answers[0], parseFloat);
    if s.index < 5 {
      RestAcceptable(s.mode.value, s.index, answers, parseFloat);
    }
    RunStep(s, answers, parseFloat);
  }

  /** Six acceptable answers from the first question on record every required key, each with
      its answer, and end the collection. */
  lemma CollectAll(start: Session, m: Mode, answers: seq<string>, parseFloat: string -> Option<real>)
    requires Inv(start) && start.collecting && start.index == 0 && start.mode == Some(m)
    requires |answers| == 6 && AcceptableAnswers(m, 0, answers, parseFloat)
    ensures var r := Run(start, answers, parseFloat);
      && r.mode == Some(m) && !r.collecting && r.data.Keys == KeysOf(RequiredFields(m))
      && (forall i :: 0 <= i < 6 ==>
            Holds(r.data, RequiredFields(m)[i].key, ProcessFieldValue(RequiredFields(m)[i], Trim(answers[i]), parseFloat).value))
  {
    var r := Run(start, answers, parseFloat);
    assert r.mode == Some(m) && !r.collecting && r.data.Keys == KeysOf(RequiredFields(m)) by {
      CollectRest(start, answers, parseFloat);
      RequiredKeySet(m);
    }
    forall i | 0 <= i < 6
      ensures Holds(r.data, RequiredFields(m)[i].key, ProcessFieldValue(RequiredFields(m)[i], Trim(answers[i]), parseFloat).value)
    {
      CollectRestValue(start, answers, parseFloat, i);
    }
  }

  /** Six acceptable answers after a fresh start record every required key, each with its
      answer, and end the collection. */
  lemma RequiredAnswersRecorded(s: Session, m: Mode, answers: seq<string>, parseFloat: string -> Option<real>)
    requires !s.processing && s.result.None?
    requires |answers| == 6 && AcceptableAnswers(m, 0, answers, parseFloat)
    ensures var start := StartFieldCollection(s, m).next;
      var r := Run(start, answers, parseFloat);
      && r.mode == Some(m) && !r.collecting && r.data.Keys == KeysOf(RequiredFields(m))
      && (forall i :: 0 <= i < 6 ==>
            Holds(r.data, RequiredFields(m)[i].key, ProcessFieldValue(RequiredFields(m)[i], Trim(answers[i]), parseFloat).value))
  {
    var start := StartFieldCollection(s, m).next;
    assert Inv(start) && start.collecting && start.index == 0 && start.mode == Some(m);
    CollectAll(start, m, answers, parseFloat);
  }
}
