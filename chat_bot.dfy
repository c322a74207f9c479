/** The chat assistant component (ChatBot.jsx): its state variables as fields and its handlers
    as methods, each proved to perform the corresponding session transition and to keep the
    session invariant. */
module ChatBotComponent {
  import opened Values
  import opened Text
  import opened ChatFields
  import opened ChatImputation
  import opened ChatReport
  import opened ChatSession

  class ChatBot {
    var mode: Option<Mode>
    var collectedData: Payload
    var currentFieldIndex: nat
    var isCollectingFields: bool
    var isProcessing: bool
    var predictionResult: Option<Response>
    var messages: seq<Message>
    /** JavaScript's `parseFloat`, `None` standing for NaN. */
    const parseFloat: string -> Option<real>

    /** The session the fields hold; the message list is not part of it. */
    function State(): Session
      reads this
    {
      Session(mode, collectedData, currentFieldIndex, isCollectingFields, isProcessing, predictionResult)
    }

    predicate Valid()
      reads this
    {
      Inv(State())
    }

    /** The component as first rendered: idle, with the greeting shown. */
    constructor (parseFloat: string -> Option<real>)
      ensures Valid() && State() == Initial && messages == [Assistant(Greeting)]
      ensures this.parseFloat == parseFloat
    {
      mode := None;
      collectedData := map[];
      currentFieldIndex := 0;
      isCollectingFields := false;
      isProcessing := false;
      predictionResult := None;
      messages := [Assistant(Greeting)];
      this.parseFloat := parseFloat;
    }

    method AddMessage(m: Message)
      modifies this`messages
      ensures messages == old(messages) + [m]
    {
      messages := messages + [m];
    }

    method StartFieldCollection(predictionMode: Mode)
      requires Valid() && !isProcessing && predictionResult.None?
      modifies this
      ensures Valid()
      ensures State() == ChatSession.StartFieldCollection(old(State()), predictionMode).next
      ensures messages == old(messages) + ChatSession.StartFieldCollection(old(State()), predictionMode).messages
    {
      mode := Some(predictionMode);
      collectedData := map[];
      currentFieldIndex := 0;
      isCollectingFields := true;
      var requiredFields := RequiredFields(predictionMode);
      var firstField := requiredFields[0];
      AddMessage(Assistant(StartCollection(predictionMode, firstField)));
    }

    method CollectField(value: string)
      requires Valid() && isCollectingFields
      modifies this
      ensures Valid()
      ensures State() == ChatSession.CollectField(old(State()), value, parseFloat).next
      ensures messages == old(messages) + ChatSession.CollectField(old(State()), value, parseFloat).messages
    {
      CollectPreservesInv(State(), value, parseFloat);
      if mode.None? {
        return;
      }
      var requiredFields := RequiredFields(mode.value);
      var currentField := requiredFields[currentFieldIndex];
      var processedValue := ProcessFieldValue(currentField, value, parseFloat);
      if !Acceptable(processedValue) {
        AddMessage(Assistant(InvalidValue(currentField)));
        return;
      }
      collectedData := collectedData[currentField.key := processedValue.value];
      if currentFieldIndex < |requiredFields| - 1 {
        var nextField := requiredFields[currentFieldIndex + 1];
        currentFieldIndex := currentFieldIndex + 1;
        AddMessage(Assistant(NextField(nextField)));
      } else {
        isCollectingFields := false;
        AddMessage(Assistant(RequiredComplete));
      }
    }

    /** `makePrediction` up to the request it sends. */
    method MakePrediction() returns (request: Request)
      requires Valid() && AwaitingProceed(State())
      modifies this
      ensures Valid()
      ensures State() == ChatSession.MakePrediction(old(State())).next
      ensures messages == old(messages) + ChatSession.MakePrediction(old(State())).messages
      ensures Some(request) == ChatSession.MakePrediction(old(State())).request
    {
      ghost var s0 := State();
      MakePredictionPreservesInv(s0);
      var payload := Impute(mode, collectedData);
      request := Request(EndpointFor(mode), payload);
      isProcessing := true;
      assert State() == s0.(processing := true);
      AddMessage(Assistant(Processing));
    }

    /** The rest of `makePrediction`, once the request has an outcome. */
    method CompletePrediction(outcome: Outcome)
      requires Valid() && isProcessing
      modifies this
      ensures Valid()
      ensures State() == ChatSession.CompletePrediction(old(State()), outcome).next
      ensures messages == old(messages) + ChatSession.CompletePrediction(old(State()), outcome).messages
    {
      ghost var s0 := State();
      CompletePreservesInv(s0, outcome);
      if outcome.Answer? && outcome.success {
        predictionResult := Some(outcome.response);
        if Renders(mode, outcome.response) {
          DisplayPredictionResult(outcome.response);
        } else {
          AddMessage(Assistant(ReportFailed));
        }
      } else {
        AddMessage(Assistant(ErrorShown(ErrorMessage(outcome))));
      }
      isProcessing := false;
      assert State() == s0.(processing := false, result := predictionResult);
    }

    method DisplayPredictionResult(data: Response)
      requires Renders(mode, data)
      modifies this`messages
      ensures messages == old(messages) + [Assistant(ResultShown(Report(mode, data)))]
    {
      var report := BuildReport(mode, data);
      AddMessage(Assistant(ResultShown(report)));
    }

    method HandleOptionalField(text: string) returns (request: Option<Request>)
      requires Valid() && AwaitingProceed(State())
      modifies this
      ensures Valid()
      ensures State() == ChatSession.HandleOptionalField(old(State()), text, parseFloat).next
      ensures messages == old(messages) + ChatSession.HandleOptionalField(old(State()), text, parseFloat).messages
      ensures request == ChatSession.HandleOptionalField(old(State()), text, parseFloat).request
    {
      OptionalPreservesInv(State(), text, parseFloat);
      var lowerText := ToLower(text);
      if Contains(lowerText, "proceed") || Contains(lowerText, "continue") || Contains(lowerText, "yes") || lowerText == "y" {
        var sent := MakePrediction();
        request := Some(sent);
        return;
      }
      request := None;
      var optionalFields := OptionalFields(mode.value);
      var parts := SplitTrimmed(text);
      if |parts| == 2 {
        var fieldKey := RemoveSpaces(ToLower(parts[0]));
        var field := FindField(optionalFields, fieldKey);
        if field.Some? {
          var processedValue := ProcessFieldValue(field.value, parts[1], parseFloat);
          if processedValue.Some? {
            collectedData := collectedData[field.value.key := processedValue.value];
            AddMessage(Assistant(OptionalAdded(field.value)));
            return;
          }
        }
      }
      AddMessage(Assistant(NotUnderstood));
    }

    method SendMessage(input: string) returns (request: Option<Request>)
      requires Valid()
      modifies this
      ensures Valid()
      ensures State() == ChatSession.SendMessage(old(State()), input, parseFloat).next
      ensures messages == old(messages) + ChatSession.SendMessage(old(State()), input, parseFloat).messages
      ensures request == ChatSession.SendMessage(old(State()), input, parseFloat).request
    {
      var userText := Trim(input);
      if userText == "" || isProcessing {
        return None;
      }
      AddMessage(User(userText));
      request := Respond(userText);
    }

    /** The reply `sendMessage` schedules, given the trimmed message. */
    method Respond(userText: string) returns (request: Option<Request>)
      requires Valid() && !isProcessing
      modifies this
      ensures Valid()
      ensures var e := ChatSession.Respond(old(State()), userText, parseFloat);
        State() == e.next && messages == old(messages) + e.messages && request == e.request
    {
      SendPreservesInv(State(), userText, parseFloat);
      request := None;
      if predictionResult.Some? {
        predictionResult := None;
        mode := None;
        collectedData := map[];
        currentFieldIndex := 0;
        isCollectingFields := false;
        AddMessage(Assistant(AnotherPrediction));
        return;
      }
      if isCollectingFields {
        CollectField(userText);
      } else if mode.Some? {
        request := HandleOptionalField(userText);
      } else {
        var intent := DetectIntent(userText);
        if intent.Some? {
          StartFieldCollection(intent.value);
        } else if AsksForHelp(userText) {
          AddMessage(Assistant(HelpText));
        } else {
          AddMessage(Assistant(Guidance));
        }
      }
    }
  }
}
