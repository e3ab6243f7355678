/**
 * Step 1 of the multiple-choice pipeline (`AIWorker.run_extraction`): the OCR text is sent to
 * the cheaper model with a fixed instruction and JSON output requested; the reply is decoded,
 * its shape validated, and exactly one of `extraction_complete` or `error_occurred` is emitted.
 */
module Extraction {
  import opened Wrappers
  import opened Json
  import opened Signals
  import opened Prompts

  const CheaperModelDefault := "gpt-3.5-turbo"

  /** How the extraction call ended: the reply was decoded by `json.loads`, or an exception escaped. */
  datatype Reply =
    | Replied(decoded: Decoded)
    | Raised(reason: string)   // the request failed, or the reply content could not be read

  const BadQuestionFound := "Invalid 'question_found' field"
  const BadQuestionOrChoices := "Missing or invalid 'question' or 'choices' when question_found is true"
  const BadChoiceItems := "Not all items in 'choices' are strings"

  /**
   * The shape an extraction must have: `question_found` is a boolean and, when it is true,
   * `question` is a string and `choices` a list whose items are all strings.
   */
  predicate WellFormed(data: map<string, Json>) {
    && Get(data, "question_found").JBool?
    && (Get(data, "question_found").b ==>
          && Get(data, "question").JStr?
          && Get(data, "choices").JArray?
          && AllStrings(Get(data, "choices").items))
  }

  /** The checks in the order the code makes them: the message of the first `ValueError`, if any. */
  function Validate(data: map<string, Json>): (r: Option<string>)
    ensures r.Some? ==> r.value in {BadQuestionFound, BadQuestionOrChoices, BadChoiceItems}
    ensures r == Some(BadQuestionOrChoices) || r == Some(BadChoiceItems) ==>
              Get(data, "question_found") == JBool(true)
    ensures r == Some(BadChoiceItems) ==> Get(data, "question").JStr? && Get(data, "choices").JArray?
  {
    if !Get(data, "question_found").JBool? then Some(BadQuestionFound)
    else if Get(data, "question_found").b then
      if !Get(data, "question").JStr? || !Get(data, "choices").JArray? then Some(BadQuestionOrChoices)
      else if !AllStrings(Get(data, "choices").items) then Some(BadChoiceItems)
      else None
    else None
  }

  /** The checks accept exactly the well-formed extractions, and a rejection names one of three faults. */
  lemma ValidateIsWellFormed(data: map<string, Json>)
    ensures Validate(data).None? <==> WellFormed(data)
    ensures Validate(data).Some? ==>
              Validate(data).value in {BadQuestionFound, BadQuestionOrChoices, BadChoiceItems}
  {
  }

  /** When `question_found` is false, `question` and `choices` are not inspected at all. */
  lemma NotFoundIgnoresDetails(data: map<string, Json>, question: Json, choices: Json)
    requires Get(data, "question_found") == JBool(false)
    ensures Validate(data["question" := question]["choices" := choices]) == None
    ensures WellFormed(data["question" := question]["choices" := choices])
  {
    var d := data["question" := question]["choices" := choices];
    assert Get(d, "question_found") == JBool(false);
  }

  /** The message emitted for a top-level value that is not an object (`.get` raises `AttributeError`). */
  function NoGetMessage(j: Json): string {
    "'" + TypeName(j) + "' object has no attribute 'get'"
  }

  const DecodeFailedMessage := "Error: Failed to parse extraction result."

  function StructureMessage(fault: string): string {
    "Error: Invalid extraction structure (" + fault + ")."
  }

  function Step1Message(reason: string): string {
    "Error during Step 1 (Extraction): " + reason
  }

  /** The one event `run_extraction` emits for a reply. */
  function ExtractionEvent(reply: Reply): (r: Event)
    ensures r.ExtractionComplete? || r.Error?
    ensures r.ExtractionComplete? ==> reply.Replied? && reply.decoded == Value(JObject(r.data))
    ensures reply.Raised? ==> r == Error(Step1Message(reply.reason))
  {
    match reply
    case Raised(reason) => Error(Step1Message(reason))
    case Replied(DecodeError) => Error(DecodeFailedMessage)
    case Replied(Value(JObject(data))) =>
      (match Validate(data)
       case None => ExtractionComplete(data)
       case Some(fault) => Error(StructureMessage(fault)))
    case Replied(Value(other)) => Error(Step1Message(NoGetMessage(other)))
  }

  /**
   * Exactly one outcome per reply: the extraction is passed on precisely when the reply decodes
   * to a well-formed object, and the error names the decoding failure, the structure fault, or
   * the Step 1 failure otherwise.
   */
  lemma ExtractionOutcome(reply: Reply)
    ensures ExtractionEvent(reply).ExtractionComplete? <==>
              reply.Replied? && reply.decoded.Value? && reply.decoded.value.JObject?
              && WellFormed(reply.decoded.value.fields)
    ensures ExtractionEvent(reply).ExtractionComplete? ==>
              ExtractionEvent(reply).data == reply.decoded.value.fields
    ensures !ExtractionEvent(reply).ExtractionComplete? ==> ExtractionEvent(reply).Error?
    ensures reply == Replied(DecodeError) ==> ExtractionEvent(reply) == Error(DecodeFailedMessage)
    ensures reply.Replied? && reply.decoded.Value? && reply.decoded.value.JObject?
            && !WellFormed(reply.decoded.value.fields) ==>
              exists fault :: fault in {BadQuestionFound, BadQuestionOrChoices, BadChoiceItems}
                              && ExtractionEvent(reply) == Error(StructureMessage(fault))
  {
    if reply.Replied? && reply.decoded.Value? && reply.decoded.value.JObject? {
      ValidateIsWellFormed(reply.decoded.value.fields);
    }
  }

  /** The request `run_extraction` sends: the instruction, then the OCR text, JSON output requested. */
  function ExtractionRequest(model: string, text: string): Request {
    Completion(model, [Message("system", ExtractionSystem), Message("user", Verbatim(text))],
               false, None, true)
  }

  /** `AIWorker.run_extraction`: one request through the default client, then one event. */
  method RunExtraction(client: Client, emitter: Emitter, model: string, text: string, reply: Reply)
    modifies client, emitter
    ensures client.requests == old(client.requests) + [ExtractionRequest(model, text)]
    ensures emitter.log == old(emitter.log) + [ExtractionEvent(reply)]
  {
    client.Create(ExtractionRequest(model, text));
    match reply {
      case Raised(reason) =>
        emitter.Emit(Error(Step1Message(reason)));
      case Replied(DecodeError) =>
        emitter.Emit(Error(DecodeFailedMessage));
      case Replied(Value(j)) =>
        if !j.JObject? {
          emitter.Emit(Error(Step1Message(NoGetMessage(j))));
        } else {
          var data := j.fields;
          var qf := Get(data, "question_found");
          if !qf.JBool? {
            emitter.Emit(Error(StructureMessage(BadQuestionFound)));
          } else if qf.b && (!Get(data, "question").JStr? || !Get(data, "choices").JArray?) {
            emitter.Emit(Error(StructureMessage(BadQuestionOrChoices)));
          } else if qf.b && !AllStrings(Get(data, "choices").items) {
            emitter.Emit(Error(StructureMessage(BadChoiceItems)));
          } else {
            emitter.Emit(ExtractionComplete(data));
          }
        }
    }
  }
}
