/**
 * Step 2 of the multiple-choice pipeline: `AIWorker.run_answering` and its twin
 * `AIProcessor.process_question`. Both skip the model when no question, or no question text or
 * choices, came out of Step 1; otherwise they send a prompt built from the question and the
 * ordered choices to the smarter model, forward every non-empty stream delta as a chunk, emit
 * `response_finished`, and append the full answer to the log file. A failure anywhere in the
 * `try` (the request, the stream, or the log write) adds one error chunk and one more
 * `response_finished`.
 */
module Answering {
  import opened Wrappers
  import opened Text
  import opened Json
  import opened Signals
  import opened Extraction
  import opened Prompts

  const NoQuestionMessage := "Didn't find any questions."
  const NoDetailsMessage := "Found question but couldn't extract details."
  const SmarterModelDefault := "gpt-4"
  const AnswerMaxTokens := 200

  /** The error prefix of `run_answering` in the overlay script. */
  const Step2Prefix := "Error during Step 2 (Answering): "
  /** The error prefix of `AIProcessor.process_question`. */
  const AnsweringPrefix := "Error during answering: "

  /** How a stream ended: after its last delta, or with an exception (its text) after some deltas. */
  datatype StreamEnd = Completed | Broken(reason: string)

  /** The streamed reply: the `delta.content` of each chunk in order, `None` where there was none. */
  datatype Stream = Stream(deltas: seq<Option<string>>, end: StreamEnd)

  /** The deltas that carry text, in order; `None` deltas are skipped. */
  function Delivered(deltas: seq<Option<string>>): (r: seq<string>)
    ensures |r| <= |deltas|
    decreases |deltas|
  {
    if |deltas| == 0 then []
    else
      Delivered(deltas[..|deltas| - 1])
        + (match deltas[|deltas| - 1] case Some(c) => [c] case None => [])
  }

  lemma {:induction false} DeliveredAppend(xs: seq<Option<string>>, ys: seq<Option<string>>)
    ensures Delivered(xs + ys) == Delivered(xs) + Delivered(ys)
    decreases |ys|
  {
    if |ys| == 0 {
      assert xs + ys == xs;
    } else {
      var zs := xs + ys;
      assert zs[..|zs| - 1] == xs + ys[..|ys| - 1];
      DeliveredAppend(xs, ys[..|ys| - 1]);
    }
  }

  /** A `None` delta contributes nothing, and a text delta contributes exactly its text, in place. */
  lemma DeliveredSkipsNone(xs: seq<Option<string>>, d: Option<string>, ys: seq<Option<string>>)
    ensures Delivered(xs + [d] + ys) ==
              Delivered(xs) + (match d case Some(c) => [c] case None => []) + Delivered(ys)
  {
    DeliveredAppend(xs + [d], ys);
    DeliveredAppend(xs, [d]);
    assert [d][..0] == [];
  }

  function AnswerRequest(model: string, question: string, choices: seq<string>): Request {
    Completion(model,
               [Message("system", AnswerContext(question, choices)),
                Message("system", AnswerInstruction),
                Message("user", AnswerUser(question, choices))],
               true, Some(AnswerMaxTokens), false)
  }

  // ---------------------------------------------------------------- the guards

  /** What the guards decide: skip with a message, or ask the model about a question and its choices. */
  datatype Route = NoQuestion | NoDetails | Ask(question: string, choices: seq<string>)

  /**
   * What the prompt needs of a dictionary that passes both guards: a string question and a list
   * of string choices. A dictionary that a guard stops may hold anything.
   */
  predicate Answerable(data: map<string, Json>) {
    Truthy(Get(data, "question_found")) && Truthy(Get(data, "question")) && Truthy(Get(data, "choices"))
    ==> Get(data, "question").JStr? && Get(data, "choices").JArray? && AllStrings(Get(data, "choices").items)
  }

  /**
   * The guards: a falsy `question_found` skips with one message, a falsy (missing, empty) question
   * or choices list with another; otherwise the strings are taken as they are.
   */
  function RouteOf(data: map<string, Json>): (r: Route)
    requires Answerable(data)
    ensures r.NoQuestion? <==> !Truthy(Get(data, "question_found"))
    ensures r.NoDetails? <==>
              Truthy(Get(data, "question_found")) && (!Truthy(Get(data, "question")) || !Truthy(Get(data, "choices")))
    ensures r.Ask? ==> Get(data, "question") == JStr(r.question) && r.question != ""
    ensures r.Ask? ==> Get(data, "choices") == JArray(seq(|r.choices|, k requires 0 <= k < |r.choices| => JStr(r.choices[k])))
    ensures r.Ask? ==> |r.choices| >= 1
  {
    if !Truthy(Get(data, "question_found")) then NoQuestion
    else if !Truthy(Get(data, "question")) || !Truthy(Get(data, "choices")) then NoDetails
    else Ask(Get(data, "question").s, Strings(Get(data, "choices").items))
  }

  // ---------------------------------------------------------------- the events

  /** The events of a run that reached the model. */
  function StreamEvents(stream: Stream, log: LogWrite, prefix: string): (r: seq<Event>)
    ensures |r| >= 1 && r[|r| - 1] == Finished
    ensures forall k :: 0 <= k < |r| ==> r[k].Chunk? || r[k].Finished?
  {
    ChunkEvents(Delivered(stream.deltas))
      + match stream.end
        case Broken(reason) => [Chunk(prefix + reason), Finished]
        case Completed =>
          [Finished] + (match log case Written => [] case WriteFailed(reason) => [Chunk(prefix + reason), Finished])
  }

  /** All events of one call, given the extraction, the stream and the log write. */
  function AnswerEvents(data: map<string, Json>, stream: Stream, log: LogWrite, prefix: string): (r: seq<Event>)
    requires Answerable(data)
    ensures |r| >= 1 && r[|r| - 1] == Finished
    ensures forall k :: 0 <= k < |r| ==> r[k].Chunk? || r[k].Finished?
  {
    match RouteOf(data)
    case NoQuestion => [Chunk(NoQuestionMessage), Finished]
    case NoDetails => [Chunk(NoDetailsMessage), Finished]
    case Ask(_, _) => StreamEvents(stream, log, prefix)
  }

  /** The requests of one call: none when a guard skips, otherwise the one answering request. */
  function AnswerRequests(data: map<string, Json>, model: string): seq<Request>
    requires Answerable(data)
  {
    match RouteOf(data)
    case Ask(q, cs) => [AnswerRequest(model, q, cs)]
    case _ => []
  }

  /** What a completed stream writes to the log, when the write succeeds. */
  function StreamRecords(question: string, choices: seq<string>, stream: Stream, log: LogWrite): seq<LogRecord> {
    if stream.end.Completed? && log.Written? then
      [Answered(question, choices, AnswerUser(question, choices), Concat(Delivered(stream.deltas)))]
    else []
  }

  function AnswerRecords(data: map<string, Json>, stream: Stream, log: LogWrite): seq<LogRecord>
    requires Answerable(data)
  {
    match RouteOf(data)
    case Ask(q, cs) => StreamRecords(q, cs, stream, log)
    case _ => []
  }

  /**
   * For every dictionary: a falsy `question_found` yields exactly the "no question" chunk and
   * `Finished`; a found question without text or choices yields exactly the "no details" chunk and
   * `Finished`. Neither sends a request or writes a log record, and neither depends on what the
   * other keys hold. A request is sent exactly when both guards pass.
   */
  lemma ShortCircuits(data: map<string, Json>, stream: Stream, log: LogWrite, model: string, prefix: string)
    ensures !Truthy(Get(data, "question_found")) ==>
              && Answerable(data)
              && AnswerEvents(data, stream, log, prefix) == [Chunk(NoQuestionMessage), Finished]
              && AnswerRequests(data, model) == []
              && AnswerRecords(data, stream, log) == []
    ensures Truthy(Get(data, "question_found"))
            && (!Truthy(Get(data, "question")) || !Truthy(Get(data, "choices"))) ==>
              && Answerable(data)
              && AnswerEvents(data, stream, log, prefix) == [Chunk(NoDetailsMessage), Finished]
              && AnswerRequests(data, model) == []
              && AnswerRecords(data, stream, log) == []
    ensures Answerable(data) ==> (RouteOf(data).Ask? <==> |AnswerRequests(data, model)| == 1)
  {
  }

  /**
   * On a clean stream whose log write succeeds, the chunks are the text deltas in order, their
   * concatenation is exactly the logged answer, and `Finished` comes once, last.
   */
  lemma CleanStream(question: string, choices: seq<string>, stream: Stream, prefix: string)
    requires stream.end == Completed
    ensures var events := StreamEvents(stream, Written, prefix);
            && ChunkTexts(events) == Delivered(stream.deltas)
            && StreamRecords(question, choices, stream, Written)
               == [Answered(question, choices, AnswerUser(question, choices), Concat(ChunkTexts(events)))]
            && FinishedCount(events) == 1
            && events[|events| - 1] == Finished
  {
    var chunks := ChunkEvents(Delivered(stream.deltas));
    ChunkEventsTexts(Delivered(stream.deltas));
    ChunkTextsAppend(chunks, [Finished]);
    OneEvent(Finished);
    assert StreamEvents(stream, Written, prefix) == chunks + [Finished];
  }

  /**
   * When the stream breaks, the chunks already emitted stay; exactly one error chunk with the
   * exception text follows, then one `Finished`, and nothing is logged.
   */
  lemma BrokenStream(question: string, choices: seq<string>, stream: Stream, log: LogWrite, prefix: string)
    requires stream.end.Broken?
    ensures var events := StreamEvents(stream, log, prefix);
            && events == ChunkEvents(Delivered(stream.deltas)) + [Chunk(prefix + stream.end.reason), Finished]
            && ChunkTexts(events) == Delivered(stream.deltas) + [prefix + stream.end.reason]
            && FinishedCount(events) == 1
            && StreamRecords(question, choices, stream, log) == []
  {
    var chunks := ChunkEvents(Delivered(stream.deltas));
    ChunkEventsTexts(Delivered(stream.deltas));
    var e := Chunk(prefix + stream.end.reason);
    ChunkTextsAppend(chunks, [e, Finished]);
    ChunkTextsAppend([e], [Finished]);
    OneEvent(e);
    OneEvent(Finished);
    assert [e] + [Finished] == [e, Finished];
  }

  /**
   * A log write that fails after a clean stream is caught by the same handler: one error chunk
   * and a second `Finished` follow the first, and nothing is logged.
   */
  lemma LogFailureAfterStream(question: string, choices: seq<string>, stream: Stream, reason: string, prefix: string)
    requires stream.end == Completed
    ensures var events := StreamEvents(stream, WriteFailed(reason), prefix);
            && ChunkTexts(events) == Delivered(stream.deltas) + [prefix + reason]
            && FinishedCount(events) == 2
            && StreamRecords(question, choices, stream, WriteFailed(reason)) == []
  {
    var chunks := ChunkEvents(Delivered(stream.deltas));
    ChunkEventsTexts(Delivered(stream.deltas));
    var tail := [Finished] + [Chunk(prefix + reason), Finished];
    var e := Chunk(prefix + reason);
    assert StreamEvents(stream, WriteFailed(reason), prefix) == chunks + tail;
    ChunkTextsAppend(chunks, tail);
    ChunkTextsAppend([Finished], [e, Finished]);
    ChunkTextsAppend([e], [Finished]);
    OneEvent(e);
    OneEvent(Finished);
    assert [e] + [Finished] == [e, Finished];
  }

  // ---------------------------------------------------------------- the methods

  /** Unfolds `Delivered` by one delta. */
  lemma DeliveredStep(deltas: seq<Option<string>>, i: nat)
    requires i < |deltas|
    ensures Delivered(deltas[..i + 1])
            == Delivered(deltas[..i]) + (match deltas[i] case Some(c) => [c] case None => [])
  {
    assert deltas[..i + 1][..i] == deltas[..i];
  }

  /** The stream loop: every text delta is added to the full response and emitted as a chunk. */
  method ForwardChunks(emitter: Emitter, deltas: seq<Option<string>>) returns (fullResponse: string)
    modifies emitter
    ensures fullResponse == Concat(Delivered(deltas))
    ensures emitter.log == old(emitter.log) + ChunkEvents(Delivered(deltas))
  {
    fullResponse := "";
    var i := 0;
    while i < |deltas|
      invariant 0 <= i <= |deltas|
      invariant fullResponse == Concat(Delivered(deltas[..i]))
      invariant emitter.log == old(emitter.log) + ChunkEvents(Delivered(deltas[..i]))
    {
      var delivered := Delivered(deltas[..i]);
      DeliveredStep(deltas, i);
      match deltas[i] {
        case Some(chunk) =>
          assert Delivered(deltas[..i + 1]) == delivered + [chunk];
          ConcatAppend(delivered, [chunk]);
          assert Concat([chunk]) == chunk by { assert [chunk][1..] == []; }
          ChunkEventsAppend(delivered, [chunk]);
          fullResponse := fullResponse + chunk;
          emitter.Emit(Chunk(chunk));
        case None =>
          assert Delivered(deltas[..i + 1]) == delivered;
      }
      i := i + 1;
    }
    assert deltas[..i] == deltas;
  }

  /** The part after the guards: one request, then the stream loop, `Finished`, and the log record. */
  method StreamAnswer(client: Client, emitter: Emitter, logFile: LogFile, model: string,
                      question: string, choices: seq<string>, stream: Stream, log: LogWrite,
                      prefix: string)
    modifies client, emitter, logFile
    ensures client.requests == old(client.requests) + [AnswerRequest(model, question, choices)]
    ensures emitter.log == old(emitter.log) + StreamEvents(stream, log, prefix)
    ensures logFile.records == old(logFile.records) + StreamRecords(question, choices, stream, log)
  {
    client.Create(AnswerRequest(model, question, choices));
    var fullResponse := ForwardChunks(emitter, stream.deltas);
    match stream.end {
      case Broken(reason) =>
        emitter.Emit(Chunk(prefix + reason));
        emitter.Emit(Finished);
      case Completed =>
        emitter.Emit(Finished);
        match log {
          case Written =>
            logFile.Append(Answered(question, choices, AnswerUser(question, choices), fullResponse));
          case WriteFailed(reason) =>
            emitter.Emit(Chunk(prefix + reason));
            emitter.Emit(Finished);
        }
    }
  }

  /** The guards shared by both entry points, then `StreamAnswer`. */
  method Answer(client: Client, emitter: Emitter, logFile: LogFile, model: string,
                data: map<string, Json>, stream: Stream, log: LogWrite, prefix: string)
    requires Answerable(data)
    modifies client, emitter, logFile
    ensures client.requests == old(client.requests) + AnswerRequests(data, model)
    ensures emitter.log == old(emitter.log) + AnswerEvents(data, stream, log, prefix)
    ensures logFile.records == old(logFile.records) + AnswerRecords(data, stream, log)
  {
    if !Truthy(Get(data, "question_found")) {
      emitter.Emit(Chunk(NoQuestionMessage));
      emitter.Emit(Finished);
      return;
    }
    if !Truthy(Get(data, "question")) || !Truthy(Get(data, "choices")) {
      emitter.Emit(Chunk(NoDetailsMessage));
      emitter.Emit(Finished);
      return;
    }
    var question := Get(data, "question").s;
    var choices := Strings(Get(data, "choices").items);
    StreamAnswer(client, emitter, logFile, model, question, choices, stream, log, prefix);
  }

  /** `AIWorker.run_answering`: the smarter client, the shared emitter and `openai_logs.txt`. */
  method RunAnswering(smarterClient: Client, emitter: Emitter, logFile: LogFile, smarterModel: string,
                      data: map<string, Json>, stream: Stream, log: LogWrite)
    requires Answerable(data)
    modifies smarterClient, emitter, logFile
    ensures smarterClient.requests == old(smarterClient.requests) + AnswerRequests(data, smarterModel)
    ensures emitter.log == old(emitter.log) + AnswerEvents(data, stream, log, Step2Prefix)
    ensures logFile.records == old(logFile.records) + AnswerRecords(data, stream, log)
  {
    Answer(smarterClient, emitter, logFile, smarterModel, data, stream, log, Step2Prefix);
  }

  // ---------------------------------------------------------------- clients

  /** A separate client for the smarter model is made iff its API base is set, non-empty and differs. */
  predicate UsesSeparateClient(smarterApiBase: Option<string>, baseUrl: Option<string>) {
    smarterApiBase.Some? && smarterApiBase.value != "" && smarterApiBase != baseUrl
  }

  /** The module-level clients of the overlay script: the default one, and the smarter model's. */
  method ConnectClients(apiKey: string, baseUrl: Option<string>, smarterApiBase: Option<string>)
    returns (client: Client, smarterClient: Client)
    ensures fresh(client) && client.apiKey == apiKey && client.baseUrl == baseUrl && client.requests == []
    ensures UsesSeparateClient(smarterApiBase, baseUrl) ==>
              fresh(smarterClient) && smarterClient != client && smarterClient.apiKey == apiKey
              && smarterClient.baseUrl == smarterApiBase && smarterClient.requests == []
    ensures !UsesSeparateClient(smarterApiBase, baseUrl) ==> smarterClient == client
  {
    client := new Client(apiKey, baseUrl);
    if smarterApiBase.Some? && smarterApiBase.value != "" && smarterApiBase != baseUrl {
      smarterClient := new Client(apiKey, smarterApiBase);
    } else {
      smarterClient := client;
    }
  }

  /** `AIProcessor`: the clients, the model name and its own emitter. */
  class AIProcessor {
    const apiKey: string
    const baseUrl: Option<string>
    const smarterModel: string
    const client: Client
    const smarterClient: Client
    const emitter: Emitter

    constructor (apiKey: string, baseUrl: Option<string>, smarterApiBase: Option<string> := None,
                 smarterModel: string := SmarterModelDefault)
      ensures this.apiKey == apiKey && this.baseUrl == baseUrl && this.smarterModel == smarterModel
      ensures fresh(client) && client.apiKey == apiKey && client.baseUrl == baseUrl && client.requests == []
      ensures UsesSeparateClient(smarterApiBase, baseUrl) ==>
                fresh(smarterClient) && smarterClient != client && smarterClient.apiKey == apiKey
                && smarterClient.baseUrl == smarterApiBase && smarterClient.requests == []
      ensures !UsesSeparateClient(smarterApiBase, baseUrl) ==> smarterClient == client
      ensures fresh(emitter) && emitter.log == []
    {
      this.apiKey := apiKey;
      this.baseUrl := baseUrl;
      this.smarterModel := smarterModel;
      var c := new Client(apiKey, baseUrl);
      client := c;
      if smarterApiBase.Some? && smarterApiBase.value != "" && smarterApiBase != baseUrl {
        smarterClient := new Client(apiKey, smarterApiBase);
      } else {
        smarterClient := c;
      }
      emitter := new Emitter();
    }

    /** `process_question`: the same guards and stream loop, with this processor's error prefix. */
    method ProcessQuestion(data: map<string, Json>, stream: Stream, log: LogWrite, logFile: LogFile)
      requires Answerable(data)
      modifies smarterClient, emitter, logFile
      ensures smarterClient.requests == old(smarterClient.requests) + AnswerRequests(data, smarterModel)
      ensures emitter.log == old(emitter.log) + AnswerEvents(data, stream, log, AnsweringPrefix)
      ensures logFile.records == old(logFile.records) + AnswerRecords(data, stream, log)
    {
      Answer(smarterClient, emitter, logFile, smarterModel, data, stream, log, AnsweringPrefix);
    }
  }
}
