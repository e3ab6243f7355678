/**
 * `CodingAIProcessor.process_coding_question`: blank OCR text is answered with a fixed chunk;
 * otherwise the text is sent with the coding instructions, every text delta is forwarded as a
 * chunk, `response_finished` follows, and the answer is appended to the coding log. A failure of
 * the request or the stream is reported on the error signal (not as a chunk); a failure of the
 * log write is caught separately and changes nothing the overlay sees.
 */
module CodingAnswering {
  import opened Wrappers
  import opened Text
  import opened Signals
  import opened Prompts
  import opened Answering

  const NoTextMessage := "No text was extracted from the screen."
  const ProcessingPrefix := "Error during processing: "
  const CodingModelDefault := "gpt-4"
  const CodingMaxTokens := 1000

  /** `not text or not text.strip()`: empty, or only whitespace. */
  predicate Blank(text: string) {
    text == "" || Strip(text) == ""
  }

  function CodingRequest(model: string, text: string): Request {
    Completion(model, [Message("system", CodingSystem), Message("user", CodingUser(text))],
               true, Some(CodingMaxTokens), false)
  }

  /** The requests of one call: none for blank text, otherwise the coding request. */
  function CodingRequests(model: string, text: string): seq<Request> {
    if Blank(text) then [] else [CodingRequest(model, text)]
  }

  /** The events of one call; the outcome of the log write plays no part in them. */
  function CodingEvents(text: string, stream: Stream): (r: seq<Event>)
    ensures |r| >= 1 && r[|r| - 1] == Finished
    ensures forall k :: 0 <= k < |r| - 1 ==> r[k] != Finished
  {
    if Blank(text) then [Chunk(NoTextMessage), Finished]
    else
      ChunkEvents(Delivered(stream.deltas))
        + match stream.end
          case Completed => [Finished]
          case Broken(reason) => [Error(ProcessingPrefix + reason), Finished]
  }

  /** The record appended to the coding log: only after a clean stream and a successful write. */
  function CodingRecords(model: string, text: string, stream: Stream, log: LogWrite): (r: seq<LogRecord>)
    ensures |r| <= 1
    ensures r != [] ==> !Blank(text) && stream.end.Completed? && log.Written?
    ensures r != [] ==> r[0].Solved? && r[0].input == text && r[0].model == model
  {
    if !Blank(text) && stream.end.Completed? && log.Written? then
      [Solved(text, model, Concat(Delivered(stream.deltas)))]
    else []
  }

  /**
   * Text that is empty or only whitespace yields exactly the "no text" chunk and `Finished`,
   * with no request and no log record; any other text is sent.
   */
  lemma BlankInputSkips(model: string, text: string, stream: Stream, log: LogWrite)
    ensures Blank(text) <==> AllSpace(text)
    ensures AllSpace(text) ==> CodingEvents(text, stream) == [Chunk(NoTextMessage), Finished]
                               && CodingRecords(model, text, stream, log) == []
    ensures AllSpace(text) <==> CodingRequests(model, text) == []
  {
    StripEmpty(text);
  }

  /**
   * On a clean stream the chunks are the text deltas in order, `Finished` comes once and last,
   * and a successful log write records exactly the concatenated chunks.
   */
  lemma CodingCleanStream(model: string, text: string, stream: Stream)
    requires !Blank(text) && stream.end == Completed
    ensures var events := CodingEvents(text, stream);
            && ChunkTexts(events) == Delivered(stream.deltas)
            && FinishedCount(events) == 1
            && events[|events| - 1] == Finished
            && CodingRecords(model, text, stream, Written) == [Solved(text, model, Concat(ChunkTexts(events)))]
  {
    var chunks := ChunkEvents(Delivered(stream.deltas));
    ChunkEventsTexts(Delivered(stream.deltas));
    ChunkTextsAppend(chunks, [Finished]);
    OneEvent(Finished);
  }

  /**
   * When the request or the stream fails, the chunks already forwarded stay, one error event
   * with the exception text follows (it is not a chunk), then one `Finished`; nothing is logged.
   */
  lemma CodingBrokenStream(model: string, text: string, stream: Stream, log: LogWrite)
    requires !Blank(text) && stream.end.Broken?
    ensures var events := CodingEvents(text, stream);
            && events[..|events| - 2] == ChunkEvents(Delivered(stream.deltas))
            && events[|events| - 2] == Error(ProcessingPrefix + stream.end.reason)
            && ChunkTexts(events) == Delivered(stream.deltas)
            && FinishedCount(events) == 1
            && CodingRecords(model, text, stream, log) == []
  {
    var chunks := ChunkEvents(Delivered(stream.deltas));
    var e := Error(ProcessingPrefix + stream.end.reason);
    var events := CodingEvents(text, stream);
    assert events == chunks + [e, Finished];
    assert events[..|events| - 2] == chunks;
    ChunkEventsTexts(Delivered(stream.deltas));
    ChunkTextsAppend(chunks, [e, Finished]);
    ChunkTextsAppend([e], [Finished]);
    OneEvent(e);
    OneEvent(Finished);
    assert [e] + [Finished] == [e, Finished];
  }

  /** A failed log write leaves the events as they are and records nothing. */
  lemma LogFailureIsSilent(model: string, text: string, stream: Stream, reason: string)
    requires !Blank(text) && stream.end == Completed
    ensures CodingRecords(model, text, stream, WriteFailed(reason)) == []
    ensures FinishedCount(CodingEvents(text, stream)) == 1
  {
    CodingCleanStream(model, text, stream);
  }

  /** `CodingAIProcessor`: one client, the model name and its own emitter. */
  class CodingAIProcessor {
    const apiKey: string
    const baseUrl: Option<string>
    const model: string
    const client: Client
    const emitter: Emitter

    constructor (apiKey: string, baseUrl: Option<string>, model: string := CodingModelDefault)
      ensures this.apiKey == apiKey && this.baseUrl == baseUrl && this.model == model
      ensures fresh(client) && client.apiKey == apiKey && client.baseUrl == baseUrl && client.requests == []
      ensures fresh(emitter) && emitter.log == []
    {
      this.apiKey := apiKey;
      this.baseUrl := baseUrl;
      this.model := model;
      client := new Client(apiKey, baseUrl);
      emitter := new Emitter();
    }

    method ProcessCodingQuestion(text: string, stream: Stream, log: LogWrite, logFile: LogFile)
      modifies client, emitter, logFile
      ensures client.requests == old(client.requests) + CodingRequests(model, text)
      ensures emitter.log == old(emitter.log) + CodingEvents(text, stream)
      ensures logFile.records == old(logFile.records) + CodingRecords(model, text, stream, log)
    {
      if text == "" || Strip(text) == "" {
        emitter.Emit(Chunk(NoTextMessage));
        emitter.Emit(Finished);
        return;
      }
      client.Create(CodingRequest(model, text));
      var fullResponse := ForwardChunks(emitter, stream.deltas);
      match stream.end {
        case Broken(reason) =>
          emitter.Emit(Error(ProcessingPrefix + reason));
          emitter.Emit(Finished);
        case Completed =>
          emitter.Emit(Finished);
          if log.Written? {
            logFile.Append(Solved(text, model, fullResponse));
          }
      }
    }
  }
}
