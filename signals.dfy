/**
 * The signals the worker emits to the overlay, and the other outward side effects of the
 * program: requests sent to a chat-completion client and records appended to a log file.
 * Each is an append-only log; delivery across threads is out of scope, emission order is kept.
 */
module Signals {
  import opened Wrappers
  import opened Json
  import opened Prompts

  /** One emitted signal (the emitter's `processing_started`, `response_chunk_received`, ...). */
  datatype Event =
    | ProcessingStarted
    | Chunk(text: string)
    | Finished
    | Error(message: string)
    | ExtractionComplete(data: map<string, Json>)
    | TextExtracted(text: string)

  /** The `SignalEmitter`: every `emit` appends one event. */
  class Emitter {
    var log: seq<Event>

    constructor ()
      ensures log == []
    {
      log := [];
    }

    method Emit(e: Event)
      modifies this
      ensures log == old(log) + [e]
    {
      log := log + [e];
    }
  }

  /** The texts of the `Chunk` events, in emission order. */
  function ChunkTexts(events: seq<Event>): seq<string>
    decreases |events|
  {
    if |events| == 0 then []
    else (if events[0].Chunk? then [events[0].text] else []) + ChunkTexts(events[1..])
  }

  /** How many `Finished` events there are. */
  function FinishedCount(events: seq<Event>): nat
    decreases |events|
  {
    if |events| == 0 then 0
    else (if events[0].Finished? then 1 else 0) + FinishedCount(events[1..])
  }

  lemma {:induction false} ChunkTextsAppend(xs: seq<Event>, ys: seq<Event>)
    ensures ChunkTexts(xs + ys) == ChunkTexts(xs) + ChunkTexts(ys)
    ensures FinishedCount(xs + ys) == FinishedCount(xs) + FinishedCount(ys)
    decreases |xs|
  {
    if |xs| > 0 {
      ChunkTextsAppend(xs[1..], ys);
      assert (xs + ys)[1..] == xs[1..] + ys;
    } else {
      assert xs + ys == ys;
    }
  }

  /** One `Chunk` event per text, in order. */
  function ChunkEvents(texts: seq<string>): (r: seq<Event>)
    ensures |r| == |texts|
    ensures forall k :: 0 <= k < |texts| ==> r[k] == Chunk(texts[k])
  {
    seq(|texts|, k requires 0 <= k < |texts| => Chunk(texts[k]))
  }

  /** Chunk events carry exactly their texts and no `Finished`. */
  lemma {:induction false} ChunkEventsTexts(texts: seq<string>)
    ensures ChunkTexts(ChunkEvents(texts)) == texts
    ensures FinishedCount(ChunkEvents(texts)) == 0
    decreases |texts|
  {
    if |texts| > 0 {
      ChunkEventsTexts(texts[1..]);
      assert ChunkEvents(texts)[1..] == ChunkEvents(texts[1..]);
      assert [texts[0]] + texts[1..] == texts;
    }
  }

  /** The chunk texts and `Finished` count of one event. */
  lemma OneEvent(e: Event)
    ensures ChunkTexts([e]) == (if e.Chunk? then [e.text] else [])
    ensures FinishedCount([e]) == (if e.Finished? then 1 else 0)
  {
    assert [e][1..] == [];
  }

  lemma ChunkEventsAppend(xs: seq<string>, ys: seq<string>)
    ensures ChunkEvents(xs + ys) == ChunkEvents(xs) + ChunkEvents(ys)
  {
  }

  // ---------------------------------------------------------------- chat-completion client

  /** One chat message; `Rendered(content)` is the text sent. */
  datatype Message = Message(role: string, content: Prompt)

  /** The arguments of one `client.chat.completions.create` call. */
  datatype Request =
    | Completion(model: string, messages: seq<Message>, stream: bool, maxTokens: Option<int>,
                 jsonObject: bool)

  /** An `OpenAI` client; the requests sent through it are recorded in order. */
  class Client {
    const apiKey: string
    const baseUrl: Option<string>
    var requests: seq<Request>

    constructor (apiKey: string, baseUrl: Option<string>)
      ensures this.apiKey == apiKey && this.baseUrl == baseUrl && requests == []
    {
      this.apiKey := apiKey;
      this.baseUrl := baseUrl;
      requests := [];
    }

    /** Sends one request; what comes back is an input of the caller. */
    method Create(r: Request)
      modifies this
      ensures requests == old(requests) + [r]
    {
      requests := requests + [r];
    }
  }

  // ---------------------------------------------------------------- log files

  /** One record appended to a log file (timestamps are not modelled). */
  datatype LogRecord =
    | OcrText(engine: string, text: string)
    | Answered(question: string, choices: seq<string>, prompt: Prompt, response: string)
    | Solved(input: string, model: string, response: string)

  /** Whether opening and writing the log file succeeds, or the exception text when it does not. */
  datatype LogWrite = Written | WriteFailed(reason: string)

  /** A log file opened in append mode. */
  class LogFile {
    var records: seq<LogRecord>

    constructor ()
      ensures records == []
    {
      records := [];
    }

    method Append(r: LogRecord)
      modifies this
      ensures records == old(records) + [r]
    {
      records := records + [r];
    }
  }
}
