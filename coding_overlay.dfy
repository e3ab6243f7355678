/**
 * The coding overlay's state (`clueme_coding.py`): what the text display shows, the flags
 * `is_processing` and `is_first_chunk`, and `accumulated_response`, the markdown source of the
 * answer so far. Signals are delivered in emission order, one at a time. The trigger, the delivery
 * of signals and their first lemmas match `McqOverlay`'s, because the program writes these
 * callbacks once in each script, over each script's own display state.
 */
module CodingOverlay {
  import opened Wrappers
  import opened Text
  import opened Signals
  import opened Answering
  import opened CodingAnswering
  import opened OneOcr
  import opened Capture

  const CaptureHotkeyDefault := "Alt+Enter"
  const QuitHotkeyDefault := "Ctrl+Alt+Q"
  const ResetHotkeyDefault := "Ctrl+Alt+R"

  /** What the display shows; the HTML styling and the markdown rendering are not modelled. */
  datatype Display = InitialMessage | ThinkingNotice | ErrorNotice(message: string) | Markdown(source: string)

  datatype Ui = Ui(display: Display, processing: bool, firstChunk: bool, accumulated: string)

  const Initial := Ui(InitialMessage, false, true, "")

  /** `update_display_chunk`: the first chunk after "Thinking..." restarts the accumulated answer. */
  function OnChunk(u: Ui, chunk: string): (r: Ui)
    ensures r.display == Markdown(r.accumulated) && !r.firstChunk && r.processing == u.processing
    ensures u.firstChunk ==> r.accumulated == chunk
    ensures !u.firstChunk ==> u.accumulated <= r.accumulated && r.accumulated[|u.accumulated|..] == chunk
  {
    var acc := (if u.firstChunk then "" else u.accumulated) + chunk;
    Ui(Markdown(acc), u.processing, false, acc)
  }

  /** `handle_response_finished`. */
  function OnFinished(u: Ui): (r: Ui)
    ensures !r.processing && r.display == u.display && r.firstChunk == u.firstChunk
    ensures r.accumulated == u.accumulated
  {
    u.(processing := false)
  }

  /** `handle_error`. */
  function OnError(u: Ui, message: string): (r: Ui)
    ensures !r.processing && r.display == ErrorNotice(message)
    ensures r.firstChunk == u.firstChunk && r.accumulated == u.accumulated
  {
    u.(display := ErrorNotice(message), processing := false)
  }

  /** `show_thinking`: the accumulated answer is left as it is until the next chunk. */
  function OnThinking(u: Ui): (r: Ui)
    ensures r.display == ThinkingNotice && r.firstChunk && r.processing == u.processing
    ensures r.accumulated == u.accumulated
  {
    u.(display := ThinkingNotice, firstChunk := true)
  }

  /** `reset_program`: nothing while processing, otherwise back to the initial message and flags. */
  function OnReset(u: Ui): (r: Ui)
    ensures u.processing ==> r == u
    ensures !u.processing ==> r == Ui(InitialMessage, false, true, "")
  {
    if u.processing then u else Initial
  }

  /** The slot each signal is connected to; `text_extracted` goes to the worker, not the display. */
  function Deliver(u: Ui, e: Event): (r: Ui)
    ensures r.processing ==> u.processing
    ensures e.Finished? || e.Error? ==> !r.processing
    ensures e.ExtractionComplete? || e.TextExtracted? ==> r == u
  {
    match e
    case ProcessingStarted => OnThinking(u)
    case Chunk(text) => OnChunk(u, text)
    case Finished => OnFinished(u)
    case Error(message) => OnError(u, message)
    case ExtractionComplete(_) => u
    case TextExtracted(_) => u
  }

  function DeliverAll(u: Ui, events: seq<Event>): Ui
    decreases |events|
  {
    if |events| == 0 then u else Deliver(DeliverAll(u, events[..|events| - 1]), events[|events| - 1])
  }

  /**
   * `process_screen_callback`, given what the capture emitted and returned: ignored while
   * processing; otherwise the flag is set, "Thinking..." is shown, a capture error is shown, and
   * non-empty text is passed on with `text_extracted`, else the flag is cleared again.
   */
  function Trigger(u: Ui, captureError: Option<string>, text: Option<string>): (r: (Ui, Option<string>))
    ensures r.1.Some? ==> r.1 == text && text.value != ""
  {
    if u.processing then (u, None)
    else
      var started := OnThinking(u.(processing := true));
      var shown := match captureError case Some(m) => OnError(started, m) case None => started;
      if text.Some? && text.value != "" then (shown, text) else (shown.(processing := false), None)
  }

  /** What `process_screen_callback` emits once it runs. */
  function TriggerEvents(captureError: Option<string>, text: Option<string>): seq<Event> {
    [ProcessingStarted] + ErrorEvents(captureError)
      + (if text.Some? && text.value != "" then [TextExtracted(text.value)] else [])
  }

  // ---------------------------------------------------------------- properties

  /** A trigger while processing changes nothing and starts nothing. */
  lemma BusyTriggerIgnored(u: Ui, captureError: Option<string>, text: Option<string>)
    requires u.processing
    ensures Trigger(u, captureError, text) == (u, None)
  {
  }

  /**
   * From idle, a OneOCR capture either hands on its text with "Thinking..." shown and the flag set,
   * or shows its error and clears the flag: a failed capture is never silent.
   */
  lemma TriggerAfterCapture(u: Ui, s: InitState, displayDir: string, grab: Grab, fs: Files,
                            creation: Creation, recognition: Recognition, log: LogWrite)
    requires !u.processing
    ensures var c := CaptureCoding(s, displayDir, grab, fs, creation, recognition, log).1;
            var (v, handoff) := Trigger(u, c.error, c.text);
            && (c.text.Some? ==> handoff == c.text && v == u.(display := ThinkingNotice, processing := true, firstChunk := true))
            && (c.text.None? ==> handoff.None? && v.display == ErrorNotice(c.error.value) && !v.processing)
  {
    CodingCaptureOutcome(s, displayDir, grab, fs, creation, recognition, log);
  }

  /** Reset does nothing while processing; otherwise it restores the initial message and clears the answer. */
  lemma ResetGuarded(u: Ui)
    ensures u.processing ==> OnReset(u) == u
    ensures !u.processing ==> OnReset(u) == Ui(InitialMessage, false, true, "")
  {
  }

  predicate Quiet(events: seq<Event>) {
    forall k :: 0 <= k < |events| ==> !events[k].ProcessingStarted? && !events[k].Error?
  }

  lemma QuietStep(v: Ui, e: Event)
    requires !e.ProcessingStarted? && !e.Error?
    ensures Deliver(v, e).accumulated
            == (if e.Chunk? then (if v.firstChunk then "" else v.accumulated) + e.text else v.accumulated)
    ensures Deliver(v, e).display == (if e.Chunk? then Markdown(Deliver(v, e).accumulated) else v.display)
    ensures Deliver(v, e).firstChunk == (v.firstChunk && !e.Chunk?)
  {
  }

  /**
   * After `show_thinking`, the display shows "Thinking..." until a chunk arrives; from then on the
   * accumulated answer is the concatenation of every chunk since, in order, and is what is shown.
   */
  lemma {:induction false} AnswerSoFar(u: Ui, events: seq<Event>)
    requires Quiet(events)
    ensures var r := DeliverAll(OnThinking(u), events);
            && (ChunkTexts(events) == [] ==> r.display == ThinkingNotice && r.accumulated == u.accumulated && r.firstChunk)
            && (ChunkTexts(events) != [] ==>
                  r.accumulated == Concat(ChunkTexts(events)) && r.display == Markdown(r.accumulated) && !r.firstChunk)
    decreases |events|
  {
    if |events| > 0 {
      var init := events[..|events| - 1];
      var last := events[|events| - 1];
      assert Quiet(init) by {
        forall k | 0 <= k < |init| ensures !init[k].ProcessingStarted? && !init[k].Error? {
          assert init[k] == events[k];
        }
      }
      AnswerSoFar(u, init);
      var prev := DeliverAll(OnThinking(u), init);
      assert DeliverAll(OnThinking(u), events) == Deliver(prev, last);
      assert ChunkTexts(events) == ChunkTexts(init) + ChunkTexts([last]) by {
        assert events == init + [last];
        ChunkTextsAppend(init, [last]);
      }
      OneEvent(last);
      QuietStep(prev, last);
      if last.Chunk? {
        assert Concat(ChunkTexts(init) + [last.text]) == Concat(ChunkTexts(init)) + last.text by {
          ConcatAppend(ChunkTexts(init), [last.text]);
          assert Concat([last.text]) == last.text by { assert [last.text][1..] == []; }
        }
        if ChunkTexts(init) == [] {
          assert ChunkTexts(events) == [last.text];
          assert "" + last.text == last.text;
        }
      } else {
        assert ChunkTexts(events) == ChunkTexts(init);
      }
    }
  }

  /** A run that ends with `Finished` or an error leaves the flag cleared. */
  lemma EndReleases(u: Ui, events: seq<Event>)
    requires |events| >= 1 && (events[|events| - 1].Finished? || events[|events| - 1].Error?)
    ensures !DeliverAll(u, events).processing
  {
  }

  lemma {:induction false} DeliverAllAppend(u: Ui, xs: seq<Event>, ys: seq<Event>)
    ensures DeliverAll(u, xs + ys) == DeliverAll(DeliverAll(u, xs), ys)
    decreases |ys|
  {
    if |ys| == 0 {
      assert xs + ys == xs;
    } else {
      var zs := xs + ys;
      assert zs[..|zs| - 1] == xs + ys[..|ys| - 1];
      DeliverAllAppend(u, xs, ys[..|ys| - 1]);
    }
  }

  lemma DeliverTwo(u: Ui, a: Event, b: Event)
    ensures DeliverAll(u, [a, b]) == Deliver(Deliver(u, a), b)
  {
    assert [a, b][..1] == [a];
    assert [a][..0] == [];
    assert DeliverAll(u, [a]) == Deliver(DeliverAll(u, []), a);
  }

  /** The worker's events for one hand-off: the `text_extracted` signal, then the solving call's events. */
  function WorkerEvents(text: string, stream: Stream): (es: seq<Event>)
    ensures |es| >= 2 && es[0] == TextExtracted(text) && es[|es| - 1] == Finished
  {
    [TextExtracted(text)] + CodingEvents(text, stream)
  }

  /** Single flight: whatever the solving call does, once its events are delivered the flag is cleared. */
  lemma WorkerReleases(u: Ui, text: string, stream: Stream)
    ensures !DeliverAll(u, WorkerEvents(text, stream)).processing
  {
    EndReleases(u, WorkerEvents(text, stream));
  }

  lemma CleanRunQuiet(text: string, stream: Stream)
    requires !Blank(text) && stream.end == Completed
    ensures Quiet(WorkerEvents(text, stream))
    ensures ChunkTexts(WorkerEvents(text, stream)) == Delivered(stream.deltas)
  {
    var chunks := ChunkEvents(Delivered(stream.deltas));
    var es := WorkerEvents(text, stream);
    assert es == [TextExtracted(text)] + (chunks + [Finished]);
    forall k | 0 <= k < |es| ensures !es[k].ProcessingStarted? && !es[k].Error? {
      if 0 < k < |es| - 1 { assert es[k] == chunks[k - 1]; }
    }
    CodingCleanStream("", text, stream);
    ChunkTextsAppend([TextExtracted(text)], CodingEvents(text, stream));
    OneEvent(TextExtracted(text));
  }

  /**
   * End to end: a capture whose text is not blank and a clean stream leave the display showing the
   * concatenated answer, which is also the accumulated response, with the flag cleared.
   */
  lemma CleanRunShowsAnswer(u: Ui, text: string, stream: Stream)
    requires !u.processing && !Blank(text)
    requires stream.end == Completed && Delivered(stream.deltas) != []
    ensures var started := Trigger(u, None, Some(text)).0;
            var r := DeliverAll(started, WorkerEvents(text, stream));
            && r.accumulated == Concat(Delivered(stream.deltas))
            && r.display == Markdown(r.accumulated) && !r.processing
  {
    assert text != "";
    var started := Trigger(u, None, Some(text)).0;
    assert started == OnThinking(started);
    CleanRunQuiet(text, stream);
    AnswerSoFar(started, WorkerEvents(text, stream));
    WorkerReleases(started, text, stream);
  }

  /** A stream that breaks leaves its error on the display, not the partial answer. */
  lemma BrokenRunShowsError(u: Ui, text: string, stream: Stream)
    requires !Blank(text) && stream.end.Broken?
    ensures var r := DeliverAll(u, WorkerEvents(text, stream));
            r.display == ErrorNotice(ProcessingPrefix + stream.end.reason) && !r.processing
  {
    var es := WorkerEvents(text, stream);
    var head := es[..|es| - 2];
    assert es == head + [Error(ProcessingPrefix + stream.end.reason), Finished];
    DeliverAllAppend(u, head, [Error(ProcessingPrefix + stream.end.reason), Finished]);
    var v := DeliverAll(u, head);
    DeliverTwo(v, Error(ProcessingPrefix + stream.end.reason), Finished);
  }

  // ---------------------------------------------------------------- the overlay

  class Overlay {
    var display: Display
    var isProcessing: bool
    var isFirstChunk: bool
    var accumulatedResponse: string

    function State(): Ui
      reads this
    {
      Ui(display, isProcessing, isFirstChunk, accumulatedResponse)
    }

    constructor ()
      ensures State() == Initial
    {
      display := InitialMessage;
      isProcessing := false;
      isFirstChunk := true;
      accumulatedResponse := "";
    }

    method UpdateDisplayChunk(chunk: string)
      modifies this
      ensures State() == OnChunk(old(State()), chunk)
    {
      if isFirstChunk {
        accumulatedResponse := "";
        isFirstChunk := false;
      }
      accumulatedResponse := accumulatedResponse + chunk;
      display := Markdown(accumulatedResponse);
    }

    method HandleResponseFinished()
      modifies this
      ensures State() == OnFinished(old(State()))
    {
      isProcessing := false;
    }

    method HandleError(message: string)
      modifies this
      ensures State() == OnError(old(State()), message)
    {
      display := ErrorNotice(message);
      isProcessing := false;
    }

    method ShowThinking()
      modifies this
      ensures State() == OnThinking(old(State()))
    {
      isFirstChunk := true;
      display := ThinkingNotice;
    }

    method ResetProgram()
      modifies this
      ensures State() == OnReset(old(State()))
    {
      if isProcessing {
        return;
      }
      isFirstChunk := true;
      isProcessing := false;
      accumulatedResponse := "";
      display := InitialMessage;
    }

    /** One signal reaching its slot. */
    method Receive(e: Event)
      modifies this
      ensures State() == Deliver(old(State()), e)
    {
      match e {
        case ProcessingStarted => ShowThinking();
        case Chunk(text) => UpdateDisplayChunk(text);
        case Finished => HandleResponseFinished();
        case Error(message) => HandleError(message);
        case ExtractionComplete(_) =>
        case TextExtracted(_) =>
      }
    }

    /** The capture inside `process_screen_callback`, with its error signal delivered to the display. */
    method ShowCapture(oneOcr: OneOcrModule, emitter: Emitter, logFile: LogFile, grab: Grab,
                       fs: Files, creation: Creation, recognition: Recognition, log: LogWrite)
      returns (text: Option<string>)
      requires oneOcr.Valid()
      modifies this, oneOcr, emitter, logFile
      ensures oneOcr.Valid()
      ensures var (s', c) := CaptureCoding(old(oneOcr.State()), oneOcr.displayDir, grab, fs, creation,
                                           recognition, log);
              && text == c.text && oneOcr.State() == s'
              && emitter.log == old(emitter.log) + ErrorEvents(c.error)
              && logFile.records == old(logFile.records) + c.records
              && State() == (match c.error case Some(m) => OnError(old(State()), m) case None => old(State()))
    {
      ghost var c := CaptureCoding(oneOcr.State(), oneOcr.displayDir, grab, fs, creation, recognition, log).1;
      var before := |emitter.log|;
      text := CaptureScreenCoding(oneOcr, emitter, logFile, grab, fs, creation, recognition, log);
      assert emitter.log[before..] == ErrorEvents(c.error);
      if |emitter.log| > before {
        Receive(emitter.log[|emitter.log| - 1]);
      }
    }

    /**
     * `process_screen_callback`: the OneOCR capture runs, its signals reach the display, and the
     * text is emitted with `text_extracted` for the worker.
     */
    method ProcessScreenCallback(oneOcr: OneOcrModule, emitter: Emitter, logFile: LogFile, grab: Grab,
                                 fs: Files, creation: Creation, recognition: Recognition, log: LogWrite)
      requires oneOcr.Valid()
      modifies this, oneOcr, emitter, logFile
      ensures oneOcr.Valid()
      ensures var (s', c) := CaptureCoding(old(oneOcr.State()), oneOcr.displayDir, grab, fs, creation,
                                           recognition, log);
              if old(isProcessing) then
                && State() == old(State()) && emitter.log == old(emitter.log)
                && logFile.records == old(logFile.records) && oneOcr.State() == old(oneOcr.State())
              else
                && State() == Trigger(old(State()), c.error, c.text).0
                && emitter.log == old(emitter.log) + TriggerEvents(c.error, c.text)
                && logFile.records == old(logFile.records) + c.records
                && oneOcr.State() == s'
    {
      if isProcessing {
        return;
      }
      ghost var u := State();
      ghost var c := CaptureCoding(oneOcr.State(), oneOcr.displayDir, grab, fs, creation, recognition, log).1;
      ghost var events := emitter.log + [ProcessingStarted] + ErrorEvents(c.error);
      isProcessing := true;
      emitter.Emit(ProcessingStarted);
      ShowThinking();
      ghost var started := State();
      assert started == OnThinking(u.(processing := true));
      var text := ShowCapture(oneOcr, emitter, logFile, grab, fs, creation, recognition, log);
      assert emitter.log == events;
      ghost var shown := State();
      assert shown == (match c.error case Some(m) => OnError(started, m) case None => started);
      if text.Some? && text.value != "" {
        emitter.Emit(TextExtracted(text.value));
        assert emitter.log == events + [TextExtracted(text.value)];
        assert Trigger(u, c.error, c.text) == (shown, text);
      } else {
        isProcessing := false;
        assert events == old(emitter.log) + TriggerEvents(c.error, c.text);
        assert Trigger(u, c.error, c.text).0 == shown.(processing := false);
      }
    }
  }
}
