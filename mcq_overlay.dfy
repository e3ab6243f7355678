/**
 * The MCQ overlay's state (`clueme.py`): the label text and the flags `is_processing` and
 * `is_first_chunk`, changed by the hotkey callbacks and by the slots the emitter's signals are
 * connected to. Signals are delivered in emission order, one at a time. The trigger, the delivery
 * of signals and their first lemmas match `CodingOverlay`'s, because the program writes these
 * callbacks once in each script, over each script's own display state.
 */
module McqOverlay {
  import opened Wrappers
  import opened Text
  import opened Json
  import opened Signals
  import opened Extraction
  import opened Answering
  import opened Ocr
  import opened Capture

  const CaptureHotkeyDefault := "Ctrl+Alt+R"
  const QuitHotkeyDefault := "Ctrl+Alt+Q"
  const ResetHotkeyDefault := "Win+Alt+R"

  const ThinkingLabel := "Thinking..."

  function InitialLabel(captureHotkey: string, quitHotkey: string): string {
    "Press " + captureHotkey + " to capture screen and get AI response\nPress " + quitHotkey + " to quit"
  }

  function ErrorLabel(message: string): string {
    "Error:\n" + message
  }

  /** The label's text, `is_processing` and `is_first_chunk`. */
  datatype Ui = Ui(shown: string, processing: bool, firstChunk: bool)

  function Initial(captureHotkey: string, quitHotkey: string): Ui {
    Ui(InitialLabel(captureHotkey, quitHotkey), false, true)
  }

  /** `update_label_chunk`: the first chunk after "Thinking..." replaces the label, later ones extend it. */
  function OnChunk(u: Ui, chunk: string): (r: Ui)
    ensures !r.firstChunk && r.processing == u.processing
    ensures u.firstChunk ==> r.shown == chunk
    ensures !u.firstChunk ==> u.shown <= r.shown && r.shown[|u.shown|..] == chunk
  {
    Ui((if u.firstChunk then "" else u.shown) + chunk, u.processing, false)
  }

  /** `handle_response_finished`. */
  function OnFinished(u: Ui): (r: Ui)
    ensures !r.processing && r.shown == u.shown && r.firstChunk == u.firstChunk
  {
    u.(processing := false)
  }

  /** `handle_error`. */
  function OnError(u: Ui, message: string): (r: Ui)
    ensures !r.processing && r.firstChunk == u.firstChunk
    ensures "Error:\n" <= r.shown && r.shown[|"Error:\n"|..] == message
  {
    u.(shown := ErrorLabel(message), processing := false)
  }

  /** `show_thinking`. */
  function OnThinking(u: Ui): (r: Ui)
    ensures r.shown == ThinkingLabel && r.firstChunk && r.processing == u.processing
  {
    u.(shown := ThinkingLabel, firstChunk := true)
  }

  /** `reset_program`: nothing while processing, otherwise back to the initial label and flags. */
  function OnReset(u: Ui, captureHotkey: string, quitHotkey: string): (r: Ui)
    ensures u.processing ==> r == u
    ensures !u.processing ==> !r.processing && r.firstChunk && r.shown == InitialLabel(captureHotkey, quitHotkey)
  {
    if u.processing then u else Initial(captureHotkey, quitHotkey)
  }

  /** The slot each signal is connected to; `extraction_complete` goes to the worker, not the overlay. */
  function Deliver(u: Ui, e: Event): (r: Ui)
    ensures r.processing ==> u.processing
    ensures e.Finished? || e.Error? ==> !r.processing
    ensures e.ExtractionComplete? || e.TextExtracted? ==> r == u
  {
    match e
    case ProcessingStarted => OnThinking(u)
    case Chunk(text) => OnChunk(u, text)
    case Finished => OnFinished(u)
    case Error(message) => OnError(u, message)
    case ExtractionComplete(_) => u
    case TextExtracted(_) => u
  }

  function DeliverAll(u: Ui, events: seq<Event>): Ui
    decreases |events|
  {
    if |events| == 0 then u else Deliver(DeliverAll(u, events[..|events| - 1]), events[|events| - 1])
  }

  /**
   * `process_screen_callback`, given what `capture_screen` emitted and returned: ignored while
   * processing; otherwise the flag is set, "Thinking..." is shown, a capture error is shown, and
   * the text goes to the worker when it is non-empty, else the flag is cleared again.
   */
  function Trigger(u: Ui, captureError: Option<string>, text: Option<string>): (r: (Ui, Option<string>))
    ensures r.1.Some? ==> r.1 == text && text.value != ""
  {
    if u.processing then (u, None)
    else
      var started := OnThinking(u.(processing := true));
      var shown := match captureError case Some(m) => OnError(started, m) case None => started;
      if text.Some? && text.value != "" then (shown, text) else (shown.(processing := false), None)
  }

  // ---------------------------------------------------------------- properties

  /** A trigger while processing changes nothing and starts nothing. */
  lemma BusyTriggerIgnored(u: Ui, captureError: Option<string>, text: Option<string>)
    requires u.processing
    ensures Trigger(u, captureError, text) == (u, None)
  {
  }

  /**
   * From idle, a capture with text leaves the flag set and "Thinking..." shown until the answer
   * arrives; a capture without text clears the flag again, showing the capture error if any.
   */
  lemma TriggerFromIdle(u: Ui, captureError: Option<string>, text: Option<string>)
    requires !u.processing
    ensures captureError.None? && text.Some? && text.value != "" ==>
              Trigger(u, captureError, text) == (Ui(ThinkingLabel, true, true), text)
    ensures text.None? || text == Some("") ==>
              && !Trigger(u, captureError, text).0.processing
              && Trigger(u, captureError, text).1.None?
              && Trigger(u, captureError, text).0.shown
                 == (if captureError.Some? then ErrorLabel(captureError.value) else ThinkingLabel)
  {
  }

  /** Reset does nothing while processing; otherwise it restores the initial label and flags. */
  lemma ResetGuarded(u: Ui, captureHotkey: string, quitHotkey: string)
    ensures u.processing ==> OnReset(u, captureHotkey, quitHotkey) == u
    ensures !u.processing ==> OnReset(u, captureHotkey, quitHotkey) == Ui(InitialLabel(captureHotkey, quitHotkey), false, true)
  {
  }

  lemma {:induction false} DeliverAllAppend(u: Ui, xs: seq<Event>, ys: seq<Event>)
    ensures DeliverAll(u, xs + ys) == DeliverAll(DeliverAll(u, xs), ys)
    decreases |ys|
  {
    if |ys| == 0 {
      assert xs + ys == xs;
    } else {
      var zs := xs + ys;
      assert zs[..|zs| - 1] == xs + ys[..|ys| - 1];
      DeliverAllAppend(u, xs, ys[..|ys| - 1]);
    }
  }

  /** Events that neither restart nor fail a run: chunks, `Finished`, and the worker's own signals. */
  predicate Quiet(events: seq<Event>) {
    forall k :: 0 <= k < |events| ==> !events[k].ProcessingStarted? && !events[k].Error?
  }

  /** One quiet event: a chunk replaces or extends the label, anything else leaves it. */
  lemma QuietStep(v: Ui, e: Event)
    requires !e.ProcessingStarted? && !e.Error?
    ensures Deliver(v, e).shown == (if e.Chunk? then (if v.firstChunk then "" else v.shown) + e.text else v.shown)
    ensures Deliver(v, e).firstChunk == (v.firstChunk && !e.Chunk?)
  {
  }

  /**
   * After `show_thinking`, the label is "Thinking..." until a chunk arrives and from then on the
   * concatenation of every chunk since, in order: the first chunk clears the label.
   */
  lemma {:induction false} LabelIsAnswerSoFar(u: Ui, events: seq<Event>)
    requires Quiet(events)
    ensures var r := DeliverAll(OnThinking(u), events);
            && r.shown == (if ChunkTexts(events) == [] then ThinkingLabel else Concat(ChunkTexts(events)))
            && r.firstChunk == (ChunkTexts(events) == [])
    decreases |events|
  {
    if |events| > 0 {
      var init := events[..|events| - 1];
      var last := events[|events| - 1];
      assert Quiet(init) by {
        forall k | 0 <= k < |init| ensures !init[k].ProcessingStarted? && !init[k].Error? {
          assert init[k] == events[k];
        }
      }
      LabelIsAnswerSoFar(u, init);
      var prev := DeliverAll(OnThinking(u), init);
      assert DeliverAll(OnThinking(u), events) == Deliver(prev, last);
      assert ChunkTexts(events) == ChunkTexts(init) + ChunkTexts([last]) by {
        assert events == init + [last];
        ChunkTextsAppend(init, [last]);
      }
      OneEvent(last);
      QuietStep(prev, last);
      if last.Chunk? {
        assert Concat(ChunkTexts(init) + [last.text]) == Concat(ChunkTexts(init)) + last.text by {
          ConcatAppend(ChunkTexts(init), [last.text]);
          assert Concat([last.text]) == last.text by { assert [last.text][1..] == []; }
        }
        if ChunkTexts(init) == [] {
          assert ChunkTexts(events) == [last.text];
          assert "" + last.text == last.text;
        }
      } else {
        assert ChunkTexts(events) == ChunkTexts(init);
      }
    }
  }

  /** A run that ends with `Finished` or an error leaves the flag cleared. */
  lemma EndReleases(u: Ui, events: seq<Event>)
    requires |events| >= 1 && (events[|events| - 1].Finished? || events[|events| - 1].Error?)
    ensures !DeliverAll(u, events).processing
  {
  }

  /** What the worker emits for one capture: Step 1's signal, then Step 2's events when it succeeded. */
  function PipelineEvents(reply: Reply, stream: Stream, log: LogWrite): (es: seq<Event>)
    ensures |es| >= 1 && es[0] == ExtractionEvent(reply)
  {
    var first := ExtractionEvent(reply);
    match first
    case ExtractionComplete(data) =>
      ExtractionOutcome(reply);
      [first] + AnswerEvents(data, stream, log, Step2Prefix)
    case _ => [first]
  }

  lemma AnswerEventsEnd(data: map<string, Json>, stream: Stream, log: LogWrite, prefix: string)
    requires Answerable(data)
    ensures var es := AnswerEvents(data, stream, log, prefix);
            |es| >= 1 && es[|es| - 1] == Finished
  {
  }

  /**
   * Single flight: whatever Step 1 and Step 2 do, once the worker's events are delivered the flag
   * is cleared, so the next trigger is accepted.
   */
  lemma PipelineReleases(u: Ui, reply: Reply, stream: Stream, log: LogWrite)
    ensures !DeliverAll(u, PipelineEvents(reply, stream, log)).processing
  {
    var es := PipelineEvents(reply, stream, log);
    ExtractionOutcome(reply);
    if ExtractionEvent(reply).ExtractionComplete? {
      AnswerEventsEnd(ExtractionEvent(reply).data, stream, log, Step2Prefix);
      assert es[|es| - 1] == Finished;
    } else {
      assert es == [ExtractionEvent(reply)];
    }
    EndReleases(u, es);
  }

  /** The answering stream reports every failure as a chunk, never as an error signal. */
  lemma StreamQuiet(stream: Stream, log: LogWrite, prefix: string)
    ensures Quiet(StreamEvents(stream, log, prefix))
  {
  }

  /** A quiet run prefixed by Step 1's signal shows the same chunks. */
  lemma AfterExtraction(data: map<string, Json>, events: seq<Event>)
    requires Quiet(events)
    ensures Quiet([ExtractionComplete(data)] + events)
    ensures ChunkTexts([ExtractionComplete(data)] + events) == ChunkTexts(events)
  {
    ChunkTextsAppend([ExtractionComplete(data)], events);
    OneEvent(ExtractionComplete(data));
    var es := [ExtractionComplete(data)] + events;
    forall k | 0 <= k < |es| ensures !es[k].ProcessingStarted? && !es[k].Error? {
      if k > 0 { assert es[k] == events[k - 1]; }
    }
  }

  /**
   * End to end: a trigger whose capture yields text, then an extraction that finds a question and a
   * clean stream, leaves the label equal to the concatenated answer and the flag cleared.
   */
  lemma CleanRunShowsAnswer(u: Ui, text: string, reply: Reply, stream: Stream)
    requires !u.processing && text != ""
    requires ExtractionEvent(reply).ExtractionComplete?
    requires RouteOf(ExtractionEvent(reply).data).Ask?
    requires stream.end == Completed && Delivered(stream.deltas) != []
    ensures var started := Trigger(u, None, Some(text)).0;
            var r := DeliverAll(started, PipelineEvents(reply, stream, Written));
            r.shown == Concat(Delivered(stream.deltas)) && !r.processing
  {
    var data := ExtractionEvent(reply).data;
    ExtractionOutcome(reply);
    var route := RouteOf(data);
    var events := StreamEvents(stream, Written, Step2Prefix);
    var es := [ExtractionComplete(data)] + events;
    assert PipelineEvents(reply, stream, Written) == es;
    CleanStream(route.question, route.choices, stream, Step2Prefix);
    StreamQuiet(stream, Written, Step2Prefix);
    AfterExtraction(data, events);
    var started := Trigger(u, None, Some(text)).0;
    assert started == OnThinking(started);
    LabelIsAnswerSoFar(started, es);
    assert es[|es| - 1] == Finished;
    EndReleases(started, es);
  }

  /** After "Thinking...", Step 1's signal and a broken stream leave the partial answer and the error. */
  lemma BrokenStreamLabel(started: Ui, data: map<string, Json>, stream: Stream, log: LogWrite)
    requires started == OnThinking(started)
    requires stream.end.Broken?
    ensures var r := DeliverAll(started, [ExtractionComplete(data)] + StreamEvents(stream, log, Step2Prefix));
            r.shown == Concat(Delivered(stream.deltas)) + Step2Prefix + stream.end.reason && !r.processing
  {
    var events := StreamEvents(stream, log, Step2Prefix);
    var es := [ExtractionComplete(data)] + events;
    var error := Step2Prefix + stream.end.reason;
    BrokenStream("", [], stream, log, Step2Prefix);
    StreamQuiet(stream, log, Step2Prefix);
    AfterExtraction(data, events);
    LabelIsAnswerSoFar(started, es);
    ConcatSnoc(Delivered(stream.deltas), error);
    assert es[|es| - 1] == Finished;
    EndReleases(started, es);
  }

  /**
   * A stream that breaks after some chunks leaves the partial answer on the label with the error
   * text appended to it, and the flag cleared.
   */
  lemma BrokenRunAppendsError(u: Ui, text: string, reply: Reply, stream: Stream, log: LogWrite)
    requires !u.processing && text != ""
    requires ExtractionEvent(reply).ExtractionComplete?
    requires RouteOf(ExtractionEvent(reply).data).Ask?
    requires stream.end.Broken?
    ensures var started := Trigger(u, None, Some(text)).0;
            var r := DeliverAll(started, PipelineEvents(reply, stream, log));
            r.shown == Concat(Delivered(stream.deltas)) + Step2Prefix + stream.end.reason && !r.processing
  {
    var data := ExtractionEvent(reply).data;
    ExtractionOutcome(reply);
    assert PipelineEvents(reply, stream, log) == [ExtractionComplete(data)] + StreamEvents(stream, log, Step2Prefix);
    var started := Trigger(u, None, Some(text)).0;
    assert started == OnThinking(started);
    BrokenStreamLabel(started, data, stream, log);
  }

  // ---------------------------------------------------------------- the overlay

  class Overlay {
    var labelText: string
    var isProcessing: bool
    var isFirstChunk: bool
    const captureHotkey: string
    const quitHotkey: string

    function State(): Ui
      reads this
    {
      Ui(labelText, isProcessing, isFirstChunk)
    }

    constructor (captureHotkey: string, quitHotkey: string)
      ensures State() == Initial(captureHotkey, quitHotkey)
      ensures this.captureHotkey == captureHotkey && this.quitHotkey == quitHotkey
    {
      labelText := InitialLabel(captureHotkey, quitHotkey);
      isProcessing := false;
      isFirstChunk := true;
      this.captureHotkey := captureHotkey;
      this.quitHotkey := quitHotkey;
    }

    method UpdateLabelChunk(chunk: string)
      modifies this
      ensures State() == OnChunk(old(State()), chunk)
    {
      if isFirstChunk {
        labelText := "";
        isFirstChunk := false;
      }
      labelText := labelText + chunk;
    }

    method HandleResponseFinished()
      modifies this
      ensures State() == OnFinished(old(State()))
    {
      isProcessing := false;
    }

    method HandleError(message: string)
      modifies this
      ensures State() == OnError(old(State()), message)
    {
      labelText := ErrorLabel(message);
      isProcessing := false;
    }

    method ShowThinking()
      modifies this
      ensures State() == OnThinking(old(State()))
    {
      isFirstChunk := true;
      labelText := ThinkingLabel;
    }

    method ResetProgram()
      modifies this
      ensures State() == OnReset(old(State()), captureHotkey, quitHotkey)
    {
      if isProcessing {
        return;
      }
      isFirstChunk := true;
      isProcessing := false;
      labelText := InitialLabel(captureHotkey, quitHotkey);
    }

    /** One signal reaching its slot. */
    method Receive(e: Event)
      modifies this
      ensures State() == Deliver(old(State()), e)
    {
      match e {
        case ProcessingStarted => ShowThinking();
        case Chunk(text) => UpdateLabelChunk(text);
        case Finished => HandleResponseFinished();
        case Error(message) => HandleError(message);
        case ExtractionComplete(_) =>
        case TextExtracted(_) =>
      }
    }

    /**
     * `process_screen_callback`: the capture runs on the OCR module, its signals reach the overlay,
     * and the text to hand to the worker is returned.
     */
    method ProcessScreenCallback(ocrModule: OcrModule, emitter: Emitter, logFile: LogFile, grab: Grab,
                                 first: OcrCall, fallback: OcrCall, log: LogWrite)
      returns (handoff: Option<string>)
      requires ocrModule.Valid()
      modifies this, ocrModule, emitter, logFile
      ensures var c := CaptureMcq(old(ocrModule.engine), ocrModule.libraries, old(ocrModule.EasyState()),
                                  grab, first, fallback, log);
              if old(isProcessing) then
                && State() == old(State()) && handoff.None?
                && emitter.log == old(emitter.log) && logFile.records == old(logFile.records)
                && ocrModule.EasyState() == old(ocrModule.EasyState())
              else
                && (State(), handoff) == Trigger(old(State()), c.error, c.text)
                && emitter.log == old(emitter.log) + [ProcessingStarted] + ErrorEvents(c.error)
                && logFile.records == old(logFile.records) + c.records
                && ocrModule.EasyState() == c.easy
      ensures ocrModule.engine == old(ocrModule.engine) && ocrModule.Valid()
    {
      if isProcessing {
        return None;
      }
      isProcessing := true;
      emitter.Emit(ProcessingStarted);
      ShowThinking();
      var before := |emitter.log|;
      var text := CaptureScreen(ocrModule, emitter, logFile, grab, first, fallback, log);
      if |emitter.log| > before {
        Receive(emitter.log[|emitter.log| - 1]);
      }
      if text.Some? && text.value != "" {
        handoff := text;
      } else {
        isProcessing := false;
        handoff := None;
      }
    }
  }
}
