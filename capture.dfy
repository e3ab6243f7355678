/**
 * `capture_screen` of both overlays. The MCQ overlay runs the OCR module and, when that yields
 * nothing and the engine is not Pytesseract, tries Pytesseract once with the engine name switched
 * and then restored. The coding overlay runs OneOCR. Either one reports a failure on the error
 * signal and returns nothing; on success the text is appended to the log file and returned. A
 * failing screen grab or log write is caught by the same handler as "Error capturing screen".
 */
module Capture {
  import opened Wrappers
  import opened Text
  import opened Signals
  import opened Ocr
  import opened OneOcr

  /** `ImageGrab.grab()`: a screenshot, or the exception text. */
  datatype Grab = Grabbed | GrabFailed(reason: string)

  /** What the libraries would do in one `perform_ocr` call of the OCR module. */
  datatype OcrCall = OcrCall(attempt: Attempt, readtext: Option<seq<string>>, tesseract: Option<string>)

  /** The outcome of one MCQ capture: the new EasyOCR state, the text, the error emitted, the log records. */
  datatype Captured = Captured(easy: Easy, text: Option<string>, error: Option<string>, records: seq<LogRecord>)

  /** The outcome of one coding capture: the text, the error emitted, the log records. */
  datatype OneOcrCaptured = OneOcrCaptured(text: Option<string>, error: Option<string>, records: seq<LogRecord>)

  function CaptureErrorMessage(reason: string): string {
    "Error capturing screen: " + reason
  }

  function OcrFailedMessage(engine: string): string {
    "OCR process failed (Engine: " + Upper(engine) + "). Check logs."
  }

  const OneOcrFailedMessage := "OCR process failed. Check logs."

  /** The events a capture emits: its one error, if any. */
  function ErrorEvents(error: Option<string>): seq<Event> {
    match error
    case None => []
    case Some(m) => [Error(m)]
  }

  /** The text from the primary engine, then the one Pytesseract retry when that yields nothing. */
  function RecognizeWithFallback(engine: string, libs: Libraries, e: Easy, first: OcrCall, fallback: OcrCall)
    : (r: (Easy, Option<string>))
    ensures var (e1, t1) := Perform(engine, libs, e, first.attempt, first.readtext, first.tesseract);
            && r.0 == e1
            && (r.1.Some? ==> r.1 == t1 || r.1 == OcrPytesseract(libs, fallback.tesseract))
  {
    var (e1, t1) := Perform(engine, libs, e, first.attempt, first.readtext, first.tesseract);
    if t1.None? && Lower(engine) != "pytesseract" then
      Perform("pytesseract", libs, e1, fallback.attempt, fallback.readtext, fallback.tesseract)
    else (e1, t1)
  }

  /** `capture_screen` of the MCQ overlay. */
  function CaptureMcq(engine: string, libs: Libraries, e: Easy, grab: Grab, first: OcrCall, fallback: OcrCall,
                      log: LogWrite): (c: Captured)
    ensures c.text.Some? <==> c.error.None?
    ensures c.text.Some? ==> c.records == [OcrText(Upper(engine), c.text.value)]
    ensures c.text.None? ==> c.records == []
  {
    match grab
    case GrabFailed(reason) => Captured(e, None, Some(CaptureErrorMessage(reason)), [])
    case Grabbed =>
      var (e', text) := RecognizeWithFallback(engine, libs, e, first, fallback);
      match text
      case None => Captured(e', None, Some(OcrFailedMessage(engine)), [])
      case Some(t) =>
        match log
        case Written => Captured(e', Some(t), None, [OcrText(Upper(engine), t)])
        case WriteFailed(reason) => Captured(e', None, Some(CaptureErrorMessage(reason)), [])
  }

  /**
   * The retry happens exactly when the first attempt yields nothing and the engine is not
   * Pytesseract, and it goes to the Pytesseract path; otherwise the retry's inputs play no part.
   */
  lemma FallbackOnlyOnFailure(engine: string, libs: Libraries, e: Easy, first: OcrCall,
                              fallback: OcrCall, fallback': OcrCall)
    ensures var (e1, t1) := Perform(engine, libs, e, first.attempt, first.readtext, first.tesseract);
            && (t1.Some? || Lower(engine) == "pytesseract" ==>
                  RecognizeWithFallback(engine, libs, e, first, fallback)
                  == RecognizeWithFallback(engine, libs, e, first, fallback'))
            && (t1.None? && Lower(engine) != "pytesseract" ==>
                  RecognizeWithFallback(engine, libs, e, first, fallback)
                  == (e1, OcrPytesseract(libs, fallback.tesseract)))
  {
  }

  /** A Pytesseract engine name, in any letter case, is never retried. */
  lemma NoRetryForPytesseract(engine: string, libs: Libraries, e: Easy, first: OcrCall, fallback: OcrCall)
    requires Lower(engine) == "pytesseract"
    ensures RecognizeWithFallback(engine, libs, e, first, fallback)
            == Perform(engine, libs, e, first.attempt, first.readtext, first.tesseract)
  {
  }

  /**
   * A capture either returns text with no error and logs it under the upper-cased engine name, or
   * returns nothing with exactly one error: the grab's, the OCR failure naming the engine, or the
   * log write's.
   */
  lemma McqCaptureOutcome(engine: string, libs: Libraries, e: Easy, grab: Grab, first: OcrCall,
                          fallback: OcrCall, log: LogWrite)
    ensures var c := CaptureMcq(engine, libs, e, grab, first, fallback, log);
            var t := RecognizeWithFallback(engine, libs, e, first, fallback).1;
            && (grab.GrabFailed? ==> c.error == Some(CaptureErrorMessage(grab.reason)) && c.easy == e)
            && (grab.Grabbed? && t.None? ==> c.error == Some(OcrFailedMessage(engine)))
            && (grab.Grabbed? && t.Some? && log.Written? ==> c.text == t)
            && (grab.Grabbed? && t.Some? && log.WriteFailed? ==> c.error == Some(CaptureErrorMessage(log.reason)))
            && |ErrorEvents(c.error)| <= 1
  {
  }

  /** `capture_screen` of the MCQ overlay, on the OCR module's state. */
  method CaptureScreen(ocrModule: OcrModule, emitter: Emitter, logFile: LogFile, grab: Grab,
                       first: OcrCall, fallback: OcrCall, log: LogWrite) returns (text: Option<string>)
    requires ocrModule.Valid()
    modifies ocrModule, emitter, logFile
    ensures var c := CaptureMcq(old(ocrModule.engine), ocrModule.libraries, old(ocrModule.EasyState()),
                                grab, first, fallback, log);
            && text == c.text && ocrModule.EasyState() == c.easy
            && emitter.log == old(emitter.log) + ErrorEvents(c.error)
            && logFile.records == old(logFile.records) + c.records
    ensures ocrModule.engine == old(ocrModule.engine) && ocrModule.Valid()
  {
    match grab {
      case GrabFailed(reason) =>
        emitter.Emit(Error(CaptureErrorMessage(reason)));
        return None;
      case Grabbed =>
    }
    text := ocrModule.PerformOcr(first.attempt, first.readtext, first.tesseract);
    if text.None? && Lower(ocrModule.engine) != "pytesseract" {
      var previous := ocrModule.engine;
      ocrModule.SetEngine("pytesseract");
      text := ocrModule.PerformOcr(fallback.attempt, fallback.readtext, fallback.tesseract);
      ocrModule.SetEngine(previous);
    }
    if text.None? {
      emitter.Emit(Error(OcrFailedMessage(ocrModule.engine)));
      return None;
    }
    match log {
      case Written =>
        logFile.Append(OcrText(Upper(ocrModule.engine), text.value));
      case WriteFailed(reason) =>
        emitter.Emit(Error(CaptureErrorMessage(reason)));
        text := None;
    }
  }

  // ---------------------------------------------------------------- the coding overlay

  /** `capture_screen` of the coding overlay, given OneOCR's state and inputs. */
  function CaptureCoding(s: InitState, displayDir: string, grab: Grab, fs: Files, creation: Creation,
                         recognition: Recognition, log: LogWrite): (r: (InitState, OneOcrCaptured))
    ensures r.1.text.Some? <==> r.1.error.None?
  {
    match grab
    case GrabFailed(reason) => (s, OneOcrCaptured(None, Some(CaptureErrorMessage(reason)), []))
    case Grabbed =>
      var (s', ok) := InitStep(s, fs, displayDir, creation);
      var text := if ok then Interpret(recognition) else None;
      match text
      case None => (s', OneOcrCaptured(None, Some(OneOcrFailedMessage), []))
      case Some(t) =>
        match log
        case Written => (s', OneOcrCaptured(Some(t), None, [OcrText("OneOCR", t)]))
        case WriteFailed(reason) => (s', OneOcrCaptured(None, Some(CaptureErrorMessage(reason)), []))
  }

  /**
   * Whatever the grab or OneOCR do, a failed capture emits exactly one error; text comes back only
   * non-empty, and only once OneOCR is initialized.
   */
  lemma CodingCaptureOutcome(s: InitState, displayDir: string, grab: Grab, fs: Files, creation: Creation,
                             recognition: Recognition, log: LogWrite)
    ensures var (s', c) := CaptureCoding(s, displayDir, grab, fs, creation, recognition, log);
            && (c.text.Some? ==> c.text.value != "" && s'.engineReady && c.records == [OcrText("OneOCR", c.text.value)])
            && (c.text.None? ==> |ErrorEvents(c.error)| == 1 && c.records == [])
            && (grab.Grabbed? && !InitStep(s, fs, displayDir, creation).1 ==> c.error == Some(OneOcrFailedMessage))
  {
  }

  method CaptureScreenCoding(oneOcr: OneOcrModule, emitter: Emitter, logFile: LogFile, grab: Grab,
                             fs: Files, creation: Creation, recognition: Recognition, log: LogWrite)
    returns (text: Option<string>)
    requires oneOcr.Valid()
    modifies oneOcr, emitter, logFile
    ensures oneOcr.Valid()
    ensures var (s', c) := CaptureCoding(old(oneOcr.State()), oneOcr.displayDir, grab, fs, creation,
                                         recognition, log);
            && text == c.text && oneOcr.State() == s'
            && emitter.log == old(emitter.log) + ErrorEvents(c.error)
            && logFile.records == old(logFile.records) + c.records
  {
    match grab {
      case GrabFailed(reason) =>
        emitter.Emit(Error(CaptureErrorMessage(reason)));
        return None;
      case Grabbed =>
    }
    text := oneOcr.PerformOcr(fs, creation, recognition);
    if text.None? {
      emitter.Emit(Error(OneOcrFailedMessage));
      return None;
    }
    match log {
      case Written =>
        logFile.Append(OcrText("OneOCR", text.value));
      case WriteFailed(reason) =>
        emitter.Emit(Error(CaptureErrorMessage(reason)));
        text := None;
    }
  }
}
