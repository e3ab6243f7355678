/**
 * The OCR module (`ocr.py`): the engine is chosen once from the environment, only its library is
 * imported, and `perform_ocr` dispatches on the current engine name. EasyOCR's reader is created
 * lazily, GPU first and CPU second, and kept once created; Pytesseract is usable only when the
 * executable answered at import time. The image itself is not modelled: what each library call
 * would return, or that it would raise, is an input.
 */
module Ocr {
  import opened Wrappers
  import opened Text

  const DefaultEngine := "easyocr"

  /** What import time fixed: which libraries are in `sys.modules` and whether Tesseract answered. */
  datatype Libraries = Libraries(easyocrLoaded: bool, pytesseractLoaded: bool, pytesseractInitialized: bool)

  /** An `easyocr.Reader(['en'], gpu=...)`. */
  datatype Reader = Reader(gpu: bool)

  /** The lazily created EasyOCR state: `_easyocr_initialized` and `ocr_reader`. */
  datatype Easy = Easy(initialized: bool, reader: Option<Reader>)

  /** Whether creating the reader on the GPU, and on the CPU, would succeed. */
  datatype Attempt = Attempt(gpuOk: bool, cpuOk: bool)

  /** The state import time leaves behind: the engine name and the loaded libraries. */
  datatype Boot = Boot(engine: string, libraries: Libraries)

  /**
   * `OCR_ENGINE` defaults to "easyocr" and is lower-cased; when EasyOCR is chosen but cannot be
   * imported it falls back to "pytesseract". Only the library of the resulting choice is imported,
   * and Pytesseract counts as initialized only when the executable answers.
   */
  function ImportTime(env: Option<string>, easyocrImports: bool, pytesseractImports: bool,
                      tesseractResponds: bool): (b: Boot)
    ensures b.libraries.pytesseractInitialized ==> b.libraries.pytesseractLoaded
    ensures !(b.libraries.easyocrLoaded && b.libraries.pytesseractLoaded)
  {
    var chosen := Lower(env.GetOr(DefaultEngine));
    var easyocrLoaded := chosen == "easyocr" && easyocrImports;
    var engine := if chosen == "easyocr" && !easyocrImports then "pytesseract" else chosen;
    var pytesseractLoaded := engine == "pytesseract" && pytesseractImports;
    Boot(engine, Libraries(easyocrLoaded, pytesseractLoaded, pytesseractLoaded && tesseractResponds))
  }

  /** The reader exists exactly when EasyOCR counts as initialized. */
  predicate Consistent(e: Easy) {
    e.initialized <==> e.reader.Some?
  }

  const Unstarted := Easy(false, None)

  /**
   * `_initialize_easyocr`: nothing to do once initialized; false when the library is not loaded;
   * otherwise a GPU reader, else a CPU reader, else no reader and false.
   */
  function InitEasyocr(loaded: bool, e: Easy, a: Attempt): (r: (Easy, bool))
    ensures r.1 <==> r.0.initialized
    ensures Consistent(e) ==> Consistent(r.0)
  {
    if e.initialized then (e, true)
    else if !loaded then (e, false)
    else if a.gpuOk then (Easy(true, Some(Reader(true))), true)
    else if a.cpuOk then (Easy(true, Some(Reader(false))), true)
    else (Easy(false, None), false)
  }

  /** `_ocr_with_easyocr`: initialize if needed, then join the paragraphs with newlines. */
  function OcrEasyocr(loaded: bool, e: Easy, a: Attempt, readtext: Option<seq<string>>): (r: (Easy, Option<string>))
    ensures r.0 == InitEasyocr(loaded, e, a).0
    ensures !InitEasyocr(loaded, e, a).1 ==> r.1 == None
    ensures InitEasyocr(loaded, e, a).1 && Consistent(e) ==>
              r.1 == (if readtext.Some? then Some(Join(readtext.value, "\n")) else None)
  {
    var (e', ok) := InitEasyocr(loaded, e, a);
    if !ok || e'.reader.None? then (e', None)
    else match readtext
      case None => (e', None)
      case Some(results) => (e', Some(Join(results, "\n")))
  }

  /** `_ocr_with_pytesseract`: nothing unless initialized at import time, else the text or nothing. */
  function OcrPytesseract(libs: Libraries, tesseract: Option<string>): (r: Option<string>)
    ensures r.Some? ==> libs.pytesseractInitialized && r == tesseract
  {
    if !libs.pytesseractInitialized then None else tesseract
  }

  /** Which path `perform_ocr` takes. */
  datatype Route = UseEasyocr | UsePytesseract | NoEngine

  /** An unknown engine name falls back to whichever library is usable, EasyOCR first. */
  function RouteFor(engine: string, libs: Libraries): (r: Route)
    ensures engine == "easyocr" ==> r == UseEasyocr
    ensures engine == "pytesseract" ==> r == UsePytesseract
  {
    if engine == "easyocr" then UseEasyocr
    else if engine == "pytesseract" then UsePytesseract
    else if libs.easyocrLoaded then UseEasyocr
    else if libs.pytesseractLoaded && libs.pytesseractInitialized then UsePytesseract
    else NoEngine
  }

  /** `perform_ocr` on the current engine: the new EasyOCR state and the text or nothing. */
  function Perform(engine: string, libs: Libraries, e: Easy, a: Attempt,
                   readtext: Option<seq<string>>, tesseract: Option<string>): (r: (Easy, Option<string>))
    ensures r.1.Some? ==> (RouteFor(engine, libs) == UseEasyocr && readtext.Some?)
                          || (RouteFor(engine, libs) == UsePytesseract && libs.pytesseractInitialized)
    ensures RouteFor(engine, libs) != UseEasyocr ==> r.0 == e
  {
    match RouteFor(engine, libs)
    case UseEasyocr => OcrEasyocr(libs.easyocrLoaded, e, a, readtext)
    case UsePytesseract => (e, OcrPytesseract(libs, tesseract))
    case NoEngine => (e, None)
  }

  // ---------------------------------------------------------------- properties

  /**
   * The engine is the lower-cased setting, "easyocr" when unset, except that a failed EasyOCR
   * import turns it into "pytesseract"; a loaded library is always the chosen engine's.
   */
  lemma EngineChoice(env: Option<string>, easyocrImports: bool, pytesseractImports: bool, tesseractResponds: bool)
    ensures var b := ImportTime(env, easyocrImports, pytesseractImports, tesseractResponds);
            var chosen := Lower(env.GetOr(DefaultEngine));
            && (b.engine == chosen || (chosen == "easyocr" && !easyocrImports && b.engine == "pytesseract"))
            && (b.libraries.easyocrLoaded ==> b.engine == "easyocr")
            && (b.libraries.pytesseractLoaded ==> b.engine == "pytesseract")
            && IsLower(b.engine)
  {
    var chosen := Lower(env.GetOr(DefaultEngine));
    LowerIsLower(env.GetOr(DefaultEngine));
    assert IsLower("pytesseract");
  }

  /** With the variable unset and EasyOCR importable, EasyOCR is the engine. */
  lemma DefaultIsEasyocr(pytesseractImports: bool, tesseractResponds: bool)
    ensures ImportTime(None, true, pytesseractImports, tesseractResponds)
            == Boot("easyocr", Libraries(true, false, false))
  {
    LowerOfLower("easyocr");
  }

  /** Once initialized, the reader is kept and never created again. */
  lemma InitIsMemoised(loaded: bool, e: Easy, a: Attempt, a': Attempt)
    requires e.initialized
    ensures InitEasyocr(loaded, e, a) == (e, true)
    ensures InitEasyocr(loaded, InitEasyocr(loaded, e, a).0, a') == (e, true)
  {
  }

  /** The GPU is tried first; the CPU only when the GPU fails; a double failure leaves no reader. */
  lemma GpuBeforeCpu(e: Easy, a: Attempt)
    requires !e.initialized
    ensures a.gpuOk ==> InitEasyocr(true, e, a).0.reader == Some(Reader(true))
    ensures !a.gpuOk && a.cpuOk ==> InitEasyocr(true, e, a).0.reader == Some(Reader(false))
    ensures !a.gpuOk && !a.cpuOk ==> InitEasyocr(true, e, a) == (Easy(false, None), false)
  {
  }

  /** A failed initialization is not remembered: the next call tries again. */
  lemma FailureIsRetried(e: Easy, failed: Attempt, later: Attempt)
    requires !e.initialized && !failed.gpuOk && !failed.cpuOk
    requires later.gpuOk || later.cpuOk
    ensures InitEasyocr(true, InitEasyocr(true, e, failed).0, later).1
  {
  }

  /** Without the library nothing is created and nothing is read, whatever the attempt and the results. */
  lemma NotLoadedNoReader(e: Easy, a: Attempt, readtext: Option<seq<string>>)
    requires !e.initialized
    ensures InitEasyocr(false, e, a) == (e, false)
    ensures OcrEasyocr(false, e, a, readtext) == (e, None)
  {
  }

  /**
   * With a reader, EasyOCR's text is its paragraphs joined by newlines; newline-free paragraphs
   * come back one per line, in order.
   */
  lemma EasyocrParagraphs(e: Easy, a: Attempt, results: seq<string>)
    requires |results| >= 1 && AllFreeOf(results, '\n')
    requires InitEasyocr(true, e, a).1 && Consistent(e)
    ensures OcrEasyocr(true, e, a, Some(results)).1 == Some(Join(results, "\n"))
    ensures Split(OcrEasyocr(true, e, a, Some(results)).1.value, '\n') == results
  {
    SplitJoin(results, '\n');
  }

  /** No text without a usable engine; the EasyOCR state only changes on the EasyOCR path. */
  lemma PerformOutcome(engine: string, libs: Libraries, e: Easy, a: Attempt,
                       readtext: Option<seq<string>>, tesseract: Option<string>)
    ensures var r := Perform(engine, libs, e, a, readtext, tesseract);
            && (!libs.easyocrLoaded && !libs.pytesseractInitialized && !e.initialized ==> r.1 == None)
            && (RouteFor(engine, libs) == UsePytesseract && libs.pytesseractInitialized ==> r.1 == tesseract)
            && (RouteFor(engine, libs) == UseEasyocr && e.initialized && Consistent(e) ==>
                  r == (e, if readtext.Some? then Some(Join(readtext.value, "\n")) else None))
  {
  }

  /** An unknown engine name prefers EasyOCR when it is loaded, then an initialized Pytesseract. */
  lemma UnknownEngineFallback(engine: string, libs: Libraries)
    requires engine != "easyocr" && engine != "pytesseract"
    ensures RouteFor(engine, libs) == UseEasyocr <==> libs.easyocrLoaded
    ensures RouteFor(engine, libs) == UsePytesseract <==> !libs.easyocrLoaded && libs.pytesseractInitialized && libs.pytesseractLoaded
  {
  }

  // ---------------------------------------------------------------- the module state

  /** The module's globals: `OCR_ENGINE` (the overlay reassigns it), `ocr_reader`, the flags. */
  class OcrModule {
    var engine: string
    var reader: Option<Reader>
    var easyocrInitialized: bool
    const libraries: Libraries

    function EasyState(): Easy
      reads this
    {
      Easy(easyocrInitialized, reader)
    }

    predicate Valid()
      reads this
    {
      Consistent(EasyState())
      && (libraries.pytesseractInitialized ==> libraries.pytesseractLoaded)
      && !(libraries.easyocrLoaded && libraries.pytesseractLoaded)
    }

    /** Import time. */
    constructor (env: Option<string>, easyocrImports: bool, pytesseractImports: bool, tesseractResponds: bool)
      ensures Boot(engine, libraries) == ImportTime(env, easyocrImports, pytesseractImports, tesseractResponds)
      ensures EasyState() == Unstarted
      ensures Valid()
    {
      var chosen := Lower(env.GetOr(DefaultEngine));
      var easyocrLoaded := chosen == "easyocr" && easyocrImports;
      var name := chosen;
      if chosen == "easyocr" && !easyocrImports {
        name := "pytesseract";
      }
      var pytesseractLoaded := name == "pytesseract" && pytesseractImports;
      engine := name;
      libraries := Libraries(easyocrLoaded, pytesseractLoaded, pytesseractLoaded && tesseractResponds);
      reader := None;
      easyocrInitialized := false;
    }

    /** `ocr.OCR_ENGINE = name`. */
    method SetEngine(name: string)
      requires Valid()
      modifies this
      ensures engine == name && EasyState() == old(EasyState())
      ensures Valid()
    {
      engine := name;
    }

    method InitializeEasyocr(a: Attempt) returns (ok: bool)
      requires Valid()
      modifies this
      ensures (EasyState(), ok) == InitEasyocr(libraries.easyocrLoaded, old(EasyState()), a)
      ensures engine == old(engine) && Valid()
    {
      if easyocrInitialized {
        return true;
      }
      if !libraries.easyocrLoaded {
        return false;
      }
      if a.gpuOk {
        reader := Some(Reader(true));
        easyocrInitialized := true;
        return true;
      }
      if a.cpuOk {
        reader := Some(Reader(false));
        easyocrInitialized := true;
        return true;
      }
      reader := None;
      return false;
    }

    method OcrWithEasyocr(a: Attempt, readtext: Option<seq<string>>) returns (text: Option<string>)
      requires Valid()
      modifies this
      ensures (EasyState(), text) == OcrEasyocr(libraries.easyocrLoaded, old(EasyState()), a, readtext)
      ensures engine == old(engine) && Valid()
    {
      var ok := InitializeEasyocr(a);
      if !ok || reader.None? {
        return None;
      }
      match readtext {
        case None => text := None;
        case Some(results) => text := Some(Join(results, "\n"));
      }
    }

    method OcrWithPytesseract(tesseract: Option<string>) returns (text: Option<string>)
      ensures text == OcrPytesseract(libraries, tesseract)
    {
      if !libraries.pytesseractInitialized {
        return None;
      }
      text := tesseract;
    }

    method PerformOcr(a: Attempt, readtext: Option<seq<string>>, tesseract: Option<string>)
      returns (text: Option<string>)
      requires Valid()
      modifies this
      ensures (EasyState(), text) == Perform(old(engine), libraries, old(EasyState()), a, readtext, tesseract)
      ensures engine == old(engine) && Valid()
    {
      if engine == "easyocr" {
        text := OcrWithEasyocr(a, readtext);
      } else if engine == "pytesseract" {
        text := OcrWithPytesseract(tesseract);
      } else if libraries.easyocrLoaded {
        text := OcrWithEasyocr(a, readtext);
      } else if libraries.pytesseractLoaded && libraries.pytesseractInitialized {
        text := OcrWithPytesseract(tesseract);
      } else {
        text := None;
      }
    }
  }
}
