/**
 * The OneOCR wrapper (`oneocr_wrapper.py`): three files must be present in the configuration
 * directory; the engine is created on first use and kept, and the first failure is kept too, so
 * that a failed initialization is never retried. The file system, the engine constructor and the
 * engine's recognition result are inputs.
 */
module OneOcr {
  import opened Wrappers
  import opened Text

  const RequiredFiles: seq<string> := ["oneocr.dll", "oneocr.onemodel", "onnxruntime.dll"]

  /** What `os.path.exists` says: whether the configuration directory exists, and which files are in it. */
  datatype Files = Files(configDirExists: bool, present: set<string>)

  /** The required files absent from `present`, in their required order. */
  function Absent(required: seq<string>, present: set<string>): (r: seq<string>)
    ensures |r| <= |required|
    ensures forall f :: f in r <==> f in required && f !in present
    decreases |required|
  {
    if |required| == 0 then []
    else
      var init := Absent(required[..|required| - 1], present);
      var f := required[|required| - 1];
      assert forall g :: g in required <==> g in required[..|required| - 1] || g == f;
      if f in present then init else init + [f]
  }

  /** The missing files `check_oneocr_requirements` reports: all of them without the directory. */
  function MissingFiles(fs: Files): (r: seq<string>)
    ensures forall f :: f in r <==> f in RequiredFiles && (!fs.configDirExists || f !in fs.present)
  {
    if !fs.configDirExists then RequiredFiles else Absent(RequiredFiles, fs.present)
  }

  /** `is_available`: the check's first result. */
  function Available(fs: Files): (r: bool)
    ensures r <==> fs.configDirExists && forall f :: f in RequiredFiles ==> f in fs.present
  {
    var missing := MissingFiles(fs);
    assert |missing| > 0 ==> missing[0] in missing;
    assert RequiredFiles[0] in RequiredFiles;
    |missing| == 0
  }

  /** `check_oneocr_requirements`. */
  method CheckRequirements(fs: Files) returns (allPresent: bool, missing: seq<string>)
    ensures missing == MissingFiles(fs)
    ensures allPresent <==> |missing| == 0
  {
    if !fs.configDirExists {
      return false, RequiredFiles;
    }
    missing := [];
    var i := 0;
    while i < |RequiredFiles|
      invariant 0 <= i <= |RequiredFiles|
      invariant missing == Absent(RequiredFiles[..i], fs.present)
    {
      assert RequiredFiles[..i + 1][..i] == RequiredFiles[..i];
      var file := RequiredFiles[i];
      if file !in fs.present {
        missing := missing + [file];
      }
      i := i + 1;
    }
    assert RequiredFiles[..i] == RequiredFiles;
    allPresent := |missing| == 0;
  }

  // ---------------------------------------------------------------- the message

  const SetupSteps :=
    "\n"
    + "To set up OneOCR:\n"
    + "1. Create the directory: "
  const SetupRest :=
    "\n"
    + "2. Download the required DLL files from the OneOCR releases\n"
    + "3. Place all three files in the directory above\n"
    + "\n"
    + "Required files:\n"
    + "  - oneocr.dll (OneOCR library)\n"
    + "  - oneocr.onemodel (OCR model file)\n"
    + "  - onnxruntime.dll (ONNX Runtime library)\n"
    + "\n"
    + "For more information, visit: https://github.com/AuroraWright/oneocr"

  /** `get_missing_files_message`, for the directory as displayed (home replaced by `%USERPROFILE%`). */
  function MissingFilesMessage(displayDir: string, missing: seq<string>): string {
    NotConfiguredLine + "\n\n" + MissingFromLine(displayDir) + "\n" + Bulleted("  - ", missing) + "\n"
      + (SetupSteps + displayDir + SetupRest)
  }

  /** The message opens with the notice, a blank line, and the line naming the directory. */
  lemma MissingFilesMessageOpens(displayDir: string, missing: seq<string>)
    ensures NotConfiguredLine + "\n\n" + MissingFromLine(displayDir) <= MissingFilesMessage(displayDir, missing)
  {
  }

  /** A line, a blank line, another line, then a bulleted list: the items are lines four onwards. */
  lemma ListAfterHeader(a: string, c: string, prefix: string, items: seq<string>, rest: string)
    requires FreeOf(a, '\n') && FreeOf(c, '\n')
    requires |items| >= 1 && FreeOf(prefix, '\n') && AllFreeOf(items, '\n')
    ensures var lines := Split(a + "\n\n" + c + "\n" + Bulleted(prefix, items) + "\n" + rest, '\n');
            |lines| >= 3 + |items| && lines[3..3 + |items|] == Prefixed(prefix, items)
  {
    var block := Bulleted(prefix, items);
    assert a + "\n\n" + c + "\n" + block + "\n" + rest
           == a + "\n" + ("" + "\n" + (c + "\n" + (block + "\n" + rest)));
    assert FreeOf("", '\n');
    ThreeLines(a, "", c, block + "\n" + rest, '\n');
    SplitAppend(block, rest, '\n');
    BulletedLines(prefix, items);
    var lines := Split(a + "\n" + ("" + "\n" + (c + "\n" + (block + "\n" + rest))), '\n');
    assert lines == [a, "", c] + Prefixed(prefix, items) + Split(rest, '\n');
  }

  const NotConfiguredLine := "OneOCR is not properly configured."

  function MissingFromLine(displayDir: string): string {
    "The following required files are missing from " + displayDir + ":"
  }

  lemma NotConfiguredFree()
    ensures FreeOf(NotConfiguredLine, '\n')
  {
    var x, y := "OneOCR is not ", "properly configured.";
    assert FreeOf(x, '\n');
    assert FreeOf(y, '\n');
    FreeOfAppend(x, y, '\n');
  }

  lemma MissingFromFree(displayDir: string)
    requires FreeOf(displayDir, '\n')
    ensures FreeOf(MissingFromLine(displayDir), '\n')
  {
    var x, y := "The following required ", "files are missing from ";
    assert FreeOf(x, '\n');
    assert FreeOf(y, '\n');
    FreeOfAppend(x, y, '\n');
    FreeOfAppend(x + y, displayDir, '\n');
    FreeOfAppend(x + y + displayDir, ":", '\n');
    assert MissingFromLine(displayDir) == x + y + displayDir + ":";
  }

  /** Lines four onwards of the message list the missing files, one "  - file" per line, in order. */
  lemma MessageListsMissing(displayDir: string, missing: seq<string>)
    requires |missing| >= 1
    requires FreeOf(displayDir, '\n') && AllFreeOf(missing, '\n')
    ensures var lines := Split(MissingFilesMessage(displayDir, missing), '\n');
            |lines| >= 3 + |missing| && lines[3..3 + |missing|] == Prefixed("  - ", missing)
  {
    NotConfiguredFree();
    MissingFromFree(displayDir);
    assert FreeOf("  - ", '\n');
    ListAfterHeader(NotConfiguredLine, MissingFromLine(displayDir), "  - ", missing,
                    SetupSteps + displayDir + SetupRest);
  }

  // ---------------------------------------------------------------- initialization

  /** Whether `from oneocr import OcrEngine; OcrEngine()` succeeds, or the exception text. */
  datatype Creation = Created | CreateFailed(reason: string)

  /** The wrapper's globals: whether `_ocr_engine` is set, and `_initialization_error`. */
  datatype InitState = InitState(engineReady: bool, error: Option<string>)

  const Fresh := InitState(false, None)

  function CreateFailedMessage(reason: string): string {
    "Failed to initialize OneOCR: " + reason
  }

  /**
   * `_initialize_ocr`: true once the engine exists; false once an error is recorded, without
   * looking again; otherwise missing files, or a failing constructor, record an error.
   */
  function InitStep(s: InitState, fs: Files, displayDir: string, c: Creation): (r: (InitState, bool))
    ensures r.1 <==> r.0.engineReady
    ensures s.engineReady || s.error.Some? ==> r.0 == s
  {
    if s.engineReady then (s, true)
    else if s.error.Some? then (s, false)
    else if !Available(fs) then (InitState(false, Some(MissingFilesMessage(displayDir, MissingFiles(fs)))), false)
    else match c
      case Created => (InitState(true, None), true)
      case CreateFailed(reason) => (InitState(false, Some(CreateFailedMessage(reason))), false)
  }

  /** One later call of `_initialize_ocr`: the file system and the constructor outcome then. */
  datatype Call = Call(fs: Files, c: Creation)

  /** The state after a series of calls. */
  function InitRun(s: InitState, displayDir: string, calls: seq<Call>): InitState
    decreases |calls|
  {
    if |calls| == 0 then s
    else InitRun(InitStep(s, calls[0].fs, displayDir, calls[0].c).0, displayDir, calls[1..])
  }

  /** Never both an engine and an error. */
  predicate Exclusive(s: InitState) {
    !(s.engineReady && s.error.Some?)
  }

  lemma StepKeepsExclusive(s: InitState, fs: Files, displayDir: string, c: Creation)
    requires Exclusive(s)
    ensures Exclusive(InitStep(s, fs, displayDir, c).0)
  {
  }

  /**
   * The first outcome is final: after a failure every later call fails with the same message, even
   * when the files have been put in place since; after a success every later call succeeds.
   */
  lemma {:induction false} OutcomeIsFinal(s: InitState, displayDir: string, calls: seq<Call>)
    requires s.engineReady || s.error.Some?
    ensures InitRun(s, displayDir, calls) == s
    ensures |calls| >= 1 ==> InitStep(InitRun(s, displayDir, calls[..|calls| - 1]), calls[|calls| - 1].fs,
                                      displayDir, calls[|calls| - 1].c).1 == s.engineReady
    decreases |calls|
  {
    if |calls| >= 1 {
      assert InitStep(s, calls[0].fs, displayDir, calls[0].c).0 == s;
      OutcomeIsFinal(s, displayDir, calls[1..]);
      OutcomeIsFinal(s, displayDir, calls[..|calls| - 1]);
    }
  }

  /** The first call with missing files records the message naming them. */
  lemma MissingFilesRecorded(fs: Files, displayDir: string, c: Creation)
    requires !Available(fs)
    ensures InitStep(Fresh, fs, displayDir, c)
            == (InitState(false, Some(MissingFilesMessage(displayDir, MissingFiles(fs)))), false)
    ensures |MissingFiles(fs)| >= 1
  {
  }

  /** `is_available` looks only at the files: it can say yes while initialization has failed. */
  lemma AvailableIgnoresFailure(fs: Files, displayDir: string, reason: string)
    requires Available(fs)
    ensures InitStep(Fresh, fs, displayDir, CreateFailed(reason))
            == (InitState(false, Some(CreateFailedMessage(reason))), false)
    ensures Available(fs)
  {
  }

  // ---------------------------------------------------------------- recognition

  /** What `recognize_pil` returns (its optional `error` and `text` entries) or that it raised. */
  datatype Recognition = Recognized(error: Option<string>, text: Option<string>) | Raised(reason: string)

  /** `perform_ocr` after a successful initialization: no text on error, exception or empty text. */
  function Interpret(r: Recognition): (t: Option<string>)
    ensures t.Some? <==> r.Recognized? && r.error.None? && r.text.Some? && r.text.value != ""
    ensures t.Some? ==> t == r.text
  {
    match r
    case Raised(_) => None
    case Recognized(error, text) =>
      if error.Some? then None
      else
        var s := text.GetOr("");
        if s == "" then None else Some(s)
  }

  /** The wrapper's module state. */
  class OneOcrModule {
    var engineReady: bool
    var initializationError: Option<string>
    const displayDir: string

    function State(): InitState
      reads this
    {
      InitState(engineReady, initializationError)
    }

    /** The module never holds both a ready engine and an error. */
    predicate Valid()
      reads this
    {
      Exclusive(State())
    }

    constructor (displayDir: string)
      ensures State() == Fresh && this.displayDir == displayDir
      ensures Valid()
    {
      engineReady := false;
      initializationError := None;
      this.displayDir := displayDir;
    }

    method InitializeOcr(fs: Files, c: Creation) returns (ok: bool)
      requires Valid()
      modifies this
      ensures (State(), ok) == InitStep(old(State()), fs, displayDir, c)
      ensures Valid()
    {
      StepKeepsExclusive(State(), fs, displayDir, c);
      if engineReady {
        return true;
      }
      if initializationError.Some? {
        return false;
      }
      var allPresent, missing := CheckRequirements(fs);
      if !allPresent {
        initializationError := Some(MissingFilesMessage(displayDir, missing));
        return false;
      }
      match c {
        case Created =>
          engineReady := true;
          ok := true;
        case CreateFailed(reason) =>
          initializationError := Some(CreateFailedMessage(reason));
          ok := false;
      }
    }

    /** `get_initialization_error`. */
    function InitializationError(): (e: Option<string>)
      reads this
      requires Valid()
      ensures e.Some? ==> !engineReady
    {
      initializationError
    }

    method PerformOcr(fs: Files, c: Creation, r: Recognition) returns (text: Option<string>)
      requires Valid()
      modifies this
      ensures State() == InitStep(old(State()), fs, displayDir, c).0
      ensures Valid()
      ensures text == if State().engineReady then Interpret(r) else None
    {
      var ok := InitializeOcr(fs, c);
      if !ok {
        return None;
      }
      match r {
        case Raised(_) => text := None;
        case Recognized(error, t) =>
          if error.Some? {
            text := None;
          } else {
            var s := t.GetOr("");
            text := if s == "" then None else Some(s);
          }
      }
    }
  }
}
