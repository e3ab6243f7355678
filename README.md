# Clueme, modelled in Dafny

Clueme is a screen-reading assistant. It comes in two variants, and both take a screenshot, run it through OCR and ask an OpenAI-compatible model for help:

- The multiple-choice overlay (`clueme.py` with `ai_processor.py`) works in two steps. A cheaper model extracts the question and its choices from the OCR text as JSON (Step 1). The JSON is validated. A smarter model then answers, streaming its reply into a label (Step 2).
- The coding overlay (`clueme_coding.py` with `coding_ai_processor.py`) reads the screen with OneOCR (`oneocr_wrapper.py`). It streams a solution as markdown into a text display.

OCR engine selection for the first variant lives in `ocr.py`: EasyOCR with a GPU-then-CPU start, or pytesseract.

This project models the logic inside that glue and proves what the code promises. The modules are:

- `Hotkey`: the hotkey-string parser.
- `WinVersion`: Windows version parsing and the window-style gate.
- `Json` and `Extraction`: the Step 1 validator and the single signal it emits.
- `Answering` and `CodingAnswering`: the answering drivers, with their guards, prompts, stream loop, error paths and log records.
- `Prompts`: the exact prompt texts and the facts about their layout.
- `Ocr` and `OneOcr`: lazy engine start-up, memoisation and dispatch, the missing-file check and its message, and interpretation of the OneOCR result.
- `Capture`: both `capture_screen` functions, including the one-shot pytesseract fallback that restores the engine name.
- `McqOverlay` and `CodingOverlay`: the `is_processing` / `is_first_chunk` / `accumulated_response` state machines that the hotkeys and signals drive.

How external things are represented:

- The network, the OCR engines, the screenshot and the log file become inputs.
  - A model stream is a `Stream`: a sequence of optional text deltas, ended either cleanly or by a failure.
  - An OCR call is an `Attempt` or a `Recognition` value.
  - A file write is a `LogWrite` outcome.
- A Qt signal emitter is an `Emitter` object whose `log` records every emitted `Event` in order.
- An OpenAI client is a `Client` that records its requests.
- The log file is a `LogFile` that records the entries appended to it.
- Module globals that the code updates in place are fields of classes whose methods are specified by pure step functions: `Ocr.OcrModule`, `OneOcr.OneOcrModule`, and the two `Overlay` classes.
- Everything about those step functions is proved as lemmas.

Where the code and its own description disagree, the model follows the code. `is_win10_2004_or_higher` tests build 22631, although its docstring says 19041.

## Model

| member | source | states |
|---|---|---|
| Hotkey.ModifierName | clueme.py:41-46 | only the four canonical modifier names come out: ctrl/control→control, alt, win/windows→win, shift |
| Hotkey.Modifiers | clueme.py:40-46 | every modifier that comes out is one of the four canonical names |
| Hotkey.ParseHotkey | clueme.py:36-47 | the key is the last `+`-segment of the lower-cased input; the modifiers are the mapped earlier segments in input order, unknown ones dropped (same code at clueme_coding.py:235-251) |
| Hotkey.Segments | clueme.py:38 | splitting never yields zero segments, so a key always exists |
| Hotkey.Definition | clueme.py:47 | the list handed to the hotkey library is non-empty: the modifiers followed by the key |
| Hotkey.ModifiersBound | clueme.py:40-46 | there are never more modifiers than segments, and each is canonical |
| Hotkey.UnknownSegmentDropped | clueme.py:40-46 | a segment that names no modifier is dropped without disturbing the others |
| Hotkey.KeyIsLastSegment | clueme.py:38-39 | the key has no `+`, is the whole lower-cased string when there is one segment, and otherwise is what follows the last `+`; the modifier count is at most the segment count minus one |
| Hotkey.DefaultCaptureHotkey | clueme.py:30 | the default "Ctrl+Alt+R" registers as control, alt, r |
| Hotkey.DefaultCaptureSegments | clueme.py:30 | the default splits into "ctrl", "alt", "r" |
| WinVersion.ParseInt | clueme_coding.py:41-43 | Python's `int()` succeeds only on a non-blank string: whitespace is stripped, then an optional sign and decimal digits |
| WinVersion.FormatNat | clueme_coding.py:41-43 | a number's decimal form is made of digits only |
| WinVersion.FormatNatValue | clueme_coding.py:41-43 | the decimal form reads back as the same number |
| WinVersion.ParseFormatted | clueme_coding.py:41-43 | `int()` of a number's decimal form is that number |
| WinVersion.GetWindowsVersion | clueme_coding.py:34-46 | off Windows there is no version; a release with one segment gets minor and build 0, one with two segments gets build 0 |
| WinVersion.SegmentsParsed | clueme_coding.py:40-44 | on Windows each present field among the first three is `int()` of its dot-separated segment |
| WinVersion.NonIntegerSegmentIsNone | clueme_coding.py:40-46 | a present major, minor or build segment that is not an integer makes the result None |
| WinVersion.IsWin10_2004OrHigher | clueme_coding.py:49-61 | the gate passes only for a known version whose major number is at least 10 |
| WinVersion.VersionRoundTrip | clueme_coding.py:34-46 | on Windows, parsing "major.minor.build" gives back that version |
| WinVersion.MissingSegmentsDefault | clueme_coding.py:42-43 | with the minor and build segments absent, both default to 0 |
| WinVersion.EmptyReleaseIsNone | clueme_coding.py:45-46 | an empty version string is not an integer, so the result is None |
| WinVersion.NonWindowsIsClosed | clueme_coding.py:36-37 | off Windows the version is None and the gate is closed |
| WinVersion.GateThreshold | clueme_coding.py:51-61 | 10.0.19041 does not pass the gate, 10.0.22631 does |
| WinVersion.GateMonotone | clueme_coding.py:51-61 | a later major version, or the same major with a later build, still passes the gate |
| Json.Get | clueme.py:134 | `dict.get` of a missing key is None |
| Json.Strings | clueme.py:139-140 | a list of JSON strings corresponds item by item to the Dafny strings |
| Extraction.Validate | clueme.py:134-141 | a rejection is one of the three messages; the `question`/`choices` messages come only when `question_found` is true, and the item check only after both types are right |
| Extraction.ValidateIsWellFormed | clueme.py:134-141 | validation passes iff `question_found` is a bool and, when true, `question` is a string and `choices` a list of strings; a failure names one of the three messages |
| Extraction.NotFoundIgnoresDetails | clueme.py:134-141 | with `question_found` false, `question` and `choices` are not inspected |
| Extraction.ExtractionEvent | clueme.py:95-156 | the one signal is `extraction_complete` or an error; `extraction_complete` carries exactly the decoded object; a failed request gives the Step 1 error with its reason |
| Extraction.ExtractionOutcome | clueme.py:144-156 | each reply yields exactly one signal: `extraction_complete(data)` iff it decodes to a well-formed object, otherwise an error; bad JSON gives the parse message, a bad structure the structure message |
| Extraction.RunExtraction | clueme.py:95-156 | one request with the extraction prompt and JSON mode, then exactly that one signal |
| Answering.Delivered | clueme.py:211-214 | the delivered chunks are never more than the deltas |
| Answering.DeliveredAppend | clueme.py:211-214 | delivery of a concatenated stream is the concatenation of the deliveries |
| Answering.DeliveredSkipsNone | clueme.py:213 | a None delta contributes nothing; a text delta contributes itself, in place |
| Answering.RouteOf | clueme.py:162-174 | the "no question" route is taken iff `question_found` is falsy, the "no details" route iff it is truthy and the question or the choices are falsy; the answering route holds the extracted question (non-empty) and choices (at least one), unchanged |
| Answering.StreamEvents | clueme.py:198-231 | a run that reaches the model ends with `Finished` and emits only chunks and `Finished`: failures are reported as chunks |
| Answering.AnswerEvents | clueme.py:160-231 | every call ends with `Finished` and emits only chunks and `Finished` |
| Answering.ShortCircuits | clueme.py:162-171 | for every dictionary: a falsy `question_found` emits exactly the "Didn't find any questions." chunk and `Finished`; a falsy question or choices emits the "couldn't extract details" chunk and `Finished`; neither makes a request or writes a record, whatever the other keys hold; a request is made iff both guards pass |
| Answering.CleanStream | clueme.py:209-223 | on a clean stream the chunks are the non-None deltas in order, `Finished` comes once and last, and the record holds their concatenation |
| Answering.BrokenStream | clueme.py:227-231 | on a failure the chunks already emitted stay, then exactly one Step 2 error chunk and one `Finished`, and nothing is recorded |
| Answering.LogFailureAfterStream | clueme.py:218-231 | a log-write failure after a clean stream adds an error chunk and a second `Finished` |
| Answering.ForwardChunks | clueme.py:209-214 | the loop's accumulated response is the concatenation of the non-None deltas, and each one is emitted as a chunk in order |
| Answering.StreamAnswer | clueme.py:198-231 | one streaming request with the three messages and 200 max tokens; the events and the records are those of the stream |
| Answering.Answer | clueme.py:160-231 | the guards, then the stream: requests, events and records as the route decides |
| Answering.RunAnswering | clueme.py:160-231 | Step 2 on the smarter client with the "Error during Step 2 (Answering): " prefix |
| Answering.ConnectClients | clueme.py:64-79 | the smarter client is a distinct new client iff the smarter API base is truthy and differs from the base URL, else the same object |
| Answering.AIProcessor.constructor | ai_processor.py:17-39 | the fields as given, the clients chosen as above, and a fresh emitter |
| Answering.AIProcessor.ProcessQuestion | ai_processor.py:41-112 | the same guards, prompt and stream handling, using the "Error during answering: " prefix; any dictionary is accepted whose question and choices, when both guards pass, are a string and a list of strings |
| CodingAnswering.BlankInputSkips | coding_ai_processor.py:51-55 | empty or whitespace-only text emits exactly the "No text was extracted" chunk and `Finished`, with no request and no record |
| CodingAnswering.CodingEvents | coding_ai_processor.py:44-114 | every call emits `Finished` exactly at the end and nowhere before |
| CodingAnswering.CodingRecords | coding_ai_processor.py:99-106 | at most one record, only for non-blank text, a clean stream and a successful write; it names the input text and the model |
| CodingAnswering.CodingCleanStream | coding_ai_processor.py:89-106 | on a clean stream the chunks are the non-None deltas in order, `Finished` comes once and last, and the record holds their concatenation |
| CodingAnswering.CodingBrokenStream | coding_ai_processor.py:110-114 | on a failure the earlier chunks stay, then an `Error("Error during processing: ...")` and one `Finished`; the error is not a chunk |
| CodingAnswering.LogFailureIsSilent | coding_ai_processor.py:99-106 | a log-write failure is swallowed: no record, and still a single `Finished` |
| CodingAnswering.CodingAIProcessor.constructor | coding_ai_processor.py:23-42 | the fields as given, one client and a fresh emitter |
| CodingAnswering.CodingAIProcessor.ProcessCodingQuestion | coding_ai_processor.py:44-114 | requests, events and records as the blank guard and the stream decide |
| Prompts.ContextLines | clueme.py:196 | the context message is three header lines, then one `- choice` line per choice, in order |
| Prompts.AnsweringPromptEmbeds | clueme.py:182-194 | the answering prompt carries the question verbatim after its fixed introduction, and the `- `-bulleted choices between fixed middle and closing text |
| Prompts.CodingPromptEmbeds | coding_ai_processor.py:72-77 | the coding prompt is the input text verbatim between a fixed header and footer |
| Text.Lower | ocr.py:10 | lower-casing keeps the length and maps each character |
| Text.Upper | clueme.py:305 | upper-casing keeps the length and maps each character |
| Text.LowerIsLower | ocr.py:10 | a lower-cased string is lower case, and lower-casing it again changes nothing |
| Text.Split | clueme.py:38 | `str.split` with a separator always yields at least one piece |
| Text.Prefixed | clueme.py:191 | each item is prefixed, in order |
| Text.BulletedLines | clueme.py:191 | splitting a newline-joined bullet list at newlines gives back the prefixed items |
| Text.JoinSplit | ocr.py:113 | joining the pieces of a split with the separator gives back the string |
| Text.SplitJoin | ocr.py:113 | splitting a join of separator-free pieces gives back the pieces |
| Text.StripEmpty | coding_ai_processor.py:51 | `strip()` leaves nothing iff every character is whitespace |
| Ocr.ImportTime | ocr.py:10-66 | at import time pytesseract is initialised only if it loaded, and the two libraries are never both loaded |
| Ocr.EngineChoice | ocr.py:10-30 | the engine is the lower-cased environment value (default "easyocr"), except that a failed easyocr import switches it to "pytesseract" |
| Ocr.DefaultIsEasyocr | ocr.py:10-22 | with no setting and a working import, the engine is easyocr and only easyocr is loaded |
| Ocr.InitEasyocr | ocr.py:69-96 | the result is true iff the reader ends up initialised, and a consistent state stays consistent |
| Ocr.InitIsMemoised | ocr.py:72-73 | once initialised, the start-up returns true and changes nothing, however often it is called |
| Ocr.GpuBeforeCpu | ocr.py:80-96 | the GPU reader is tried first, the CPU reader only if it fails, and if both fail there is no reader and no flag |
| Ocr.FailureIsRetried | ocr.py:93-96 | a failed start-up leaves the flag clear, so a later call tries again and can succeed |
| Ocr.NotLoadedNoReader | ocr.py:75-77 | without the easyocr library the start-up fails and changes no state, and OCR yields None and changes no state, whatever the reader would have returned |
| Ocr.OcrEasyocr | ocr.py:98-119 | the reader state after OCR is the state the start-up leaves; a failed start-up yields None; after a successful one the text is the paragraphs joined by newlines, or None when reading raised |
| Ocr.EasyocrParagraphs | ocr.py:107-116 | after a successful start-up, the text is the reader's paragraphs joined by newlines, and splitting it at newlines gives them back |
| Ocr.OcrPytesseract | ocr.py:121-138 | text comes back only if pytesseract was initialised, and it is the engine's text |
| Ocr.RouteFor | ocr.py:151-154 | "easyocr" dispatches to easyocr and "pytesseract" to pytesseract |
| Ocr.UnknownEngineFallback | ocr.py:155-167 | any other name goes to easyocr iff it is loaded, else to pytesseract iff it is loaded and initialised, else nowhere |
| Ocr.Perform | ocr.py:140-167 | text comes back only through a path that can produce it; only the easyocr path changes the reader state |
| Ocr.PerformOutcome | ocr.py:140-167 | with no engine usable the result is None; an initialised pytesseract path returns the engine's text; an initialised easyocr path returns the joined paragraphs and keeps its state |
| Ocr.OcrModule.constructor | ocr.py:10-66 | the engine and library flags are those of the import-time logic, and easyocr has not started |
| Ocr.OcrModule.SetEngine | clueme.py:295-297 | assigning the engine name leaves the reader state alone |
| Ocr.OcrModule.InitializeEasyocr | ocr.py:69-96 | the new reader state and the result are those of the start-up function |
| Ocr.OcrModule.OcrWithEasyocr | ocr.py:98-119 | the new state and the text are those of the easyocr function |
| Ocr.OcrModule.OcrWithPytesseract | ocr.py:121-138 | the text is that of the pytesseract function |
| Ocr.OcrModule.PerformOcr | ocr.py:140-167 | the new state and the text are those of the dispatch function |
| OneOcr.Absent | oneocr_wrapper.py:32-35 | the absent files are exactly the required ones not present |
| OneOcr.MissingFiles | oneocr_wrapper.py:20-37 | a file is missing iff it is required and the directory is absent or the file is not in it |
| OneOcr.Available | oneocr_wrapper.py:144-152 | OneOCR is available iff the directory exists and holds every required file |
| OneOcr.CheckRequirements | oneocr_wrapper.py:20-37 | the loop returns the missing list in required order (all of them when the directory is absent), and all-present iff it is empty |
| OneOcr.MissingFilesMessageOpens | oneocr_wrapper.py:40-69 | the missing-files message opens with "OneOCR is not properly configured.", a blank line, and the line naming the directory the files are missing from |
| OneOcr.MessageListsMissing | oneocr_wrapper.py:52-55 | lines 4 onward of the message are one `  - name` line per missing file, in order |
| OneOcr.InitStep | oneocr_wrapper.py:77-99 | the result is true iff the engine is ready, and a state with an engine or an error is returned unchanged |
| OneOcr.StepKeepsExclusive | oneocr_wrapper.py:88-99 | the engine and the error are never both set |
| OneOcr.OutcomeIsFinal | oneocr_wrapper.py:81-85 | once initialisation has succeeded or failed, every later call gives the same answer without retrying |
| OneOcr.MissingFilesRecorded | oneocr_wrapper.py:88-91 | missing files record the missing-files message as the error and return false |
| OneOcr.AvailableIgnoresFailure | oneocr_wrapper.py:93-99 | with every file present, a constructor failure records "Failed to initialize OneOCR: ..." and returns false |
| OneOcr.Interpret | oneocr_wrapper.py:126-141 | text comes back iff the call succeeded, the result has no error and its text is present and non-empty; it is that text |
| OneOcr.OneOcrModule.constructor | oneocr_wrapper.py:73-74 | no engine and no error |
| OneOcr.OneOcrModule.InitializeOcr | oneocr_wrapper.py:77-99 | the new state and the result are those of the initialisation step |
| OneOcr.OneOcrModule.InitializationError | oneocr_wrapper.py:102-109 | in a module that never holds both an engine and an error, which every method keeps, a reported error means no engine |
| OneOcr.OneOcrModule.PerformOcr | oneocr_wrapper.py:112-141 | initialisation first, then the interpreted result only if the engine is ready |
| Capture.FallbackOnlyOnFailure | clueme.py:291-302 | pytesseract is retried only when the first OCR returned None and the engine is not pytesseract, and then exactly once |
| Capture.NoRetryForPytesseract | clueme.py:291 | with pytesseract as the engine, there is no second attempt |
| Capture.RecognizeWithFallback | clueme.py:289-301 | the retry never changes the easyocr state, and any text is the first attempt's or the pytesseract retry's |
| Capture.CaptureMcq | clueme.py:282-323 | text comes back iff no error is emitted; a text is logged with the upper-cased engine name |
| Capture.McqCaptureOutcome | clueme.py:282-323 | a grab failure emits "Error capturing screen: ..."; no text emits the OCR-failed message; a failed log write is a capture error; at most one error is emitted |
| Capture.CaptureScreen | clueme.py:282-323 | the engine name is restored after the fallback; text, reader state, events and records are those of the capture function |
| Capture.CaptureCoding | clueme_coding.py:396-424 | text comes back iff no error is emitted |
| Capture.CodingCaptureOutcome | clueme_coding.py:403-408 | returned text is non-empty, needs a ready engine and is logged; no text means exactly one error; a failed initialisation gives "OCR process failed. Check logs." |
| Capture.CaptureScreenCoding | clueme_coding.py:396-424 | text, OneOCR state, events and records are those of the capture function |
| McqOverlay.Trigger | clueme.py:364-382 | the worker gets text only when it is the non-empty capture text |
| McqOverlay.OnChunk | clueme.py:331-339 | the first chunk after "Thinking..." replaces the label, a later one is appended to it; the first-chunk flag is cleared and the processing flag kept |
| McqOverlay.OnFinished | clueme.py:342-346 | only the processing flag changes, and it is cleared |
| McqOverlay.OnError | clueme.py:349-354 | the label is "Error:" and a newline followed by the message, and the processing flag is cleared |
| McqOverlay.OnThinking | clueme.py:357-361 | the label is "Thinking..." and the next chunk counts as the first; the processing flag is kept |
| McqOverlay.OnReset | clueme.py:397-407 | nothing changes while processing; otherwise the initial label, with both flags reset |
| McqOverlay.Deliver | clueme.py:409-413 | no signal sets the processing flag; `response_finished` and `error_occurred` clear it; `extraction_complete` does not reach the overlay |
| McqOverlay.BusyTriggerIgnored | clueme.py:366-368 | a trigger while processing changes nothing and starts nothing |
| McqOverlay.TriggerFromIdle | clueme.py:370-382 | from idle, a capture with text leaves the flag set and "Thinking..." shown; without text the flag is cleared and the capture error, if any, is shown |
| McqOverlay.ResetGuarded | clueme.py:397-407 | reset does nothing while processing, otherwise restores the initial label and flags |
| McqOverlay.LabelIsAnswerSoFar | clueme.py:331-361 | after `show_thinking`, the label is "Thinking..." until a chunk arrives, and from then on the in-order concatenation of every chunk since |
| McqOverlay.EndReleases | clueme.py:342-354 | `handle_response_finished` and `handle_error` always clear the flag |
| McqOverlay.PipelineEvents | clueme.py:144-231 | the worker's first signal is Step 1's |
| McqOverlay.PipelineReleases | clueme.py:144-231 | whatever Step 1 and Step 2 do, their signals end with the flag cleared |
| McqOverlay.CleanRunShowsAnswer | clueme.py:331-382 | a capture, a successful extraction and a clean stream leave the label equal to the concatenated answer and the flag cleared |
| McqOverlay.BrokenStreamLabel | clueme.py:331-339 | once "Thinking..." is shown, the chunk slot appends every chunk of a broken stream and then the error text, so the label holds the partial answer followed by the Step 2 error, and the flag is cleared |
| McqOverlay.BrokenRunAppendsError | clueme.py:227-231 | a broken stream leaves the partial answer with the Step 2 error appended, and the flag cleared |
| McqOverlay.Overlay.constructor | clueme.py:256 | the initial label and flags |
| McqOverlay.Overlay.UpdateLabelChunk | clueme.py:331-339 | the new state is the chunk step |
| McqOverlay.Overlay.HandleResponseFinished | clueme.py:342-346 | the new state is the finished step |
| McqOverlay.Overlay.HandleError | clueme.py:349-354 | the new state is the error step |
| McqOverlay.Overlay.ShowThinking | clueme.py:357-361 | the new state is the thinking step |
| McqOverlay.Overlay.ResetProgram | clueme.py:397-407 | the new state is the reset step |
| McqOverlay.Overlay.Receive | clueme.py:410-413 | each signal reaches the slot it is connected to |
| McqOverlay.Overlay.ProcessScreenCallback | clueme.py:364-382 | busy: nothing changes; otherwise the state, hand-off, events, records and reader state are those of the trigger over the capture |
| CodingOverlay.Trigger | clueme_coding.py:498-515 | text is passed on only when it is the non-empty capture text |
| CodingOverlay.OnChunk | clueme_coding.py:435-461 | the display shows the accumulated response as markdown; the first chunk after "Thinking..." restarts it, a later one is appended; the first-chunk flag is cleared and the processing flag kept |
| CodingOverlay.OnFinished | clueme_coding.py:465-469 | only the processing flag changes, and it is cleared |
| CodingOverlay.OnError | clueme_coding.py:473-482 | the display shows the error and the processing flag is cleared; the accumulated response is kept |
| CodingOverlay.OnThinking | clueme_coding.py:486-494 | the display shows "Thinking..." and the next chunk counts as the first; the accumulated response and the processing flag are kept |
| CodingOverlay.OnReset | clueme_coding.py:540-551 | nothing changes while processing; otherwise the initial message, both flags reset and the accumulated response emptied |
| CodingOverlay.Deliver | clueme_coding.py:555-558 | no signal sets the processing flag; `response_finished` and `error_occurred` clear it; `text_extracted` does not reach the display |
| CodingOverlay.BusyTriggerIgnored | clueme_coding.py:500-502 | a trigger while processing changes nothing and starts nothing |
| CodingOverlay.TriggerAfterCapture | clueme_coding.py:498-515 | from idle, OneOCR text is passed on with "Thinking..." shown and the flag set; a failed capture shows its error and clears the flag |
| CodingOverlay.ResetGuarded | clueme_coding.py:540-551 | reset does nothing while processing, otherwise sets the first-chunk flag, clears processing and the accumulated response, and shows the initial message |
| CodingOverlay.AnswerSoFar | clueme_coding.py:435-494 | after `show_thinking`, the accumulated response is the in-order concatenation of every chunk since, and it is what is displayed |
| CodingOverlay.EndReleases | clueme_coding.py:465-482 | `handle_response_finished` and `handle_error` always clear the flag |
| CodingOverlay.WorkerEvents | coding_ai_processor.py:44-114 | the solving call's signals follow `text_extracted` and end with `Finished` |
| CodingOverlay.WorkerReleases | coding_ai_processor.py:44-114 | whatever the solving call does, its signals end with the flag cleared |
| CodingOverlay.CleanRunShowsAnswer | clueme_coding.py:435-515 | non-blank text and a clean stream leave the display and the accumulated response equal to the concatenated answer, with the flag cleared |
| CodingOverlay.BrokenRunShowsError | clueme_coding.py:473-482 | a broken stream leaves its "Error during processing" message on the display and the flag cleared |
| CodingOverlay.Overlay.constructor | clueme_coding.py:428-430 | the initial message and flags, with an empty accumulated response |
| CodingOverlay.Overlay.UpdateDisplayChunk | clueme_coding.py:435-461 | the new state is the chunk step |
| CodingOverlay.Overlay.HandleResponseFinished | clueme_coding.py:465-469 | the new state is the finished step |
| CodingOverlay.Overlay.HandleError | clueme_coding.py:473-482 | the new state is the error step |
| CodingOverlay.Overlay.ShowThinking | clueme_coding.py:486-494 | the new state is the thinking step |
| CodingOverlay.Overlay.ResetProgram | clueme_coding.py:540-551 | the new state is the reset step |
| CodingOverlay.Overlay.Receive | clueme_coding.py:555-558 | each signal reaches the slot it is connected to |
| CodingOverlay.Overlay.ProcessScreenCallback | clueme_coding.py:498-515 | busy: nothing changes; otherwise the state, events (including `text_extracted`), records and OneOCR state are those of the trigger over the capture |
| Signals.Emitter.Emit | ai_processor.py:5-12 | emitting appends exactly that event to the log |
| Signals.ChunkTextsAppend | ai_processor.py:5-12 | chunk texts and `Finished` counts add up over concatenated event sequences |
| Signals.ChunkEventsTexts | ai_processor.py:5-12 | chunk events carry exactly their texts and no `Finished` |

## Left out

- Qt itself is left out: widgets, stylesheets, `position_widget`, and the HTML wrapping of the coding display. `CodingOverlay.Display` says only what is shown: the initial message, "Thinking...", an error, or the markdown source.
- `MarkdownRenderer` (regular expressions and syntax highlighting) is presentation, and its libraries are not visible.
- Threads are not modelled: `QThread`, queued cross-thread delivery of signals, and quitting (`trigger_quit_from_hotkey`, `perform_quit`, the thread's quit and wait). Signals are delivered synchronously and in emission order. There is no concurrency in the model, and the flags are not atomic in the code either.
- Hotkey registration and listening, `SetWindowDisplayAffinity`, `.env` loading, `is_frozen` / `get_base_dir`, `show_error_dialog` and `check_oneocr_setup` are platform calls and dialogs. `stealth_assistant.py` is not part of this model.
- The OpenAI client, `ImageGrab`, and the EasyOCR, Tesseract and OneOCR engines are inputs.
  - A stream is a sequence of optional deltas with a clean or failed end.
  - `json.loads` returns a decoded value or a decode error.
  - A OneOCR result is modelled as an optional `error` string and an optional `text` string, so non-string values in the result dictionary are not modelled.
- The `print` diagnostics, `time.time()` timing, timestamps and the exact text written to the log files are left out. A log write is an outcome (`LogWrite`), and a `LogRecord` holds the values written.
  - The answering record holds the prompt as a `Prompt` value. `Prompts.Rendered` gives the exact text.
- `CONFIG_DIR` and its `%USERPROFILE%` form come from the home directory, so the displayed directory is a parameter. The file check works on an abstract set of present file names, not on path joining.
- `Text.Lower` / `Text.Upper`: only ASCII letters change case. Python also maps non-ASCII letters.
- `WinVersion.ParseInt`: digit-group underscores and non-ASCII digits, which Python's `int()` also accepts, are not modelled.
- `Answering.Answer` / `Answering.RunAnswering` / `Answering.AIProcessor.ProcessQuestion`: a dictionary that passes both guards must hold a string question and a list of string choices. Python would format any other truthy value into the prompt with `str()` (and iterate a non-list `choices`); that formatting is not modelled. Every dictionary that a guard stops is accepted.
- The Emitter's log is an ordinary field rather than a ghost one, so that the overlay methods can receive the events that the capture emitted.
- The copy of `pytesseract_path_set` is not modelled. Nothing reads it.
- The multiple-choice variant writes its log inside the `try`. A failed write after `Finished` therefore emits an error chunk and a second `Finished`. The model keeps this, as `Answering.LogFailureAfterStream` states.
