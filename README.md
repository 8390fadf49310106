# ocrit — a Dafny model of the recognition pipeline

`ocrit` is a command-line tool that runs text recognition on images and PDF
documents. This project models its sequential core in Dafny and proves what that
core promises. The Vision recognizer, the image and PDF frameworks, the console and
the file system are parameters of the model.

- **Language validation.** A possibly empty list of requested codes is checked
  against the codes the recognizer supports. The program has three copies of this
  check: the standalone validator, the fileprivate copy in `CGImageOCR`, and
  `resolveLanguages` in the legacy `OCROperation`. Each copy throws its own error.
  `RequestValidation.Validate` holds the shared search, and each copy passes in the
  error it builds.
- **Recognition and transcripts.** The request is built at the accurate level, and
  the languages are resolved before the request is performed. The completion
  handler routes engine errors and missing results to failures, and otherwise
  builds the transcript with a loop: each top candidate, then a line break.
  `CGImageOCR` and the legacy `OCROperation` are classes whose `request` and
  `handler` fields change only once the languages have resolved.
- **Result streams.** `ImageOCROperation` yields one result or finishes with the
  recognition's error. `PDFOCROperation` visits pages 1..N in order, yields
  `basename-p` for each page that was recognized, writes a `WARN:` line for each
  page that failed, and always finishes normally. The stream is a `Continuation`
  object. Once it has finished, it ignores further yields and finishes.
- **The command** (`OCRIT.run` and `writeOutput`):
  - It checks the output directory first.
  - A validation pass warns about the first input that is not an image, then the
    languages are announced.
  - Every input is transcribed in order by the legacy `OCROperation`.
  - Each transcript is printed as `name:\n<text>\n\n`, or written to
    `<output>/<stem>.txt`, which then takes the image's dates.
  - A failure is reported as `OCR failed for <name>: <description>` and never stops
    the loop.

  The observable state is `World(stdout, stderr, nodes)`. The `Console` and
  `FileSystem` classes hold it for the methods, and the functions `RunCommand`,
  `ProcessImages` and `WriteOutput` specify it.
- **Output destination** (`Output.swift`): a tagged union with an argument
  initializer and two accessors.

Three behaviours of the code are worth stating plainly:

- `OCRIT.run` never checks the requested languages up front. Only an image that
  loads gets as far as the language check, inside `OCROperation.run()`, and is then
  reported with an `OCR failed for …: Unsupported language …` line. An image that
  does not load is reported with its loading error (`Couldn't read image at …`), and
  a failing query of the supported languages with that query's error. The run
  itself succeeds (`Cli.UnsupportedLanguageRun`).
- `writeOutput` calls `setResourceValues` with `try`. A failed date change
  therefore reaches the loop as an `OCR failed for` line, although the text file was
  already written (`Cli.WriteOutput`, `Cli.DirectoryReportsFailures`).
- `OCRIT.run` takes every input through the same loop. It has no single-input case,
  and it never translates, deletes originals or selects the fast recognition level.

Modules, one per source file:

| file | module | source |
|---|---|---|
| `validation.dfy` | `RequestValidation` | `VNRecognizeTextRequest+Validation.swift` |
| `recognition.dfy` | `Recognition` | `Base/CGImageOCR.swift` |
| `operation_base.dfy` | `OperationBase` | `Base/OCROperation.swift` |
| `image_operation.dfy` | `ImageOperation` | `ImageOCROperation.swift` |
| `pdf_operation.dfy` | `PdfOperation` | `PDFOCROperation.swift` |
| `legacy_operation.dfy` | `LegacyOperation` | `OCROperation.swift` |
| `ocrit.dfy` | `Cli` | `OCRIT.swift` |
| `output.dfy` | `OutputDestination` | `Output.swift` |

The support modules are:

- `Common`: `Option`, `Result`, errors, `joined`, decimal numerals, and prefix and
  infix facts.
- `Paths`: URL path components.
- `Host`: the console, the file system, and image loading.
- `Transcripts`: the transcript loop and its inverse.

## Model

| member | source | states |
|---|---|---|
| RequestValidation.FirstUnsupported | Sources/ocrit/Implementation/Base/VNRecognizeTextRequest+Validation.swift:16-20 | None exactly when every requested code is supported; otherwise the position of the first unsupported code in list order |
| RequestValidation.Validate | Sources/ocrit/Implementation/Base/VNRecognizeTextRequest+Validation.swift:11-23 | empty request gives nil without consulting the supported list; a failing query is rethrown; success iff every code is supported, and then the list comes back unchanged (never an empty list); a rejection is the error built from the first unsupported code and the whole supported list |
| RequestValidation.SameVerdictAnyError | Sources/ocrit/Implementation/Base/VNRecognizeTextRequest+Validation.swift:11-23 | whatever error a copy of the check throws, the copies accept the same requests with the same result and reject at the same first unsupported code |
| RequestValidation.UnsupportedMessage | Sources/ocrit/Implementation/Base/VNRecognizeTextRequest+Validation.swift:18 | the message starts with `Unsupported language "<code>"` and contains the code and every supported code |
| RequestValidation.RejectWithValidationError | Sources/ocrit/Implementation/Base/VNRecognizeTextRequest+Validation.swift:18 | the standalone check throws a `ValidationError` whose message starts with `Unsupported language "<code>"` |
| RequestValidation.ValidateLanguages | Sources/ocrit/Implementation/Base/VNRecognizeTextRequest+Validation.swift:11-23 | the instance check: nil for an empty request, the request itself iff all codes are supported, otherwise a `ValidationError` naming the first unsupported code |
| RequestValidation.ValidateLanguagesStatically | Sources/ocrit/Implementation/Base/VNRecognizeTextRequest+Validation.swift:5-9 | the static check gives exactly what the instance check gives on a fresh request |
| RequestValidation.RejectionNamesCodes | Sources/ocrit/Implementation/Base/VNRecognizeTextRequest+Validation.swift:16-19 | a rejection's message starts with `Unsupported language`, contains the first unsupported code and every supported code |
| Common.Join | Sources/ocrit/Implementation/Base/VNRecognizeTextRequest+Validation.swift:18 | `joined(separator:)` of no parts is empty and of one part is that part |
| Common.JoinContainsEach | Sources/ocrit/OCRIT.swift:59 | every joined part occurs in the joined text |
| Common.NatToString | Sources/ocrit/Implementation/PDFOCROperation.swift:35 | `"\(page)"` is a non-empty run of decimal digits |
| Common.ParseNatToString | Sources/ocrit/Implementation/PDFOCROperation.swift:35 | reading the digits back gives the number |
| Common.NatToStringInjective | Sources/ocrit/Implementation/PDFOCROperation.swift:35 | two different page numbers never print alike |
| Common.LocalizedDescription | Sources/ocrit/OCRIT.swift:50 | a `Failure` shows its own description, a framework error its localized message, and a `ValidationError` Foundation's generic text, not its message |
| Common.Escaped | Sources/ocrit/Implementation/PDFOCROperation.swift:40 | the escaped text is never shorter than the original |
| Common.PlainTextUnescaped | Sources/ocrit/Implementation/PDFOCROperation.swift:40 | a text with nothing to escape is left as it is |
| Common.UnescapeEscaped | Sources/ocrit/Implementation/PDFOCROperation.swift:40 | the escaping of `debugDescription` loses nothing: the escaped text reads back to the original |
| Common.Interpolated | Sources/ocrit/Implementation/PDFOCROperation.swift:40 | `"\(error)"` shows a `ValidationError`'s message and a framework error's full `NSError` description; a `Failure` shows `Failure(errorDescription: Optional("…"))` whose quoted part reads back to its description |
| Transcripts.AssembleTranscript | Sources/ocrit/Implementation/Base/CGImageOCR.swift:28-32 | the append loop builds the in-order concatenation of each top candidate followed by a line break |
| Transcripts.TranscriptAppend | Sources/ocrit/Implementation/Base/CGImageOCR.swift:28-32 | the transcript of two runs of observations is their transcripts one after the other |
| Transcripts.TranscriptLineBreaks | Sources/ocrit/Implementation/Base/CGImageOCR.swift:28-32 | the transcript holds one appended line break per observation (plus those inside candidates); no observations give the empty text |
| Transcripts.SplitTranscript | Sources/ocrit/Implementation/Base/CGImageOCR.swift:28-34 | splitting a transcript of single-line candidates at line breaks gives back the candidates, in order |
| Recognition.RejectWithFailure | Sources/ocrit/Implementation/Base/CGImageOCR.swift:85 | the fileprivate copy throws a `Failure` whose message starts with `Unsupported language "<code>"` |
| Recognition.ValidateLanguagesPrivately | Sources/ocrit/Implementation/Base/CGImageOCR.swift:78-90 | nil for an empty request, the request itself iff all codes are supported, otherwise a `Failure` naming the first unsupported code |
| Recognition.PrivateValidationAgrees | Sources/ocrit/Implementation/Base/CGImageOCR.swift:78-90 | the fileprivate copy accepts exactly what the standalone check accepts, with the same result; a failing query is rethrown by both; a rejection's `Failure` description is exactly the standalone `ValidationError`'s message |
| Recognition.LoadImage | Sources/ocrit/Implementation/ImageOCROperation.swift:15-21 | succeeds iff the file decodes to a CGImage; an unreadable file fails with `Couldn't read image at <path>`, a missing CGImage with `Couldn't read CGImage fir <name>` |
| Recognition.Perform | Sources/ocrit/Implementation/Base/CGImageOCR.swift:40-63 | a resolution error reaches the completion without performing the request; otherwise the request runs at the accurate level with the resolved languages and a throwing `perform` reaches the completion as an error |
| Recognition.Completion | Sources/ocrit/Implementation/Base/CGImageOCR.swift:19-35 | an engine error is passed on unchanged, results that are not text observations fail with `No results`, and observations give their transcript |
| Recognition.Complete | Sources/ocrit/Implementation/Base/CGImageOCR.swift:19-35 | the completion handler with its transcript loop resumes with exactly what `Completion` specifies |
| Recognition.RecognizeWith | Sources/ocrit/Implementation/Base/CGImageOCR.swift:17-38 | the text is returned iff the request was performed and completed with observations, and it is then their transcript; every failure is routed to the error |
| Recognition.RecognizedLines | Sources/ocrit/Implementation/Base/CGImageOCR.swift:28-34 | a successful recognition of single-line candidates yields a transcript whose lines are exactly the candidates |
| Recognition.CGImageOCR.constructor | Sources/ocrit/Implementation/Base/CGImageOCR.swift:9-15 | a new recognizer keeps its image and languages and has no request or handler yet |
| Recognition.CGImageOCR.PerformRequest | Sources/ocrit/Implementation/Base/CGImageOCR.swift:40-63 | the completion receives `Perform`'s outcome; `request` and `handler` are stored only once the languages resolved, and then hold an accurate request and a handler for the image |
| Recognition.CGImageOCR.Run | Sources/ocrit/Implementation/Base/CGImageOCR.swift:17-38 | returns what `RecognizeWith` specifies for the fileprivate resolution, with the fields as `PerformRequest` leaves them |
| OperationBase.Continuation.constructor | Sources/ocrit/Implementation/ImageOCROperation.swift:27 | a new stream has yielded nothing and has not finished |
| OperationBase.Continuation.Yield | Sources/ocrit/Implementation/ImageOCROperation.swift:34 | a result is appended while the stream is open and dropped after it finished |
| OperationBase.Continuation.Finish | Sources/ocrit/Implementation/ImageOCROperation.swift:35-37 | the first finish decides how the stream ends; later ones are ignored |
| OperationBase.Continuation.Observed | Sources/ocrit/Implementation/Base/OCROperation.swift:8-11 | the consumer sees the yielded results in order and the ending |
| ImageOperation.ImageStream | Sources/ocrit/Implementation/ImageOCROperation.swift:14-41 | `run()` throws iff the image does not load, and then throws the loading error before any stream exists |
| ImageOperation.ImageStreamShape | Sources/ocrit/Implementation/ImageOCROperation.swift:27-40 | a loaded image's stream yields exactly one result carrying the transcript and finishes normally, or yields nothing and finishes with the recognition's error |
| ImageOperation.ResultNamedAfterImage | Sources/ocrit/Implementation/ImageOCROperation.swift:23 | every result is named after the image's last path component with its extension removed |
| ImageOperation.ImageOCROperation.constructor | Sources/ocrit/Implementation/ImageOCROperation.swift:9-12 | the operation keeps its file and languages |
| ImageOperation.ImageOCROperation.Run | Sources/ocrit/Implementation/ImageOCROperation.swift:14-41 | guards, a `CGImageOCR`, yields and finishes on a continuation give exactly `ImageStream` |
| PdfOperation.PageText | Sources/ocrit/Implementation/PDFOCROperation.swift:29-33 | a page that does not render fails with the rendering error; a rendered page gives its recognition |
| PdfOperation.PageOutcomes | Sources/ocrit/Implementation/PDFOCROperation.swift:27-33 | one outcome per page, in page order |
| PdfOperation.PageName | Sources/ocrit/Implementation/PDFOCROperation.swift:35 | a page's result is named `<basename>-<page number>` |
| PdfOperation.PageWarning | Sources/ocrit/Implementation/PDFOCROperation.swift:40 | a failed page's line starts with `WARN: Error processing PDF page #` |
| PdfOperation.PageResults | Sources/ocrit/Implementation/PDFOCROperation.swift:27-37 | at most one result per page, each named `<basename>-…` |
| PdfOperation.PageWarnings | Sources/ocrit/Implementation/PDFOCROperation.swift:38-41 | the page loop's standard error is empty or starts with `WARN: Error processing PDF page #` |
| PdfOperation.SucceededPages | Sources/ocrit/Implementation/PDFOCROperation.swift:27-37 | lists only visited pages whose recognition succeeded |
| PdfOperation.FailedPages | Sources/ocrit/Implementation/PDFOCROperation.swift:27-41 | lists only visited pages that failed |
| PdfOperation.PdfStream | Sources/ocrit/Implementation/PDFOCROperation.swift:14-47 | a document that cannot be opened throws `Failed to read PDF at <path>`, one without pages `PDF has no pages at <path>`, both before streaming; otherwise the stream always finishes normally with at most one result per page |
| PdfOperation.PartitionPages | Sources/ocrit/Implementation/PDFOCROperation.swift:27-42 | every visited page either yields or warns; the yielding pages ascend; yielding and failing pages together number N |
| PdfOperation.ResultsFollowPages | Sources/ocrit/Implementation/PDFOCROperation.swift:27-37 | the i-th result is the text of the i-th page that succeeded, named after that page, so there are N minus the failed pages of them |
| PdfOperation.DistinctPageNames | Sources/ocrit/Implementation/PDFOCROperation.swift:35 | no two results of a document share a suggested file name |
| PdfOperation.NamesDetermineNumber | Sources/ocrit/Implementation/PDFOCROperation.swift:35 | a page name determines its page number |
| PdfOperation.WarningsOnlyForFailures | Sources/ocrit/Implementation/PDFOCROperation.swift:38-41 | standard error gets nothing exactly when no page failed, and at least one character per failed page |
| PdfOperation.WarningsFollowFailedPages | Sources/ocrit/Implementation/PDFOCROperation.swift:27-41 | standard error is the concatenation, in page order, of one warning per failed page and nothing else |
| PdfOperation.FailedPageWarned | Sources/ocrit/Implementation/PDFOCROperation.swift:38-41 | every failed page's warning, naming its page number, document and error, appears on standard error |
| PdfOperation.PDFOCROperation.constructor | Sources/ocrit/Implementation/PDFOCROperation.swift:9-12 | the operation keeps its document and languages |
| PdfOperation.PDFOCROperation.RecognizePage | Sources/ocrit/Implementation/PDFOCROperation.swift:29-33 | the loop body renders the page and recognizes it with a fresh `CGImageOCR`, giving `PageText` |
| PdfOperation.PDFOCROperation.VisitPages | Sources/ocrit/Implementation/PDFOCROperation.swift:27-42 | the page loop yields exactly the results and writes exactly the warnings the specification functions give, in page order, without finishing the stream |
| PdfOperation.PDFOCROperation.Run | Sources/ocrit/Implementation/PDFOCROperation.swift:14-47 | returns `PdfStream`, leaves standard output alone and appends the page warnings to standard error |
| LegacyOperation.RejectWithoutColon | Sources/ocrit/Implementation/OCROperation.swift:80 | the legacy copy throws a `Failure` starting with `Unsupported language "<code>"` and containing every supported code |
| LegacyOperation.ResolveLanguages | Sources/ocrit/Implementation/OCROperation.swift:73-85 | nil for no languages, the list itself iff every code is supported, a failing query rethrown, otherwise a `Failure` naming the first unsupported code |
| LegacyOperation.Transcription | Sources/ocrit/Implementation/OCROperation.swift:17-46 | an image that does not load fails with its loading error before recognition; a loaded image gives its recognition with the legacy resolution |
| LegacyOperation.UnsupportedLanguageFails | Sources/ocrit/Implementation/OCROperation.swift:73-85 | with an unsupported language, every loaded image fails with a `Failure` starting with `Unsupported language`, naming the first unsupported code and listing every supported one |
| LegacyOperation.AgreesWithImageStream | Sources/ocrit/Implementation/OCROperation.swift:17-46 | the legacy operation returns a transcript exactly when the image stream yields a result, and the result carries that transcript; both fail alike on loading |
| LegacyOperation.OCROperation.constructor | Sources/ocrit/Implementation/OCROperation.swift:9-15 | a new operation keeps its image and languages and has no request or handler |
| LegacyOperation.OCROperation.PerformRequest | Sources/ocrit/Implementation/OCROperation.swift:48-71 | a resolve failure reaches the completion and skips `perform`; the fields are stored only on success; a `perform` failure reaches the completion |
| LegacyOperation.OCROperation.Run | Sources/ocrit/Implementation/OCROperation.swift:17-46 | returns exactly `Transcription`, with the fields stored only when the image loaded and the languages resolved |
| Paths.LastPathComponent | Sources/ocrit/OCRIT.swift:71 | the name is the part of the path after its last `/`, holds no `/`, and is the whole path when there is no `/` |
| Paths.DeletingPathExtension | Sources/ocrit/Implementation/ImageOCROperation.swift:23 | the stem is a prefix of the name; if anything was removed it was a `.` followed by a non-empty extension without dots, and the stem is not empty |
| Paths.FileStem | Sources/ocrit/Implementation/ImageOCROperation.swift:23 | the name a result is saved under holds no `/` |
| Paths.AppendingPathComponent | Sources/ocrit/OCRIT.swift:83-84 | the component is placed inside the directory: after it when the directory already ends in `/`, after a `/` otherwise; it is then the last component |
| Paths.TextFileURL | Sources/ocrit/OCRIT.swift:83-85 | the text file is `<output>/<stem>.txt`: the image's stem followed by `.txt`, inside the output directory |
| Paths.TextFileKeepsStem | Sources/ocrit/OCRIT.swift:83-85 | removing the extension of the text file gives back the image's stem (`test-en.png` goes to `test-en.txt`) |
| Host.WriteText | Sources/ocrit/OCRIT.swift:87 | the write succeeds iff the path is writable and not a directory, and then the file holds exactly the text and no other entry changes |
| Host.SetTimestamps | Sources/ocrit/OCRIT.swift:89-92 | only the dates of the written file change, and only when the system allows it |
| Host.CocoaError | Sources/ocrit/OCRIT.swift:87-91 | a failed file operation's error interpolates as an `NSCocoaErrorDomain` description containing its message, and its localized description is the message alone |
| Host.IsExistingDirectory | Sources/ocrit/OCRIT.swift:98-102 | only an existing entry can be a directory, and a directory is neither an image nor a file with dates |
| Host.Console.constructor | Sources/ocrit/OCRIT.swift:33 | both streams start empty |
| Host.Console.PutError | Sources/ocrit/OCRIT.swift:33 | `fputs` appends its text to standard error only |
| Host.Console.Print | Sources/ocrit/OCRIT.swift:78-79 | `print` appends its text and a line break to standard output only |
| Host.FileSystem.constructor | Sources/ocrit/OCRIT.swift:87 | the file system starts with the given entries and refusals |
| Host.FileSystem.Write | Sources/ocrit/OCRIT.swift:87 | the entries become what `WriteText` gives, or stay as they were with its error |
| Host.FileSystem.SetDates | Sources/ocrit/OCRIT.swift:91 | the entries become what `SetTimestamps` gives, or stay as they were with its error |
| Cli.WithDefaults | Sources/ocrit/OCRIT.swift:17-22 | by default output goes to standard output and no language is requested |
| Cli.OutputModeSeparatesEffects | Sources/ocrit/OCRIT.swift:22-29 | `shouldOutputToStdout` decides what a run may touch: when printing, the output check never fails and no file changes; when writing to a directory, nothing is printed |
| Cli.CheckImage | Sources/ocrit/OCRIT.swift:37-47 | an input passes iff it exists and its type conforms to an image; otherwise each check fails with its own error: `Image doesn't exist at <path>`, the type lookup's own error, `Unable to determine file type at <path>`, or `File at <path> is not an image` |
| Cli.FirstInvalid | Sources/ocrit/OCRIT.swift:35-51 | no warning iff every input passes; otherwise the warning is the error of the first input that fails |
| Cli.ValidateImages | Sources/ocrit/OCRIT.swift:35-51 | the validation loop stops at the first failing input with exactly `FirstInvalid` |
| Cli.LanguageMessage | Sources/ocrit/OCRIT.swift:53-61 | `Performing OCR…` without languages, `Performing OCR with language: <code>…` with one, `Performing OCR with languages: ` and the codes joined by `, ` with more, and every requested code appears in it |
| Cli.FailureLine | Sources/ocrit/OCRIT.swift:71 | a failed input is reported as `OCR failed for <name>: …` |
| Cli.ValidationWarning | Sources/ocrit/OCRIT.swift:35-51 | no warning iff every input passes the checks; otherwise `WARN: ` and the description of the first failure, on one line |
| Cli.WriteOutput | Sources/ocrit/OCRIT.swift:76-93 | to standard output: `name:` and the text followed by a blank line; to a directory: standard streams untouched, only `<output>/<stem>.txt` may appear, a refused write throws the write error and changes nothing, otherwise the file holds the text and then takes the image's dates when they can be read, a refused date change throwing the attribute error with the text still written |
| Cli.Announced | Sources/ocrit/OCRIT.swift:33-61 | standard error gets exactly `Validating images…`, then the validation warning, then the language line, and every requested language is named |
| Cli.ProcessImage | Sources/ocrit/OCRIT.swift:64-72 | an input whose transcription fails only adds its `OCR failed for` line to standard error; printing never touches the files; writing to a directory never touches standard output |
| Cli.ProcessImages | Sources/ocrit/OCRIT.swift:63-73 | printing leaves the files as they were and writing to a directory leaves standard output as it was, across every input |
| Cli.RunCommand | Sources/ocrit/OCRIT.swift:24-74 | the run throws iff output goes to a path that is not an existing directory, and then nothing has been written anywhere; otherwise it announces and then processes every input in order, whatever the validation pass warned about |
| Cli.Write | Sources/ocrit/OCRIT.swift:76-93 | the method changes the console and the files exactly as `WriteOutput` specifies |
| Cli.ProcessOne | Sources/ocrit/OCRIT.swift:64-72 | one pass of the loop changes the console and the files exactly as `ProcessImage` specifies |
| Cli.ProcessAll | Sources/ocrit/OCRIT.swift:63-73 | the loop processes every input in order, exactly as `ProcessImages` specifies |
| Cli.Announce | Sources/ocrit/OCRIT.swift:33-61 | writes exactly what `Announced` specifies |
| Cli.Run | Sources/ocrit/OCRIT.swift:24-74 | the method changes the console and the files exactly as `RunCommand` specifies and throws its failure |
| Cli.PrintingOneInput | Sources/ocrit/OCRIT.swift:63-80 | when printing, one input adds its entry to standard output or its failure line to standard error and leaves the files alone |
| Cli.PrintingListsEveryInput | Sources/ocrit/OCRIT.swift:63-80 | when printing, the files are untouched and the inputs, each independently of the others and in order, add their transcripts to standard output and their failures to standard error |
| Cli.WriteOutputAppends | Sources/ocrit/OCRIT.swift:76-93 | writing a transcript never touches standard error and only adds to standard output |
| Cli.ProcessImageAppends | Sources/ocrit/OCRIT.swift:63-73 | processing one input only adds to both streams |
| Cli.ProcessingAppends | Sources/ocrit/OCRIT.swift:63-73 | the processing loop only adds to both streams |
| Cli.LanguagesAnnounced | Sources/ocrit/OCRIT.swift:53-61 | every requested language code appears on standard error of a run that passes the output check |
| Cli.NothingListedWhenUnsupported | Sources/ocrit/Implementation/OCROperation.swift:78-82 | with an unsupported language no input is transcribed |
| Cli.UnsupportedComplaint | Sources/ocrit/OCRIT.swift:70-72 | with an unsupported language, standard error says `Unsupported language` when some input loads |
| Cli.UnsupportedLanguageRun | Tests/ocritTests/ocritTests.swift:34-44 | printing with an unsupported language: the run succeeds, standard output and the files are untouched, and standard error contains `Unsupported language` when an input loads |
| Cli.DirectoryReceivesTranscript | Sources/ocrit/OCRIT.swift:83-87 | in directory mode a transcribed input whose file may be written ends up in `<output>/<stem>.txt` holding the transcript, and nothing is printed |
| Cli.DirectoryReportsFailures | Sources/ocrit/OCRIT.swift:66-72 | in directory mode a refused write changes no file and adds only its `OCR failed for` line; a refused date change keeps the written transcript and reports the attribute error |
| Cli.LaterInputsProcessed | Sources/ocrit/OCRIT.swift:63-73 | whatever happened to the earlier inputs, the later ones are processed from the world the earlier ones left |
| OutputDestination.Absolute | Sources/ocrit/Output.swift:16 | an absolute argument is kept; any other one is placed under the current directory |
| OutputDestination.AbsoluteIdempotent | Sources/ocrit/Output.swift:16 | the result is absolute, and making it absolute again changes nothing |
| OutputDestination.FromArgumentAsWritten | Sources/ocrit/Output.swift:11-18 | the initializer never returns nil, and every argument, `-` included, gives the `.path` case |
| OutputDestination.DashBecomesAPath | Sources/ocrit/Output.swift:12-17 | `-` gives the path `<cwd>/-` rather than standard output |
| OutputDestination.FromArgument | Sources/ocrit/Output.swift:11-18 | never nil; standard output iff the argument is `-`, any other argument its absolute path |
| OutputDestination.FromArgumentAgreesWithRun | Sources/ocrit/OCRIT.swift:22 | the intended parse selects standard output exactly when `shouldOutputToStdout` holds, and a path otherwise |
| OutputDestination.IsStdOutput | Sources/ocrit/Output.swift:22-27 | `isStdOutput` holds exactly for the `.stdOutput` case |
| OutputDestination.PathOf | Sources/ocrit/Output.swift:29-34 | `path` is nil exactly for `.stdOutput` and otherwise the carried path |

## Left out

- The Vision recognizer, `NSImage` and `CGImage` decoding, and PDF page rendering
  (`CGPDFDocument+CGImage.swift`) are not modelled. They appear as parameters: an
  `Engine` function, the `ImageLoad` recorded on each file, and a `PdfDocument`
  holding each page's rendering or its error (`Page #N not found.`,
  `Failed to create CGImage.`).
- Asynchrony is not modelled: `AsyncThrowingStream`, `Task` and checked
  continuations. Each stream's task runs to completion before `run()` returns, so
  the model observes the final stream. It does not capture how the consumer
  interleaves with the producer.
- The `OCROperation` protocol is not modelled as a type. Its two conforming
  classes are modelled on their own.
- The `fast` flag is not modelled. `PDFOCROperation.run(fast:)` passes `fast` to a
  `CGImageOCR.run` that takes no parameter and always uses the accurate level. The
  model recognizes PDF pages at the accurate level.
- `CGImageOCR.swift:71-76` defines a second static `validateLanguages(with:)`,
  identical to the one in `VNRecognizeTextRequest+Validation.swift`. It is modelled
  once, by `RequestValidation.ValidateLanguagesStatically`.
- The Cocoa error texts for a failed write or a failed date change are stand-ins
  (`Host.WriteError`, `Host.AttributeError`): the messages, the error code 513 and the
  `UserInfo` contents of `Host.CocoaError` are not Foundation's exact output.
- Paths are plain `/`-separated strings. Tilde expansion, symbolic links, `..`
  components and `file://` URLs are not modelled.
- `OutputDestination.Absolute` takes the current directory as a parameter and does
  not normalise the path the way `Path.absolute()` does.
- `Paths.DeletingPathExtension` models a file name's last extension only. It does
  not reproduce Foundation's special cases for names such as `a.b.` or `.hidden.txt`.
- `observation.topCandidates(1)[0]` traps when an observation has no candidate. The
  model takes each observation's top candidate as given.
- `FileManager.fileExists` is true for a directory too. The model keeps this
  behaviour: a directory passes the existence check and then fails as
  "not an image".
- Image paths are not resolved against the current directory and their tildes are
  not expanded (`OCRIT.swift:31`, `104-108`). The model uses each argument as given,
  so its messages name the path as typed rather than the absolute one.
- LastPathComponent: a path ending in `/` gives the empty name, where Foundation
  gives the last named component (`/a/dir/` gives `dir`). Such a path never loads as
  an image, but its `OCR failed for` line names the empty component where the
  program names `dir`.
- LocalizedDescription: the generic text for a `ValidationError` is a stand-in.
  Foundation builds it from the bridged error's domain and code.
- Escaped: only double and single quotes, backslashes, `\n`, `\r`, `\t` and `\0` are escaped. The
  `\u{…}` escapes `debugDescription` uses for other non-printable characters are
  not modelled.
- Argument parsing (`ArgumentParser`, `Path+ArgumentParser.swift`), the exit
  status and the test harness's process spawning are not modelled.
- `AppleTranslateOperation.swift` and `Base/TranslationOperation.swift` are not
  modelled. `OCRIT.run` never translates.

## Findings

| source | as written | input that shows it | evidently intended | confidence | as-written member | corrected member |
|---|---|---|---|---|---|---|
| Sources/ocrit/Output.swift:12-17 | `self = .stdOutput` for `-` is overwritten by the unconditional `self = .path(Path(argument).absolute())` that follows the `if` | argument `-` gives `.path("<cwd>/-")`, so `isStdOutput` is false | `-` selects `.stdOutput` and only other arguments become paths | high (not executed) | OutputDestination.FromArgumentAsWritten, OutputDestination.DashBecomesAPath | OutputDestination.FromArgument, OutputDestination.FromArgumentAgreesWithRun |
