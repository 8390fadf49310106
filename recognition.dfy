/** Text recognition of one decoded image (`CGImageOCR`): the request is built at the
    accurate level, the custom languages are resolved against the languages the
    recognizer supports, the request is performed, and the completion handler turns
    what the recognizer reports into a transcript or an error.

    The recognizer itself is a parameter: an `Engine` maps the image and the request
    to what `perform` does, either throwing or completing with an outcome. */
module Recognition {
  import opened Common
  import opened Host
  import opened Paths
  import opened RequestValidation
  import opened Transcripts

  datatype RecognitionLevel = Accurate | Fast

  /** A `VNRecognizeTextRequest` as configured: its level, and the languages set on
      it (`None` leaves the recognizer's default). */
  datatype TextRequest = TextRequest(level: RecognitionLevel, languages: Option<seq<string>>)

  /** A `VNImageRequestHandler` made for one image. */
  datatype Handler = Handler(image: Image)

  /** What the completion handler receives: an error, results that are not text
      observations, or the top candidate of each observation in order. */
  datatype EngineOutcome =
    | EngineError(error: Error)
    | NoResults
    | Observations(topCandidates: seq<string>)

  /** What `handler.perform([request])` does: throw, or complete the request. */
  datatype PerformOutcome = PerformThrew(error: Error) | Completed(outcome: EngineOutcome)

  type Engine = (Image, TextRequest) -> PerformOutcome

  /** The error the fileprivate `validateLanguages(with:)` throws: a `Failure` whose
      message says `Supported languages are:`. */
  function RejectWithFailure(code: string, supported: seq<string>): (e: Error)
    ensures e.Failure?
    ensures StartsWith("Unsupported language \"" + code + "\"", e.errorDescription)
  {
    Failure(UnsupportedMessage(code, supported, ":"))
  }

  /** The fileprivate `validateLanguages(with:)` that `resolveLanguages` calls. */
  function ValidateLanguagesPrivately(requested: seq<string>, query: SupportedQuery): (r: Result<Option<seq<string>>>)
    ensures requested == [] ==> r == Ok(None)
    ensures requested != [] && query.QueryFailed? ==> r == Err(query.error)
    ensures r.Ok? ==> r.value != Some([]) && (requested != [] ==> r.value == Some(requested))
    ensures requested != [] && query.Languages? ==>
              (r.Ok? <==> forall j :: 0 <= j < |requested| ==> requested[j] in query.codes)
    ensures r.Err? && query.Languages? ==>
              exists i: nat :: IsFirstUnsupported(requested, query.codes, i)
                             && r.error == RejectWithFailure(requested[i], query.codes)
  {
    Validate(requested, query, RejectWithFailure)
  }

  /** The fileprivate copy behaves as the standalone validator does: it accepts the
      same requests with the same result, and a rejection for an unsupported code
      carries the same message text, only as the description of a `Failure` rather
      than as the message of a `ValidationError`. */
  lemma PrivateValidationAgrees(requested: seq<string>, query: SupportedQuery)
    ensures var mine := ValidateLanguagesPrivately(requested, query);
            var theirs := ValidateLanguages(requested, query);
            && mine.Ok? == theirs.Ok?
            && (mine.Ok? ==> mine.value == theirs.value)
            && (mine.Err? && query.QueryFailed? ==> mine == theirs)
            && (mine.Err? && query.Languages? ==> mine.error.errorDescription == theirs.error.message)
  {
    SameVerdictAnyError(requested, query, RejectWithFailure, RejectWithValidationError);
  }

  /** The guards both image operations apply before recognizing: the file must load
      as an image, and the image must give a `CGImage`. */
  function LoadImage(load: ImageLoad, url: string): (r: Result<Image>)
    ensures r.Ok? <==> load.Loaded?
    ensures r.Ok? ==> r.value == load.image
    ensures load.Unreadable? ==> r == Err(Failure("Couldn't read image at " + url))
    ensures load.NoCGImage? ==> r == Err(Failure("Couldn't read CGImage fir " + LastPathComponent(url)))
  {
    match load
    case Unreadable => Err(Failure("Couldn't read image at " + url))
    case NoCGImage => Err(Failure("Couldn't read CGImage fir " + LastPathComponent(url)))
    case Loaded(image) => Ok(image)
  }

  /** The outcome the completion handler of `performRequest` is called with, given
      how the custom languages resolved: a resolution error skips the recognizer
      altogether, a throwing `perform` is reported as an error. */
  function Perform(image: Image, resolution: Result<Option<seq<string>>>, engine: Engine): (outcome: EngineOutcome)
    ensures resolution.Err? ==> outcome == EngineError(resolution.error)
    ensures resolution.Ok? ==>
              var performed := engine(image, TextRequest(Accurate, resolution.value));
              && (performed.PerformThrew? ==> outcome == EngineError(performed.error))
              && (performed.Completed? ==> outcome == performed.outcome)
  {
    match resolution
    case Err(e) => EngineError(e)
    case Ok(languages) =>
      match engine(image, TextRequest(Accurate, languages))
      case PerformThrew(e) => EngineError(e)
      case Completed(o) => o
  }

  /** What the completion handler of `run()` resumes its continuation with. */
  function Completion(outcome: EngineOutcome): (r: Result<string>)
    ensures r.Ok? <==> outcome.Observations?
    ensures outcome.EngineError? ==> r == Err(outcome.error)
    ensures outcome.NoResults? ==> r == Err(Failure("No results"))
    ensures r.Ok? ==> r.value == Transcript(outcome.topCandidates)
  {
    match outcome
    case EngineError(e) => Err(e)
    case NoResults => Err(Failure("No results"))
    case Observations(lines) => Ok(Transcript(lines))
  }

  /** The completion handler: routes errors, and builds the transcript line by line. */
  method Complete(outcome: EngineOutcome) returns (r: Result<string>)
    ensures r == Completion(outcome)
  {
    match outcome
    case EngineError(e) =>
      r := Err(e);
    case NoResults =>
      r := Err(Failure("No results"));
    case Observations(lines) =>
      var transcript := AssembleTranscript(lines);
      r := Ok(transcript);
  }

  /** The transcript (or error) a recognition of `image` produces. */
  function RecognizeWith(image: Image, resolution: Result<Option<seq<string>>>, engine: Engine): (r: Result<string>)
    ensures resolution.Err? ==> r == Err(resolution.error)
    ensures resolution.Ok? ==>
              var performed := engine(image, TextRequest(Accurate, resolution.value));
              && (r.Ok? <==> performed.Completed? && performed.outcome.Observations?)
              && (r.Ok? ==> r.value == Transcript(performed.outcome.topCandidates))
              && (performed.PerformThrew? ==> r == Err(performed.error))
              && (performed == Completed(NoResults) ==> r == Err(Failure("No results")))
  {
    Completion(Perform(image, resolution, engine))
  }

  /** A transcript from a recognition holds one line per observation, each line
      being the observation's top candidate when candidates are single lines. */
  lemma RecognizedLines(image: Image, resolution: Result<Option<seq<string>>>, engine: Engine)
    requires resolution.Ok?
    requires var performed := engine(image, TextRequest(Accurate, resolution.value));
             && performed.Completed? && performed.outcome.Observations?
             && forall i :: 0 <= i < |performed.outcome.topCandidates| ==> '\n' !in performed.outcome.topCandidates[i]
    ensures var lines := engine(image, TextRequest(Accurate, resolution.value)).outcome.topCandidates;
            && RecognizeWith(image, resolution, engine) == Ok(Transcript(lines))
            && SplitLines(Transcript(lines)) == lines
  {
    SplitTranscript(engine(image, TextRequest(Accurate, resolution.value)).outcome.topCandidates);
  }

  /** One recognition of one decoded image. */
  class CGImageOCR {
    const image: Image
    const customLanguages: seq<string>
    var request: Option<TextRequest>
    var handler: Option<Handler>

    constructor (image: Image, customLanguages: seq<string>)
      ensures this.image == image && this.customLanguages == customLanguages
      ensures request == None && handler == None
    {
      this.image := image;
      this.customLanguages := customLanguages;
      request := None;
      handler := None;
    }

    /** `performRequest(with:completion:)`, returning what the completion is called
        with. The request and handler are kept only once the languages resolved. */
    method PerformRequest(query: SupportedQuery, engine: Engine) returns (outcome: EngineOutcome)
      modifies this
      ensures var resolution := ValidateLanguagesPrivately(customLanguages, query);
              && outcome == Perform(image, resolution, engine)
              && (resolution.Err? ==> request == old(request) && handler == old(handler))
              && (resolution.Ok? ==> request == Some(TextRequest(Accurate, resolution.value))
                                     && handler == Some(Handler(image)))
    {
      var newHandler := Handler(image);
      var newRequest := TextRequest(Accurate, None);
      var resolution := ValidateLanguagesPrivately(customLanguages, query);
      if resolution.Err? {
        outcome := EngineError(resolution.error);
        return;
      }
      if resolution.value.Some? {
        newRequest := newRequest.(languages := resolution.value);
      }
      request := Some(newRequest);
      handler := Some(newHandler);
      match engine(image, newRequest)
      case PerformThrew(e) =>
        outcome := EngineError(e);
      case Completed(o) =>
        outcome := o;
    }

    /** `run()`: performs the request and returns the transcript, or throws. */
    method Run(query: SupportedQuery, engine: Engine) returns (r: Result<string>)
      modifies this
      ensures var resolution := ValidateLanguagesPrivately(customLanguages, query);
              && r == RecognizeWith(image, resolution, engine)
              && (resolution.Err? ==> request == old(request) && handler == old(handler))
              && (resolution.Ok? ==> request == Some(TextRequest(Accurate, resolution.value))
                                     && handler == Some(Handler(image)))
    {
      var outcome := PerformRequest(query, engine);
      r := Complete(outcome);
    }
  }
}
