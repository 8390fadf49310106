/** The operation the command line actually runs for every input (the class
    `OCROperation` of `Implementation/OCROperation.swift`): it loads the image, resolves
    its own copy of the language check and recognizes the image into a transcript. */
module LegacyOperation {
  import opened Common
  import opened Host
  import opened Paths
  import opened RequestValidation
  import opened Transcripts
  import opened Recognition
  import opened OperationBase
  import opened ImageOperation

  /** The error this copy of the language check throws: a `Failure` whose message
      says `Supported languages are` with no colon. */
  function RejectWithoutColon(code: string, supported: seq<string>): (e: Error)
    ensures e.Failure?
    ensures StartsWith("Unsupported language \"" + code + "\"", e.errorDescription)
    ensures forall i :: 0 <= i < |supported| ==> IsInfix(supported[i], e.errorDescription)
  {
    Failure(UnsupportedMessage(code, supported, ""))
  }

  /** `resolveLanguages(for:)`. */
  function ResolveLanguages(customLanguages: seq<string>, query: SupportedQuery): (r: Result<Option<seq<string>>>)
    ensures customLanguages == [] ==> r == Ok(None)
    ensures customLanguages != [] && query.QueryFailed? ==> r == Err(query.error)
    ensures r.Ok? ==> r.value != Some([]) && (customLanguages != [] ==> r.value == Some(customLanguages))
    ensures customLanguages != [] && query.Languages? ==>
              (r.Ok? <==> forall j :: 0 <= j < |customLanguages| ==> customLanguages[j] in query.codes)
    ensures r.Err? && query.Languages? ==>
              exists i: nat :: IsFirstUnsupported(customLanguages, query.codes, i)
                             && r.error == RejectWithoutColon(customLanguages[i], query.codes)
  {
    Validate(customLanguages, query, RejectWithoutColon)
  }

  /** What `run()` returns or throws for an image whose file loads as `load`. */
  function Transcription(load: ImageLoad, url: string, customLanguages: seq<string>,
                         query: SupportedQuery, engine: Engine): (r: Result<string>)
    ensures !load.Loaded? ==> r == Err(LoadImage(load, url).error)
    ensures load.Loaded? ==> r == RecognizeWith(load.image, ResolveLanguages(customLanguages, query), engine)
  {
    match LoadImage(load, url)
    case Err(e) => Err(e)
    case Ok(image) => RecognizeWith(image, ResolveLanguages(customLanguages, query), engine)
  }

  /** Asking for a language the recognizer does not support fails every image that
      loads, before the recognizer is used, with a message naming the first such
      language and every supported one. */
  lemma UnsupportedLanguageFails(load: ImageLoad, url: string, customLanguages: seq<string>,
                                 codes: seq<string>, engine: Engine)
    requires load.Loaded?
    requires exists j :: 0 <= j < |customLanguages| && customLanguages[j] !in codes
    ensures var r := Transcription(load, url, customLanguages, Languages(codes), engine);
            && r.Err? && r.error.Failure?
            && StartsWith("Unsupported language", r.error.errorDescription)
            && (exists i: nat :: IsFirstUnsupported(customLanguages, codes, i)
                             && StartsWith("Unsupported language \"" + customLanguages[i] + "\"",
                                           r.error.errorDescription))
            && forall k :: 0 <= k < |codes| ==> IsInfix(codes[k], r.error.errorDescription)
  {
    var resolution := ResolveLanguages(customLanguages, Languages(codes));
    assert resolution.Err?;
    var i: nat :| IsFirstUnsupported(customLanguages, codes, i)
                  && resolution.error == RejectWithoutColon(customLanguages[i], codes);
    var message := resolution.error.errorDescription;
    assert message[..|"Unsupported language"|] == "Unsupported language" by {
      assert StartsWith("Unsupported language \"" + customLanguages[i] + "\"", message);
      assert message[..|"Unsupported language"|]
          == ("Unsupported language \"" + customLanguages[i] + "\"")[..|"Unsupported language"|];
    }
  }

  /** The stream-based `ImageOCROperation` and this operation agree on every
      image they both transcribe: the stream yields a result exactly when this
      operation returns a transcript, and the result carries that transcript. */
  lemma AgreesWithImageStream(load: ImageLoad, url: string, customLanguages: seq<string>,
                              query: SupportedQuery, engine: Engine)
    ensures var t := Transcription(load, url, customLanguages, query, engine);
            var s := ImageStream(load, url, customLanguages, query, engine);
            && (s.Err? <==> !load.Loaded?)
            && (s.Err? ==> t == Err(s.error))
            && (t.Ok? <==> s.Ok? && s.value.results != [])
            && (t.Ok? ==> s.value.results == [OCRResult(t.value, FileStem(url))])
  {
    SameVerdictAnyError(customLanguages, query, RejectWithoutColon, RejectWithFailure);
  }

  class OCROperation {
    const imageURL: string
    const customLanguages: seq<string>
    var request: Option<TextRequest>
    var handler: Option<Handler>

    constructor (imageURL: string, customLanguages: seq<string>)
      ensures this.imageURL == imageURL && this.customLanguages == customLanguages
      ensures request == None && handler == None
    {
      this.imageURL := imageURL;
      this.customLanguages := customLanguages;
      request := None;
      handler := None;
    }

    /** `performRequest(with:completion:)`, returning what the completion is called
        with. The request and handler are kept only once the languages resolved. */
    method PerformRequest(image: Image, query: SupportedQuery, engine: Engine) returns (outcome: EngineOutcome)
      modifies this
      ensures var resolution := ResolveLanguages(customLanguages, query);
              && outcome == Perform(image, resolution, engine)
              && (resolution.Err? ==> request == old(request) && handler == old(handler))
              && (resolution.Ok? ==> request == Some(TextRequest(Accurate, resolution.value))
                                     && handler == Some(Handler(image)))
    {
      var newHandler := Handler(image);
      var newRequest := TextRequest(Accurate, None);
      var resolution := ResolveLanguages(customLanguages, query);
      if resolution.Err? {
        outcome := EngineError(resolution.error);
        return;
      }
      if resolution.value.Some? {
        newRequest := newRequest.(languages := resolution.value);
      }
      request := Some(newRequest);
      handler := Some(newHandler);
      match engine(image, newRequest)
      case PerformThrew(e) =>
        outcome := EngineError(e);
      case Completed(o) =>
        outcome := o;
    }

    /** `run()`, with the files as `nodes`: the guards on the image, then the
        recognition and the transcript loop of the completion handler. */
    method Run(nodes: map<string, Node>, query: SupportedQuery, engine: Engine) returns (r: Result<string>)
      modifies this
      ensures r == Transcription(ImageAt(nodes, imageURL), imageURL, customLanguages, query, engine)
      ensures var load := ImageAt(nodes, imageURL);
              var resolution := ResolveLanguages(customLanguages, query);
              && (!load.Loaded? || resolution.Err? ==> request == old(request) && handler == old(handler))
              && (load.Loaded? && resolution.Ok? ==> request == Some(TextRequest(Accurate, resolution.value))
                                                     && handler == Some(Handler(load.image)))
    {
      var loaded := LoadImage(ImageAt(nodes, imageURL), imageURL);
      if loaded.Err? {
        return Err(loaded.error);
      }
      var outcome := PerformRequest(loaded.value, query, engine);
      r := Complete(outcome);
    }
  }
}
