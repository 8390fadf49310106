/** The operation for an image file (`ImageOCROperation`): it loads the image before
    any stream exists, then streams the single result of recognizing it. */
module ImageOperation {
  import opened Common
  import opened Host
  import opened Paths
  import opened RequestValidation
  import opened Recognition
  import opened OperationBase

  /** What `run()` gives for an image whose file loads as `load`: the error it throws,
      or the stream as its consumer observes it once the recognition task is done. */
  function ImageStream(load: ImageLoad, url: string, customLanguages: seq<string>,
                       query: SupportedQuery, engine: Engine): (r: Result<Stream>)
    ensures r.Err? <==> !load.Loaded?
    ensures r.Err? ==> r == Err(LoadImage(load, url).error)
  {
    match LoadImage(load, url)
    case Err(e) => Err(e)
    case Ok(image) =>
      match RecognizeWith(image, ValidateLanguagesPrivately(customLanguages, query), engine)
      case Ok(text) => Ok(Stream([OCRResult(text, FileStem(url))], Some(Finished)))
      case Err(e) => Ok(Stream([], Some(FinishedThrowing(e))))
  }

  /** A stream for an image yields exactly one result and finishes normally, or
      yields nothing and finishes with the recognition's error; the result carries
      the transcript and is named after the image without its extension. */
  lemma ImageStreamShape(load: ImageLoad, url: string, customLanguages: seq<string>,
                         query: SupportedQuery, engine: Engine)
    requires load.Loaded?
    ensures var text := RecognizeWith(load.image, ValidateLanguagesPrivately(customLanguages, query), engine);
            var r := ImageStream(load, url, customLanguages, query, engine);
            && r.Ok? && r.value.end.Some?
            && (text.Ok? <==> r.value.end == Some(Finished))
            && (text.Ok? ==> |r.value.results| == 1
                             && r.value.results[0].text == text.value
                             && r.value.results[0].suggestedFilename == FileStem(url)
                             && '/' !in r.value.results[0].suggestedFilename)
            && (text.Err? ==> r.value.results == [] && r.value.end == Some(FinishedThrowing(text.error)))
  {
  }

  /** The name a result gets is the image's file name with its extension removed. */
  lemma ResultNamedAfterImage(load: ImageLoad, url: string, customLanguages: seq<string>,
                              query: SupportedQuery, engine: Engine)
    requires ImageStream(load, url, customLanguages, query, engine).Ok?
    ensures var results := ImageStream(load, url, customLanguages, query, engine).value.results;
            forall i :: 0 <= i < |results| ==>
              results[i].suggestedFilename == DeletingPathExtension(LastPathComponent(url))
  {
  }

  class ImageOCROperation {
    const imageURL: string
    const customLanguages: seq<string>

    constructor (fileURL: string, customLanguages: seq<string>)
      ensures imageURL == fileURL && this.customLanguages == customLanguages
    {
      imageURL := fileURL;
      this.customLanguages := customLanguages;
    }

    /** `run()`, with the files as `nodes`; the recognition task is run to completion
        before the stream is returned. */
    method Run(nodes: map<string, Node>, query: SupportedQuery, engine: Engine) returns (r: Result<Stream>)
      ensures r == ImageStream(ImageAt(nodes, imageURL), imageURL, customLanguages, query, engine)
    {
      var loaded := LoadImage(ImageAt(nodes, imageURL), imageURL);
      if loaded.Err? {
        return Err(loaded.error);
      }
      var filename := FileStem(imageURL);
      var ocr := new CGImageOCR(loaded.value, customLanguages);
      var continuation := new Continuation();
      var text := ocr.Run(query, engine);
      assert continuation.yielded == [] && continuation.end == None;
      assert text == RecognizeWith(loaded.value, ValidateLanguagesPrivately(customLanguages, query), engine);
      if text.Ok? {
        continuation.Yield(OCRResult(text.value, filename));
        continuation.Finish(Finished);
        assert continuation.yielded == [OCRResult(text.value, filename)];
        assert continuation.end == Some(Finished);
      } else {
        continuation.Finish(FinishedThrowing(text.error));
      }
      r := Ok(continuation.Observed());
      assert ImageAt(nodes, imageURL).Loaded? && ImageAt(nodes, imageURL).image == loaded.value;
    }
  }
}
