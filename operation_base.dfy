/** What a document operation produces: a stream of `OCRResult`s that ends either
    normally or with an error. The stream is fed through a continuation; once it has
    finished, further yields and finishes are ignored, as `AsyncThrowingStream`
    does. */
module OperationBase {
  import opened Common

  /** One recognized text and the file name (without extension) it should be saved as. */
  datatype OCRResult = OCRResult(text: string, suggestedFilename: string)

  datatype Termination = Finished | FinishedThrowing(error: Error)

  /** Everything a consumer of the stream observes: the results in the order they
      were yielded and how the stream ended, if it has. */
  datatype Stream = Stream(results: seq<OCRResult>, end: Option<Termination>)

  /** The continuation handed to the stream's build closure. */
  class Continuation {
    var yielded: seq<OCRResult>
    var end: Option<Termination>

    constructor ()
      ensures yielded == [] && end == None
    {
      yielded := [];
      end := None;
    }

    /** `continuation.yield(result)`. */
    method Yield(result: OCRResult)
      modifies this
      ensures end == old(end)
      ensures yielded == if old(end).None? then old(yielded) + [result] else old(yielded)
    {
      if end.None? {
        yielded := yielded + [result];
      }
    }

    /** `continuation.finish()` and `continuation.finish(throwing:)`. */
    method Finish(termination: Termination)
      modifies this
      ensures yielded == old(yielded)
      ensures end == if old(end).None? then Some(termination) else old(end)
    {
      if end.None? {
        end := Some(termination);
      }
    }

    function Observed(): (s: Stream)
      reads this
      ensures s.results == yielded && s.end == end
    {
      Stream(yielded, end)
    }
  }
}
