/** Checking requested recognition languages against the languages the text
    recognizer supports (`VNRecognizeTextRequest.validateLanguages(with:)`). The same
    check is written out three times in the program, each throwing its own error; the
    search for the first unsupported code is shared here and each copy supplies the
    error it throws. */
module RequestValidation {
  import opened Common

  /** What `request.supportedRecognitionLanguages()` gives: the supported codes in the
      recognizer's order, or the error it throws. */
  datatype SupportedQuery = Languages(codes: seq<string>) | QueryFailed(error: Error)

  /** `i` is the position of the first requested code that is not supported. */
  predicate IsFirstUnsupported(requested: seq<string>, supported: seq<string>, i: nat)
  {
    && i < |requested|
    && requested[i] !in supported
    && forall j :: 0 <= j < i ==> requested[j] in supported
  }

  /** The `for`/`guard` search over the requested codes, in list order. */
  function FirstUnsupported(requested: seq<string>, supported: seq<string>): (r: Option<nat>)
    ensures r.None? <==> forall j :: 0 <= j < |requested| ==> requested[j] in supported
    ensures r.Some? ==> IsFirstUnsupported(requested, supported, r.value)
  {
    if requested == [] then None
    else if requested[0] !in supported then Some(0)
    else
      match FirstUnsupported(requested[1..], supported)
      case None => None
      case Some(k) => Some(k + 1)
  }

  /** The check common to every copy: `nil` for an empty request (the supported
      languages are not even queried), the request itself when every code is
      supported, and otherwise the error `reject` builds from the first unsupported
      code and the full supported list. */
  function Validate(requested: seq<string>, query: SupportedQuery,
                    reject: (string, seq<string>) -> Error): (r: Result<Option<seq<string>>>)
    ensures requested == [] ==> r == Ok(None)
    ensures requested != [] && query.QueryFailed? ==> r == Err(query.error)
    ensures requested != [] && query.Languages? ==>
              (r.Ok? <==> forall j :: 0 <= j < |requested| ==> requested[j] in query.codes)
    ensures r.Ok? && requested != [] ==> r.value == Some(requested)
    ensures r.Ok? ==> r.value != Some([])
    ensures r.Err? && query.Languages? ==>
              exists i: nat :: IsFirstUnsupported(requested, query.codes, i)
                          && r.error == reject(requested[i], query.codes)
  {
    if requested == [] then Ok(None)
    else
      match query
      case QueryFailed(e) => Err(e)
      case Languages(codes) =>
        match FirstUnsupported(requested, codes)
        case None => Ok(Some(requested))
        case Some(i) => Err(reject(requested[i], codes))
  }

  /** Which requests pass does not depend on the error a copy throws; a rejection
      by two copies names the same first unsupported code. */
  lemma SameVerdictAnyError(requested: seq<string>, query: SupportedQuery,
                            reject1: (string, seq<string>) -> Error,
                            reject2: (string, seq<string>) -> Error)
    ensures var a := Validate(requested, query, reject1);
            var b := Validate(requested, query, reject2);
            && a.Ok? == b.Ok?
            && (a.Ok? ==> a.value == b.value)
            && (a.Err? && query.QueryFailed? ==> a == b)
            && (a.Err? && query.Languages? ==>
                  exists i: nat :: IsFirstUnsupported(requested, query.codes, i)
                                 && a.error == reject1(requested[i], query.codes)
                                 && b.error == reject2(requested[i], query.codes))
  {
    if requested != [] && query.Languages? {
      match FirstUnsupported(requested, query.codes)
      case None =>
      case Some(i) =>
        assert IsFirstUnsupported(requested, query.codes, i);
    }
  }

  /** `Unsupported language "<code>". Supported languages are<punctuation> <all codes>`. */
  function UnsupportedMessage(code: string, supported: seq<string>, punctuation: string): (message: string)
    ensures StartsWith("Unsupported language \"" + code + "\"", message)
    ensures StartsWith("Unsupported language", message)
    ensures IsInfix(code, message)
    ensures forall i :: 0 <= i < |supported| ==> IsInfix(supported[i], message)
  {
    var lead := "Unsupported language \"";
    var tail := "\". Supported languages are" + punctuation + " ";
    var message := lead + code + tail + Join(supported, ", ");
    assert message[..|lead + code + "\""|] == lead + code + "\"";
    assert message[..|"Unsupported language"|] == "Unsupported language";
    assert InfixAt(code, message, |lead|) by {
      assert message[|lead|..|lead| + |code|] == code;
    }
    forall i | 0 <= i < |supported|
      ensures IsInfix(supported[i], message)
    {
      JoinContainsEach(supported, ", ", i);
      InfixOfConcat(supported[i], lead + code + tail, Join(supported, ", "), "");
      assert message == lead + code + tail + Join(supported, ", ") + "";
    }
    message
  }

  /** The error this file's copy throws: an ArgumentParser `ValidationError`. */
  function RejectWithValidationError(code: string, supported: seq<string>): (e: Error)
    ensures e.ValidationError?
    ensures StartsWith("Unsupported language \"" + code + "\"", e.message)
  {
    ValidationError(UnsupportedMessage(code, supported, ":"))
  }

  /** The instance method `validateLanguages(with:)`, asked of a request whose
      supported languages are `query`. */
  function ValidateLanguages(requested: seq<string>, query: SupportedQuery): (r: Result<Option<seq<string>>>)
    ensures requested == [] ==> r == Ok(None)
    ensures requested != [] && query.QueryFailed? ==> r == Err(query.error)
    ensures r.Ok? ==> r.value != Some([]) && (requested != [] ==> r.value == Some(requested))
    ensures requested != [] && query.Languages? ==>
              (r.Ok? <==> forall j :: 0 <= j < |requested| ==> requested[j] in query.codes)
    ensures r.Err? && query.Languages? ==>
              && r.error.ValidationError?
              && exists i: nat :: IsFirstUnsupported(requested, query.codes, i)
                             && StartsWith("Unsupported language \"" + requested[i] + "\"", r.error.message)
                             && r.error == RejectWithValidationError(requested[i], query.codes)
  {
    Validate(requested, query, RejectWithValidationError)
  }

  /** The static `validateLanguages(with:)`: the same check asked of a freshly made
      request, whose supported languages are `freshQuery`. */
  function ValidateLanguagesStatically(requested: seq<string>, freshQuery: SupportedQuery): (r: Result<Option<seq<string>>>)
    ensures r == ValidateLanguages(requested, freshQuery)
    ensures requested == [] ==> r == Ok(None)
  {
    ValidateLanguages(requested, freshQuery)
  }

  /** The rejection names the code that was refused and lists every supported code,
      so a diagnostic built from it contains all of them. */
  lemma RejectionNamesCodes(requested: seq<string>, codes: seq<string>)
    requires ValidateLanguages(requested, Languages(codes)).Err?
    ensures var message := ValidateLanguages(requested, Languages(codes)).error.message;
            && StartsWith("Unsupported language", message)
            && (exists i: nat :: IsFirstUnsupported(requested, codes, i) && IsInfix(requested[i], message))
            && forall j :: 0 <= j < |codes| ==> IsInfix(codes[j], message)
  {
    var r := ValidateLanguages(requested, Languages(codes));
    var i: nat :| IsFirstUnsupported(requested, codes, i)
                  && r.error == RejectWithValidationError(requested[i], codes);
    assert r.error.message == UnsupportedMessage(requested[i], codes, ":");
  }
}
