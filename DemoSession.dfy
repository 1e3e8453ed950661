/**
  The analysis action of the online assistant (foxglove-ai-assistant.jsx):
  the component state it reads and writes, the request's outcome and the
  delayed demo fallback.
*/
module DemoSession {
  import opened Wrappers
  import opened Text
  import opened DemoAssistant

  /** Why an analysis produced no result. */
  datatype AnalysisError =
    | EmptyDescription
    | UnparsableReply
    /** The request, the reply's decoding or `JSON.parse` threw, with this message. */
    | Failed(message: string)

  /** The error text the assistant shows. */
  function Message(e: AnalysisError): string {
    match e
    case EmptyDescription => "Please describe your dataset first"
    case UnparsableReply => "Could not parse AI response"
    case Failed(m) => if m != [] then m else "Analysis failed. Using demo mode..."
  }

  /**
    The outcome of the request once its reply is in: `reply` is the text of
    the reply's first content block (empty when there is none) or the
    message of what the request threw; `parse` stands for `JSON.parse`.
  */
  function Outcome(reply: Result<string, string>, parse: string -> Result<AnalysisResult, string>)
    : Result<AnalysisResult, AnalysisError>
  {
    match reply
    case Err(m) => Err(Failed(m))
    case Ok(text) =>
      match ExtractObject(text)
      case None => Err(UnparsableReply)
      case Some(json) =>
        match parse(json)
        case Ok(r) => Ok(r)
        case Err(m) => Err(Failed(m))
  }

  /**
    A reply text is reported as unparsable exactly when no '{' in it is
    followed by a '}'; otherwise the parser sees the leftmost-longest braced
    text.
  */
  lemma UnparsableIffNoBraces(text: string, parse: string -> Result<AnalysisResult, string>)
    ensures Outcome(Ok(text), parse) == Err(UnparsableReply) <==>
      forall i, j :: !IsObjectMatch(text, i, j)
    ensures Outcome(Ok(text), parse).Ok? ==>
      exists i, j :: IsObjectMatch(text, i, j) && parse(text[i..j + 1]) == Ok(Outcome(Ok(text), parse).value)
  {
    ExtractObjectSpec(text);
  }

  /**
    The component state the analysis action reads and writes. The action is
    asynchronous: it starts a request and returns at its first `await`, and
    the reply is handled later. Other replies and fallback timers may be
    handled in between.
  */
  class DemoState {
    var datasetInput: string
    var loading: bool
    var result: Option<AnalysisResult>
    var error: Option<AnalysisError>
    /** Descriptions captured by analyses whose request has not settled yet, in the order they were started. */
    var inFlight: seq<string>
    /** Descriptions captured by failed analyses whose one-second fallback timer has not fired yet, oldest first. */
    var pending: seq<string>

    constructor (datasetInput: string)
      ensures this.datasetInput == datasetInput
      ensures !loading && result.None? && error.None? && inFlight == [] && pending == []
    {
      this.datasetInput := datasetInput;
      loading := false;
      result := None;
      error := None;
      inFlight := [];
      pending := [];
    }

    /**
      `analyzeDataset` up to its first `await`: a description that trims to
      nothing only sets the error; otherwise loading starts, error and result
      are cleared and a request goes out carrying the current description.
    */
    method StartAnalysis()
      modifies this
      ensures datasetInput == old(datasetInput) && pending == old(pending)
      ensures Strip(datasetInput, IsJsSpace) == [] ==>
        && error == Some(EmptyDescription)
        && loading == old(loading) && result == old(result) && inFlight == old(inFlight)
      ensures Strip(datasetInput, IsJsSpace) != [] ==>
        && loading && error.None? && result.None?
        && inFlight == old(inFlight) + [datasetInput]
    {
      if Strip(datasetInput, IsJsSpace) == [] {
        error := Some(EmptyDescription);
        return;
      }
      loading := true;
      error := None;
      result := None;
      inFlight := inFlight + [datasetInput];
    }

    /**
      The rest of `analyzeDataset` once the `k`-th outstanding request has
      settled: a parsed reply becomes the result and leaves the error as it
      is; a failure records the error, leaves the result as it is and
      schedules the demo fallback for the request's description. Loading
      ends either way, even while other requests are still outstanding.
    */
    method ReplyArrives(k: nat, reply: Result<string, string>, parse: string -> Result<AnalysisResult, string>)
      requires k < |inFlight|
      modifies this
      ensures datasetInput == old(datasetInput) && !loading
      ensures inFlight == old(inFlight[..k] + inFlight[k + 1..])
      ensures Outcome(reply, parse).Ok? ==>
        result == Some(Outcome(reply, parse).value) && error == old(error) && pending == old(pending)
      ensures Outcome(reply, parse).Err? ==>
        result == old(result) && error == Some(Outcome(reply, parse).error) && pending == old(pending) + [old(inFlight[k])]
    {
      var input := inFlight[k];
      inFlight := inFlight[..k] + inFlight[k + 1..];
      var outcome := Outcome(reply, parse);
      if outcome.Ok? {
        result := Some(outcome.value);
      } else {
        error := Some(outcome.error);
        pending := pending + [input];
      }
      loading := false;
    }

    /** The oldest fallback timer fires: the demo answer for its description replaces the error. */
    method FallbackFires()
      requires pending != []
      modifies this
      ensures result == Some(GenerateDemoResult(old(pending[0])))
      ensures error.None? && pending == old(pending[1..])
      ensures loading == old(loading) && datasetInput == old(datasetInput) && inFlight == old(inFlight)
    {
      var input := pending[0];
      pending := pending[1..];
      error := None;
      var r := GenerateDemoResult(input);
      result := Some(r);
    }
  }

  /**
    A failed analysis, then within the fallback's delay a second analysis of
    the same description whose request also fails: the first fallback fires
    while the second request is outstanding, so its demo result ends up
    shown next to the second error.
  */
  method FallbackDuringLaterRequest(input: string, first: string, second: string,
                                    parse: string -> Result<AnalysisResult, string>)
    returns (result: Option<AnalysisResult>, error: Option<AnalysisError>)
    requires Strip(input, IsJsSpace) != []
    ensures result == Some(GenerateDemoResult(input)) && error == Some(Failed(second))
  {
    var state := new DemoState(input);
    state.StartAnalysis();
    state.ReplyArrives(0, Err(first), parse);
    state.StartAnalysis();
    state.FallbackFires();
    state.ReplyArrives(0, Err(second), parse);
    return state.result, state.error;
  }
}
