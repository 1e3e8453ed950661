/**
  The analysis action of the offline assistant
  (attempt-following-adrian/foxglove-ai-assistant.jsx): the component state
  it reads and writes and the delayed callback that stores the result.
*/
module TopicListSession {
  import opened Wrappers
  import opened Text
  import opened TopicListAssistant

  /** The one error the offline assistant reports. */
  datatype AnalysisError = EmptyDescription

  function Message(e: AnalysisError): string {
    match e
    case EmptyDescription => "Please describe your dataset first"
  }

  /** The component state the analysis action reads and writes. */
  class AssistantState {
    var datasetInput: string
    var topicListInput: string
    var loading: bool
    var result: Option<TopicListResult>
    var error: Option<AnalysisError>
    /** Inputs captured by analyses whose 800 ms timer has not fired yet, oldest first. */
    var pending: seq<(string, string)>

    constructor (datasetInput: string, topicListInput: string)
      ensures this.datasetInput == datasetInput && this.topicListInput == topicListInput
      ensures !loading && result.None? && error.None? && pending == []
    {
      this.datasetInput := datasetInput;
      this.topicListInput := topicListInput;
      loading := false;
      result := None;
      error := None;
      pending := [];
    }

    /**
      `analyzeDataset`: a description that trims to nothing only sets the
      error; otherwise loading starts, error and result are cleared and a
      timer is scheduled with the current inputs.
    */
    method AnalyzeDataset()
      modifies this
      ensures datasetInput == old(datasetInput) && topicListInput == old(topicListInput)
      ensures Strip(datasetInput, IsJsSpace) == [] ==>
        && error == Some(EmptyDescription)
        && loading == old(loading) && result == old(result) && pending == old(pending)
      ensures Strip(datasetInput, IsJsSpace) != [] ==>
        && loading && error.None? && result.None?
        && pending == old(pending) + [(datasetInput, topicListInput)]
    {
      if Strip(datasetInput, IsJsSpace) == [] {
        error := Some(EmptyDescription);
        return;
      }
      loading := true;
      error := None;
      result := None;
      pending := pending + [(datasetInput, topicListInput)];
    }

    /** The oldest pending timer fires: the result is built from the inputs it captured. */
    method TimerFires()
      requires pending != []
      modifies this
      ensures result == Some(GenerateResult(old(pending[0].0), old(pending[0].1)))
      ensures !loading && pending == old(pending[1..])
      ensures error == old(error) && datasetInput == old(datasetInput) && topicListInput == old(topicListInput)
    {
      var next := pending[0];
      pending := pending[1..];
      loading := false;
      var r := GenerateResult(next.0, next.1);
      result := Some(r);
    }
  }

}
