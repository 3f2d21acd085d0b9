/** The page-level state (App.tsx): which page is shown, the last
    recommendation or error, whether a request is running, and whether the
    assistant is open; and the choice of what the right-hand panel shows. */
module App {
  import opened Wrappers
  import opened Types
  import GeminiService
  import RecommendationDisplay

  datatype Page = Home | Optimizer

  /** The four things the right-hand panel can hold. */
  datatype Panel = Spinner | ErrorPanel | RecommendationPanel | Placeholder

  /** An error string counts only when it is non-empty, as in a JSX condition. */
  predicate Shows(error: Option<string>) {
    error.Some? && error.value != ""
  }

  /** Every panel whose JSX condition holds. */
  function ShownPanels(isLoading: bool, error: Option<string>, data: Option<GeminiResponseData>): set<Panel> {
    (if isLoading then {Spinner} else {})
    + (if Shows(error) && !isLoading then {ErrorPanel} else {})
    + (if data.Some? && !isLoading && !Shows(error) then {RecommendationPanel} else {})
    + (if !isLoading && !Shows(error) && data.None? then {Placeholder} else {})
  }

  /** The panel by priority: a running request, then an error, then a
      result, and otherwise the invitation to fill in the form. */
  function PanelFor(isLoading: bool, error: Option<string>, data: Option<GeminiResponseData>): (p: Panel)
    ensures p in ShownPanels(isLoading, error, data)
    ensures p == Spinner <==> isLoading
    ensures p == RecommendationPanel ==> data.Some? && !Shows(error)
  {
    if isLoading then Spinner
    else if Shows(error) then ErrorPanel
    else if data.Some? then RecommendationPanel
    else Placeholder
  }

  /** The four conditions pick exactly one panel, the one the priority
      order names, whatever the state. */
  lemma {:induction false} ExactlyOnePanel(isLoading: bool, error: Option<string>, data: Option<GeminiResponseData>)
    ensures ShownPanels(isLoading, error, data) == {PanelFor(isLoading, error, data)}
    ensures |ShownPanels(isLoading, error, data)| == 1
  {
    var s := ShownPanels(isLoading, error, data);
    var p := PanelFor(isLoading, error, data);
    forall q: Panel
      ensures q in s <==> q == p
    {
    }
    assert s == {p};
  }

  /** The chunks handed to the recommendation card: those of the first
      candidate only. */
  function DisplayedChunks(data: GeminiResponseData): (r: Option<seq<GroundingChunk>>)
    ensures data.candidates.None? || data.candidates.value == [] ==> r.None?
    ensures r.Some? ==>
      data.candidates.Some? && data.candidates.value != [] && data.candidates.value[0].groundingMetadata.Some? &&
      r == data.candidates.value[0].groundingMetadata.value.groundingChunks
  {
    if data.candidates.Some? && |data.candidates.value| > 0 && data.candidates.value[0].groundingMetadata.Some? then
      data.candidates.value[0].groundingMetadata.value.groundingChunks
    else None
  }

  /** Candidates after the first never reach the display. */
  lemma {:induction false} OnlyFirstCandidateShown(text: string, first: Candidate, others: seq<Candidate>)
    ensures DisplayedChunks(GeminiResponseData(text, Some([first] + others)))
      == DisplayedChunks(GeminiResponseData(text, Some([first])))
    ensures DisplayedChunks(GeminiResponseData(text, Some([first]))) ==
      if first.groundingMetadata.Some? then first.groundingMetadata.value.groundingChunks else None
  {
    assert ([first] + others)[0] == first;
  }

  /** The card shown for a result. */
  function RecommendationView(data: GeminiResponseData): RecommendationDisplay.View {
    RecommendationDisplay.Render(data.text, DisplayedChunks(data))
  }

  const UNEXPECTED_SUBMIT_ERROR: string := "An unexpected error occurred during submission."

  /** The error text a failed submission shows. */
  function SubmitErrorText(thrown: Thrown): string {
    match thrown
    case ErrorObject(message) => message
    case OtherValue => UNEXPECTED_SUBMIT_ERROR
  }

  class AppView {
    var currentPage: Page
    var recommendationData: Option<GeminiResponseData>
    var isLoading: bool
    var error: Option<string>
    var isAssistantOpen: bool

    constructor()
      ensures currentPage == Home && recommendationData.None? && !isLoading && error.None? && !isAssistantOpen
    {
      currentPage := Home;
      recommendationData := None;
      isLoading := false;
      error := None;
      isAssistantOpen := false;
    }

    /** The right-hand panel of the optimizer page. */
    function RightPanel(): Panel
      reads this
    {
      PanelFor(isLoading, error, recommendationData)
    }

    /** The first half of `handleFormSubmit`: a request is running and the
        previous result and error are gone. */
    method StartSubmit()
      modifies this
      ensures isLoading && error.None? && recommendationData.None?
      ensures currentPage == old(currentPage) && isAssistantOpen == old(isAssistantOpen)
      ensures RightPanel() == Spinner
    {
      isLoading := true;
      error := None;
      recommendationData := None;
    }

    /** The second half: the result, or the error's text, is stored and the
        request is over. */
    method FinishSubmit(outcome: Result<GeminiResponseData, Thrown>)
      modifies this
      ensures !isLoading
      ensures outcome.Ok? ==> recommendationData == Some(outcome.value) && error == old(error)
      ensures outcome.Err? ==> error == Some(SubmitErrorText(outcome.error)) && recommendationData == old(recommendationData)
      ensures currentPage == old(currentPage) && isAssistantOpen == old(isAssistantOpen)
    {
      if outcome.Ok? {
        recommendationData := Some(outcome.value);
      } else {
        error := Some(SubmitErrorText(outcome.error));
      }
      isLoading := false;
    }

    /** A whole submission with nothing in between: afterwards no request
        runs and exactly one of a result and an error is held. */
    method Submit(apiKey: string, data: ProductInputData, service: GeminiService.Request -> GeminiService.SdkOutcome)
      modifies this
      ensures !isLoading
      ensures recommendationData.Some? != error.Some?
      ensures var r := GeminiService.GeneratePricingRecommendation(apiKey, data, service).result;
        (r.Ok? ==> recommendationData == Some(r.value) && RightPanel() == RecommendationPanel) &&
        (r.Err? ==> error == Some(r.error) && RightPanel() == ErrorPanel)
      ensures currentPage == old(currentPage) && isAssistantOpen == old(isAssistantOpen)
    {
      StartSubmit();
      var result := GeminiService.GeneratePricingRecommendation(apiKey, data, service).result;
      match result
      case Ok(value) =>
        FinishSubmit(Ok(value));
      case Err(message) =>
        FinishSubmit(Err(ErrorObject(message)));
    }

    /** Going to the optimizer clears the result and the error. */
    method NavigateToOptimizer()
      modifies this
      ensures currentPage == Optimizer && recommendationData.None? && error.None?
      ensures isLoading == old(isLoading) && isAssistantOpen == old(isAssistantOpen)
    {
      currentPage := Optimizer;
      recommendationData := None;
      error := None;
    }

    /** Going home clears the result and the error. */
    method NavigateToHome()
      modifies this
      ensures currentPage == Home && recommendationData.None? && error.None?
      ensures isLoading == old(isLoading) && isAssistantOpen == old(isAssistantOpen)
    {
      currentPage := Home;
      recommendationData := None;
      error := None;
    }

    /** The assistant button flips the panel and nothing else. */
    method ToggleAssistant()
      modifies this
      ensures isAssistantOpen == !old(isAssistantOpen)
      ensures currentPage == old(currentPage) && recommendationData == old(recommendationData)
      ensures isLoading == old(isLoading) && error == old(error)
    {
      isAssistantOpen := !isAssistantOpen;
    }
  }
}
