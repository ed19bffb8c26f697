/** The flag accessors and the router (nodes/decision-router.ts).  The router reads
    the state only and picks one of two labels.  These members are not wired into
    the graph of index.ts; they are modelled as written. */
module DecisionRouter {
  import opened Wrappers
  import opened State
  import AssessResultsQuality
  import RefineSearch

  /** `state.decisionFlags?.shouldRetrySearch || false`. */
  function ShouldRetrySearch(s: AgentState): (b: bool)
    ensures b <==> s.decisionFlags.Some? && s.decisionFlags.value.shouldRetrySearch
  {
    s.decisionFlags.Some? && s.decisionFlags.value.shouldRetrySearch
  }

  function ShouldExpandSearch(s: AgentState): (b: bool)
    ensures b <==> s.decisionFlags.Some? && s.decisionFlags.value.shouldExpandSearch
  {
    s.decisionFlags.Some? && s.decisionFlags.value.shouldExpandSearch
  }

  function ShouldUseAlternativeStrategy(s: AgentState): (b: bool)
    ensures b <==> s.decisionFlags.Some? && s.decisionFlags.value.shouldUseAlternativeStrategy
  {
    s.decisionFlags.Some? && s.decisionFlags.value.shouldUseAlternativeStrategy
  }

  /** Without flags every accessor answers false. */
  lemma AccessorsWithoutFlags(s: AgentState)
    requires s.decisionFlags.None?
    ensures !ShouldRetrySearch(s) && !ShouldExpandSearch(s) && !ShouldUseAlternativeStrategy(s)
  {
  }

  /** The verdict in the state is `good` or `excellent`. */
  predicate HasGoodQuality(s: AgentState)
  {
    s.qualityAssessment.Some? && s.qualityAssessment.value.searchResultsQuality in {Good, Excellent}
  }

  /** `shouldProceedToRecommendations`: a good verdict, or at least two games once the
      retries are used up.  Nothing in the source calls it. */
  function ShouldProceedToRecommendations(s: AgentState): (b: bool)
    ensures HasGoodQuality(s) ==> b
    ensures !HasGoodQuality(s) ==> (b <==> GamesCount(s) >= 2 && Retries(s) >= 2)
  {
    HasGoodQuality(s) || (GamesCount(s) >= 2 && Retries(s) >= 2)
  }

  /** The two routes and their labels. */
  datatype Route = RefineSearchRoute | Recommend

  function Label(r: Route): (text: string)
    ensures text == "refine-search" || text == "recommend"
  {
    match r
    case RefineSearchRoute => "refine-search"
    case Recommend => "recommend"
  }

  lemma LabelsDistinct()
    ensures Label(RefineSearchRoute) != Label(Recommend)
  {
  }

  /** `routeAfterQualityAssessment`: refine when any of the three flags is set. */
  function RouteAfterQualityAssessment(s: AgentState): (r: Route)
    ensures r == RefineSearchRoute <==>
              ShouldRetrySearch(s) || ShouldExpandSearch(s) || ShouldUseAlternativeStrategy(s)
    ensures s.decisionFlags.None? ==> r == Recommend
  {
    if ShouldRetrySearch(s) || ShouldExpandSearch(s) || ShouldUseAlternativeStrategy(s) then
      RefineSearchRoute
    else
      Recommend
  }

  /** The state the router sees right after the quality node. */
  function Assessed(s: AgentState, llm: Option<AssessResultsQuality.ParsedVerdict>): AgentState
  {
    Apply(s, AssessResultsQuality.AssessResultsQuality(s, llm))
  }

  /** From the second retry on, only a `poor` verdict sends the run back to refine. */
  lemma RecommendOnceRetriesExhausted(s: AgentState, llm: Option<AssessResultsQuality.ParsedVerdict>)
    requires Retries(s) >= 2
    ensures var a := AssessResultsQuality.EvaluateQuality(s, llm);
            RouteAfterQualityAssessment(Assessed(s, llm)) == RefineSearchRoute <==>
              a.searchResultsQuality == Poor
  {
    var t := Assessed(s, llm);
    assert t.retryCount == s.retryCount;
    AssessResultsQuality.FlagBounds(s, llm);
  }

  /** The loop is not bounded: a `poor` verdict after any retry routes to refine
      again, and the refine step leaves a retry count that keeps this so. */
  lemma PoorVerdictLoopsForever(s: AgentState, llm: Option<AssessResultsQuality.ParsedVerdict>,
                                refinement: Option<RefineSearch.SearchRefinement>)
    requires Retries(s) >= 1
    requires AssessResultsQuality.EvaluateQuality(s, llm).searchResultsQuality == Poor
    ensures RouteAfterQualityAssessment(Assessed(s, llm)) == RefineSearchRoute
    ensures Retries(Apply(Assessed(s, llm), RefineSearch.RefineSearch(Assessed(s, llm), refinement)))
            == Retries(s) + 1
  {
    var t := Assessed(s, llm);
    assert t.retryCount == s.retryCount;
    AssessResultsQuality.FlagBounds(s, llm);
  }

  /** With no games the fallback verdict is `insufficient`; before any retry the run is
      sent back to refine. */
  lemma NoGamesRefines(s: AgentState, llm: Option<AssessResultsQuality.ParsedVerdict>)
    requires s.games.None? && Retries(s) == 0
    ensures RouteAfterQualityAssessment(Assessed(s, llm)) == RefineSearchRoute
  {
    var t := Assessed(s, llm);
    assert t.retryCount == s.retryCount;
  }
}
