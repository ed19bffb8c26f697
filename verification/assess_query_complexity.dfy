/** `assessQueryComplexity` (nodes/assess-query-complexity.ts).  The LLM's structured
    analysis is an input (`None` when the call or the schema parse failed).  The node
    resets the retry state: all three retry flags false, no retries, no alternative
    queries. */
module AssessQueryComplexity {
  import opened Wrappers
  import opened State
  import DecisionRouter

  datatype QueryAnalysis = QueryAnalysis(
    isComplexQuery: bool,
    requiresSpecializedSearch: bool,
    searchStrategy: Strategy,
    reasoning: string)

  /** `analyzeQueryComplexity`: the model's answer, or the fixed standard analysis. */
  function AnalyzeQueryComplexity(llm: Option<QueryAnalysis>): (a: QueryAnalysis)
    ensures llm.Some? ==> a == llm.value
    ensures llm.None? ==> !a.isComplexQuery && !a.requiresSpecializedSearch && a.searchStrategy == Standard
  {
    match llm
    case Some(answer) => answer
    case None => QueryAnalysis(false, false, Standard, "Error in analysis, using standard approach")
  }

  /** The node's update. */
  function AssessQueryComplexity(s: AgentState, llm: Option<QueryAnalysis>): (u: Update)
    ensures Touched(u) == {Key.DecisionFlags, Key.SearchStrategy, Key.RetryCount, Key.AlternativeSearchQueries}
    ensures var a := AnalyzeQueryComplexity(llm);
            && u.decisionFlags == Put(Flags(false, false, false, Some(a.isComplexQuery),
                                            Some(a.requiresSpecializedSearch)))
            && u.searchStrategy == Put(a.searchStrategy)
    ensures u.retryCount == Put(0) && u.alternativeSearchQueries == Put([])
  {
    var a := AnalyzeQueryComplexity(llm);
    NoChange.(
      decisionFlags := Put(Flags(false, false, false, Some(a.isComplexQuery),
                                 Some(a.requiresSpecializedSearch))),
      searchStrategy := Put(a.searchStrategy),
      retryCount := Put(0),
      alternativeSearchQueries := Put([]))
  }

  /** Routed straight after the reset, the run goes on to recommend, whatever the
      earlier flags were. */
  lemma ResetRoutesToRecommend(s: AgentState, llm: Option<QueryAnalysis>)
    ensures var t := Apply(s, AssessQueryComplexity(s, llm));
            && Retries(t) == 0
            && DecisionRouter.RouteAfterQualityAssessment(t) == DecisionRouter.Recommend
  {
  }

  /** A failed analysis gives the standard strategy and clears every flag. */
  lemma FailedAnalysis(s: AgentState)
    ensures var t := Apply(s, AssessQueryComplexity(s, None));
            && t.searchStrategy == Some(Standard)
            && t.decisionFlags == Some(Flags(false, false, false, Some(false), Some(false)))
  {
  }
}
