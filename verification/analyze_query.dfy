/** `analyzeQuery` (nodes/analyze-query.ts): a stub that ignores the request and
    always proposes the same search query. */
module AnalyzeQuery {
  import opened Wrappers
  import opened State

  /** The query the stub always resolves to. */
  const FixedQuery: string := "best narrative rpgs"

  /** The update: only `searchQuery`, set to the fixed query. */
  function AnalyzeQuery(s: AgentState): (u: Update)
    ensures Touched(u) == {Key.SearchQuery}
    ensures u.searchQuery == Put(FixedQuery)
    ensures Apply(s, u).searchQuery == Some("best narrative rpgs")
  {
    NoChange.(searchQuery := Put(FixedQuery))
  }

  /** The result does not depend on the state, in particular not on `userRequest`. */
  lemma AnalyzeQueryIgnoresState(s: AgentState, t: AgentState)
    ensures AnalyzeQuery(s) == AnalyzeQuery(t)
  {
  }
}
