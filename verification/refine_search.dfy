/** `refineSearch` (nodes/refine-search.ts).  The LLM's structured refinement is an
    input (`None` when the call or the schema parse failed, in which case the fixed
    fallback refinement is used).  The node counts the retry, takes the new queries
    and strategy, clears the previous intermediate results and drops the games
    without a description or with a `null` price. */
module RefineSearch {
  import opened Wrappers
  import opened Seqs
  import opened State

  datatype SearchRefinement = SearchRefinement(
    primarySearchQuery: string,
    alternativeQueries: seq<string>,
    newStrategy: Strategy,
    reasoning: string)

  /** `state.searchQuery || state.userRequest`. */
  function BaseQuery(s: AgentState): (q: string)
    ensures s.searchQuery.Some? && s.searchQuery.value != "" ==> q == s.searchQuery.value
    ensures s.searchQuery.None? || s.searchQuery.value == "" ==> q == s.userRequest
  {
    if s.searchQuery.Some? && s.searchQuery.value != "" then s.searchQuery.value else s.userRequest
  }

  /** `createFallbackRefinement`: broaden on the first retry, change approach after. */
  function CreateFallbackRefinement(s: AgentState): (r: SearchRefinement)
    ensures Retries(s) == 0 ==>
              && r.primarySearchQuery == "best games " + BaseQuery(s) + " recommendations reviews"
              && r.alternativeQueries == ["top " + BaseQuery(s) + " games",
                                          BaseQuery(s) + " game suggestions"]
              && r.newStrategy == Broad
    ensures Retries(s) > 0 ==>
              && r.primarySearchQuery == BaseQuery(s) + " similar games like"
              && r.alternativeQueries == [BaseQuery(s) + " genre games",
                                          "games for " + BaseQuery(s) + " fans"]
              && r.newStrategy == Specific
    ensures |r.alternativeQueries| == 2
  {
    var q := BaseQuery(s);
    if Retries(s) == 0 then
      SearchRefinement("best games " + q + " recommendations reviews",
                       ["top " + q + " games", q + " game suggestions"],
                       Broad, "Broadening search for more results")
    else
      SearchRefinement(q + " similar games like",
                       [q + " genre games", "games for " + q + " fans"],
                       Specific, "Trying alternative search approach")
  }

  /** `generateRefinedSearch`: the model's answer, or the fallback when it failed. */
  function GenerateRefinedSearch(s: AgentState, llm: Option<SearchRefinement>): (r: SearchRefinement)
    ensures llm.Some? ==> r == llm.value
    ensures llm.None? ==> r == CreateFallbackRefinement(s)
  {
    if llm.Some? then llm.value else CreateFallbackRefinement(s)
  }

  /** A game survives a refinement when it has a description and its price is not
      `null`; a missing price passes. */
  predicate KeepGame(g: Game)
  {
    g.description != "" && !g.currentPrice.Null?
  }

  /** Of the three states a price can be in, only `null` drops a described game. */
  lemma KeepGameCases(g: Game)
    ensures KeepGame(g) <==> g.description != "" && (g.currentPrice.Undefined? || g.currentPrice.Val?)
  {
  }

  /** The node's update. */
  function RefineSearch(s: AgentState, llm: Option<SearchRefinement>): (u: Update)
    ensures var r := GenerateRefinedSearch(s, llm);
            && u.searchQuery == Put(r.primarySearchQuery)
            && u.alternativeSearchQueries == Put(r.alternativeQueries)
            && u.searchStrategy == Put(r.newStrategy)
    ensures u.retryCount == Put(Retries(s) + 1)
    ensures u.rawSearchResults == Clear && u.gameNames == Clear
    ensures u.gameDescriptions == Clear && u.gamePriceInfo == Clear
    ensures s.games.None? ==> u.games == Clear
    ensures s.games.Some? ==>
              && u.games.Put?
              && IsSubsequence(u.games.value, s.games.value)
              && (forall i :: 0 <= i < |u.games.value| ==> KeepGame(u.games.value[i]))
              && (forall g :: KeepGame(g) ==> multiset(u.games.value)[g] == multiset(s.games.value)[g])
    ensures u.qualityAssessment.Keep? && u.decisionFlags.Keep? && u.gameRecommendations.Keep?
  {
    var r := GenerateRefinedSearch(s, llm);
    NoChange.(
      searchQuery := Put(r.primarySearchQuery),
      alternativeSearchQueries := Put(r.alternativeQueries),
      searchStrategy := Put(r.newStrategy),
      retryCount := Put(Retries(s) + 1),
      rawSearchResults := Clear,
      gameNames := Clear,
      gameDescriptions := Clear,
      gamePriceInfo := Clear,
      games := if s.games.Some? then Put(Filter(s.games.value, KeepGame)) else Clear)
  }

  /** Every retry raises the count by exactly one, a missing count reading as 0. */
  lemma RetryCountAdvances(s: AgentState, llm: Option<SearchRefinement>)
    ensures Retries(Apply(s, RefineSearch(s, llm))) == Retries(s) + 1
    ensures Apply(s, RefineSearch(s, llm)).retryCount.Some?
  {
  }

  /** Two failed refinements in a row from a state with no retries: the first
      broadens, the second switches to the specific strategy. */
  lemma FallbackSequence(s: AgentState)
    requires Retries(s) == 0
    ensures var t := Apply(s, RefineSearch(s, None));
            && t.searchStrategy == Some(Broad)
            && Retries(t) == 1
            && Apply(t, RefineSearch(t, None)).searchStrategy == Some(Specific)
  {
    var t := Apply(s, RefineSearch(s, None));
    assert Retries(t) == 1;
  }

  /** A game with a missing price and a description is kept; a `null` price drops it. */
  lemma NullPriceDropped(g: Game, h: Game)
    requires g.description != "" && g.currentPrice.Undefined?
    requires h.currentPrice.Null?
    ensures Filter([g, h], KeepGame) == [g]
  {
    assert KeepGame(g) && !KeepGame(h);
    assert [g, h][1..] == [h];
    assert [h][1..] == [];
  }
}
