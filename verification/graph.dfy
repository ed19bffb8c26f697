/** The wired pipeline (index.ts): `run`, which starts from the user's request
    alone and returns the final state's `gameRecommendations`.  The nodes follow the
    edge table of `GraphEdges`.  `describe` and `price` both follow `extract`, so they
    run in the same step on the same state and their updates are merged before
    `combine`.  Every external answer is part of an `Oracles` record. */
module Graph {
  import opened Wrappers
  import opened State
  import AnalyzeQuery
  import ExtractGames
  import DescribeGames
  import FetchPrices
  import CombineGameData
  import GenerateRecommendations

  /** The answers of the search tool, the extraction model and the two lookup tools. */
  datatype Oracles = Oracles(
    search: string -> Option<seq<string>>,
    extract: Option<seq<string>>,
    describe: DescribeGames.DescriptionOracle,
    price: FetchPrices.PriceOracle)

  /** What the search tool answers when the web search throws. */
  const SearchErrorText: string := "Error performing search. Please try again."

  /** `searchGames`: the search tool's answer for the current query is stored as the
      raw results.  The tool catches a failed search and answers with the error
      text, so this step never rejects. */
  function SearchGames(s: AgentState, o: Oracles): (u: Update)
    ensures Touched(u) == {Key.RawSearchResults}
    ensures var answer := o.search(s.searchQuery.GetOr(""));
            && (answer.Some? ==> u.rawSearchResults == Put(answer.value))
            && (answer.None? ==> u.rawSearchResults == Put([SearchErrorText]))
  {
    match o.search(s.searchQuery.GetOr(""))
    case None => NoChange.(rawSearchResults := Put([SearchErrorText]))
    case Some(results) => NoChange.(rawSearchResults := Put(results))
  }

  /** The steps before the two lookups: `analyze`, `search` and `extract`.  None of
      them rejects, the search runs on the fixed query, and none writes
      `gameRecommendations`. */
  function Gather(s0: AgentState, o: Oracles): (r: AgentState)
    ensures r.gameRecommendations == s0.gameRecommendations
    ensures r.searchQuery == Some(AnalyzeQuery.FixedQuery)
    ensures r.rawSearchResults.None?
  {
    var s1 := Apply(s0, AnalyzeQuery.AnalyzeQuery(s0));
    assert s1.searchQuery == Some(AnalyzeQuery.FixedQuery);
    var s2 := Apply(s1, SearchGames(s1, o));
    Apply(s2, ExtractGames.ExtractGames(s2, o.extract))
  }

  /** `describe` and `price` on the same state, their updates merged.  Only the price
      node can reject, and it prices each recommendation in place. */
  function Lookup(s3: AgentState, o: Oracles): (r: Result<AgentState, NodeError>)
    ensures r.Err? <==> s3.gameRecommendations.None?
    ensures r.Ok? ==>
              && r.value.gameRecommendations.Some?
              && var recs := s3.gameRecommendations.value;
                 var out := r.value.gameRecommendations.value;
                 && |out| == |recs|
                 && forall i :: 0 <= i < |recs| ==> out[i] == FetchPrices.PriceOne(recs[i], o.price(recs[i].game.name))
  {
    match FetchPrices.FetchPrices(s3, o.price)
    case Err(e) => Err(e)
    case Ok(priced) => Ok(Apply(Apply(s3, DescribeGames.DescribeGames(s3, o.describe)), priced))
  }

  /** `combine`, then `recommend`, then the final state's `gameRecommendations`.  The
      recommend node rejects only when there are none; otherwise it keeps each
      recommendation's game and reasoning. */
  function Finish(s4: AgentState): (r: Result<Option<seq<Recommendation>>, NodeError>)
    ensures r.Err? <==> s4.gameRecommendations.None?
    ensures r.Ok? ==>
              && r.value.Some?
              && var recs := s4.gameRecommendations.value;
                 && |r.value.value| == |recs|
                 && forall i :: 0 <= i < |recs| ==>
                      r.value.value[i].game == recs[i].game && r.value.value[i].reasoning == recs[i].reasoning
  {
    var s5 := Apply(s4, CombineGameData.CombineGameData(s4));
    assert s5.gameRecommendations == s4.gameRecommendations;
    match GenerateRecommendations.GenerateRecommendations(s5)
    case Err(e) => Err(e)
    case Ok(recommended) => Ok(Apply(s5, recommended).gameRecommendations)
  }

  /** The graph from a given start state to the end, returning the final state's
      `gameRecommendations`, or the first rejection: the price node's missing-field
      error, exactly when the start state holds no recommendations. */
  function RunFrom(s0: AgentState, o: Oracles): (r: Result<Option<seq<Recommendation>>, NodeError>)
    ensures r.Err? <==> s0.gameRecommendations.None?
    ensures r.Err? ==> r.error == MissingField(Key.GameRecommendations)
  {
    match Lookup(Gather(s0, o), o)
    case Err(e) => Err(e)
    case Ok(s4) => Finish(s4)
  }

  /** `run(userRequest)`: the graph invoked with only the request.  No node before
      `price` writes `gameRecommendations`, and the price node reads its length; so
      `run` always rejects, whatever the request and the answers. */
  function Run(userRequest: string, o: Oracles): (r: Result<Option<seq<Recommendation>>, NodeError>)
    ensures r == Err(MissingField(Key.GameRecommendations))
  {
    assert Initial(userRequest).gameRecommendations.None?;
    RunFrom(Initial(userRequest), o)
  }

  /** Started from a state that already holds recommendations, the run returns one
      result per recommendation, in order, each with its game's identity and its
      reasoning kept, its game priced when the lookup succeeded. */
  lemma RunWithRecommendations(s0: AgentState, o: Oracles)
    requires s0.gameRecommendations.Some?
    ensures RunFrom(s0, o).Ok? && RunFrom(s0, o).value.Some?
    ensures var recs := s0.gameRecommendations.value;
            var out := RunFrom(s0, o).value.value;
            && |out| == |recs|
            && forall i :: 0 <= i < |recs| ==>
                 && out[i].game.id == recs[i].game.id
                 && out[i].reasoning == recs[i].reasoning
                 && out[i].game == FetchPrices.PriceOne(recs[i], o.price(recs[i].game.name)).game
  {
    var recs := s0.gameRecommendations.value;
    var s4 := Lookup(Gather(s0, o), o).value;
    var out := Finish(s4).value.value;
    assert RunFrom(s0, o) == Ok(Some(out));
    forall i | 0 <= i < |recs|
      ensures out[i].game == FetchPrices.PriceOne(recs[i], o.price(recs[i].game.name)).game
      ensures out[i].game.id == recs[i].game.id && out[i].reasoning == recs[i].reasoning
    {
      var priced := FetchPrices.PriceOne(recs[i], o.price(recs[i].game.name));
      assert s4.gameRecommendations.value[i] == priced;
      FetchPrices.PriceOneKeepsGameIdentity(recs[i], o.price(recs[i].game.name));
    }
  }
}
