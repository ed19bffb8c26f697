/** `generateRecommendations` (nodes/generate-recommendations.ts): each recommendation
    reduced to its `game` and `reasoning`; the other fields are dropped, which in the
    model leaves them `Undefined`. */
module GenerateRecommendations {
  import opened Wrappers
  import opened Seqs
  import opened State

  /** `({ game, reasoning })`. */
  function Project(r: Recommendation): (p: Recommendation)
    ensures p.game == r.game && p.reasoning == r.reasoning
    ensures p.price.Undefined? && p.currency.Undefined? && p.link.Undefined?
  {
    Recommendation(r.game, r.reasoning, Undefined, Undefined, Undefined)
  }

  /** The node; `state.gameRecommendations.map` throws when the list is missing. */
  function GenerateRecommendations(s: AgentState): (r: Result<Update, NodeError>)
    ensures s.gameRecommendations.None? <==> r.Err?
    ensures r.Err? ==> r.error == MissingField(Key.GameRecommendations)
    ensures r.Ok? ==>
              && Touched(r.value) == {Key.GameRecommendations}
              && r.value.gameRecommendations.Put?
              && var recs := s.gameRecommendations.value;
                 var out := r.value.gameRecommendations.value;
                 && |out| == |recs|
                 && forall i :: 0 <= i < |recs| ==>
                      out[i].game == recs[i].game && out[i].reasoning == recs[i].reasoning
                      && out[i] == Project(recs[i])
  {
    match s.gameRecommendations
    case None => Err(MissingField(Key.GameRecommendations))
    case Some(recs) => Ok(NoChange.(gameRecommendations := Put(MapSeq(recs, Project))))
  }

  /** Projecting twice is projecting once. */
  lemma ProjectIdempotent(r: Recommendation)
    ensures Project(Project(r)) == Project(r)
  {
  }

  /** Running the node on its own output changes nothing further. */
  lemma GenerateIdempotent(s: AgentState)
    requires s.gameRecommendations.Some?
    ensures var t := Apply(s, GenerateRecommendations(s).value);
            GenerateRecommendations(t).Ok? && Apply(t, GenerateRecommendations(t).value) == t
  {
    var t := Apply(s, GenerateRecommendations(s).value);
    var recs := t.gameRecommendations.value;
    assert MapSeq(recs, Project) == recs;
  }
}
