/** `fetchPrices` (nodes/fetch-prices.ts).  The price tool's answer for a game name is
    an input (`None` when the lookup rejects).  Each recommendation keeps its place:
    on success its game gets the prices, the link and the discount; on failure the
    top-level `price`, `currency` and `link` are set to `null`. */
module FetchPrices {
  import opened Wrappers
  import opened State
  import opened Batch
  import PriceTool

  type PriceOracle = string -> Option<PriceTool.PriceOutput>

  /** `Math.round`: the nearest integer, halves rounded up. */
  function Round(x: real): (n: int)
    ensures n as real - 0.5 <= x < n as real + 0.5
  {
    (x + 0.5).Floor
  }

  /** The discount percentage: `round((regular - current) / regular * 100)` when the
      regular price is positive, else 0. */
  function Discount(current: real, regular: real): (d: int)
    ensures regular <= 0.0 ==> d == 0
    ensures regular > 0.0 ==>
              d as real - 0.5 <= (regular - current) / regular * 100.0 < d as real + 0.5
  {
    if regular > 0.0 then Round((regular - current) / regular * 100.0) else 0
  }

  /** With `0 <= current <= regular` and `regular > 0` the discount is a percentage. */
  lemma DiscountBounds(current: real, regular: real)
    requires 0.0 <= current <= regular && regular > 0.0
    ensures 0 <= Discount(current, regular) <= 100
  {
    var x := (regular - current) / regular * 100.0;
    assert (regular - current) / regular <= 1.0 by {
      assert regular - current <= regular;
    }
    assert 0.0 <= x <= 100.0;
  }

  /** No discount when the price has not dropped; the worked examples. */
  lemma DiscountExamples(regular: real)
    ensures Discount(regular, regular) == 0
    ensures Discount(45.0, 60.0) == 25
    ensures Discount(10.0, 0.0) == 0
  {
    if regular > 0.0 {
      assert (regular - regular) / regular * 100.0 == 0.0;
    }
    assert (60.0 - 45.0) / 60.0 * 100.0 == 25.0;
  }

  /** The per-recommendation body of the batch. */
  function PriceOne(r: Recommendation, answer: Option<PriceTool.PriceOutput>): (out: Recommendation)
    ensures out.reasoning == r.reasoning
    ensures answer.None? ==>
              out == r.(price := Null, currency := Null, link := Null)
    ensures answer.Some? ==>
              var p := answer.value;
              && out.price == r.price && out.currency == r.currency && out.link == r.link
              && out.game == r.game.(currentPrice := Val(p.currentPrice.amount),
                                     originalPrice := Val(p.regularPrice.amount),
                                     link := Val(p.url),
                                     discount := Val(Discount(p.currentPrice.amount,
                                                              p.regularPrice.amount)))
  {
    match answer
    case None => r.(price := Null, currency := Null, link := Null)
    case Some(p) =>
      r.(game := r.game.(
        currentPrice := Val(p.currentPrice.amount),
        originalPrice := Val(p.regularPrice.amount),
        link := Val(p.url),
        discount := Val(Discount(p.currentPrice.amount, p.regularPrice.amount))))
  }

  /** A successful lookup changes only the four price fields of the game. */
  lemma PriceOneKeepsGameIdentity(r: Recommendation, answer: Option<PriceTool.PriceOutput>)
    ensures var out := PriceOne(r, answer);
            && out.game.id == r.game.id && out.game.name == r.game.name
            && out.game.description == r.game.description
            && out.game.genre == r.game.genre && out.game.playtime == r.game.playtime
            && out.game.tags == r.game.tags && out.game.imageUrl == r.game.imageUrl
  {
  }

  /** The node: the batched lookups over `gameRecommendations`; reading the length of
      a missing list throws. */
  function FetchPrices(s: AgentState, tool: PriceOracle): (r: Result<Update, NodeError>)
    ensures s.gameRecommendations.None? <==> r.Err?
    ensures r.Ok? ==>
              && Touched(r.value) == {Key.GameRecommendations}
              && r.value.gameRecommendations.Put?
              && var recs := s.gameRecommendations.value;
                 var out := r.value.gameRecommendations.value;
                 && |out| == |recs|
                 && forall i :: 0 <= i < |recs| ==> out[i] == PriceOne(recs[i], tool(recs[i].game.name))
  {
    match s.gameRecommendations
    case None => Err(MissingField(Key.GameRecommendations))
    case Some(recs) =>
      var op := (rec: Recommendation) => Fulfilled(PriceOne(rec, tool(rec.game.name)));
      RunBatchesTotal(recs, op);
      Ok(NoChange.(gameRecommendations := Put(RunBatches(recs, op))))
  }
}
