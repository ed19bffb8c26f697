/** `assessResultsQuality` (nodes/assess-results-quality.ts).  The verdict comes from
    the LLM when its answer contains a JSON object, and otherwise from a fallback
    computed from the list lengths in the state.  The decision flags are then derived
    from the verdict and the retry count. */
module AssessResultsQuality {
  import opened Wrappers
  import opened State

  /** The fields of the parsed JSON verdict; each may be missing.  A field holding a
      falsy value (`""`, `0`, `false`) is treated like a missing one by the source. */
  datatype ParsedVerdict = ParsedVerdict(
    searchResultsQuality: Option<string>,
    gameDataCompleteness: Option<real>,
    recommendationConfidence: Option<real>,
    needsRefinement: Option<bool>,
    issues: Option<seq<string>>)

  /** The label a verdict string stands for; labels outside the four are kept as text. */
  function QualityOf(text: string): (q: Quality)
    ensures q == Excellent <==> text == "excellent"
    ensures q == Good <==> text == "good"
    ensures q == Poor <==> text == "poor"
    ensures q == Insufficient <==> text == "insufficient"
    ensures q.Unrecognised? ==> q.text == text
  {
    if text == "excellent" then Excellent
    else if text == "good" then Good
    else if text == "poor" then Poor
    else if text == "insufficient" then Insufficient
    else Unrecognised(text)
  }

  /** The assessment built from a parsed verdict: `field || default` for each field. */
  function FromParsed(v: ParsedVerdict): (a: QualityAssessment)
    ensures v.searchResultsQuality.None? || v.searchResultsQuality.value == "" ==>
              a.searchResultsQuality == Poor
    ensures v.searchResultsQuality.Some? && v.searchResultsQuality.value != "" ==>
              a.searchResultsQuality == QualityOf(v.searchResultsQuality.value)
    ensures v.gameDataCompleteness.None? || v.gameDataCompleteness.value == 0.0 ==>
              a.gameDataCompleteness == 0.5
    ensures v.gameDataCompleteness.Some? && v.gameDataCompleteness.value != 0.0 ==>
              a.gameDataCompleteness == v.gameDataCompleteness.value
    ensures v.recommendationConfidence.None? || v.recommendationConfidence.value == 0.0 ==>
              a.recommendationConfidence == 0.5
    ensures v.recommendationConfidence.Some? && v.recommendationConfidence.value != 0.0 ==>
              a.recommendationConfidence == v.recommendationConfidence.value
    ensures a.needsRefinement <==> v.needsRefinement == Some(true)
    ensures a.issues == v.issues.GetOr([])
  {
    var text := v.searchResultsQuality.GetOr("");
    var completeness := v.gameDataCompleteness.GetOr(0.0);
    var confidence := v.recommendationConfidence.GetOr(0.0);
    Assessment(
      if text != "" then QualityOf(text) else Poor,
      if completeness != 0.0 then completeness else 0.5,
      if confidence != 0.0 then confidence else 0.5,
      v.needsRefinement.GetOr(false),
      v.issues.GetOr([]))
  }

  /** The fallback label from the number of games. */
  function FallbackQuality(gamesCount: nat): (q: Quality)
    ensures q == Excellent <==> gamesCount >= 8
    ensures q == Good <==> 5 <= gamesCount < 8
    ensures q == Poor <==> 2 <= gamesCount < 5
    ensures q == Insufficient <==> gamesCount < 2
  {
    if gamesCount >= 8 then Excellent
    else if gamesCount >= 5 then Good
    else if gamesCount >= 2 then Poor
    else Insufficient
  }

  /** The share of filled-in description and price slots, before clamping:
      `(descriptions + prices) / (2 * games)`, or 0 with no games. */
  function Completeness(gamesCount: nat, descriptionsCount: nat, pricesCount: nat): (c: real)
    ensures c >= 0.0
    ensures gamesCount == 0 ==> c == 0.0
    ensures gamesCount > 0 ==>
              c * (2 * gamesCount) as real == (descriptionsCount + pricesCount) as real
  {
    if gamesCount > 0 then (descriptionsCount + pricesCount) as real / (gamesCount * 2) as real
    else 0.0
  }

  function Min(x: real, y: real): (m: real)
    ensures m <= x && m <= y && (m == x || m == y)
  {
    if x <= y then x else y
  }

  /** `createFallbackAssessment`: every figure from the three list lengths. */
  function CreateFallbackAssessment(s: AgentState): (a: QualityAssessment)
    ensures a.searchResultsQuality == FallbackQuality(GamesCount(s))
    ensures var c := Completeness(GamesCount(s), Length(s.gameDescriptions), Length(s.gamePriceInfo));
            && a.gameDataCompleteness == Min(c, 1.0)
            && (a.needsRefinement <==> GamesCount(s) < 5 || c < 0.7)
    ensures a.recommendationConfidence ==
              if GamesCount(s) >= 5 then 0.8 else if GamesCount(s) >= 2 then 0.6 else 0.3
    ensures a.issues != [] <==> GamesCount(s) < 5
    ensures a.issues != [] ==> a.issues == ["Insufficient games found"]
    ensures 0.0 <= a.gameDataCompleteness <= 1.0
  {
    var g := GamesCount(s);
    var c := Completeness(g, Length(s.gameDescriptions), Length(s.gamePriceInfo));
    Assessment(
      FallbackQuality(g),
      Min(c, 1.0),
      if g >= 5 then 0.8 else if g >= 2 then 0.6 else 0.3,
      g < 5 || c < 0.7,
      if g < 5 then ["Insufficient games found"] else [])
  }

  /** `xs?.length || 0`. */
  function Length<T>(xs: Option<seq<T>>): nat
  {
    if xs.Some? then |xs.value| else 0
  }

  /** `evaluateQuality`.  `llm` is the parsed JSON object, `None` when the model call
      failed or its answer held no JSON object.  With `games` missing the source reads
      a property of `undefined` inside its `try` and so also falls back. */
  function EvaluateQuality(s: AgentState, llm: Option<ParsedVerdict>): (a: QualityAssessment)
    ensures s.games.None? || llm.None? ==> a == CreateFallbackAssessment(s)
    ensures s.games.Some? && llm.Some? ==> a == FromParsed(llm.value)
  {
    if s.games.None? || llm.None? then CreateFallbackAssessment(s) else FromParsed(llm.value)
  }

  /** The flags written after an assessment; the other flags are copied from the state. */
  function UpdatedFlags(s: AgentState, a: QualityAssessment): (f: DecisionFlags)
    ensures f.shouldRetrySearch <==> a.needsRefinement && Retries(s) < 2
    ensures f.shouldExpandSearch <==> a.searchResultsQuality == Insufficient && Retries(s) < 1
    ensures f.shouldUseAlternativeStrategy <==> a.searchResultsQuality == Poor && Retries(s) >= 1
    ensures s.decisionFlags.Some? ==>
              && f.isComplexQuery == s.decisionFlags.value.isComplexQuery
              && f.requiresSpecializedSearch == s.decisionFlags.value.requiresSpecializedSearch
    ensures s.decisionFlags.None? ==> f.isComplexQuery.None? && f.requiresSpecializedSearch.None?
  {
    var n := Retries(s);
    var complex := if s.decisionFlags.Some? then s.decisionFlags.value.isComplexQuery else None;
    var specialized :=
      if s.decisionFlags.Some? then s.decisionFlags.value.requiresSpecializedSearch else None;
    Flags(
      a.needsRefinement && n < 2,
      a.searchResultsQuality == Insufficient && n < 1,
      a.searchResultsQuality == Poor && n >= 1,
      complex,
      specialized)
  }

  /** The node's update: only the assessment and the flags. */
  function AssessResultsQuality(s: AgentState, llm: Option<ParsedVerdict>): (u: Update)
    ensures Touched(u) == {Key.QualityAssessment, Key.DecisionFlags}
    ensures u.qualityAssessment == Put(EvaluateQuality(s, llm))
    ensures u.decisionFlags == Put(UpdatedFlags(s, EvaluateQuality(s, llm)))
  {
    var a := EvaluateQuality(s, llm);
    NoChange.(qualityAssessment := Put(a), decisionFlags := Put(UpdatedFlags(s, a)))
  }

  /** The fallback label's rank: more games never give a worse label. */
  function Rank(q: Quality): nat
  {
    match q
    case Insufficient => 0
    case Poor => 1
    case Good => 2
    case Excellent => 3
    case Unrecognised(_) => 0
  }

  lemma FallbackQualityMonotone(g: nat, h: nat)
    requires g <= h
    ensures Rank(FallbackQuality(g)) <= Rank(FallbackQuality(h))
  {
  }

  /** A fallback verdict of `poor` or `insufficient` always asks for refinement, and
      so does one with too few filled-in slots. */
  lemma FallbackLowQualityNeedsRefinement(s: AgentState)
    ensures var a := CreateFallbackAssessment(s);
            a.searchResultsQuality in {Poor, Insufficient} ==> a.needsRefinement && a.issues != []
  {
  }

  /** Enough games with every description and price present: no refinement asked. */
  lemma FallbackCompleteData(s: AgentState)
    requires GamesCount(s) >= 5
    requires Length(s.gameDescriptions) == GamesCount(s) && Length(s.gamePriceInfo) == GamesCount(s)
    ensures CreateFallbackAssessment(s).gameDataCompleteness == 1.0
    ensures !CreateFallbackAssessment(s).needsRefinement
  {
    var g := GamesCount(s);
    var x := (g * 2) as real;
    assert x > 0.0;
    assert (g + g) as real == x;
    assert Completeness(g, g, g) == x / x;
    assert x / x == 1.0;
  }

  /** More description or price records than games: the reported completeness is
      clamped to 1 while the unclamped ratio is above it. */
  lemma FallbackClamped(s: AgentState)
    requires GamesCount(s) == 1 && Length(s.gameDescriptions) == 2 && Length(s.gamePriceInfo) == 1
    ensures CreateFallbackAssessment(s).gameDataCompleteness == 1.0
    ensures Completeness(1, 2, 1) == 1.5
  {
  }

  /** A parsed zero is falsy and becomes the default 0.5. */
  lemma ParsedZeroBecomesDefault(v: ParsedVerdict)
    requires v.gameDataCompleteness == Some(0.0) && v.recommendationConfidence == Some(0.0)
    ensures FromParsed(v).gameDataCompleteness == 0.5
    ensures FromParsed(v).recommendationConfidence == 0.5
  {
  }

  /** The retry bounds on the flags: no retry from the second retry on, no expansion
      from the first retry on; the alternative-strategy flag has no such bound. */
  lemma FlagBounds(s: AgentState, llm: Option<ParsedVerdict>)
    ensures var f := UpdatedFlags(s, EvaluateQuality(s, llm));
            && (Retries(s) >= 2 ==> !f.shouldRetrySearch)
            && (Retries(s) >= 1 ==> !f.shouldExpandSearch)
            && (f.shouldUseAlternativeStrategy <==>
                  EvaluateQuality(s, llm).searchResultsQuality == Poor && Retries(s) >= 1)
  {
  }
}
