/** The pipeline's state record and the partial updates nodes return.

    The declared annotation (state.ts) lists only four channels, but the nodes read
    and write many more fields; this record holds all of them, each optional field as
    an `Option`.  A node returns an `Update`: per field, leave it (`Keep`), set it
    (`Put`) or set it to `undefined` (`Clear`), mirroring the source's returned
    partial objects where a key with value `undefined` clears the field. */
module State {
  import opened Wrappers

  datatype Strategy = Standard | Broad | Specific

  /** A JavaScript property that can be missing, `null`, or hold a value. */
  datatype Slot<+T> = Undefined | Null | Val(value: T)

  /** One game record; description records leave the price fields `Undefined`,
      combined records carry them as `Null` or a value. */
  datatype Game = Game(
    id: string,
    name: string,
    description: string,
    genre: Slot<string>,
    playtime: Slot<string>,
    tags: Slot<seq<string>>,
    imageUrl: Slot<string>,
    currentPrice: Slot<real>,
    originalPrice: Slot<real>,
    discount: Slot<int>,
    link: Slot<string>)

  /** A price entry, keyed by the game id it belongs to. */
  datatype PriceInfo = PriceInfo(
    id: string,
    currentPrice: Slot<real>,
    originalPrice: Slot<real>,
    discount: Slot<int>,
    link: Slot<string>)

  /** A recommendation as the nodes use it: the game, the reasoning, and the
      top-level price fields the price node writes when the lookup fails. */
  datatype Recommendation = Recommendation(
    game: Game,
    reasoning: string,
    price: Slot<real>,
    currency: Slot<string>,
    link: Slot<string>)

  /** The verdict label; a parsed LLM answer is not validated, so any other label is kept. */
  datatype Quality = Excellent | Good | Poor | Insufficient | Unrecognised(text: string)

  datatype QualityAssessment = Assessment(
    searchResultsQuality: Quality,
    gameDataCompleteness: real,
    recommendationConfidence: real,
    needsRefinement: bool,
    issues: seq<string>)

  datatype DecisionFlags = Flags(
    shouldRetrySearch: bool,
    shouldExpandSearch: bool,
    shouldUseAlternativeStrategy: bool,
    isComplexQuery: Option<bool>,
    requiresSpecializedSearch: Option<bool>)

  datatype AgentState = AgentState(
    userRequest: string,
    searchQuery: Option<string>,
    searchStrategy: Option<Strategy>,
    alternativeSearchQueries: Option<seq<string>>,
    rawSearchResults: Option<seq<string>>,
    gameNames: Option<seq<string>>,
    games: Option<seq<Game>>,
    gameDescriptions: Option<seq<Game>>,
    gamePriceInfo: Option<seq<PriceInfo>>,
    qualityAssessment: Option<QualityAssessment>,
    decisionFlags: Option<DecisionFlags>,
    retryCount: Option<nat>,
    gameRecommendations: Option<seq<Recommendation>>)

  /** The state a run starts from: only the user's request. */
  function Initial(userRequest: string): AgentState
  {
    AgentState(userRequest, None, None, None, None, None, None, None, None, None, None, None, None)
  }

  /** `state.retryCount || 0`. */
  function Retries(s: AgentState): nat
  {
    s.retryCount.GetOr(0)
  }

  /** `state.games?.length || 0`. */
  function GamesCount(s: AgentState): nat
  {
    if s.games.Some? then |s.games.value| else 0
  }

  datatype Patch<+T> = Keep | Put(value: T) | Clear

  datatype Update = Update(
    searchQuery: Patch<string>,
    searchStrategy: Patch<Strategy>,
    alternativeSearchQueries: Patch<seq<string>>,
    rawSearchResults: Patch<seq<string>>,
    gameNames: Patch<seq<string>>,
    games: Patch<seq<Game>>,
    gameDescriptions: Patch<seq<Game>>,
    gamePriceInfo: Patch<seq<PriceInfo>>,
    qualityAssessment: Patch<QualityAssessment>,
    decisionFlags: Patch<DecisionFlags>,
    retryCount: Patch<nat>,
    gameRecommendations: Patch<seq<Recommendation>>)

  /** The empty partial object. */
  const NoChange: Update :=
    Update(Keep, Keep, Keep, Keep, Keep, Keep, Keep, Keep, Keep, Keep, Keep, Keep)

  /** The names of the updatable fields. */
  datatype Key =
    | SearchQuery | SearchStrategy | AlternativeSearchQueries | RawSearchResults
    | GameNames | Games | GameDescriptions | GamePriceInfo
    | QualityAssessment | DecisionFlags | RetryCount | GameRecommendations

  function KeyIf<T>(p: Patch<T>, k: Key): set<Key>
  {
    if p.Keep? then {} else {k}
  }

  /** The keys present in a returned partial object. */
  function Touched(u: Update): set<Key>
  {
    KeyIf(u.searchQuery, Key.SearchQuery) + KeyIf(u.searchStrategy, Key.SearchStrategy)
    + KeyIf(u.alternativeSearchQueries, Key.AlternativeSearchQueries)
    + KeyIf(u.rawSearchResults, Key.RawSearchResults) + KeyIf(u.gameNames, Key.GameNames)
    + KeyIf(u.games, Key.Games) + KeyIf(u.gameDescriptions, Key.GameDescriptions)
    + KeyIf(u.gamePriceInfo, Key.GamePriceInfo)
    + KeyIf(u.qualityAssessment, Key.QualityAssessment)
    + KeyIf(u.decisionFlags, Key.DecisionFlags) + KeyIf(u.retryCount, Key.RetryCount)
    + KeyIf(u.gameRecommendations, Key.GameRecommendations)
  }

  function Patched<T>(prev: Option<T>, p: Patch<T>): Option<T>
  {
    match p
    case Keep => prev
    case Put(v) => Some(v)
    case Clear => None
  }

  /** Merging a partial update into the state. */
  function Apply(s: AgentState, u: Update): (t: AgentState)
    ensures t.userRequest == s.userRequest
    ensures u.gameRecommendations.Keep? ==> t.gameRecommendations == s.gameRecommendations
  {
    AgentState(
      s.userRequest,
      Patched(s.searchQuery, u.searchQuery),
      Patched(s.searchStrategy, u.searchStrategy),
      Patched(s.alternativeSearchQueries, u.alternativeSearchQueries),
      Patched(s.rawSearchResults, u.rawSearchResults),
      Patched(s.gameNames, u.gameNames),
      Patched(s.games, u.games),
      Patched(s.gameDescriptions, u.gameDescriptions),
      Patched(s.gamePriceInfo, u.gamePriceInfo),
      Patched(s.qualityAssessment, u.qualityAssessment),
      Patched(s.decisionFlags, u.decisionFlags),
      Patched(s.retryCount, u.retryCount),
      Patched(s.gameRecommendations, u.gameRecommendations))
  }

  /** Why a node or a run rejects: a required field is missing (the source throws
      a `TypeError` reading it) or an external tool call failed. */
  datatype NodeError = MissingField(key: Key) | ToolFailed

  /** An update that mentions no key leaves the state as it was. */
  lemma ApplyNoChange(s: AgentState)
    ensures Touched(NoChange) == {}
    ensures Apply(s, NoChange) == s
  {
  }
}
