/** `extractGames` (nodes/extract-games.ts).  The LLM's parsed name list is an input:
    `None` when the model call or the schema parse failed, which the source turns
    into an empty list.  The node drops the names whose id is already the id of a
    game in `games`, and clears `rawSearchResults`. */
module ExtractGames {
  import opened Wrappers
  import opened Seqs
  import opened State
  import opened GameId

  /** `new Set(state.games?.map(game => game.id))`. */
  function ExistingIds(s: AgentState): (ids: set<string>)
    ensures s.games.None? ==> ids == {}
    ensures s.games.Some? ==>
              forall id :: id in ids <==> exists g :: g in s.games.value && g.id == id
  {
    if s.games.None? then {}
    else set g | g in s.games.value :: g.id
  }

  /** `parseGameNamesFromResults`: the parsed list, or `[]` on failure. */
  function ParsedNames(llm: Option<seq<string>>): (names: seq<string>)
    ensures llm.None? ==> names == []
    ensures llm.Some? ==> names == llm.value
  {
    llm.GetOr([])
  }

  /** The names kept: those whose generated id is not an existing id. */
  function NewGameNames(names: seq<string>, existing: set<string>): (r: seq<string>)
    ensures IsSubsequence(r, names)
    ensures forall i :: 0 <= i < |r| ==> GenerateGameId(r[i]) !in existing
    ensures forall n :: n in names && GenerateGameId(n) !in existing ==>
                        multiset(r)[n] == multiset(names)[n]
    ensures forall n :: n in names && GenerateGameId(n) in existing ==> n !in r
  {
    Filter(names, (n: string) => GenerateGameId(n) !in existing)
  }

  /** The node's update: `gameNames` set to the new names, `rawSearchResults` cleared. */
  function ExtractGames(s: AgentState, llm: Option<seq<string>>): (u: Update)
    ensures Touched(u) == {Key.GameNames, Key.RawSearchResults}
    ensures u.rawSearchResults == Clear
    ensures u.gameNames == Put(NewGameNames(ParsedNames(llm), ExistingIds(s)))
  {
    NoChange.(
      gameNames := Put(NewGameNames(ParsedNames(llm), ExistingIds(s))),
      rawSearchResults := Clear)
  }

  /** On a failed model call or parse, the name list is empty. */
  lemma ExtractOnFailure(s: AgentState)
    ensures ExtractGames(s, None).gameNames == Put([])
  {
  }

  /** With no `games` in the state nothing is filtered: the parsed list is kept as is. */
  lemma ExtractWithoutGames(s: AgentState, names: seq<string>)
    requires s.games.None?
    ensures ExtractGames(s, Some(names)).gameNames == Put(names)
  {
    FilterAll(names, (n: string) => GenerateGameId(n) !in ExistingIds(s));
  }

  /** Duplicates among the new names are kept: only existing games are checked. */
  lemma DuplicatesKept(s: AgentState)
    requires s.games.None?
    ensures ExtractGames(s, Some(["Hades", "hades"])).gameNames == Put(["Hades", "hades"])
  {
    ExtractWithoutGames(s, ["Hades", "hades"]);
  }
}
