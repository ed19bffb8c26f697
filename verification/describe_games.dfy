/** `describeGames` (nodes/describe-games.ts).  The description tool's answer for a
    name is an input (`None` when the lookup rejects).  Every name yields exactly one
    record: the tool's answer, or a fallback built from the name itself. */
module DescribeGames {
  import opened Wrappers
  import opened State
  import opened GameId
  import opened Batch
  import DescribeTool

  type DescriptionOracle = string -> Option<DescribeTool.DescriptionOutput>

  /** `x || null` for an optional string. */
  function OrNull(x: Option<string>): (r: Slot<string>)
    ensures r.Null? <==> x.None? || x.value == ""
    ensures r.Val? ==> x == Some(r.value)
  {
    if x.Some? && x.value != "" then Val(x.value) else Null
  }

  /** The record for a failed lookup. */
  function FallbackRecord(name: string): (g: Game)
    ensures g.id == GenerateGameId(name) && g.name == name
    ensures g.description == name + " is a video game."
    ensures g.genre.Null? && g.playtime.Null? && g.tags.Null? && g.imageUrl.Null?
    ensures g.currentPrice.Undefined? && g.originalPrice.Undefined?
    ensures g.discount.Undefined? && g.link.Undefined?
  {
    Game(GenerateGameId(name), name, name + " is a video game.",
         Null, Null, Null, Null, Undefined, Undefined, Undefined, Undefined)
  }

  /** The per-name body of the batch: success record or fallback record.  The id is
      always derived from the requested name, not from the name the tool returned. */
  function DescribeOne(name: string, answer: Option<DescribeTool.DescriptionOutput>): (g: Game)
    ensures g.id == GenerateGameId(name)
    ensures answer.None? ==> g == FallbackRecord(name)
    ensures answer.Some? ==>
              && g.name == answer.value.name
              && g.description == answer.value.description
              && g.genre == OrNull(answer.value.genre)
              && g.playtime == OrNull(answer.value.playtime)
              && g.tags == Val(answer.value.tags)
              && g.imageUrl == OrNull(answer.value.imageUrl)
    ensures g.currentPrice.Undefined? && g.originalPrice.Undefined?
    ensures g.discount.Undefined? && g.link.Undefined?
  {
    match answer
    case None => FallbackRecord(name)
    case Some(d) =>
      Game(GenerateGameId(name), d.name, d.description,
           OrNull(d.genre), OrNull(d.playtime), Val(d.tags), OrNull(d.imageUrl),
           Undefined, Undefined, Undefined, Undefined)
  }

  /** The batched lookups over the names. */
  function DescribeAll(names: seq<string>, tool: DescriptionOracle): (gs: seq<Game>)
    ensures |gs| == |names|
    ensures forall i :: 0 <= i < |names| ==> gs[i] == DescribeOne(names[i], tool(names[i]))
  {
    var op := (n: string) => Fulfilled(DescribeOne(n, tool(n)));
    RunBatchesTotal(names, op);
    RunBatches(names, op)
  }

  /** The node's update. */
  function DescribeGames(s: AgentState, tool: DescriptionOracle): (u: Update)
    ensures s.gameNames.None? || s.gameNames.value == [] ==>
              u == NoChange.(gameDescriptions := Put([]))
    ensures s.gameNames.Some? && s.gameNames.value != [] ==>
              && Touched(u) == {Key.GameDescriptions, Key.GameNames}
              && u.gameNames == Clear
              && u.gameDescriptions.Put?
              && |u.gameDescriptions.value| == |s.gameNames.value|
              && forall i :: 0 <= i < |s.gameNames.value| ==>
                   u.gameDescriptions.value[i]
                   == DescribeOne(s.gameNames.value[i], tool(s.gameNames.value[i]))
  {
    if s.gameNames.None? || s.gameNames.value == [] then
      NoChange.(gameDescriptions := Put([]))
    else
      NoChange.(gameDescriptions := Put(DescribeAll(s.gameNames.value, tool)), gameNames := Clear)
  }

  /** Every record is keyed by the id of the name at the same position, whatever the
      mix of tool successes and failures. */
  lemma DescriptionsKeyedByName(names: seq<string>, tool: DescriptionOracle)
    ensures forall i :: 0 <= i < |names| ==> DescribeAll(names, tool)[i].id == GenerateGameId(names[i])
  {
  }

  /** With every lookup failing, the records are exactly the fallbacks, in order. */
  lemma AllLookupsFail(names: seq<string>, tool: DescriptionOracle)
    requires forall n :: tool(n).None?
    ensures forall i :: 0 <= i < |names| ==>
              DescribeAll(names, tool)[i].description == names[i] + " is a video game."
  {
  }
}
