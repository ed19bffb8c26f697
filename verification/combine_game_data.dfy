/** `combineGameData` (nodes/combine-game-data.ts): joins the description records
    with the price entries by game id.  The price entries are first loaded into a map
    in list order, so a later entry with the same id replaces an earlier one.  The
    result is written back to `gameDescriptions`. */
module CombineGameData {
  import opened Wrappers
  import opened State

  /** `priceMap`, built by `forEach(p => priceMap.set(p.id, p))`: every entry is
      stored under its own id. */
  function PriceMap(ps: seq<PriceInfo>): (m: map<string, PriceInfo>)
    ensures forall id :: id in m ==> m[id].id == id
  {
    if |ps| == 0 then map[] else PriceMap(ps[..|ps| - 1])[ps[|ps| - 1].id := ps[|ps| - 1]]
  }

  /** The map's keys are exactly the ids of the entries. */
  lemma {:induction false} PriceMapKeys(ps: seq<PriceInfo>, id: string)
    ensures id in PriceMap(ps) <==> exists i :: 0 <= i < |ps| && ps[i].id == id
    decreases |ps|
  {
    if |ps| > 0 {
      var init := ps[..|ps| - 1];
      PriceMapKeys(init, id);
      if id in PriceMap(init) {
        var i :| 0 <= i < |init| && init[i].id == id;
        assert ps[i].id == id;
      }
      if exists i :: 0 <= i < |ps| && ps[i].id == id {
        var i :| 0 <= i < |ps| && ps[i].id == id;
        if i < |ps| - 1 {
          assert init[i].id == id;
        }
      }
    }
  }

  /** The entry stored under an id is the last entry with that id. */
  lemma {:induction false} PriceMapLastWins(ps: seq<PriceInfo>, i: nat)
    requires i < |ps|
    requires forall j :: i < j < |ps| ==> ps[j].id != ps[i].id
    ensures ps[i].id in PriceMap(ps) && PriceMap(ps)[ps[i].id] == ps[i]
    decreases |ps|
  {
    if i < |ps| - 1 {
      var init := ps[..|ps| - 1];
      assert init[i] == ps[i];
      PriceMapLastWins(init, i);
    }
  }

  /** Every stored entry is one of the entries. */
  lemma {:induction false} PriceMapValues(ps: seq<PriceInfo>, id: string)
    requires id in PriceMap(ps)
    ensures PriceMap(ps)[id] in ps
    decreases |ps|
  {
    var init := ps[..|ps| - 1];
    if id != ps[|ps| - 1].id {
      PriceMapValues(init, id);
      assert PriceMap(init)[id] in init;
    }
  }

  /** `priceMap.get(id)`: an entry with that id, found exactly when one exists. */
  function PriceFor(ps: seq<PriceInfo>, id: string): (r: Option<PriceInfo>)
    ensures r.Some? ==> r.value.id == id && r.value in ps
    ensures r.None? <==> forall i :: 0 <= i < |ps| ==> ps[i].id != id
  {
    var m := PriceMap(ps);
    PriceMapKeys(ps, id);
    if id in m then
      PriceMapValues(ps, id);
      Some(m[id])
    else None
  }

  /** `x ?? null`. */
  function OrNull<T>(x: Slot<T>): (r: Slot<T>)
    ensures r.Val? <==> x.Val?
    ensures r.Val? ==> r == x
    ensures !r.Val? ==> r.Null?
  {
    if x.Val? then x else Null
  }

  /** One combined record: every description field kept, the four price fields taken
      from the entry (missing or `undefined` values become `null`). */
  function CombineOne(d: Game, p: Option<PriceInfo>): (g: Game)
    ensures g.id == d.id && g.name == d.name && g.description == d.description
    ensures g.genre == d.genre && g.playtime == d.playtime
    ensures g.tags == d.tags && g.imageUrl == d.imageUrl
    ensures p.None? ==> g.currentPrice.Null? && g.originalPrice.Null? && g.discount.Null? && g.link.Null?
    ensures p.Some? ==>
              && g.currentPrice == OrNull(p.value.currentPrice)
              && g.originalPrice == OrNull(p.value.originalPrice)
              && g.discount == OrNull(p.value.discount)
              && g.link == OrNull(p.value.link)
  {
    match p
    case None => d.(currentPrice := Null, originalPrice := Null, discount := Null, link := Null)
    case Some(q) =>
      d.(currentPrice := OrNull(q.currentPrice), originalPrice := OrNull(q.originalPrice),
         discount := OrNull(q.discount), link := OrNull(q.link))
  }

  /** The join over the whole description list. */
  function CombineAll(descs: seq<Game>, ps: seq<PriceInfo>): (gs: seq<Game>)
    ensures |gs| == |descs|
    ensures forall i :: 0 <= i < |descs| ==> gs[i] == CombineOne(descs[i], PriceFor(ps, descs[i].id))
  {
    seq(|descs|, i requires 0 <= i < |descs| => CombineOne(descs[i], PriceFor(ps, descs[i].id)))
  }

  /** The node's update. */
  function CombineGameData(s: AgentState): (u: Update)
    ensures Touched(u) == {Key.GameDescriptions, Key.GamePriceInfo, Key.GameNames}
    ensures u.gamePriceInfo == Clear && u.gameNames == Clear
    ensures s.gameDescriptions.None? || s.gameDescriptions.value == [] ==>
              u.gameDescriptions == Put([])
    ensures s.gameDescriptions.Some? && s.gameDescriptions.value != [] ==>
              u.gameDescriptions == Put(CombineAll(s.gameDescriptions.value,
                                                   s.gamePriceInfo.GetOr([])))
  {
    if s.gameDescriptions.None? || s.gameDescriptions.value == [] then
      NoChange.(gameDescriptions := Put([]), gamePriceInfo := Clear, gameNames := Clear)
    else
      var combined := CombineAll(s.gameDescriptions.value, s.gamePriceInfo.GetOr([]));
      NoChange.(gameDescriptions := Put(combined), gamePriceInfo := Clear, gameNames := Clear)
  }

  /** The join key is the id: a description with no price entry of the same id gets
      null prices; otherwise the prices come from the last entry with that id. */
  lemma JoinById(descs: seq<Game>, ps: seq<PriceInfo>, i: nat)
    requires i < |descs|
    ensures (forall j :: 0 <= j < |ps| ==> ps[j].id != descs[i].id) ==>
              CombineAll(descs, ps)[i].currentPrice.Null? && CombineAll(descs, ps)[i].link.Null?
    ensures forall j :: 0 <= j < |ps| && ps[j].id == descs[i].id
                        && (forall k :: j < k < |ps| ==> ps[k].id != ps[j].id)
                        ==> CombineAll(descs, ps)[i] == CombineOne(descs[i], Some(ps[j]))
  {
    PriceMapKeys(ps, descs[i].id);
    forall j | 0 <= j < |ps| && ps[j].id == descs[i].id
                && (forall k :: j < k < |ps| ==> ps[k].id != ps[j].id)
      ensures CombineAll(descs, ps)[i] == CombineOne(descs[i], Some(ps[j]))
    {
      PriceMapLastWins(ps, j);
    }
  }

  predicate UniqueIds(ps: seq<PriceInfo>)
  {
    forall i, j :: 0 <= i < j < |ps| ==> ps[i].id != ps[j].id
  }

  /** With unique ids the map holds each entry under its own id. */
  lemma PriceMapUnique(ps: seq<PriceInfo>)
    requires UniqueIds(ps)
    ensures forall i :: 0 <= i < |ps| ==> ps[i].id in PriceMap(ps) && PriceMap(ps)[ps[i].id] == ps[i]
  {
    forall i | 0 <= i < |ps|
      ensures ps[i].id in PriceMap(ps) && PriceMap(ps)[ps[i].id] == ps[i]
    {
      PriceMapLastWins(ps, i);
    }
  }

  /** With unique ids, only which entries are present matters, not their positions. */
  lemma CombineIgnoresPriceOrder(descs: seq<Game>, ps: seq<PriceInfo>, qs: seq<PriceInfo>)
    requires UniqueIds(ps) && UniqueIds(qs)
    requires forall x :: x in ps <==> x in qs
    ensures CombineAll(descs, ps) == CombineAll(descs, qs)
  {
    var m, n := PriceMap(ps), PriceMap(qs);
    PriceMapUnique(ps);
    PriceMapUnique(qs);
    forall id | id in m
      ensures id in n && n[id] == m[id]
    {
      PriceMapKeys(ps, id);
      var i :| 0 <= i < |ps| && ps[i].id == id;
      assert ps[i] in qs;
      var j :| 0 <= j < |qs| && qs[j] == ps[i];
    }
    forall id | id in n
      ensures id in m
    {
      PriceMapKeys(qs, id);
      var j :| 0 <= j < |qs| && qs[j].id == id;
      assert qs[j] in ps;
      var i :| 0 <= i < |ps| && ps[i] == qs[j];
    }
    assert m.Keys == n.Keys;
    assert m == n;
  }

  /** Several entries with one id: the later one wins. */
  lemma LastEntryWins(p: PriceInfo, q: PriceInfo)
    requires p.id == q.id
    ensures PriceFor([p, q], p.id) == Some(q)
  {
  }
}
