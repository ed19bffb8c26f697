/** The price lookup (app/tools/priceInfo.ts).  The two price-service requests are
    inputs: `search` is the body of the title search (`None` when the request failed)
    and `overview` answers the price-overview request for a game id (`None` when it
    failed).  What remains is the choice of the game and the checks on the first
    price entry. */
module PriceTool {
  import opened Wrappers
  import opened Seqs

  /** One search hit; `kind` is the service's `type` field. */
  datatype ServiceGame = ServiceGame(id: string, kind: string)

  /** The search body: the source only accepts it when it is an array. */
  datatype SearchBody = NotAnArray | Hits(games: seq<ServiceGame>)

  datatype Money = Money(amount: real, currency: string)
  datatype Deal = Deal(price: Option<Money>, regular: Option<Money>)
  datatype PriceEntry = PriceEntry(current: Option<Deal>, gameUrl: Option<string>)
  datatype Overview = Overview(prices: seq<PriceEntry>)

  /** `PriceInfoToolOutput`. */
  datatype PriceOutput = PriceOutput(url: string, currentPrice: Money, regularPrice: Money)

  /** Why the lookup rejects. */
  datatype PriceError = RequestFailed | NoMatchingGame | NoPriceEntry | NoPriceInformation

  predicate IsGameOrPackage(g: ServiceGame)
  {
    g.kind == "game" || g.kind == "package"
  }

  /** `getGame`: the first hit of type `game` or `package`; `None` when there is
      none or the body is not an array. */
  function GetGame(body: SearchBody): (r: Option<ServiceGame>)
    ensures body.NotAnArray? ==> r.None?
    ensures r.Some? ==> body.Hits? && r.value in body.games && IsGameOrPackage(r.value)
    ensures body.Hits? ==>
              (r.None? <==> forall i :: 0 <= i < |body.games| ==> !IsGameOrPackage(body.games[i]))
    ensures body.Hits? ==>
              forall i :: 0 <= i < |body.games| && IsGameOrPackage(body.games[i])
                          && (forall j :: 0 <= j < i ==> !IsGameOrPackage(body.games[j]))
                          ==> r == Some(body.games[i])
  {
    match body
    case NotAnArray => None
    case Hits(games) => Find(games, IsGameOrPackage)
  }

  /** The current and regular price of the first entry, both required. */
  function FirstEntryPrices(o: Overview): (r: Result<PriceOutput, PriceError>)
    ensures |o.prices| == 0 ==> r == Err(NoPriceEntry)
    ensures |o.prices| > 0 ==>
              var e := o.prices[0];
              (r.Ok? <==> e.current.Some? && e.current.value.price.Some?
                          && e.current.value.regular.Some?)
    ensures r.Ok? ==>
              && r.value.currentPrice == o.prices[0].current.value.price.value
              && r.value.regularPrice == o.prices[0].current.value.regular.value
              && r.value.url == o.prices[0].gameUrl.GetOr("")
  {
    if |o.prices| == 0 then Err(NoPriceEntry)
    else
      var e := o.prices[0];
      var current := if e.current.Some? then e.current.value.price else None;
      var regular := if e.current.Some? then e.current.value.regular else None;
      if current.None? || regular.None? then Err(NoPriceInformation)
      else Ok(PriceOutput(e.gameUrl.GetOr(""), current.value, regular.value))
  }

  /** The whole lookup for one title. */
  function PriceLookup(search: Option<SearchBody>, overview: string -> Option<Overview>)
    : (r: Result<PriceOutput, PriceError>)
    ensures search.None? ==> r == Err(RequestFailed)
    ensures search.Some? && GetGame(search.value).None? ==> r == Err(NoMatchingGame)
    ensures r.Ok? ==>
              && search.Some?
              && GetGame(search.value).Some?
              && overview(GetGame(search.value).value.id).Some?
              && r == FirstEntryPrices(overview(GetGame(search.value).value.id).value)
    ensures search.Some? && GetGame(search.value).Some? ==>
              var id := GetGame(search.value).value.id;
              && (overview(id).None? ==> r == Err(RequestFailed))
              && (overview(id).Some? ==> r == FirstEntryPrices(overview(id).value))
  {
    match search
    case None => Err(RequestFailed)
    case Some(body) =>
      match GetGame(body)
      case None => Err(NoMatchingGame)
      case Some(game) =>
        match overview(game.id)
        case None => Err(RequestFailed)
        case Some(o) => FirstEntryPrices(o)
  }
}
