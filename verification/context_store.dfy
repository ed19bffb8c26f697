/** The per-user context store (contextStore.ts): a map from user id to context.
    `getContext` looks a user up; `updateContext` merges a partial update into an
    existing context and does nothing for an unknown user.  The module-level `Map`
    is passed in and returned explicitly. */
module ContextStore {
  import opened Wrappers

  datatype Source = Steam | Manual | GamePass | PS5

  /** A game in a user's library (types.ts). */
  datatype LibraryGame = LibraryGame(
    title: string,
    platform: string,
    genres: Option<seq<string>>,
    playtimeMinutes: Option<int>,
    source: Source)

  datatype History = History(moods: seq<string>, recommendations: seq<LibraryGame>)

  datatype Context = Context(
    userId: string,
    platforms: seq<string>,
    libraries: map<string, seq<LibraryGame>>,
    history: History)

  /** `Partial<MCPContext>`: each field present or absent. */
  datatype ContextUpdate = ContextUpdate(
    userId: Option<string>,
    platforms: Option<seq<string>>,
    libraries: Option<map<string, seq<LibraryGame>>>,
    history: Option<History>)

  const EmptyUpdate: ContextUpdate := ContextUpdate(None, None, None, None)

  type Store = map<string, Context>

  /** `store.get(userId)`. */
  function GetContext(store: Store, userId: string): (r: Option<Context>)
    ensures r.Some? <==> userId in store
    ensures r.Some? ==> r.value == store[userId]
  {
    if userId in store then Some(store[userId]) else None
  }

  /** `{ ...context, ...update }`: the update's present fields win. */
  function Merge(c: Context, u: ContextUpdate): (r: Context)
    ensures r.userId == u.userId.GetOr(c.userId)
    ensures r.platforms == u.platforms.GetOr(c.platforms)
    ensures r.libraries == u.libraries.GetOr(c.libraries)
    ensures r.history == u.history.GetOr(c.history)
  {
    Context(u.userId.GetOr(c.userId), u.platforms.GetOr(c.platforms),
            u.libraries.GetOr(c.libraries), u.history.GetOr(c.history))
  }

  /** `updateContext`. */
  function UpdateContext(store: Store, userId: string, u: ContextUpdate): (r: Store)
    ensures r.Keys == store.Keys
    ensures userId !in store ==> r == store
    ensures userId in store ==> r[userId] == Merge(store[userId], u)
    ensures forall id :: id in store && id != userId ==> r[id] == store[id]
  {
    match GetContext(store, userId)
    case None => store
    case Some(context) => store[userId := Merge(context, u)]
  }

  /** The empty update leaves every context as it was. */
  lemma EmptyUpdateChangesNothing(store: Store, userId: string)
    ensures UpdateContext(store, userId, EmptyUpdate) == store
  {
    if userId in store {
      var c := store[userId];
      assert Merge(c, EmptyUpdate) == c;
      assert store[userId := c] == store;
    }
  }

  /** Reading back after an update gives the merged context, or nothing for an
      unknown user. */
  lemma GetAfterUpdate(store: Store, userId: string, u: ContextUpdate)
    ensures GetContext(UpdateContext(store, userId, u), userId) ==
              if userId in store then Some(Merge(store[userId], u)) else None
  {
  }

  /** The second update's fields over the first's. */
  function Then(u: ContextUpdate, v: ContextUpdate): ContextUpdate
  {
    ContextUpdate(
      if v.userId.Some? then v.userId else u.userId,
      if v.platforms.Some? then v.platforms else u.platforms,
      if v.libraries.Some? then v.libraries else u.libraries,
      if v.history.Some? then v.history else u.history)
  }

  /** Two updates in a row are one update with the later fields winning. */
  lemma UpdatesCompose(store: Store, userId: string, u: ContextUpdate, v: ContextUpdate)
    ensures UpdateContext(UpdateContext(store, userId, u), userId, v)
            == UpdateContext(store, userId, Then(u, v))
  {
    if userId in store {
      var c := store[userId];
      assert Merge(Merge(c, u), v) == Merge(c, Then(u, v));
    }
  }
}
