/** The games list page: the infinite-scroll engine over games, fed by the games
    list helper, which resolves to the bare list and drops the page count. */
module GamesListPage {
  import opened Wrappers
  import opened InfiniteScroll
  import GamesSection

  type Game = GamesSection.Game

  function GameId(g: Game): int { g.id }

  /** What `fetchPublicGamesList` resolves to when the server answers with the
      list `batch` and page count `serverTotalPages`: the list alone. */
  function FetchAsWritten(batch: seq<Game>, serverTotalPages: int): (p: Payload<Game>)
    ensures Batch(p) == batch && TotalPages(p) == 1
  {
    BareList(batch)
  }

  /** The page count the server reports never reaches the page: after the first
      successful load `hasMore` is false whatever that count is, and from then
      on no event changes the state, so only the first page is ever listed. */
  lemma {:induction false} FirstPageIsLastAsWritten(batch: seq<Game>, serverTotalPages: int, es: seq<PageEvent<Game>>)
    ensures var s := FirstPageSettled(MountEffect(Initial()), Fulfilled(FetchAsWritten(batch, serverTotalPages)));
            && s.items == batch && !s.hasMore
            && Run(s, es, GameId) == s
  {
    var s := FirstPageSettled(MountEffect(Initial()), Fulfilled(FetchAsWritten(batch, serverTotalPages)));
    ExhaustedIsFinal(s, es, GameId);
  }

  /** The payload the page is written to expect: the list together with the
      server's page count, as the news helper delivers it. */
  function FetchPaged(batch: seq<Game>, serverTotalPages: int): (p: Payload<Game>)
    ensures Batch(p) == batch
    ensures serverTotalPages != 0 ==> TotalPages(p) == serverTotalPages
  {
    Paged(batch, serverTotalPages)
  }

  /** With the page count passed through, a server with more than one page keeps
      the listing open after the first page, and a sentinel crossing then asks
      for page 2. */
  lemma FirstPageKeepsGoingWhenPaged(batch: seq<Game>, serverTotalPages: int)
    requires serverTotalPages > 1
    ensures var s := FirstPageSettled(MountEffect(Initial()), Fulfilled(FetchPaged(batch, serverTotalPages)));
            && s.items == batch && s.hasMore && s.page == 2
            && OnSentinel(s).inFlight == NextPage(2)
  {
  }
}
