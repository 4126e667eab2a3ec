/** The news list page: the same engine over news items, fed by the news list
    helper, which passes the page count on (1 when the server omits it). */
module NewsListPage {
  import opened Wrappers
  import opened InfiniteScroll

  /** A file attached to a news item. */
  datatype NewsFile = NewsFile(id: int, url: string, kind: string)

  /** A news item as the public news endpoints deliver it. */
  datatype PublicNews = PublicNews(id: int, title: string, content: string,
                                   publishedAt: Option<string>, files: Option<seq<NewsFile>>)

  function NewsId(n: PublicNews): int { n.id }

  /** What `fetchPublicNewsList` resolves to when the server answers with the
      list `batch` and the page count `serverTotalPages` (`totalPages ?? 1`). */
  function Fetch(batch: seq<PublicNews>, serverTotalPages: Option<int>): (p: Payload<PublicNews>)
    ensures Batch(p) == batch
    ensures serverTotalPages.None? ==> TotalPages(p) == 1
    ensures serverTotalPages.Some? && serverTotalPages.value != 0 ==> TotalPages(p) == serverTotalPages.value
  {
    Paged(batch, serverTotalPages.GetOr(1))
  }

  /** After a successful load of page `p` more pages remain exactly when `p` is
      below the server's count; a missing count means a single page. */
  lemma HasMoreFollowsServerCount(s: PageState<PublicNews>, batch: seq<PublicNews>, n: Option<int>)
    requires Consistent(s) && s.inFlight.NextPage?
    ensures var t := LoadMoreSettled(s, Fulfilled(Fetch(batch, n)), NewsId);
            && t.page == s.page + 1
            && (n.None? ==> !t.hasMore)
            && (n.Some? && n.value > 0 ==> (t.hasMore <==> s.page < n.value))
  {
  }
}
