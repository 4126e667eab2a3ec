/** The home page's news strip: the three latest news items as cards. */
module NewsSection {
  import opened Wrappers
  import opened Breakpoint
  import NewsListPage

  type PublicNews = NewsListPage.PublicNews

  /** The section's own copy of the breakpoint hook's `update`. */
  function LocalBreakpoint(w: int): (c: SizeClass)
    ensures c == Classify(w)
  {
    if w < 640 then Mobile else if w < 1024 then Tablet else Desktop
  }

  /** What a news card shows. */
  datatype NewsCard = NewsCard(id: int, title: string, date: string, image: string)

  const NoImage: string := "https://placehold.co/320x180?text=No+Image"

  /** `publishedAt?.slice(0, 10) ?? ""`: the first ten characters, the whole
      string when it is shorter, the empty string when it is absent. */
  function CardDate(publishedAt: Option<string>): (d: string)
    ensures publishedAt.None? ==> d == ""
    ensures publishedAt.Some? ==> d <= publishedAt.value
    ensures publishedAt.Some? ==> |d| == if |publishedAt.value| < 10 then |publishedAt.value| else 10
  {
    match publishedAt
    case None => ""
    case Some(s) => if |s| < 10 then s else s[..10]
  }

  /** `files?.[0]?.url || placeholder`: an absent list, an empty list and an
      empty url all fall back to the placeholder. */
  function CardImage(files: Option<seq<NewsListPage.NewsFile>>): (url: string)
    ensures url != ""
    ensures files.Some? && |files.value| > 0 && files.value[0].url != "" ==> url == files.value[0].url
    ensures files.None? || |files.value| == 0 || files.value[0].url == "" ==> url == NoImage
  {
    if files.Some? && |files.value| > 0 && files.value[0].url != "" then files.value[0].url else NoImage
  }

  /** The `newsList.map(...)` of the fetch callback: one card per item, in order. */
  function ToCards(list: seq<PublicNews>): (cards: seq<NewsCard>)
    ensures |cards| == |list|
    ensures forall i :: 0 <= i < |list| ==>
      cards[i].id == list[i].id && cards[i].title == list[i].title &&
      cards[i].date == CardDate(list[i].publishedAt) && cards[i].image == CardImage(list[i].files)
  {
    seq(|list|, i requires 0 <= i < |list| =>
      NewsCard(list[i].id, list[i].title, CardDate(list[i].publishedAt), CardImage(list[i].files)))
  }

  /** Card height in pixels per size class. */
  function CardHeight(bp: SizeClass): (h: int)
    ensures bp == Mobile ==> h == 160
    ensures bp == Tablet ==> h == 200
    ensures bp == Desktop ==> h == 260
  {
    if bp == Mobile then 160 else if bp == Tablet then 200 else 260
  }

  /** Cards get taller as the size class grows. */
  lemma CardHeightIncreasing(a: SizeClass, b: SizeClass)
    requires Rank(a) < Rank(b)
    ensures CardHeight(a) < CardHeight(b)
  {
  }

  datatype SectionView = LoadingMessage | EmptyMessage | Cards(cards: seq<NewsCard>, cardHeight: int)

  /** The loading message while loading, the empty message only once loading
      has ended with no item, the cards otherwise. */
  function Render(loading: bool, cards: seq<NewsCard>, bp: SizeClass): (v: SectionView)
    ensures v.LoadingMessage? <==> loading
    ensures v.EmptyMessage? <==> !loading && cards == []
    ensures v.Cards? ==> v.cards == cards && v.cardHeight == CardHeight(bp) && cards != []
  {
    if loading then LoadingMessage
    else if |cards| == 0 then EmptyMessage
    else Cards(cards, CardHeight(bp))
  }

  /** The section's `newsList` and `loading` state. */
  class Strip {
    var cards: seq<NewsCard>
    var loading: bool

    /** The first render: loading, no cards. */
    constructor ()
      ensures loading && cards == []
    {
      cards := [];
      loading := true;
    }

    /** The mount effect: loading is set and page 1 of size 3 is requested. */
    method Mount() returns (request: Request)
      modifies this
      ensures loading && cards == old(cards)
      ensures request == Request(1, 3)
    {
      loading := true;
      request := Request(1, 3);
    }

    /** The request settled with the list part of the reply, or failed. */
    method FetchSettled(result: Settled<seq<PublicNews>>)
      modifies this
      ensures !loading
      ensures result.Fulfilled? ==> cards == ToCards(result.payload)
      ensures result.Rejected? ==> cards == []
    {
      match result {
        case Fulfilled(list) => cards := ToCards(list);
        case Rejected(_) => cards := [];
      }
      loading := false;
    }
  }
}
