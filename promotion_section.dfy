/** The home page's promotion banner: one banner at a time, rotating every ten seconds. */
module PromotionSection {
  import opened Wrappers
  import opened Breakpoint
  import opened Cursor

  /** The section's own copy of the breakpoint hook's `update`. */
  function LocalBreakpoint(w: int): (c: SizeClass)
    ensures c == Classify(w)
  {
    if w < 640 then Mobile else if w < 1024 then Tablet else Desktop
  }

  datatype PromotionFile = PromotionFile(id: int, name: string, kind: string, url: string)

  datatype Banner = Banner(id: int, title: string, files: Option<seq<PromotionFile>>)

  const NoImage: string := "https://placehold.co/800x400?text=No+Image"

  /** `files?.length ? files : [placeholder]`, then the first url. Only an absent
      or empty list falls back; the first file's url is used even when empty. */
  function ImageUrl(files: Option<seq<PromotionFile>>): (url: string)
    ensures files.Some? && |files.value| > 0 ==> url == files.value[0].url
    ensures files.None? || |files.value| == 0 ==> url == NoImage
  {
    if files.Some? && |files.value| > 0 then files.value[0].url else NoImage
  }

  /** Image height in pixels per size class. */
  function ImageHeight(bp: SizeClass): (h: int)
    ensures bp == Mobile ==> h == 120
    ensures bp == Tablet ==> h == 180
    ensures bp == Desktop ==> h == 260
  {
    if bp == Mobile then 120 else if bp == Tablet then 180 else 260
  }

  /** Images get taller as the size class grows. */
  lemma ImageHeightIncreasing(a: SizeClass, b: SizeClass)
    requires Rank(a) < Rank(b)
    ensures ImageHeight(a) < ImageHeight(b)
  {
  }

  /** One interval tick over `count` banners. The interval only exists with two
      banners or more; then it moves to the next banner, wrapping. */
  function OnTick(current: int, count: int): (next: int)
    ensures count < 2 ==> next == current
    ensures count >= 2 ==> next == Advance(current, count)
    ensures count >= 2 && 0 <= current ==> 0 <= next < count
  {
    if count < 2 then current else Advance(current, count)
  }

  /** `k` ticks. */
  function Ticks(current: int, count: int, k: nat): int
    decreases k
  {
    if k == 0 then current else Ticks(OnTick(current, count), count, k - 1)
  }

  /** With two banners or more, `k` ticks are `k` cursor steps; with fewer the
      cursor never moves. */
  lemma {:induction false} TicksAreSteps(current: int, count: int, k: nat)
    ensures count >= 2 ==> Ticks(current, count, k) == AdvanceN(current, k, count)
    ensures count < 2 ==> Ticks(current, count, k) == current
    decreases k
  {
    if k > 0 {
      TicksAreSteps(OnTick(current, count), count, k - 1);
    }
  }

  /** After as many ticks as there are banners the same banner is shown again. */
  lemma RotationWrapsAround(current: int, count: int)
    requires 0 <= current < count
    ensures Ticks(current, count, count) == current
  {
    TicksAreSteps(current, count, count);
    if count >= 2 {
      FullCycleReturns(current, count);
    }
  }

  /** What is shown: the current banner's id, image, title and image height. */
  datatype BannerView = BannerView(id: int, imageUrl: string, title: string, imageHeight: int)

  /** Nothing while loading or with no banner; otherwise the banner under the cursor. */
  function Render(loading: bool, promotions: seq<Banner>, current: int, bp: SizeClass): (v: Option<BannerView>)
    requires |promotions| > 0 ==> 0 <= current < |promotions|
    ensures v.None? <==> loading || promotions == []
    ensures v.Some? ==> v.value == BannerView(promotions[current].id, ImageUrl(promotions[current].files),
                                              promotions[current].title, ImageHeight(bp))
  {
    if loading || |promotions| == 0 then None
    else
      var p := promotions[current];
      Some(BannerView(p.id, ImageUrl(p.files), p.title, ImageHeight(bp)))
  }

  /** The section's `promotions`, `current` and `loading` state. */
  class Rotator {
    var promotions: seq<Banner>
    var current: int
    var loading: bool

    /** The cursor is on a banner (0 before any arrive), and nothing arrives before loading ends. */
    ghost predicate Valid()
      reads this
    {
      (if |promotions| > 0 then 0 <= current < |promotions| else current == 0) &&
      (loading ==> promotions == [])
    }

    constructor ()
      ensures Valid() && promotions == [] && current == 0 && loading
    {
      promotions := [];
      current := 0;
      loading := true;
    }

    /** The banner request settled: its banners, or none on failure; loading ends. */
    method FetchSettled(result: Settled<seq<Banner>>)
      requires Valid() && loading
      modifies this
      ensures Valid() && !loading && current == old(current)
      ensures promotions == if result.Fulfilled? then result.payload else []
    {
      match result {
        case Fulfilled(banners) => promotions := banners;
        case Rejected(_) => promotions := [];
      }
      loading := false;
    }

    /** The rotation interval fired. */
    method Tick()
      requires Valid()
      modifies this
      ensures Valid() && promotions == old(promotions) && loading == old(loading)
      ensures current == OnTick(old(current), |promotions|)
    {
      if |promotions| >= 2 {
        current := (current + 1) % |promotions|;
      }
    }
  }
}
