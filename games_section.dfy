/** The home page's games carousel: per-breakpoint card geometry, the choice
    between the bounce, static-row and sliding displays, and the autoplay cursor. */
module GamesSection {
  import opened Wrappers
  import opened Breakpoint
  import opened Cursor

  /** A file attached to a game; only the url is read here. */
  datatype GameFile = GameFile(id: int, url: string, kind: string)

  /** A game as the backend delivers it (`files` may be absent). */
  datatype Game = Game(id: int, title: string, content: string, files: Option<seq<GameFile>>)

  /** What a card shows. */
  datatype Card = Card(id: int, title: string, content: string, image: string)

  const NoImage: string := "https://placehold.co/320x400?text=No+Image"

  // ---------------------------------------------------------------------------
  // Card geometry per size class

  /** Card width, height and gap in pixels, and the number of cards meant to be shown. */
  datatype CardConfig = CardConfig(width: int, height: int, gap: int, show: int)

  /** `CARD_CONFIGS[bp]`. */
  function CardConfigFor(bp: SizeClass): (c: CardConfig)
    ensures c.show == 3
    ensures c.width > 0 && c.height > 0 && c.gap > 0
    ensures bp == Mobile ==> c == CardConfig(110, 160, 8, 3)
    ensures bp == Tablet ==> c == CardConfig(160, 210, 12, 3)
    ensures bp == Desktop ==> c == CardConfig(220, 300, 16, 3)
  {
    match bp
    case Mobile => CardConfig(110, 160, 8, 3)
    case Tablet => CardConfig(160, 210, 12, 3)
    case Desktop => CardConfig(220, 300, 16, 3)
  }

  /** Width, height and gap grow strictly with the size class. */
  lemma CardConfigIncreasing(a: SizeClass, b: SizeClass)
    requires Rank(a) < Rank(b)
    ensures CardConfigFor(a).width < CardConfigFor(b).width
    ensures CardConfigFor(a).height < CardConfigFor(b).height
    ensures CardConfigFor(a).gap < CardConfigFor(b).gap
  {
  }

  // ---------------------------------------------------------------------------
  // Game to card

  /** `game.files?.[0]?.url || placeholder`: an absent list, an empty list and an
      empty url all fall back to the placeholder. */
  function CardImage(files: Option<seq<GameFile>>): (url: string)
    ensures url != ""
    ensures url == NoImage <==> (files.None? || |files.value| == 0 || files.value[0].url in {"", NoImage})
    ensures url != NoImage ==> url == files.value[0].url
  {
    if files.Some? && |files.value| > 0 && files.value[0].url != "" then files.value[0].url else NoImage
  }

  function ToCard(g: Game): Card {
    Card(g.id, g.title, g.content, CardImage(g.files))
  }

  /** `getCardList`: one card per game, in order, keeping id, title and content. */
  function GetCardList(games: seq<Game>): (cards: seq<Card>)
    ensures |cards| == |games|
    ensures forall i :: 0 <= i < |games| ==>
      cards[i].id == games[i].id && cards[i].title == games[i].title &&
      cards[i].content == games[i].content && cards[i].image == CardImage(games[i].files)
  {
    seq(|games|, i requires 0 <= i < |games| => ToCard(games[i]))
  }

  // ---------------------------------------------------------------------------
  // Display mode

  datatype DisplayMode = Bounce | StaticRow | Slide

  predicate IsBounce(count: int) { count <= 3 }
  predicate IsStaticRow(count: int) { count > 3 && count < 6 }
  predicate IsSlide(count: int) { count >= 6 }

  /** The display chosen for `count` cards (the `isBounce ? … : isStaticRow ? … : …` chain). */
  function ModeOf(count: int): (m: DisplayMode)
    ensures m == Bounce <==> IsBounce(count)
    ensures m == StaticRow <==> IsStaticRow(count)
    ensures m == Slide <==> IsSlide(count)
  {
    if IsBounce(count) then Bounce else if IsStaticRow(count) then StaticRow else Slide
  }

  /** Exactly one of the three predicates holds for every count. */
  lemma ModesPartition(count: int)
    ensures IsBounce(count) || IsStaticRow(count) || IsSlide(count)
    ensures !(IsBounce(count) && IsStaticRow(count))
    ensures !(IsBounce(count) && IsSlide(count))
    ensures !(IsStaticRow(count) && IsSlide(count))
  {
  }

  // ---------------------------------------------------------------------------
  // Autoplay: `startIdx` and `isSliding`

  /** The carousel's cursor and its in-flight-slide guard. */
  datatype Autoplay = Autoplay(startIdx: int, isSliding: bool)

  /** The cursor is a position in the list (0 for an empty list), and a slide can
      only be under way in sliding mode. */
  predicate AutoplayOk(a: Autoplay, count: int) {
    (if count > 0 then 0 <= a.startIdx < count else a.startIdx == 0) &&
    (a.isSliding ==> IsSlide(count))
  }

  /** An interval tick: the interval exists only while the section is in view and
      in sliding mode, and its callback calls `slideNext` only if no slide is under way. */
  function OnTick(a: Autoplay, inView: bool, count: int): (b: Autoplay)
    ensures !inView || !IsSlide(count) || a.isSliding ==> b == a
    ensures inView && IsSlide(count) && !a.isSliding ==> b == Autoplay(a.startIdx, true)
    ensures AutoplayOk(a, count) ==> AutoplayOk(b, count)
  {
    if inView && IsSlide(count) && !a.isSliding then a.(isSliding := true) else a
  }

  /** The 500 ms timeout set by `slideNext`: advance the cursor and clear the guard.
      It exists only after a tick started a slide. */
  function OnComplete(a: Autoplay, count: int): (b: Autoplay)
    requires a.isSliding && IsSlide(count)
    ensures !b.isSliding
    ensures b.startIdx == Advance(a.startIdx, count)
    ensures AutoplayOk(a, count) ==> AutoplayOk(b, count)
  {
    Autoplay(Advance(a.startIdx, count), false)
  }

  /** What can happen to the autoplay state: an interval tick (with the section's
      current visibility) or the completion of a started slide. */
  datatype SlideEvent = Tick(inView: bool) | Complete

  /** One event. A `Complete` with no slide under way stands for no event at all:
      the timeout only exists after `slideNext`. */
  function Step(a: Autoplay, count: int, e: SlideEvent): Autoplay {
    match e
    case Tick(v) => OnTick(a, v, count)
    case Complete => if a.isSliding && IsSlide(count) then OnComplete(a, count) else a
  }

  function Run(a: Autoplay, count: int, events: seq<SlideEvent>): Autoplay
    decreases |events|
  {
    if events == [] then a else Run(Step(a, count, events[0]), count, events[1..])
  }

  /** Whatever the events, the cursor stays in range and a slide is only under way in sliding mode. */
  lemma {:induction false} RunKeepsCursorInRange(a: Autoplay, count: int, events: seq<SlideEvent>)
    requires AutoplayOk(a, count)
    ensures AutoplayOk(Run(a, count, events), count)
    decreases |events|
  {
    if events != [] {
      RunKeepsCursorInRange(Step(a, count, events[0]), count, events[1..]);
    }
  }

  /** `k` ticks, each with visibility `v`. */
  function Ticks(k: nat, v: bool): (es: seq<SlideEvent>)
    ensures |es| == k
    ensures forall i :: 0 <= i < k ==> es[i] == Tick(v)
  {
    if k == 0 then [] else [Tick(v)] + Ticks(k - 1, v)
  }

  /** Backpressure: ticks arriving while a slide is under way are dropped, so a
      burst of any number of them followed by the completion moves the cursor
      by exactly one. */
  lemma {:induction false} BurstAdvancesOnce(a: Autoplay, count: int, k: nat, v: bool)
    requires a.isSliding && IsSlide(count)
    ensures Run(a, count, Ticks(k, v) + [Complete]) == Autoplay(Advance(a.startIdx, count), false)
    decreases k
  {
    var es := Ticks(k, v) + [Complete];
    if k == 0 {
      assert es[1..] == [];
    } else {
      assert es[0] == Tick(v);
      assert es[1..] == Ticks(k - 1, v) + [Complete];
      BurstAdvancesOnce(a, count, k - 1, v);
    }
  }

  /** `k` full autoplay cycles while in view: a tick that starts a slide, then its completion. */
  function Cycles(k: nat): (es: seq<SlideEvent>)
    ensures |es| == 2 * k
  {
    if k == 0 then [] else [Tick(true), Complete] + Cycles(k - 1)
  }

  /** In sliding mode and in view, each cycle moves the cursor one step. */
  lemma {:induction false} CyclesAdvance(i: int, count: int, k: nat)
    requires IsSlide(count) && 0 <= i < count
    ensures Run(Autoplay(i, false), count, Cycles(k)) == Autoplay(AdvanceN(i, k, count), false)
    decreases k
  {
    if k > 0 {
      var es := Cycles(k);
      assert es[0] == Tick(true) && es[1..][0] == Complete && es[1..][1..] == Cycles(k - 1);
      CyclesAdvance(Advance(i, count), count, k - 1);
    }
  }

  /** After as many completed slides as there are cards the cursor is back where it started. */
  lemma SlidesWrapAround(i: int, count: int)
    requires IsSlide(count) && 0 <= i < count
    ensures Run(Autoplay(i, false), count, Cycles(count)) == Autoplay(i, false)
  {
    CyclesAdvance(i, count, count);
    FullCycleReturns(i, count);
  }

  // ---------------------------------------------------------------------------
  // What the section renders

  datatype SectionView =
    | Hidden
    | BounceView(cards: seq<Card>, config: CardConfig)
    | StaticRowView(cards: seq<Card>, config: CardConfig)
    | SliderView(cards: seq<Card>, startIdx: int, config: CardConfig)

  /** Nothing while loading or with no cards; otherwise the display of `ModeOf(|cards|)`
      with the geometry of the current size class. */
  function Render(loading: bool, cards: seq<Card>, bp: SizeClass, startIdx: int): (v: SectionView)
    ensures v.Hidden? <==> loading || |cards| == 0
    ensures !v.Hidden? ==> v.cards == cards && v.config == CardConfigFor(bp)
    ensures v.BounceView? <==> !loading && 0 < |cards| && ModeOf(|cards|) == Bounce
    ensures v.StaticRowView? <==> !loading && ModeOf(|cards|) == StaticRow
    ensures v.SliderView? <==> !loading && ModeOf(|cards|) == Slide
    ensures v.SliderView? ==> v.startIdx == startIdx
  {
    if loading || |cards| == 0 then Hidden
    else if IsBounce(|cards|) then BounceView(cards, CardConfigFor(bp))
    else if IsStaticRow(|cards|) then StaticRowView(cards, CardConfigFor(bp))
    else SliderView(cards, startIdx, CardConfigFor(bp))
  }

  // ---------------------------------------------------------------------------
  // The mounted section

  /** The section's state: the fetched list, the loading flag, visibility from the
      observer (threshold 0.5) and the autoplay state. */
  class Carousel {
    var cards: seq<Card>
    var loading: bool
    var inView: bool
    var startIdx: int
    var isSliding: bool

    ghost predicate Valid()
      reads this
    {
      AutoplayOk(Snapshot(), |cards|) && (loading ==> cards == [] && !isSliding)
    }

    function Snapshot(): Autoplay
      reads this
    {
      Autoplay(startIdx, isSliding)
    }

    /** The first render: empty list, cursor 0, loading, not yet in view. */
    constructor ()
      ensures Valid()
      ensures cards == [] && loading && !inView && startIdx == 0 && !isSliding
    {
      cards := [];
      loading := true;
      inView := false;
      startIdx := 0;
      isSliding := false;
    }

    /** The mount effect: loading is set and page 1 of size 20 is requested. */
    method Mount() returns (request: Request)
      requires Valid() && loading
      modifies this
      ensures Valid() && loading
      ensures cards == old(cards) && inView == old(inView) && Snapshot() == old(Snapshot())
      ensures request == Request(1, 20)
    {
      loading := true;
      request := Request(1, 20);
    }

    /** The list request settled: the mapped games, or an empty list on failure; loading ends. */
    method ListSettled(result: Settled<seq<Game>>)
      requires Valid() && loading
      modifies this
      ensures Valid() && !loading
      ensures cards == (if result.Fulfilled? then GetCardList(result.payload) else [])
      ensures Snapshot() == old(Snapshot()) && inView == old(inView)
    {
      if result.Fulfilled? {
        cards := GetCardList(result.payload);
      } else {
        cards := [];
      }
      loading := false;
    }

    /** The visibility observer reported a crossing. */
    method SetInView(visible: bool)
      requires Valid()
      modifies this
      ensures Valid() && inView == visible
      ensures cards == old(cards) && loading == old(loading) && Snapshot() == old(Snapshot())
    {
      inView := visible;
    }

    /** An interval tick. */
    method Tick()
      requires Valid()
      modifies this
      ensures Valid()
      ensures Snapshot() == OnTick(old(Snapshot()), inView, |cards|)
      ensures cards == old(cards) && loading == old(loading) && inView == old(inView)
    {
      if inView && IsSlide(|cards|) && !isSliding {
        isSliding := true;
      }
    }

    /** The timeout of a started slide fires. */
    method CompleteSlide()
      requires Valid() && isSliding
      modifies this
      ensures cards == old(cards) && loading == old(loading) && inView == old(inView)
      ensures Valid()
      ensures Snapshot() == OnComplete(old(Snapshot()), |cards|)
    {
      startIdx := (startIdx + 1) % |cards|;
      isSliding := false;
    }
  }
}
