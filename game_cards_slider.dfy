/** The sliding card track: its geometry and the cards it renders. */
module GameCardsSlider {
  import opened Wrappers
  import GamesSection

  /** Distance in pixels from one card's left edge to the next one's. */
  function SlideWidth(cardWidth: int, cardGap: int): int {
    cardWidth + cardGap
  }

  /** The track's `translateX`: left by one slide width per cursor position. */
  function Offset(slideWidth: int, startIdx: int): int {
    -(slideWidth * startIdx)
  }

  /** The track's width: one slide width per card. */
  function TrackWidth(slideWidth: int, count: nat): int {
    slideWidth * count
  }

  /** At cursor 0 the track is not shifted, and each cursor step shifts it left
      by exactly one slide width. */
  lemma OffsetSteps(slideWidth: int, i: int)
    ensures Offset(slideWidth, 0) == 0
    ensures Offset(slideWidth, i + 1) == Offset(slideWidth, i) - slideWidth
  {
    assert slideWidth * (i + 1) == slideWidth * i + slideWidth;
  }

  /** For a cursor in range the track is shifted left, and what is left of it
      past the shift still holds at least one whole slide: the leading card is a
      card of the list. */
  lemma OffsetWithinTrack(slideWidth: int, startIdx: int, count: nat)
    requires slideWidth >= 0 && 0 <= startIdx < count
    ensures Offset(slideWidth, startIdx) <= 0
    ensures TrackWidth(slideWidth, count) + Offset(slideWidth, startIdx) >= slideWidth
  {
    assert slideWidth * startIdx >= 0;
    assert slideWidth * (count - startIdx - 1) >= 0;
    assert slideWidth * count - slideWidth * startIdx == slideWidth * (count - startIdx - 1) + slideWidth;
  }

  /** One rendered card. `onClick` is the id the card's click handler passes,
      or `None` when no handler is attached. */
  datatype SlideCard = SlideCard(title: string, image: string, content: string,
                                 width: int, height: int, onClick: Option<int>)

  /** The slider's output: the container height, the track's width, gap and
      shift, and its cards. */
  datatype Slider = Slider(height: int, trackWidth: int, gap: int, offset: int, cards: seq<SlideCard>)

  /** `GameCardsSlider` rendered for `gameList` at cursor `startIdx`. `showCount`
      is part of the props but is never read; `hasHandler` says whether
      `onCardClick` was passed. */
  function Render(gameList: seq<GamesSection.Card>, startIdx: int, cardWidth: int, cardHeight: int,
                  cardGap: int, showCount: int, hasHandler: bool): (s: Slider)
    ensures s.height == cardHeight && s.gap == cardGap
    ensures s.trackWidth == TrackWidth(SlideWidth(cardWidth, cardGap), |gameList|)
    ensures s.offset == Offset(SlideWidth(cardWidth, cardGap), startIdx)
    ensures |s.cards| == |gameList|
    ensures forall i :: 0 <= i < |gameList| ==>
      s.cards[i].title == gameList[i].title && s.cards[i].image == gameList[i].image &&
      s.cards[i].content == gameList[i].content &&
      s.cards[i].width == cardWidth && s.cards[i].height == cardHeight &&
      s.cards[i].onClick == (if hasHandler then Some(gameList[i].id) else None)
  {
    var slideWidth := cardWidth + cardGap;
    Slider(cardHeight, slideWidth * |gameList|, cardGap, -(slideWidth * startIdx),
           seq(|gameList|, i requires 0 <= i < |gameList| =>
             SlideCard(gameList[i].title, gameList[i].image, gameList[i].content, cardWidth, cardHeight,
                       if hasHandler then Some(gameList[i].id) else None)))
  }

  /** `showCount` does not affect what is rendered. */
  lemma ShowCountIgnored(gameList: seq<GamesSection.Card>, startIdx: int, cardWidth: int, cardHeight: int,
                         cardGap: int, m: int, n: int, hasHandler: bool)
    ensures Render(gameList, startIdx, cardWidth, cardHeight, cardGap, m, hasHandler)
         == Render(gameList, startIdx, cardWidth, cardHeight, cardGap, n, hasHandler)
  {
  }
}
