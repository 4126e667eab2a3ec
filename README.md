# Presentation state of the homepage client, in Dafny

This project models the presentation-state logic of the `homepage-client` React
marketing site and proves properties of that model. Beneath its HTTP, DOM and
animation layers sit a few small rules and state machines that use only
integers, sequences and strings:

- the viewport-width classifier of `useBreakpoint` and its three local copies;
- the per-size-class layout lookups (card geometry, card, image and section heights);
- the games carousel: the choice of display mode by card count, the autoplay
  cursor with its `isSliding` guard, and the slider's track geometry;
- the promotion banner's rotation;
- the infinite-scroll engine. The games list page and the news list page each
  contain an identical copy of it: guarded `loadMore`, the merge that drops ids
  already held, `hasMore` from the page count, and the mount effect;
- the hero banner's choice of media;
- the contact dialog's submit and close transitions.

Fetches, timers and visibility changes are modelled as explicit events, in two
phases where the source has two: a fetch starts, then it settles; a tick starts a
slide, then the slide's timeout completes it. The list pages, the games
carousel, the promotion banner and the contact dialog have:

- pure step functions over a state value, which carry the lemmas;
- a class whose methods assign the fields one by one as the component's setters
  do, and whose `ensures` clauses tie the new state to those step functions.

The news strip and the hero banner only store the outcome of one fetch. Their
classes state the stored value directly, in terms of the pure functions that
compute it (`NewsSection.ToCards`, `HeroSection.MediaAfterFetch`).

JavaScript details are modelled explicitly:

- `a || b` also replaces an empty-string url, but `files?.length ? … : …` does not;
- `totalPages || 1` also replaces a page count of 0;
- `data.newsList || data` is modelled;
- a rejection's `message` may be absent, so messages are `Option<string>`;
- a stored error is shown only when it is truthy, on the list pages and in the
  contact dialog;
- `%` keeps the sign of the dividend (`Cursor.Advance`).

Modules, one per source file modelled, plus three shared ones:

| module | file |
|---|---|
| `Wrappers` | `Option`, `Settled` (how a fetch settles), `Request`, and JavaScript truthiness of an optional string |
| `Breakpoint` | `src/hooks/useBreakpoint.tsx` |
| `Cursor` | the `(prev + 1) % length` cursor shared by the carousel and the banner |
| `GamesSection` | `src/components/sections/GamesSection.tsx` |
| `GameCardsSlider` | `src/components/ui/GameCardsSlider.tsx` |
| `InfiniteScroll` | the engine of both list pages |
| `GamesListPage` | `src/components/pages/GamesListPage.tsx` with the games fetch helper |
| `NewsListPage` | `src/components/pages/NewsListPage.tsx` with the news fetch helper |
| `NewsSection` | `src/components/sections/NewsSection.tsx` |
| `PromotionSection` | `src/components/sections/PromotionSection.tsx` |
| `HeroSection` | `src/components/sections/HeroSection.tsx` |
| `ContactDialog` | `src/components/ui/ContactDialog.tsx` |

Two properties of the list pages are worth stating because they are weaker than
one might expect:

- **Duplicate ids.** The merge filters a fetched page only against the ids held
  before it (src/components/pages/GamesListPage.tsx:23-24), and the first page
  is taken whole (src/components/pages/GamesListPage.tsx:44). So the list is
  free of duplicate ids only when every fetched page is itself free of them
  (`InfiniteScroll.RunKeepsDistinct`). Two equal ids inside one page both
  survive the merge (`InfiniteScroll.MergeKeepsDuplicatesWithinBatch`).
- **No retry after a failed first page.** After a failed load the same page is
  asked for again when the sentinel comes back into view, as long as something
  is listed. After a failed first page the list is empty, and the error screen
  replaces the sentinel (src/components/pages/GamesListPage.tsx:73-74). So
  nothing triggers another load (`InfiniteScroll.FailedFirstPageStalls`).

## Model

| member | source | states |
|---|---|---|
| Breakpoint.Classify | src/hooks/useBreakpoint.tsx:21-26 | below 640 is mobile, 640 up to 1024 is tablet, 1024 and above is desktop; each width gets exactly one class (both directions of each case) |
| Breakpoint.ClassifyMonotone | src/hooks/useBreakpoint.tsx:23-25 | a wider viewport never gets a smaller class |
| Breakpoint.LastWidthDecides | src/hooks/useBreakpoint.tsx:20-30 | after one or more resize events the class is that of the last width |
| Breakpoint.HistoryIrrelevant | src/hooks/useBreakpoint.tsx:20-30 | two histories that end with the same widths give the same class, whatever came before |
| Breakpoint.ViewportTracker.constructor | src/hooks/useBreakpoint.tsx:19 | before any measurement the state is desktop |
| Breakpoint.ViewportTracker.Update | src/hooks/useBreakpoint.tsx:21-26 | the if-chain stores the class `Classify` gives the width |
| NewsSection.LocalBreakpoint | src/components/sections/NewsSection.tsx:13-27 | the section's copy of the classifier agrees with `Classify` on every width |
| PromotionSection.LocalBreakpoint | src/components/sections/PromotionSection.tsx:6-20 | the section's copy of the classifier agrees with `Classify` on every width |
| HeroSection.LocalBreakpoint | src/components/sections/HeroSection.tsx:7-21 | the section's copy of the classifier agrees with `Classify` on every width |
| Cursor.Advance | src/components/sections/GamesSection.tsx:119 | `(prev + 1) % n` with the sign-of-dividend remainder; from any position that is not negative it stays in [0, n), moves one step forward, and wraps from the last entry to 0 |
| Cursor.AdvanceNShifts | src/components/sections/GamesSection.tsx:119 | up to n steps from a position in range land k places further on, wrapping at most once |
| Cursor.FullCycleReturns | src/components/sections/PromotionSection.tsx:40 | n steps bring the cursor back to where it started |
| GamesSection.CardConfigFor | src/components/sections/GamesSection.tsx:14-18 | the lookup is total; it gives 110/160/8, 160/210/12 and 220/300/16 for the three classes, the show count is 3 in every class, and all sizes are positive |
| GamesSection.CardConfigIncreasing | src/components/sections/GamesSection.tsx:15-17 | card width, height and gap strictly increase from mobile to tablet to desktop |
| GamesSection.CardImage | src/components/sections/GamesSection.tsx:66 | the image is the first file's url; it is the placeholder when the files are absent or empty or the first url is empty; it is never empty |
| GamesSection.GetCardList | src/components/sections/GamesSection.tsx:61-68 | one card per game, same length and order, keeping id, title and content, with the image from `CardImage` |
| GamesSection.ModeOf | src/components/sections/GamesSection.tsx:104-107 | the display is bounce exactly for up to 3 cards, static row exactly for 4 or 5, and slide exactly for 6 or more |
| GamesSection.ModesPartition | src/components/sections/GamesSection.tsx:104-107 | for every count exactly one of `isBounce`, `isStaticRow` and `isSlide` holds |
| GamesSection.OnTick | src/components/sections/GamesSection.tsx:110-114 | a tick does nothing unless the section is in view, in slide mode and not sliding; otherwise it starts a slide and leaves the cursor where it is; it keeps the autoplay invariant |
| GamesSection.OnComplete | src/components/sections/GamesSection.tsx:116-122 | a completed slide moves the cursor one `Cursor.Advance` step, clears `isSliding`, and keeps the autoplay invariant (cursor in [0, n)) |
| GamesSection.RunKeepsCursorInRange | src/components/sections/GamesSection.tsx:110-122 | after any sequence of ticks and completions the cursor is in range, and a slide is under way only in slide mode |
| GamesSection.BurstAdvancesOnce | src/components/sections/GamesSection.tsx:112 | ticks that arrive during a slide are dropped, not queued: any number of them followed by the completion advance the cursor by exactly one |
| GamesSection.CyclesAdvance | src/components/sections/GamesSection.tsx:110-122 | in view and in slide mode, k tick-and-complete cycles move the cursor k wrapping steps |
| GamesSection.SlidesWrapAround | src/components/sections/GamesSection.tsx:119 | after n completed slides the cursor is back at its starting value |
| GamesSection.Render | src/components/sections/GamesSection.tsx:124-125 | nothing is shown while loading or with no cards; otherwise the display `ModeOf` picks, with the current class's geometry and, for the slider, the cursor |
| GamesSection.Carousel.constructor | src/components/sections/GamesSection.tsx:73-76 | first render: empty list, cursor 0, not sliding, loading |
| GamesSection.Carousel.Mount | src/components/sections/GamesSection.tsx:88-90 | the mount effect sets loading and requests page 1 of size 20, changing nothing else |
| GamesSection.Carousel.ListSettled | src/components/sections/GamesSection.tsx:88-94 | the cards are the mapped games, or empty on failure; loading ends; the autoplay state is unchanged and stays valid |
| GamesSection.Carousel.SetInView | src/components/sections/GamesSection.tsx:96 | the visibility observer updates `inView` and nothing else |
| GamesSection.Carousel.Tick | src/components/sections/GamesSection.tsx:110-114 | the interval callback updates the state as `OnTick` does, and only the autoplay state |
| GamesSection.Carousel.CompleteSlide | src/components/sections/GamesSection.tsx:116-122 | the slide timeout updates the state as `OnComplete` does and keeps the invariant |
| GameCardsSlider.OffsetSteps | src/components/ui/GameCardsSlider.tsx:39-40 | the offset `-(slideWidth * startIdx)` (`Offset`) is 0 at index 0 and decreases by exactly one slide width per cursor step |
| GameCardsSlider.OffsetWithinTrack | src/components/ui/GameCardsSlider.tsx:40-55 | for a cursor in range the track (`TrackWidth`) is shifted left by `Offset`, and at least one whole slide of the track remains to the right of the shift |
| GameCardsSlider.Render | src/components/ui/GameCardsSlider.tsx:34-85 | the slide width is card width plus gap (`SlideWidth`); the offset is `Offset` of it; the track width is the slide width times the card count (`TrackWidth`); one card per item in list order with its title, image, content and size; a click passes that card's id, and there is no handler when `onCardClick` is absent |
| GameCardsSlider.ShowCountIgnored | src/components/ui/GameCardsSlider.tsx:30-36 | `showCount` does not affect the output |
| InfiniteScroll.TotalPages | src/components/pages/GamesListPage.tsx:27 | `totalPages \|\| 1`: 1 for a bare list or a zero count, otherwise the count; never 0 |
| InfiniteScroll.Unseen | src/components/pages/GamesListPage.tsx:24 | the filter keeps exactly the fetched ids that are not among the given ones, and never lengthens the batch |
| InfiniteScroll.UnseenConcat | src/components/pages/GamesListPage.tsx:24 | the filter keeps the batch's order: filtering a concatenation concatenates the filtered parts |
| InfiniteScroll.UnseenKeepsFresh | src/components/pages/GamesListPage.tsx:23-25 | a batch with no id already held passes the filter whole |
| InfiniteScroll.UnseenDistinct | src/components/pages/GamesListPage.tsx:24 | filtering a batch with distinct ids leaves it distinct |
| InfiniteScroll.Merge | src/components/pages/GamesListPage.tsx:22-26 | the previous list is a prefix of the result, followed in fetched order by exactly the fetched items whose id was not in it; the ids held become the union of the two |
| InfiniteScroll.MergeDistinct | src/components/pages/GamesListPage.tsx:22-26 | if the previous list and the batch each have distinct ids, so does the merge |
| InfiniteScroll.MergeOverlappingPages | src/components/pages/NewsListPage.tsx:22-26 | overlapping pages [1,2,3] then [3,4,5] merge to [1,2,3,4,5] |
| InfiniteScroll.MergeKeepsDuplicatesWithinBatch | src/components/pages/GamesListPage.tsx:23-25 | two items with the same id inside one batch are both appended, so the merge alone does not guarantee distinct ids |
| InfiniteScroll.Initial | src/components/pages/GamesListPage.tsx:7-11 | the initial state: empty list, page 1, more to come, not loading, no error, no fetch outstanding; it meets the invariant |
| InfiniteScroll.MountEffect | src/components/pages/GamesListPage.tsx:36-41 | the mount effect resets to an empty list at page 1 with more to come, sets loading and leaves `error` as it was |
| InfiniteScroll.LoadMoreStart | src/components/pages/GamesListPage.tsx:16-19 | `loadMore` changes nothing while loading or when no pages remain; otherwise it sets loading and requests the current page |
| InfiniteScroll.LoadMoreSettled | src/components/pages/GamesListPage.tsx:20-32 | on success: the merge of the fetched list (`Batch`, the `data.newsList \|\| data` choice), `hasMore` is the requested page below the page count, page + 1, error cleared; on failure: the message is recorded and the items, page and `hasMore` are unchanged; loading ends either way |
| InfiniteScroll.FirstPageSettled | src/components/pages/GamesListPage.tsx:42-50 | on success: the fetched list (`Batch`, the `data.newsList \|\| data` choice) replaces the list without dedup, page 2, `hasMore` is 1 below the page count; on failure only the error is recorded; loading ends |
| InfiniteScroll.OnSentinel | src/components/pages/GamesListPage.tsx:55-69 | an intersection starts a load exactly when more pages remain, nothing is loading and the sentinel is on the page; otherwise it changes nothing |
| InfiniteScroll.SentinelIsLoadMore | src/components/pages/NewsListPage.tsx:17 | wherever the sentinel is on the page, the observer's gate and the guard of `loadMore` agree |
| InfiniteScroll.Render | src/components/pages/GamesListPage.tsx:71-90 | loading screen exactly while loading an empty list; error screen exactly for a truthy error with an empty list; otherwise the items with a loading note, and an end note once no pages remain and something is listed |
| InfiniteScroll.StepConsistent | src/components/pages/GamesListPage.tsx:16-50 | every event keeps the invariant: loading exactly while a fetch is outstanding, and a `loadMore` fetch is for the current page |
| InfiniteScroll.ExhaustedIsFinal | src/components/pages/NewsListPage.tsx:17 | once `hasMore` is false, no sequence of intersections and settlements changes any state |
| InfiniteScroll.FailedFirstPageStalls | src/components/pages/GamesListPage.tsx:55-74 | with an empty list and a shown error, no sequence of events changes the state, and the error screen stays up |
| InfiniteScroll.FirstPageFailureIsFinal | src/components/pages/NewsListPage.tsx:36-50 | a failed first load with a message ends on the error screen for good |
| InfiniteScroll.RunGrows | src/components/pages/NewsListPage.tsx:22-28 | along any run the list only grows at its end, the ids held only grow, the page never decreases and the invariant holds |
| InfiniteScroll.RunKeepsDistinct | src/components/pages/GamesListPage.tsx:22-26 | ids stay distinct along any run in which every fetched batch has distinct ids |
| InfiniteScroll.ThreePageSession | src/components/pages/NewsListPage.tsx:16-50 | with three disjoint pages and a page count of 3 the list is the three pages in order; the page ends at 4 and `hasMore` at false, after which an intersection changes nothing |
| InfiniteScroll.Feed.constructor | src/components/pages/NewsListPage.tsx:7-11 | the fields start at the initial state |
| InfiniteScroll.Feed.Mount | src/components/pages/NewsListPage.tsx:36-41 | the fields become `MountEffect` of the old ones and page 1 of size 12 is requested |
| InfiniteScroll.Feed.LoadMore | src/components/pages/NewsListPage.tsx:16-19 | the fields become `LoadMoreStart` of the old ones; the current page of size 12 is requested exactly when the guard lets the call through |
| InfiniteScroll.Feed.SentinelVisible | src/components/pages/NewsListPage.tsx:55-65 | the fields become `OnSentinel` of the old ones; a request goes out exactly when the observer is armed |
| InfiniteScroll.Feed.Settle | src/components/pages/NewsListPage.tsx:20-50 | the settling fetch updates the fields as the step function does, for the first page or for a later one, and keeps the invariant |
| GamesListPage.FetchAsWritten | src/api/games.ts:27-30 | the games helper resolves to the list alone; `data.newsList \|\| data` (`Batch`) then reads the list itself, and the page count read from it is 1 |
| GamesListPage.FirstPageIsLastAsWritten | src/components/pages/GamesListPage.tsx:41-46 | as written, after the first successful load `hasMore` is false whatever count the server reports, and no later event changes the state |
| GamesListPage.FetchPaged | src/api/news.ts:35-38 | the payload the page expects carries the list and the server's page count |
| GamesListPage.FirstPageKeepsGoingWhenPaged | src/components/pages/GamesListPage.tsx:45-60 | with the count passed through, a server with more than one page keeps the list open after page 1, and the next intersection requests page 2 |
| NewsListPage.Fetch | src/api/news.ts:32-38 | the news helper passes the list, and the page count or 1 when the server omits it |
| NewsListPage.HasMoreFollowsServerCount | src/components/pages/NewsListPage.tsx:27-28 | after loading page p, more remain exactly when p is below the server's positive count; a missing count means no more; page goes up by 1 |
| NewsSection.CardDate | src/components/sections/NewsSection.tsx:58 | the date is a prefix of `publishedAt` of length min(10, its length), or "" when it is absent |
| NewsSection.CardImage | src/components/sections/NewsSection.tsx:59 | the first file's url, or the placeholder when the files are absent or empty or the url is empty; never empty |
| NewsSection.ToCards | src/components/sections/NewsSection.tsx:54-61 | one card per news item, same length and order, keeping id and title, with the date and image above |
| NewsSection.CardHeight | src/components/sections/NewsSection.tsx:68-69 | 160/200/260 for mobile/tablet/desktop |
| NewsSection.CardHeightIncreasing | src/components/sections/NewsSection.tsx:68-69 | card height strictly grows with the size class |
| NewsSection.Render | src/components/sections/NewsSection.tsx:71-95 | the loading message exactly while loading; the empty message exactly when loading has ended with no item; otherwise the cards at the class's height |
| NewsSection.Strip.constructor | src/components/sections/NewsSection.tsx:33-34 | first render: loading, no cards |
| NewsSection.Strip.Mount | src/components/sections/NewsSection.tsx:50-52 | the mount effect sets loading and requests page 1 of size 3 |
| NewsSection.Strip.FetchSettled | src/components/sections/NewsSection.tsx:53-64 | the cards are the mapped news, or empty on failure; loading ends |
| PromotionSection.ImageUrl | src/components/sections/PromotionSection.tsx:53-54 | the first file's url, even an empty one; the placeholder only when the files are absent or empty |
| PromotionSection.ImageHeight | src/components/sections/PromotionSection.tsx:57 | 120/180/260 for mobile/tablet/desktop |
| PromotionSection.ImageHeightIncreasing | src/components/sections/PromotionSection.tsx:57 | image height strictly grows with the size class |
| PromotionSection.OnTick | src/components/sections/PromotionSection.tsx:37-43 | with fewer than 2 banners the cursor does not move; otherwise one `Cursor.Advance` step, which stays in [0, length) from a cursor that is not negative |
| PromotionSection.TicksAreSteps | src/components/sections/PromotionSection.tsx:37-43 | k ticks are k cursor steps with 2 banners or more, and no movement with fewer |
| PromotionSection.RotationWrapsAround | src/components/sections/PromotionSection.tsx:40 | after `length` ticks the cursor is back at its start |
| PromotionSection.Render | src/components/sections/PromotionSection.tsx:45-57 | nothing while loading or without banners; otherwise the current banner's id, title, image url and the class's image height |
| PromotionSection.Rotator.constructor | src/components/sections/PromotionSection.tsx:25-27 | mount: no banners, cursor 0, loading |
| PromotionSection.Rotator.FetchSettled | src/components/sections/PromotionSection.tsx:30-35 | the banners, or none on failure; loading ends; the cursor is kept and stays valid |
| PromotionSection.Rotator.Tick | src/components/sections/PromotionSection.tsx:39-41 | the interval moves the cursor as `OnTick` does and changes nothing else |
| HeroSection.FirstIndexOf | src/components/sections/HeroSection.tsx:40-41 | `find` by type: the index of the first file of that type, or none exactly when no file has it |
| HeroSection.SelectMedia | src/components/sections/HeroSection.tsx:39-47 | no media without files; otherwise the first video, else the first image, else the first file's url typed as an image |
| HeroSection.SelectedMediaIsAFile | src/components/sections/HeroSection.tsx:39-44 | the media is a video exactly when some file is a video, and its url is always one of the hero's file urls |
| HeroSection.MediaAfterFetch | src/components/sections/HeroSection.tsx:32-50 | no media on failure, after unmount, for a reply that is not a list, or for an empty list; otherwise the media of the hero at the chosen index, which lies in [0, length) |
| HeroSection.MinHeight | src/components/sections/HeroSection.tsx:55 | 40vh/55vh/70vh for mobile/tablet/desktop |
| HeroSection.Render | src/components/sections/HeroSection.tsx:71-98 | the spinner exactly while loading; the "no active hero" panel exactly when loading ended without media; otherwise the video or the image of the media |
| HeroSection.Banner.constructor | src/components/sections/HeroSection.tsx:24-25 | mount: loading, no media |
| HeroSection.Banner.FetchSettled | src/components/sections/HeroSection.tsx:32-50 | the stored media is `MediaAfterFetch` of the outcome; loading is false in every case |
| ContactDialog.Initial | src/components/ui/ContactDialog.tsx:20-25 | empty fields, not loading, no success, no error, `onClose` not called |
| ContactDialog.ErrorText | src/components/ui/ContactDialog.tsx:36 | the rejection's message, or "문의 등록 실패" when it has none |
| ContactDialog.SubmitStart | src/components/ui/ContactDialog.tsx:27-30 | a submit happens only with the form shown, not loading, and title 2–60, email 1–80 and content 5–500 characters (lines 82, 89-125); it sets loading and clears the error, keeping the fields; any other submit changes nothing |
| ContactDialog.SubmitSettle | src/components/ui/ContactDialog.tsx:31-39 | on success: success set and all three fields cleared; on failure: the error text stored and the fields kept; loading false either way |
| ContactDialog.Close | src/components/ui/ContactDialog.tsx:42-47 | success, error and all three fields are reset, `loading` is untouched, and `onClose` is called once |
| ContactDialog.Render | src/components/ui/ContactDialog.tsx:49-130 | nothing exactly when closed; the success panel exactly when open after a success; otherwise the form, showing the stored error exactly when it is truthy (line 121) and disabling the button while loading |
| ContactDialog.SubmitIsNotReentrant | src/components/ui/ContactDialog.tsx:27-30 | once a submit is in flight, no second submit can start and the form shows a disabled button (line 125) and no error |
| ContactDialog.FailureAllowsRetry | src/components/ui/ContactDialog.tsx:35-38 | after a failed submit the kept fields can be submitted again, and the form shows the error text when it is not empty |
| ContactDialog.SuccessThenClose | src/components/ui/ContactDialog.tsx:33-47 | after a success the panel replaces the form (lines 71-82) and no submit is possible; closing brings back an empty form that cannot be sent without new input |
| ContactDialog.CloseResets | src/components/ui/ContactDialog.tsx:42-47 | apart from the `onClose` call count and a submit in flight, closing returns the dialog to its initial state |
| ContactDialog.Dialog.constructor | src/components/ui/ContactDialog.tsx:20-25 | the fields start at `Initial` |
| ContactDialog.Dialog.Submit | src/components/ui/ContactDialog.tsx:27-32 | the fields become `SubmitStart` of the old ones; the three fields are sent exactly when the submit is allowed |
| ContactDialog.Dialog.SubmitSettled | src/components/ui/ContactDialog.tsx:31-39 | the fields become `SubmitSettle` of the old ones |
| ContactDialog.Dialog.HandleClose | src/components/ui/ContactDialog.tsx:42-47 | the fields become `Close` of the old ones |

## Left out

- HTTP and the fetch helpers. Each fetch is an input of type `Settled`: it is
  fulfilled with the payload or rejected with an optional message. Only the
  shape of the helpers' replies is modelled: the games helper returns the list
  alone, and the news helper returns the list with `totalPages ?? 1`.
- Time. The 2500 ms and 10000 ms intervals and the 500 ms slide timeout are
  explicit tick and completion events. When an interval is re-created because
  its dependencies changed, its timing restarts; the model does not capture this.
- Visibility. `useInView` and `IntersectionObserver`, with their thresholds, are
  a boolean input (`inView`) or an intersection event.
- React scheduling. Each `setState` is modelled as an immediate assignment. A
  `loadMore` reads `page` from its closure; the model keeps it as the page of
  the outstanding fetch. A state update after unmount is modelled only where the
  source guards it (the hero's `mounted` flag).
- HeroSection.MediaAfterFetch: the random pick
  `Math.floor(Math.random() * length)` is floating point. It is the parameter
  `pick`, which is required to lie in [0, length).
- ContactDialog.SubmitStart: the browser's `type="email"` syntax check is not
  modelled, only the declared lengths and `required`. Lengths count characters,
  not the UTF-16 code units that `minLength`/`maxLength` count.
- ContactDialog.Close: `onClose` is the caller's callback. The model
  records only that it was called (`closeCalls`), not what it does.
- NewsSection.CardDate: `slice(0, 10)` counts UTF-16 code units, the model
  counts characters. A date string with a character outside the Basic
  Multilingual Plane among its first ten is cut after ten characters here,
  where the site keeps fewer.
- Markup, styling and animation are not modelled: CSS classes, framer-motion
  transitions, the `GameCardsBounce` and `StaticRowCardList` layouts, and card
  components. The views return only the data that decides what is shown.
- Navigation on card clicks, and the forwarding of refs to the section elements.
- The pages and hooks outside this core: `App`, `Header`, `Footer`, the detail
  pages, `useSectionBackground` and `useSectionOffsets` (DOM offsets and colour
  interpolation), and the type declarations beyond their fields used here.

## Findings

| source | as written | input that shows it | evidently intended | confidence | as-written member | corrected member |
|---|---|---|---|---|---|---|
| src/components/pages/GamesListPage.tsx:27,45 with src/api/games.ts:30 | the games helper returns only `data.newsList`, so `data.totalPages` is undefined in the page, `totalPages \|\| 1` is 1, and `hasMore` is false after the first page | a server reporting `totalPages = 3`: the first load sets `hasMore := 1 < 1`, false, and pages 2 and 3 are never requested | the page count reaches the page, as for news, so `hasMore := 1 < 3` and the sentinel asks for page 2 | high (not executed) | GamesListPage.FirstPageIsLastAsWritten | GamesListPage.FirstPageKeepsGoingWhenPaged |
