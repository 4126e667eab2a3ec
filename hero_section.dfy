/** The home page's hero banner: one active hero, shown as a video when it has
    one, else as an image. */
module HeroSection {
  import opened Wrappers
  import opened Breakpoint

  /** The section's own copy of the breakpoint hook's `update`. */
  function LocalBreakpoint(w: int): (c: SizeClass)
    ensures c == Classify(w)
  {
    if w < 640 then Mobile else if w < 1024 then Tablet else Desktop
  }

  datatype HeroFile = HeroFile(url: string, kind: string)

  datatype Hero = Hero(files: Option<seq<HeroFile>>)

  datatype MediaKind = Image | Video

  datatype Media = Media(kind: MediaKind, url: string)

  /** The index `files.find(f => f.type === kind)` stops at, if any. */
  function FirstIndexOf(files: seq<HeroFile>, kind: string): (k: Option<nat>)
    ensures k.Some? ==> k.value < |files| && files[k.value].kind == kind
    ensures k.Some? ==> forall j :: 0 <= j < k.value ==> files[j].kind != kind
    ensures k.None? ==> forall j :: 0 <= j < |files| ==> files[j].kind != kind
    decreases |files|
  {
    if files == [] then None
    else if files[0].kind == kind then Some(0)
    else
      match FirstIndexOf(files[1..], kind)
      case None => None
      case Some(i) => Some(i + 1)
  }

  /** The media of one hero: the first video if there is one, else the first
      image, else the first file's url shown as an image; none without files. */
  function SelectMedia(hero: Hero): (m: Option<Media>)
    ensures hero.files.None? || hero.files.value == [] ==> m.None?
    ensures hero.files.Some? && hero.files.value != [] ==>
      var fs := hero.files.value;
      var v := FirstIndexOf(fs, "video");
      var i := FirstIndexOf(fs, "image");
      && m.Some?
      && (v.Some? ==> m.value == Media(Video, fs[v.value].url))
      && (v.None? && i.Some? ==> m.value == Media(Image, fs[i.value].url))
      && (v.None? && i.None? ==> m.value == Media(Image, fs[0].url))
  {
    if hero.files.Some? && |hero.files.value| > 0 then
      var fs := hero.files.value;
      var img := FirstIndexOf(fs, "image");
      var vid := FirstIndexOf(fs, "video");
      if vid.Some? then Some(Media(Video, fs[vid.value].url))
      else if img.Some? then Some(Media(Image, fs[img.value].url))
      else Some(Media(Image, fs[0].url))
    else None
  }

  /** A video is shown exactly when the hero has a video file, and the shown url
      is always the url of one of its files. */
  lemma SelectedMediaIsAFile(hero: Hero)
    requires hero.files.Some?
    ensures SelectMedia(hero).Some? && SelectMedia(hero).value.kind == Video <==>
      exists j :: 0 <= j < |hero.files.value| && hero.files.value[j].kind == "video"
    ensures SelectMedia(hero).Some? ==>
      exists j :: 0 <= j < |hero.files.value| && hero.files.value[j].url == SelectMedia(hero).value.url
  {
    var fs := hero.files.value;
    var v := FirstIndexOf(fs, "video");
    var i := FirstIndexOf(fs, "image");
    if fs != [] {
      if v.Some? {
        assert fs[v.value].url == SelectMedia(hero).value.url;
      } else if i.Some? {
        assert fs[i.value].url == SelectMedia(hero).value.url;
      } else {
        assert fs[0].url == SelectMedia(hero).value.url;
      }
    }
  }

  /** What `fetchActiveHeroes` resolves to: a list, or (the guard allows for it) something else. */
  datatype HeroReply = Heroes(list: seq<Hero>) | NotAList

  /** The random pick is an index of the list whenever one is made. */
  predicate PickInRange(result: Settled<HeroReply>, mounted: bool, pick: int) {
    result.Fulfilled? && result.payload.Heroes? && mounted && |result.payload.list| > 0 ==>
      0 <= pick < |result.payload.list|
  }

  /** The media the fetch callback stores: none on failure, after unmount, for a
      reply that is not a list or an empty list; otherwise that of the hero at
      index `pick` (the random choice). */
  function MediaAfterFetch(result: Settled<HeroReply>, mounted: bool, pick: int): (m: Option<Media>)
    requires PickInRange(result, mounted, pick)
    ensures result.Rejected? || !mounted ==> m.None?
    ensures result.Fulfilled? && (result.payload.NotAList? || result.payload.list == []) ==> m.None?
    ensures result.Fulfilled? && result.payload.Heroes? && mounted && result.payload.list != [] ==>
      m == SelectMedia(result.payload.list[pick])
  {
    match result
    case Rejected(_) => None
    case Fulfilled(reply) =>
      if !mounted || reply.NotAList? || |reply.list| == 0 then None
      else SelectMedia(reply.list[pick])
  }

  /** Minimum section height per size class, in viewport-height units. */
  function MinHeight(bp: SizeClass): (h: string)
    ensures bp == Mobile ==> h == "40vh"
    ensures bp == Tablet ==> h == "55vh"
    ensures bp == Desktop ==> h == "70vh"
  {
    if bp == Mobile then "40vh" else if bp == Tablet then "55vh" else "70vh"
  }

  datatype HeroView = Spinner | VideoView(url: string) | ImageView(url: string) | NoHero

  /** A spinner while loading, then the video, the image, or the "no active hero" panel. */
  function Render(loading: bool, media: Option<Media>): (v: HeroView)
    ensures v.Spinner? <==> loading
    ensures v.NoHero? <==> !loading && media.None?
    ensures v.VideoView? ==> media == Some(Media(Video, v.url))
    ensures v.ImageView? ==> media == Some(Media(Image, v.url))
  {
    if loading then Spinner
    else match media
      case None => NoHero
      case Some(Media(Video, url)) => VideoView(url)
      case Some(Media(Image, url)) => ImageView(url)
  }

  /** The section's `media` and `loading` state. */
  class Banner {
    var media: Option<Media>
    var loading: bool

    /** The first render: loading, no media. The mount effect sets loading
        again and asks for the active heroes, a request without parameters. */
    constructor ()
      ensures loading && media.None?
    {
      media := None;
      loading := true;
    }

    /** The hero request settled; `mounted` is the effect's liveness flag and
        `pick` the random index. Loading ends in every case. */
    method FetchSettled(result: Settled<HeroReply>, mounted: bool, pick: int)
      requires PickInRange(result, mounted, pick)
      modifies this
      ensures !loading
      ensures media == MediaAfterFetch(result, mounted, pick)
    {
      match result {
        case Rejected(_) =>
          media := None;
        case Fulfilled(reply) =>
          if !mounted || reply.NotAList? || |reply.list| == 0 {
            media := None;
          } else {
            media := SelectMedia(reply.list[pick]);
          }
      }
      loading := false;
    }
  }
}
