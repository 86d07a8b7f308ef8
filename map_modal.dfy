/** The detail modal (`MapModal`): the kind of each gallery medium, the
    first-time hints remembered in the browser's key-value store, the guard
    on opening the image viewer, and the list the viewer receives. The modal
    is mounted afresh, already open, each time an item is selected, and
    unmounted when it is closed. */
module MapModal {
  import opened Wrappers
  import opened JsText
  import opened GalleryData
  import opened MapCard

  const Seen2DKey := "hasSeenImageViewer2DMessage"
  const SeenInteractiveKey := "hasSeenImageViewerInteractiveMessage"

  datatype MediaKind = Image | Video

  /** The extensions the video test looks for, anywhere in the text. */
  const VideoExtensions: seq<string> := ["mp4", "webm", "ogg", "mov", "avi"]

  /** `/mp4|webm|ogg|mov|avi/` matched, unanchored, against the lower-cased
      text after the last '.' of the URL. */
  predicate LooksLikeVideo(url: string) {
    exists k :: 0 <= k < |VideoExtensions| && Contains(Lower(AfterLastDot(url)), VideoExtensions[k])
  }

  /** The media type of a gallery entry: an object's non-empty `type` decides
      (only "video" is a video); otherwise the URL's extension does. An
      object without `url` and without `type` throws on `split`. */
  function KindOf(e: MediaEntry): (r: Result<MediaKind, JsError>)
    ensures e.Record? && e.mediaType.Some? && e.mediaType.value != "" ==>
              r == Ok(if e.mediaType.value == "video" then Video else Image)
    ensures e.Plain? ==> r == Ok(if LooksLikeVideo(e.url) then Video else Image)
    ensures r.Err? <==> e.Record? && (e.mediaType.None? || e.mediaType.value == "") && e.link.None?
    ensures e.Record? && (e.mediaType.None? || e.mediaType.value == "") && e.link.Some? ==>
              r == Ok(if LooksLikeVideo(e.link.value) then Video else Image)
  {
    match e
    case Plain(url) => Ok(if LooksLikeVideo(url) then Video else Image)
    case Record(link, _, mediaType) =>
      if mediaType.Some? && mediaType.value != "" then Ok(if mediaType.value == "video" then Video else Image)
      else if link.None? then Err(TypeError)
      else Ok(if LooksLikeVideo(link.value) then Video else Image)
  }

  /** Whatever comes before the last dot is ignored. */
  lemma {:induction false} AfterDotIsExtension(stem: string, ext: string)
    requires '.' !in ext
    ensures AfterLastDot(stem + "." + ext) == ext
    decreases |ext|
  {
    var s := stem + "." + ext;
    if ext == [] {
      assert s[|s| - 1] == '.';
    } else {
      var init := ext[..|ext| - 1];
      assert s[..|s| - 1] == stem + "." + init;
      AfterDotIsExtension(stem, init);
      assert init + [ext[|ext| - 1]] == ext;
    }
  }

  /** A bare URL is a video exactly when the lower-cased text after its
      last dot contains one of the extensions. */
  lemma ExtensionDecides(stem: string, ext: string)
    requires '.' !in ext
    ensures KindOf(Plain(stem + "." + ext)) == Ok(Video) <==>
              exists k :: 0 <= k < |VideoExtensions| && Contains(Lower(ext), VideoExtensions[k])
  {
    AfterDotIsExtension(stem, ext);
  }

  lemma ExtensionMakesVideo(stem: string, ext: string, k: nat)
    requires '.' !in ext && k < |VideoExtensions|
    requires Contains(Lower(ext), VideoExtensions[k])
    ensures KindOf(Plain(stem + "." + ext)) == Ok(Video)
  {
    ExtensionDecides(stem, ext);
  }

  /** Upper-case extensions are recognised. */
  lemma UpperCaseExtension(stem: string)
    ensures KindOf(Plain(stem + "." + "MP4")) == Ok(Video)
  {
    assert Lower("MP4") == "mp4";
    assert Contains("mp4", "mp4");
    ExtensionMakesVideo(stem, "MP4", 0);
  }

  /** A video name before the last dot does not count. */
  lemma OnlyLastExtensionCounts(stem: string)
    ensures KindOf(Plain(stem + ".mp4" + "." + "png")) == Ok(Image)
  {
    ExtensionDecides(stem + ".mp4", "png");
    LowerOfLowerCase("png");
    PngIsNoVideoExtension();
  }

  lemma PngIsNoVideoExtension()
    ensures forall k :: 0 <= k < |VideoExtensions| ==> !Contains("png", VideoExtensions[k])
  {
    assert "png"[0] != 'm' && "png"[0] != 'o' && "png"[0] != 'a';
    SameLengthContains("png", "mp4");
    SameLengthContains("png", "ogg");
    SameLengthContains("png", "mov");
    SameLengthContains("png", "avi");
  }

  /** Between strings of equal length, containment is equality. */
  lemma SameLengthContains(s: string, sub: string)
    requires |s| == |sub|
    ensures Contains(s, sub) <==> s == sub
  {
    assert s[..|sub|] == s;
  }

  /** A substring is found wherever it sits. */
  lemma ContainsInside(a: string, b: string, c: string)
    ensures Contains(a + b + c, b)
  {
    assert OccursAt(a + b + c, b, |a|);
    ContainsIffOccurs(a + b + c, b);
  }

  lemma MovieContainsMov()
    ensures Contains(Lower("movie"), VideoExtensions[3])
  {
    LowerOfLowerCase("movie");
    assert "movie" == "" + "mov" + "ie";
    ContainsInside("", "mov", "ie");
  }

  /** The regular expression is not anchored: "movie" contains "mov", so it
      counts as a video. */
  lemma MovieIsVideo(stem: string)
    ensures KindOf(Plain(stem + "." + "movie")) == Ok(Video)
  {
    MovieContainsMov();
    ExtensionMakesVideo(stem, "movie", 3);
  }

  lemma AvifContainsAvi()
    ensures Contains(Lower("avif"), VideoExtensions[4])
  {
    LowerOfLowerCase("avif");
    assert "avif" == "" + "avi" + "f";
    ContainsInside("", "avi", "f");
  }

  /** "avif" contains "avi", so an AVIF picture counts as a video too. */
  lemma AvifIsVideo(stem: string)
    ensures KindOf(Plain(stem + "." + "avif")) == Ok(Video)
  {
    AvifContainsAvi();
    ExtensionMakesVideo(stem, "avif", 4);
  }

  /** An explicit type wins over the extension. */
  lemma ExplicitTypeWins(url: string, title: Option<string>)
    ensures KindOf(Record(Some(url), title, Some("image"))) == Ok(Image)
    ensures KindOf(Record(Some(url), title, Some("video"))) == Ok(Video)
  {
  }

  /** The kinds of the whole gallery; one failing entry aborts the render. */
  function GalleryKinds(images: seq<MediaEntry>): (r: Result<seq<MediaKind>, JsError>)
    ensures r.Ok? ==> |r.value| == |images| && forall k :: 0 <= k < |images| ==> KindOf(images[k]) == Ok(r.value[k])
    ensures r.Err? <==> exists k :: 0 <= k < |images| && KindOf(images[k]).Err?
  {
    if images == [] then Ok([])
    else match KindOf(images[0])
      case Err(e) => Err(e)
      case Ok(kind) =>
        match GalleryKinds(images[1..])
        case Err(e) => Err(e)
        case Ok(rest) => Ok([kind] + rest)
  }

  /** `localStorage.getItem(key)` is truthy: present and not empty. */
  predicate HasSeen(entries: map<string, string>, key: string) {
    key in entries && entries[key] != ""
  }

  /** `map.images && map.images.length > 0`. */
  predicate HasImages(item: MapItem) {
    item.images.Some? && |item.images.value| > 0
  }

  /** The two first-time hints. */
  datatype Hints = Hints(show2D: bool, showInteractive: bool)

  /** The hints just after the modal opens on `item`: a 2D item shows its
      hint unless it was dismissed for good; any other item shows the
      interactive hint unless that was dismissed, and only if it has
      images. */
  function HintsOnOpen(entries: map<string, string>, item: MapItem): (h: Hints)
    ensures h.show2D <==> item.mode == "2d" && !HasSeen(entries, Seen2DKey)
    ensures h.showInteractive <==> item.mode != "2d" && !HasSeen(entries, SeenInteractiveKey) && HasImages(item)
  {
    if item.mode == "2d" then Hints(!HasSeen(entries, Seen2DKey), false)
    else Hints(false, !HasSeen(entries, SeenInteractiveKey) && HasImages(item))
  }

  /** At most one hint is shown at a time. */
  lemma AtMostOneHint(entries: map<string, string>, item: MapItem)
    ensures !(HintsOnOpen(entries, item).show2D && HintsOnOpen(entries, item).showInteractive)
  {
  }

  /** "Don't remind me" is permanent: once its key holds "true", later opens
      never show that hint, and the other hint is unaffected. */
  lemma DontRemindIsPermanent(entries: map<string, string>, item: MapItem)
    ensures !HintsOnOpen(entries[Seen2DKey := "true"], item).show2D
    ensures HintsOnOpen(entries[Seen2DKey := "true"], item).showInteractive == HintsOnOpen(entries, item).showInteractive
    ensures !HintsOnOpen(entries[SeenInteractiveKey := "true"], item).showInteractive
    ensures HintsOnOpen(entries[SeenInteractiveKey := "true"], item).show2D == HintsOnOpen(entries, item).show2D
  {
  }

  /** A stored empty string does not count as seen. */
  lemma EmptyValueIsNotSeen(entries: map<string, string>, item: MapItem)
    requires item.mode == "2d"
    ensures HintsOnOpen(entries[Seen2DKey := ""], item).show2D
  {
  }

  /** The list handed to the viewer: a 2D item gives one entry built from
      its thumbnail and title; any other item gives its own `images`. */
  function ViewerImages(item: MapItem): (r: Option<seq<MediaEntry>>)
    ensures item.mode == "2d" ==> r == Some([Record(item.thumbnail, Some(item.title), None)])
    ensures item.mode != "2d" ==> r == item.images
  {
    if item.mode == "2d" then Some([Record(item.thumbnail, Some(item.title), None)]) else item.images
  }

  /** The enlarge button: a 2D item with a thumbnail. */
  predicate HasEnlargeButton(item: MapItem) {
    item.mode == "2d" && item.thumbnail.Some? && item.thumbnail.value != ""
  }

  /** The parts of the open modal that the model follows: the preview image,
      the enlarge button, and the kind of each gallery entry. */
  datatype ModalBody = ModalBody(previewSrc: string, enlargeButton: bool, gallery: Option<seq<MediaKind>>)

  /** The render: nothing while closed; otherwise the body, which fails when
      a gallery entry's kind cannot be read. */
  function ModalView(isOpen: bool, item: MapItem): (r: Result<Option<ModalBody>, JsError>)
    ensures !isOpen ==> r == Ok(None)
    ensures isOpen && r.Ok? ==> r.value.Some? && r.value.value.previewSrc == PreviewSrc(item.preview)
    ensures isOpen && r.Ok? ==> (r.value.value.enlargeButton <==> HasEnlargeButton(item))
    ensures isOpen && r.Ok? ==> (r.value.value.gallery.Some? <==> HasImages(item))
    ensures isOpen && r.Ok? && HasImages(item) ==> GalleryKinds(item.images.value) == Ok(r.value.value.gallery.value)
    ensures isOpen && r.Ok? && HasImages(item) ==>
              forall k :: 0 <= k < |item.images.value| ==> KindOf(item.images.value[k]) == Ok(r.value.value.gallery.value[k])
    ensures r.Err? <==> isOpen && HasImages(item) && GalleryKinds(item.images.value).Err?
    ensures r.Err? <==> isOpen && HasImages(item) && exists k :: 0 <= k < |item.images.value| && KindOf(item.images.value[k]).Err?
  {
    if !isOpen then Ok(None)
    else if !HasImages(item) then Ok(Some(ModalBody(PreviewSrc(item.preview), HasEnlargeButton(item), None)))
    else match GalleryKinds(item.images.value)
      case Err(e) => Err(e)
      case Ok(kinds) => Ok(Some(ModalBody(PreviewSrc(item.preview), HasEnlargeButton(item), Some(kinds))))
  }

  /** `localStorage`: a persistent map from keys to strings. */
  class KeyValueStore {
    var entries: map<string, string>

    constructor(initial: map<string, string>)
      ensures entries == initial
    {
      entries := initial;
    }

    /** `getItem`: the stored string, or null. */
    method GetItem(key: string) returns (v: Option<string>)
      ensures v.Some? <==> key in entries
      ensures v.Some? ==> v.value == entries[key]
    {
      v := if key in entries then Some(entries[key]) else None;
    }

    /** `setItem`: stores the string under the key. */
    method SetItem(key: string, value: string)
      modifies this
      ensures entries == old(entries)[key := value]
    {
      entries := entries[key := value];
    }
  }

  /** The modal's React state for one selected item. */
  class Modal {
    const item: MapItem
    const store: KeyValueStore
    var viewerOpen: bool
    var selectedImageIndex: nat
    var show2DHint: bool
    var showInteractiveHint: bool

    function HintState(): Hints
      reads this
    {
      Hints(show2DHint, showInteractiveHint)
    }

    /** Mounting the open modal: the state starts closed and at 0, then the
        open effect reads the store and raises at most one hint. */
    constructor(m: MapItem, s: KeyValueStore)
      ensures item == m && store == s
      ensures !viewerOpen && selectedImageIndex == 0
      ensures HintState() == HintsOnOpen(s.entries, m)
    {
      item := m;
      store := s;
      viewerOpen := false;
      selectedImageIndex := 0;
      show2DHint := false;
      showInteractiveHint := false;
      new;
      if m.mode == "2d" {
        var seen := s.GetItem(Seen2DKey);
        if seen.None? || seen.value == "" {
          show2DHint := true;
        }
      } else {
        var seen := s.GetItem(SeenInteractiveKey);
        if (seen.None? || seen.value == "") && HasImages(m) {
          showInteractiveHint := true;
        }
      }
    }

    /** "Ne plus me le rappeler" on the 2D hint: remember it and hide it. */
    method DontRemindAgain2D()
      modifies this, store
      ensures store.entries == old(store.entries)[Seen2DKey := "true"]
      ensures !show2DHint && showInteractiveHint == old(showInteractiveHint)
      ensures viewerOpen == old(viewerOpen) && selectedImageIndex == old(selectedImageIndex)
    {
      store.SetItem(Seen2DKey, "true");
      show2DHint := false;
    }

    /** "Ne plus me le rappeler" on the interactive hint. */
    method DontRemindAgainInteractive()
      modifies this, store
      ensures store.entries == old(store.entries)[SeenInteractiveKey := "true"]
      ensures !showInteractiveHint && show2DHint == old(show2DHint)
      ensures viewerOpen == old(viewerOpen) && selectedImageIndex == old(selectedImageIndex)
    {
      store.SetItem(SeenInteractiveKey, "true");
      showInteractiveHint := false;
    }

    /** The backdrop, the close button and "D'accord" hide a hint for this
        opening only; the store is not touched. */
    method Dismiss2DHint()
      modifies this
      ensures !show2DHint && showInteractiveHint == old(showInteractiveHint)
      ensures viewerOpen == old(viewerOpen) && selectedImageIndex == old(selectedImageIndex)
    {
      show2DHint := false;
    }

    method DismissInteractiveHint()
      modifies this
      ensures !showInteractiveHint && show2DHint == old(show2DHint)
      ensures viewerOpen == old(viewerOpen) && selectedImageIndex == old(selectedImageIndex)
    {
      showInteractiveHint := false;
    }

    /** `handleImageClick(index)`: records the index and opens the viewer,
        but only when the item has images; otherwise nothing changes. */
    method HandleImageClick(index: nat := 0)
      modifies this
      ensures HasImages(item) ==> viewerOpen && selectedImageIndex == index
      ensures !HasImages(item) ==> viewerOpen == old(viewerOpen) && selectedImageIndex == old(selectedImageIndex)
      ensures HintState() == old(HintState())
    {
      if item.images.Some? && |item.images.value| > 0 {
        selectedImageIndex := index;
        viewerOpen := true;
      }
    }

    /** The enlarge button of a 2D item opens the viewer directly. */
    method Enlarge()
      requires HasEnlargeButton(item)
      modifies this
      ensures viewerOpen && selectedImageIndex == old(selectedImageIndex)
      ensures HintState() == old(HintState())
    {
      viewerOpen := true;
    }

    /** The viewer's close action. */
    method CloseViewer()
      modifies this
      ensures !viewerOpen && selectedImageIndex == old(selectedImageIndex)
      ensures HintState() == old(HintState())
    {
      viewerOpen := false;
    }
  }
}
