/** The full-screen image viewer (`ImageViewer`): an index into the media
    list that the next/previous buttons, the arrow keys and the thumbnails
    move, and what is drawn for the current index. */
module ImageViewer {
  import opened Wrappers
  import opened JsText
  import opened GalleryData
  import opened Arith

  /** `(i + 1) % n`: the index after i, wrapping to 0 after the last one. */
  function NextIndex(i: nat, n: nat): (r: nat)
    requires 0 < n
    ensures r < n
  {
    (i + 1) % n
  }

  /** `(i - 1 + n) % n`: the index before i, wrapping to n-1 before 0. */
  function PrevIndex(i: nat, n: nat): (r: nat)
    requires 0 < n
    ensures r < n
  {
    (i - 1 + n) % n
  }

  /** Going back from the first image reaches the last one. */
  lemma PrevFromFirstIsLast(n: nat)
    requires 0 < n
    ensures PrevIndex(0, n) == n - 1
  {
  }

  /** Previous undoes next, and next undoes previous. */
  lemma PrevNextInverse(i: nat, n: nat)
    requires i < n
    ensures PrevIndex(NextIndex(i, n), n) == i
    ensures NextIndex(PrevIndex(i, n), n) == i
  {
    if i + 1 < n {
      ModUnique(i + 1, n, 0, i + 1);
      ModUnique(i + n, n, 1, i);
    } else {
      ModUnique(i + 1, n, 1, 0);
      ModUnique(n - 1, n, 0, n - 1);
    }
    if i == 0 {
      ModUnique(n - 1, n, 0, n - 1);
      ModUnique(n, n, 1, 0);
    } else {
      ModUnique(i - 1 + n, n, 1, i - 1);
      ModUnique(i, n, 0, i);
    }
  }

  /** k presses of "next" starting from i. */
  function NextTimes(i: nat, n: nat, k: nat): (r: nat)
    requires 0 < n
    ensures r < n || (k == 0 && r == i)
  {
    if k == 0 then i else NextIndex(NextTimes(i, n, k - 1), n)
  }

  /** The remainder is the r of any decomposition x = q*n + r with
      0 <= r < n. */
  lemma ModUnique(x: int, n: int, q: int, r: int)
    requires n > 0 && 0 <= r < n && x == q * n + r
    ensures x % n == r
  {
    var q0, r0 := x / n, x % n;
    assert x == q0 * n + r0;
    assert (q - q0) * n == r0 - r;
    if q > q0 {
      MulNonNegative(q - q0 - 1, n);
    } else if q < q0 {
      MulNonNegative(q0 - q - 1, n);
    }
  }

  lemma ModSucc(a: nat, n: nat)
    requires 0 < n
    ensures (a % n + 1) % n == (a + 1) % n
  {
    var q, r := a / n, a % n;
    assert a == q * n + r;
    if r + 1 < n {
      ModUnique(a + 1, n, q, r + 1);
      ModUnique(r + 1, n, 0, r + 1);
    } else {
      assert a + 1 == (q + 1) * n + 0;
      ModUnique(a + 1, n, q + 1, 0);
      ModUnique(r + 1, n, 1, 0);
    }
  }

  /** k presses of "next" advance the index by k, modulo n. */
  lemma {:induction false} NextTimesShifts(i: nat, n: nat, k: nat)
    requires i < n
    ensures NextTimes(i, n, k) == (i + k) % n
  {
    if k > 0 {
      NextTimesShifts(i, n, k - 1);
      ModSucc(i + k - 1, n);
    }
  }

  /** n presses of "next" come back to the starting image. */
  lemma NextCycle(i: nat, n: nat)
    requires i < n
    ensures NextTimes(i, n, n) == i
  {
    NextTimesShifts(i, n, n);
    ModUnique(i + n, n, 1, i);
  }

  /** `map && map.mode === 'interactive' && images.length > 1`; the mode is
      `None` when no map is given. */
  predicate IsInteractiveMode(mode: Option<string>, count: nat) {
    mode == Some("interactive") && count > 1
  }

  /** `getImageUrl`: a bare string is its own URL, an object gives its `url`. */
  function ImageUrl(e: MediaEntry): (r: Option<string>)
    ensures e.Plain? ==> r == Some(e.url)
    ensures e.Record? ==> r == e.link
  {
    match e
    case Plain(u) => Some(u)
    case Record(link, _, _) => link
  }

  /** `getImageTitle`: a bare string has no title (null), an object gives its
      `title`. */
  function ImageTitle(e: MediaEntry): (r: Option<string>)
    ensures e.Plain? ==> r.None?
    ensures e.Record? ==> r == e.title
  {
    match e
    case Plain(_) => None
    case Record(_, title, _) => title
  }

  /** A string is truthy when it is present and not empty. */
  predicate Truthy(s: Option<string>) {
    s.Some? && s.value != ""
  }

  /** What the viewer draws for the current index: the image source, the
      "Figure i : title" caption, the previous/next buttons, the "i / n"
      counter and the thumbnail strip. */
  datatype Frame = Frame(
    src: Option<string>,
    figureTitle: Option<string>,
    navButtons: bool,
    counter: Option<string>,
    thumbnails: bool)

  /** The render: nothing for a null or empty list; otherwise the current
      image, with the caption, buttons, counter and thumbnails only in
      interactive mode (the caption also needs a non-empty title). */
  function Render(images: Option<seq<MediaEntry>>, mode: Option<string>, index: nat): (r: Option<Frame>)
    requires images.Some? ==> |images.value| == 0 || index < |images.value|
    ensures r.None? <==> images.None? || |images.value| == 0
    ensures r.Some? ==> r.value.src == ImageUrl(images.value[index])
    ensures r.Some? ==> (r.value.navButtons <==> IsInteractiveMode(mode, |images.value|))
    ensures r.Some? ==> (r.value.thumbnails <==> IsInteractiveMode(mode, |images.value|))
    ensures r.Some? ==> (r.value.counter.Some? <==> IsInteractiveMode(mode, |images.value|))
    ensures r.Some? ==> (r.value.figureTitle.Some? <==>
                           IsInteractiveMode(mode, |images.value|) && Truthy(ImageTitle(images.value[index])))
  {
    if images.None? || |images.value| == 0 then None
    else
      var imgs := images.value;
      var n := |imgs|;
      var interactive := IsInteractiveMode(mode, n);
      var title := ImageTitle(imgs[index]);
      Some(Frame(
        ImageUrl(imgs[index]),
        if interactive && Truthy(title) then Some("Figure " + DecimalString(index + 1) + " : " + title.value) else None,
        interactive && n > 1,
        if interactive then Some(DecimalString(index + 1) + " / " + DecimalString(n)) else None,
        interactive && n > 1))
  }

  /** A 2D map, or a single image, gets no navigation at all. */
  lemma NoNavigationOutsideInteractive(images: seq<MediaEntry>, mode: Option<string>, index: nat)
    requires index < |images|
    requires mode != Some("interactive") || |images| == 1
    ensures Render(Some(images), mode, index).Some?
    ensures var f := Render(Some(images), mode, index).value;
            !f.navButtons && !f.thumbnails && f.counter.None? && f.figureTitle.None?
  {
  }

  /** The viewer's state: the list and map it was given and `currentIndex`. */
  class Viewer {
    const images: Option<seq<MediaEntry>>
    const mode: Option<string>
    var currentIndex: nat

    function Count(): nat {
      if images.Some? then |images.value| else 0
    }

    /** The index always points into the list (or is 0 for an empty one). */
    predicate Valid()
      reads this
    {
      currentIndex == 0 || currentIndex < Count()
    }

    /** The index starts at 0; `initialIndex` is accepted and ignored. */
    constructor(imgs: Option<seq<MediaEntry>>, m: Option<string>, initialIndex: nat)
      ensures images == imgs && mode == m && currentIndex == 0 && Valid()
    {
      images := imgs;
      mode := m;
      currentIndex := 0;
    }

    /** What is on screen now. */
    function Shown(): Option<Frame>
      reads this
      requires Valid()
    {
      Render(images, mode, currentIndex)
    }

    /** `handleNext` (the next button exists only when something is shown). */
    method Next()
      requires Valid() && Count() > 0
      modifies this
      ensures Valid() && currentIndex == NextIndex(old(currentIndex), Count())
    {
      currentIndex := (currentIndex + 1) % Count();
    }

    /** `handlePrev`. */
    method Prev()
      requires Valid() && Count() > 0
      modifies this
      ensures Valid() && currentIndex == PrevIndex(old(currentIndex), Count())
    {
      currentIndex := (currentIndex - 1 + Count()) % Count();
    }

    /** A thumbnail click jumps straight to image k. */
    method ClickThumbnail(k: nat)
      requires k < Count()
      modifies this
      ensures Valid() && currentIndex == k
    {
      currentIndex := k;
    }

    /** `handleKeyDown`: ArrowRight is next, ArrowLeft is previous, Escape asks
        the owner to close the viewer, any other key does nothing. The
        listener is only installed when the viewer renders, so with an empty
        list no key has any effect. */
    method KeyDown(key: string) returns (closeRequested: bool)
      requires Valid()
      modifies this
      ensures Valid()
      ensures closeRequested <==> key == "Escape" && Count() > 0
      ensures Count() > 0 && key == "ArrowRight" ==> currentIndex == NextIndex(old(currentIndex), Count())
      ensures Count() > 0 && key == "ArrowLeft" ==> currentIndex == PrevIndex(old(currentIndex), Count())
      ensures Count() == 0 || (key != "ArrowRight" && key != "ArrowLeft") ==> currentIndex == old(currentIndex)
    {
      closeRequested := false;
      if Count() == 0 {
        return;
      }
      if key == "ArrowRight" {
        Next();
      }
      if key == "ArrowLeft" {
        Prev();
      }
      if key == "Escape" {
        closeRequested := true;
      }
    }
  }
}
