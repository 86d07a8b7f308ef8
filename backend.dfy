/** The Flask back end's list logic, with the data file read into memory:
    the `/api/maps` filter and pagination, the mode list, the lookup by id,
    the in-place view increment, the statistics counters and the contact
    form's required fields. Python's slicing, floor division and `str` are
    written out. */
module Backend {
  import opened Wrappers
  import opened JsText
  import opened GalleryData
  import opened Seqs
  import opened PyCounter
  import opened Arith
  import MapCard

  /** The exceptions the handlers catch and turn into a 500 response. */
  datatype PyError = AttributeError | ZeroDivisionError

  /** The category value that applies no filter. */
  const NoFilter := "Toutes"

  /** `map_item['preview'] = map_item.get('thumbnail', default)`: the
      thumbnail when the key is present, otherwise the default image;
      nothing else changes. */
  function WithPreview(m: MapItem): (r: MapItem)
    ensures m.thumbnail.Some? ==> r.preview == m.thumbnail
    ensures m.thumbnail.None? ==> r.preview == Some(MapCard.DefaultPreview)
    ensures r.(preview := m.preview) == m
  {
    m.(preview := Some(if m.thumbnail.Some? then m.thumbnail.value else MapCard.DefaultPreview))
  }

  function WithPreviews(maps: seq<MapItem>): (r: seq<MapItem>)
    ensures |r| == |maps| && forall k :: 0 <= k < |maps| ==> r[k] == WithPreview(maps[k])
  {
    if maps == [] then [] else [WithPreview(maps[0])] + WithPreviews(maps[1..])
  }

  /** `[m for m in maps if m['mode'] == category]`, skipped for 'Toutes'.
      The back end filters on the mode, not on the thematic category. */
  function ModeFilter(maps: seq<MapItem>, category: string): seq<MapItem> {
    if category == NoFilter then maps
    else if maps == [] then []
    else (if maps[0].mode == category then [maps[0]] else []) + ModeFilter(maps[1..], category)
  }

  /** The mode filter keeps, in order, exactly the items of the chosen mode
      (all items for 'Toutes'), each as often as the input holds it. */
  lemma ModeFilterSpec(maps: seq<MapItem>, category: string)
    ensures IsSubsequence(ModeFilter(maps, category), maps)
    ensures forall x :: x in ModeFilter(maps, category) <==> x in maps && (category == NoFilter || x.mode == category)
    ensures forall x :: multiset(ModeFilter(maps, category))[x] ==
                        if category == NoFilter || x.mode == category then multiset(maps)[x] else 0
  {
    ModeFilterIsSubsequence(maps, category);
    ModeFilterCounts(maps, category);
    var r := ModeFilter(maps, category);
    forall x ensures x in r <==> x in maps && (category == NoFilter || x.mode == category) {
      assert x in r <==> multiset(r)[x] > 0;
      assert x in maps <==> multiset(maps)[x] > 0;
    }
  }

  /** The kept items come in their original order. */
  lemma {:induction false} ModeFilterIsSubsequence(maps: seq<MapItem>, category: string)
    ensures IsSubsequence(ModeFilter(maps, category), maps)
  {
    if category == NoFilter {
      SubsequenceRefl(maps);
    } else if maps != [] {
      ModeFilterIsSubsequence(maps[1..], category);
      var rest := ModeFilter(maps[1..], category);
      var r := ModeFilter(maps, category);
      if maps[0].mode == category {
        assert r == [maps[0]] + rest;
        assert r[0] == maps[0] && r[1..] == rest;
      } else {
        assert r == rest;
      }
    }
  }

  /** Each kept item appears as often as in the input. */
  lemma {:induction false} ModeFilterCounts(maps: seq<MapItem>, category: string)
    ensures forall x :: multiset(ModeFilter(maps, category))[x] ==
                        if category == NoFilter || x.mode == category then multiset(maps)[x] else 0
  {
    if category != NoFilter && maps != [] {
      ModeFilterCounts(maps[1..], category);
      assert maps == [maps[0]] + maps[1..];
      var rest := ModeFilter(maps[1..], category);
      assert ModeFilter(maps, category) == (if maps[0].mode == category then [maps[0]] else []) + rest;
    }
  }

  lemma {:induction false} SubsequenceRefl<T>(s: seq<T>)
    ensures IsSubsequence(s, s)
  {
    if s != [] {
      SubsequenceRefl(s[1..]);
    }
  }

  /** `search_lower in title.lower() or search_lower in
      description.lower() or any(search_lower in tag.lower() ...)`, with
      `or` short-circuiting; a list description has no `lower`. */
  function SearchMatches(m: MapItem, needle: string): Result<bool, PyError> {
    if Contains(Lower(m.title), needle) then Ok(true)
    else match m.description
      case Paragraphs(_) => Err(AttributeError)
      case Text(d) => Ok(Contains(Lower(d), needle) || exists k :: 0 <= k < |m.tags| && Contains(Lower(m.tags[k]), needle))
  }

  /** The search comprehension over a list, aborting on the first error. */
  function SearchAll(maps: seq<MapItem>, needle: string): Result<seq<MapItem>, PyError> {
    if maps == [] then Ok([])
    else match SearchMatches(maps[0], needle)
      case Err(e) => Err(e)
      case Ok(keep) =>
        match SearchAll(maps[1..], needle)
        case Err(e) => Err(e)
        case Ok(rest) => Ok(if keep then [maps[0]] + rest else rest)
  }

  /** `if search:` an empty search keeps the list as it is. */
  function SearchFilter(maps: seq<MapItem>, search: string): Result<seq<MapItem>, PyError> {
    if search == "" then Ok(maps) else SearchAll(maps, Lower(search))
  }

  /** The search fails exactly when some item raises; otherwise it keeps, in
      order, exactly the items that match. */
  lemma SearchAllSpec(maps: seq<MapItem>, needle: string)
    ensures SearchAll(maps, needle).Ok? <==> forall k :: 0 <= k < |maps| ==> SearchMatches(maps[k], needle).Ok?
    ensures SearchAll(maps, needle).Ok? ==>
              && IsSubsequence(SearchAll(maps, needle).value, maps)
              && (forall x :: x in SearchAll(maps, needle).value <==> x in maps && SearchMatches(x, needle) == Ok(true))
              && forall x :: multiset(SearchAll(maps, needle).value)[x] ==
                             if SearchMatches(x, needle) == Ok(true) then multiset(maps)[x] else 0
  {
    SearchAllOkIff(maps, needle);
    if SearchAll(maps, needle).Ok? {
      SearchAllIsSubsequence(maps, needle);
      SearchAllCounts(maps, needle);
      var r := SearchAll(maps, needle).value;
      forall x ensures x in r <==> x in maps && SearchMatches(x, needle) == Ok(true) {
        assert x in r <==> multiset(r)[x] > 0;
        assert x in maps <==> multiset(maps)[x] > 0;
      }
    }
  }

  /** The search fails exactly when some item raises. */
  lemma {:induction false} SearchAllOkIff(maps: seq<MapItem>, needle: string)
    ensures SearchAll(maps, needle).Ok? <==> forall k :: 0 <= k < |maps| ==> SearchMatches(maps[k], needle).Ok?
  {
    if maps != [] {
      SearchAllOkIff(maps[1..], needle);
      if !SearchAll(maps, needle).Ok? && SearchMatches(maps[0], needle).Ok? {
        var k :| 0 <= k < |maps[1..]| && !SearchMatches(maps[1..][k], needle).Ok?;
        assert !SearchMatches(maps[k + 1], needle).Ok?;
      }
    }
  }

  /** The matching items come in their original order. */
  lemma {:induction false} SearchAllIsSubsequence(maps: seq<MapItem>, needle: string)
    requires SearchAll(maps, needle).Ok?
    ensures IsSubsequence(SearchAll(maps, needle).value, maps)
  {
    if maps != [] {
      SearchAllIsSubsequence(maps[1..], needle);
      var rest := SearchAll(maps[1..], needle).value;
      if SearchMatches(maps[0], needle) == Ok(true) {
        assert ([maps[0]] + rest)[1..] == rest;
      }
    }
  }

  /** Each matching item appears as often as in the input. */
  lemma {:induction false} SearchAllCounts(maps: seq<MapItem>, needle: string)
    requires SearchAll(maps, needle).Ok?
    ensures forall x :: multiset(SearchAll(maps, needle).value)[x] ==
                        if SearchMatches(x, needle) == Ok(true) then multiset(maps)[x] else 0
  {
    if maps != [] {
      SearchAllCounts(maps[1..], needle);
      assert maps == [maps[0]] + maps[1..];
      var rest := SearchAll(maps[1..], needle).value;
      assert SearchAll(maps, needle).value == if SearchMatches(maps[0], needle) == Ok(true) then [maps[0]] + rest else rest;
    }
  }

  /** An empty search and plain-text descriptions never raise. */
  lemma EmptySearchKeepsAll(maps: seq<MapItem>)
    ensures SearchFilter(maps, "") == Ok(maps)
  {
  }

  lemma PlainDescriptionsNeverRaise(maps: seq<MapItem>, search: string)
    requires forall k :: 0 <= k < |maps| ==> maps[k].description.Text?
    ensures SearchFilter(maps, search).Ok?
  {
    if search != "" {
      SearchAllSpec(maps, Lower(search));
    }
  }

  /** The index a Python slice bound denotes: a negative bound counts from
      the end, and the result is clamped to [0, n]. */
  function PyIndex(i: int, n: nat): (r: nat)
    ensures r <= n
    ensures 0 <= i <= n ==> r == i
    ensures i > n ==> r == n
    ensures i < 0 ==> r == (if i + n < 0 then 0 else i + n)
  {
    if i < 0 then (if i + n < 0 then 0 else i + n) else if i > n then n else i
  }

  /** `s[start:end]`. */
  function PySlice<T>(s: seq<T>, start: int, end: int): (r: seq<T>)
    ensures var a, b := PyIndex(start, |s|), PyIndex(end, |s|);
            r == if a < b then s[a..b] else []
  {
    var a, b := PyIndex(start, |s|), PyIndex(end, |s|);
    if a < b then s[a..b] else []
  }

  /** Python's `a // b`, which rounds towards negative infinity; a zero
      divisor raises. */
  function PyFloorDiv(a: int, b: int): (r: int)
    requires b != 0
    ensures b > 0 ==> b * r <= a < b * r + b
    ensures b < 0 ==> b * r + b < a <= b * r
  {
    if b > 0 then
      var q := a / b;
      assert a == b * q + a % b;
      q
    else
      var q := (-a) / (-b);
      assert -a == (-b) * q + (-a) % (-b);
      q
  }

  /** The `/api/maps` response body. */
  datatype Page = Page(maps: seq<MapItem>, total: nat, page: int, perPage: int, pages: int)

  /** The items left after the mode and search filters. */
  function Matching(maps: seq<MapItem>, category: string, search: string): Result<seq<MapItem>, PyError> {
    SearchFilter(ModeFilter(WithPreviews(maps), category), search)
  }

  /** The rows of one page: `filtered[(page-1)*per_page : (page-1)*per_page + per_page]`. */
  function PageOf(filtered: seq<MapItem>, page: int, perPage: int): seq<MapItem> {
    var start := (page - 1) * perPage;
    PySlice(filtered, start, start + perPage)
  }

  /** `get_maps` for the given query parameters. The slice is taken before
      the page count, whose floor division raises for `per_page == 0`. */
  function GetMaps(maps: seq<MapItem>, category: string, search: string, page: int, perPage: int): (r: Result<Page, PyError>)
    ensures r.Err? <==> Matching(maps, category, search).Err? || perPage == 0
    ensures r.Ok? ==> var filtered := Matching(maps, category, search).value;
                      && r.value.total == |filtered|
                      && r.value.maps == PageOf(filtered, page, perPage)
                      && r.value.page == page && r.value.perPage == perPage
                      && r.value.pages == PyFloorDiv(|filtered| + perPage - 1, perPage)
  {
    match Matching(maps, category, search)
    case Err(e) => Err(e)
    case Ok(filtered) =>
      var paginated := PageOf(filtered, page, perPage);
      if perPage == 0 then Err(ZeroDivisionError)
      else Ok(Page(paginated, |filtered|, page, perPage, PyFloorDiv(|filtered| + perPage - 1, perPage)))
  }

  function Min(a: int, b: int): int {
    if a <= b then a else b
  }

  /** For ordinary parameters the page holds the filtered items from index
      (page-1)*per_page up to, not including, page*per_page. */
  lemma PageIsWindow(filtered: seq<MapItem>, page: int, perPage: int)
    requires page >= 1 && perPage >= 1
    ensures (page - 1) * perPage >= 0
    ensures Min((page - 1) * perPage, |filtered|) <= Min(page * perPage, |filtered|)
    ensures PageOf(filtered, page, perPage) ==
              filtered[Min((page - 1) * perPage, |filtered|)..Min(page * perPage, |filtered|)]
  {
    MulNonNegative(page - 1, perPage);
    MulPred(page, perPage);
  }

  /** With per_page >= 1, `pages` is the ceiling of total / per_page: the
      smallest number of pages that hold all the items. */
  lemma PageCountIsCeiling(total: nat, perPage: int)
    requires perPage >= 1
    ensures var pages := PyFloorDiv(total + perPage - 1, perPage);
            && pages >= 0
            && perPage * pages >= total
            && (total == 0 <==> pages == 0)
            && (total > 0 ==> perPage * (pages - 1) < total)
  {
    var pages := PyFloorDiv(total + perPage - 1, perPage);
    MulSign(perPage, pages);
    MulPred(pages, perPage);
  }

  /** Pages 1..k laid end to end. */
  function PageRun(filtered: seq<MapItem>, perPage: int, k: nat): seq<MapItem> {
    if k == 0 then [] else PageRun(filtered, perPage, k - 1) + PageOf(filtered, k, perPage)
  }

  /** The first k pages are exactly the first k*per_page items: the pages do
      not overlap and leave no gap. */
  lemma {:induction false} PageRunIsPrefix(filtered: seq<MapItem>, perPage: int, k: nat)
    requires perPage >= 1
    ensures k * perPage >= 0
    ensures PageRun(filtered, perPage, k) == filtered[..Min(k * perPage, |filtered|)]
  {
    MulNonNegative(k, perPage);
    if k > 0 {
      PageRunIsPrefix(filtered, perPage, k - 1);
      PageRunStep(filtered, perPage, k);
    }
  }

  /** One more page extends the prefix from (k-1)*per_page to k*per_page items. */
  lemma PageRunStep(filtered: seq<MapItem>, perPage: int, k: nat)
    requires perPage >= 1 && k >= 1
    requires (k - 1) * perPage >= 0
    requires PageRun(filtered, perPage, k - 1) == filtered[..Min((k - 1) * perPage, |filtered|)]
    ensures PageRun(filtered, perPage, k) == filtered[..Min(k * perPage, |filtered|)]
  {
    PageIsWindow(filtered, k, perPage);
    var a := Min((k - 1) * perPage, |filtered|);
    var b := Min(k * perPage, |filtered|);
    PrefixThenSlice(filtered, a, b);
  }

  lemma PrefixThenSlice<T>(s: seq<T>, a: nat, b: nat)
    requires a <= b <= |s|
    ensures s[..a] + s[a..b] == s[..b]
  {
  }

  /** Reading pages 1 to `pages` gives back the whole filtered list. */
  lemma AllPagesCoverList(filtered: seq<MapItem>, perPage: int)
    requires perPage >= 1
    ensures var pages := PyFloorDiv(|filtered| + perPage - 1, perPage);
            pages >= 0 && PageRun(filtered, perPage, pages) == filtered
  {
    var pages := PyFloorDiv(|filtered| + perPage - 1, perPage);
    PageCountIsCeiling(|filtered|, perPage);
    PageRunIsPrefix(filtered, perPage, pages);
    assert pages * perPage == perPage * pages;
  }

  /** A page past the last one is empty. */
  lemma PagePastEndIsEmpty(filtered: seq<MapItem>, page: int, perPage: int)
    requires perPage >= 1 && page >= 1
    requires page > PyFloorDiv(|filtered| + perPage - 1, perPage)
    ensures PageOf(filtered, page, perPage) == []
  {
    var pages := PyFloorDiv(|filtered| + perPage - 1, perPage);
    PageCountIsCeiling(|filtered|, perPage);
    PageIsWindow(filtered, page, perPage);
    assert (page - 1) * perPage >= pages * perPage by {
      MulNonNegative(page - 1 - pages, perPage);
    }
  }

  /** When everything fits on one page, page 1 holds the whole list and
      `pages` is 1. */
  lemma OnePageHoldsAll(filtered: seq<MapItem>, perPage: int)
    requires 0 < |filtered| <= perPage
    ensures PageOf(filtered, 1, perPage) == filtered
    ensures PyFloorDiv(|filtered| + perPage - 1, perPage) == 1
  {
    var pages := PyFloorDiv(|filtered| + perPage - 1, perPage);
    PageCountIsCeiling(|filtered|, perPage);
    MulSign(perPage, pages - 1);
    assert PageOf(filtered, 1, perPage) == filtered[0..|filtered|];
  }

  /** With "Toutes" and no search nothing is filtered out. */
  lemma NoFilterMatchesAll(maps: seq<MapItem>)
    ensures Matching(maps, NoFilter, "") == Ok(WithPreviews(maps))
  {
  }

  /** The default query (`category='Toutes'`, no search, page 1, 100 per
      page) returns every item, each with its preview, on one page. */
  lemma DefaultRequestListsAll(maps: seq<MapItem>)
    requires 0 < |maps| <= 100
    ensures var r := GetMaps(maps, NoFilter, "", 1, 100);
            r.Ok? && r.value.maps == WithPreviews(maps) && r.value.total == |maps| && r.value.pages == 1
  {
    NoFilterMatchesAll(maps);
    OnePageHoldsAll(WithPreviews(maps), 100);
  }

  /** The modes `/api/categories` offers; the first applies no filter. */
  const Categories: seq<string> := [NoFilter, "2d", "interactive"]

  /** Each offered value selects what it names: 'Toutes' everything, the
      other two the items of that mode. */
  lemma CategoriesSelectModes(maps: seq<MapItem>, k: nat)
    requires k < |Categories|
    ensures k == 0 ==> ModeFilter(maps, Categories[k]) == maps
    ensures k > 0 ==> forall x :: x in ModeFilter(maps, Categories[k]) <==> x in maps && x.mode == Categories[k]
  {
    ModeFilterSpec(maps, Categories[k]);
  }

  /** `next((m for m in MAPS_DATA if m['id'] == map_id), None)` over the
      built-in list passed as `maps`: the id from the URL is a string, so a
      numeric id never matches. */
  function GetMap(maps: seq<MapItem>, mapId: string): (r: Option<MapItem>)
    ensures r.None? <==> forall k :: 0 <= k < |maps| ==> maps[k].id != StrId(mapId)
    ensures r.Some? ==> exists k :: 0 <= k < |maps| && maps[k] == r.value && r.value.id == StrId(mapId) &&
                                    forall j :: 0 <= j < k ==> maps[j].id != StrId(mapId)
  {
    if maps == [] then None
    else if maps[0].id == StrId(mapId) then Some(maps[0])
    else
      var r := GetMap(maps[1..], mapId);
      assert r.Some? ==> forall k :: 0 <= k < |maps| - 1 && maps[1..][k] == r.value ==> maps[k + 1] == r.value;
      r
  }

  /** `str(id)`: a string id as it is, a numeric one in decimal. */
  function PyStr(id: MapId): string {
    match id
    case StrId(s) => s
    case IntId(n) => DecimalString(n)
  }

  /** The position of the first item whose `str(id)` is the requested id. */
  function FirstWithId(s: seq<MapItem>, mapId: string): (r: Option<nat>)
    ensures r.None? <==> forall k :: 0 <= k < |s| ==> PyStr(s[k].id) != mapId
    ensures r.Some? ==> r.value < |s| && PyStr(s[r.value].id) == mapId &&
                        forall j :: 0 <= j < r.value ==> PyStr(s[j].id) != mapId
  {
    FirstWithIdFrom(s, mapId, 0)
  }

  /** The scan from position `from` on, the positions before it having
      failed to match. */
  function FirstWithIdFrom(s: seq<MapItem>, mapId: string, from: nat): (r: Option<nat>)
    requires from <= |s|
    requires forall j :: 0 <= j < from ==> PyStr(s[j].id) != mapId
    ensures r.None? <==> forall k :: 0 <= k < |s| ==> PyStr(s[k].id) != mapId
    ensures r.Some? ==> from <= r.value < |s| && PyStr(s[r.value].id) == mapId &&
                        forall j :: 0 <= j < r.value ==> PyStr(s[j].id) != mapId
    decreases |s| - from
  {
    if from == |s| then None
    else if PyStr(s[from].id) == mapId then Some(from)
    else FirstWithIdFrom(s, mapId, from + 1)
  }

  /** The first match is the only position the scan can report. */
  lemma FirstWithIdIs(s: seq<MapItem>, mapId: string, i: nat)
    requires i < |s| && PyStr(s[i].id) == mapId
    requires forall j :: 0 <= j < i ==> PyStr(s[j].id) != mapId
    ensures FirstWithId(s, mapId) == Some(i)
  {
  }

  /** The list after `increment_view`: the first item whose `str(id)` equals
      the requested id has one more view, and nothing else changes. */
  function ViewsIncremented(s: seq<MapItem>, mapId: string): (r: seq<MapItem>)
    ensures |r| == |s|
    ensures FirstWithId(s, mapId).None? ==> r == s
    ensures FirstWithId(s, mapId).Some? ==>
              var k := FirstWithId(s, mapId).value;
              && r[k] == s[k].(views := s[k].views + 1)
              && forall j :: 0 <= j < |s| && j != k ==> r[j] == s[j]
  {
    match FirstWithId(s, mapId)
    case None => s
    case Some(k) => s[k := s[k].(views := s[k].views + 1)]
  }

  /** `sum(m['views'] for m in maps)`. */
  function TotalViews(s: seq<MapItem>): int {
    if s == [] then 0 else s[0].views + TotalViews(s[1..])
  }

  /** Lists that differ only in one item's view count differ in their total
      by the same amount. */
  lemma {:induction false} TotalViewsOneChanged(s: seq<MapItem>, r: seq<MapItem>, k: nat)
    requires |r| == |s| && k < |s|
    requires forall j :: 0 <= j < |s| && j != k ==> r[j].views == s[j].views
    ensures TotalViews(r) == TotalViews(s) - s[k].views + r[k].views
  {
    if k > 0 {
      TotalViewsOneChanged(s[1..], r[1..], k - 1);
    } else {
      TotalViewsSame(s[1..], r[1..]);
    }
  }

  lemma {:induction false} TotalViewsSame(s: seq<MapItem>, r: seq<MapItem>)
    requires |r| == |s|
    requires forall j :: 0 <= j < |s| ==> r[j].views == s[j].views
    ensures TotalViews(r) == TotalViews(s)
  {
    if s != [] {
      TotalViewsSame(s[1..], r[1..]);
    }
  }

  /** The total view count goes up by one exactly when some id matches. */
  lemma ViewIncrementAddsOne(s: seq<MapItem>, mapId: string)
    ensures TotalViews(ViewsIncremented(s, mapId)) ==
              TotalViews(s) + (if exists k :: 0 <= k < |s| && PyStr(s[k].id) == mapId then 1 else 0)
  {
    var f := FirstWithId(s, mapId);
    var r := ViewsIncremented(s, mapId);
    if f.Some? {
      TotalViewsOneChanged(s, r, f.value);
    }
  }

  /** `get_map` searches the built-in list and compares ids with `==`;
      `increment_view` searches the loaded data file and compares `str` of
      the ids. An item of the data file with a numeric id is therefore found
      by `increment_view` through its decimal form, while `get_map` answers
      404 for the same URL id unless the built-in list holds that string id:
      a numeric id of its own never matches. */
  lemma NumericIdQuirk(builtIn: seq<MapItem>, loaded: seq<MapItem>, n: int, i: nat)
    requires forall k :: 0 <= k < |builtIn| ==> builtIn[k].id != StrId(DecimalString(n))
    requires i < |loaded| && loaded[i].id == IntId(n)
    ensures GetMap(builtIn, DecimalString(n)).None?
    ensures FirstWithId(loaded, DecimalString(n)).Some?
    ensures TotalViews(ViewsIncremented(loaded, DecimalString(n))) == TotalViews(loaded) + 1
  {
    assert PyStr(loaded[i].id) == DecimalString(n);
    ViewIncrementAddsOne(loaded, DecimalString(n));
  }

  /** `increment_view` on the loaded list: walk the items up to the first
      one whose `str(id)` matches (the `break`), then bump its views. `None`
      is the 404. */
  method IncrementView(maps: array<MapItem>, mapId: string) returns (newViews: Option<int>)
    modifies maps
    ensures maps[..] == ViewsIncremented(old(maps[..]), mapId)
    ensures newViews.None? <==> forall k :: 0 <= k < maps.Length ==> PyStr(old(maps[k]).id) != mapId
    ensures newViews.Some? ==> exists k :: 0 <= k < maps.Length && PyStr(maps[k].id) == mapId &&
                                           newViews.value == maps[k].views && maps[k].views == old(maps[k].views) + 1
  {
    var i := 0;
    while i < maps.Length && PyStr(maps[i].id) != mapId
      invariant 0 <= i <= maps.Length
      invariant forall j :: 0 <= j < i ==> PyStr(maps[j].id) != mapId
    {
      i := i + 1;
    }
    if i == maps.Length {
      return None;
    }
    ghost var before := maps[..];
    FirstWithIdIs(before, mapId, i);
    assert ViewsIncremented(before, mapId) == before[i := before[i].(views := before[i].views + 1)];
    var updated := maps[i].(views := maps[i].views + 1);
    maps[i] := updated;
    assert maps[..] == before[i := updated];
    newViews := Some(updated.views);
  }

  /** The technologies of an item: `map_data.get('technologies', [])`. */
  function TechsOf(m: MapItem): seq<string> {
    if m.technologies.Some? then m.technologies.value else []
  }

  /** `for tech in techs: count[tech] = count.get(tech, 0) + 1`. */
  function AddAll(c: Counter, techs: seq<string>): Counter {
    if techs == [] then c else Increment(AddAll(c, techs[..|techs| - 1]), techs[|techs| - 1])
  }

  /** `category_count` after the loop over `maps`. */
  function CategoryCount(maps: seq<MapItem>): Counter {
    if maps == [] then [] else Increment(CategoryCount(maps[..|maps| - 1]), maps[|maps| - 1].category)
  }

  /** `tech_count` after the loop over `maps`. */
  function TechCount(maps: seq<MapItem>): Counter {
    if maps == [] then [] else AddAll(TechCount(maps[..|maps| - 1]), TechsOf(maps[|maps| - 1]))
  }

  /** The number of items in a given category. */
  function CategoryOccurrences(maps: seq<MapItem>, category: string): nat {
    if maps == [] then 0
    else CategoryOccurrences(maps[..|maps| - 1], category) + (if maps[|maps| - 1].category == category then 1 else 0)
  }

  /** The number of times a technology is listed, over all items. */
  function TechOccurrences(maps: seq<MapItem>, tech: string): nat {
    if maps == [] then 0
    else TechOccurrences(maps[..|maps| - 1], tech) + multiset(TechsOf(maps[|maps| - 1]))[tech]
  }

  /** The number of items that list a technology. */
  function MapsListing(maps: seq<MapItem>, tech: string): nat {
    if maps == [] then 0
    else MapsListing(maps[..|maps| - 1], tech) + (if tech in TechsOf(maps[|maps| - 1]) then 1 else 0)
  }

  /** The category counts add up to the number of items. */
  lemma {:induction false} CategoryCountTotal(maps: seq<MapItem>)
    ensures Total(CategoryCount(maps)) == |maps|
  {
    if maps != [] {
      CategoryCountTotal(maps[..|maps| - 1]);
      TotalIncrement(CategoryCount(maps[..|maps| - 1]), maps[|maps| - 1].category);
    }
  }

  /** Each category's count is the number of items in it, and each category
      appears once. */
  lemma {:induction false} CategoryCountGet(maps: seq<MapItem>, category: string)
    ensures Get(CategoryCount(maps), category) == CategoryOccurrences(maps, category)
    ensures DistinctKeys(CategoryCount(maps))
  {
    if maps != [] {
      CategoryCountGet(maps[..|maps| - 1], category);
      GetIncrement(CategoryCount(maps[..|maps| - 1]), maps[|maps| - 1].category, category);
      DistinctIncrement(CategoryCount(maps[..|maps| - 1]), maps[|maps| - 1].category);
    }
  }

  lemma {:induction false} AddAllGet(c: Counter, techs: seq<string>, tech: string)
    ensures Get(AddAll(c, techs), tech) == Get(c, tech) + multiset(techs)[tech]
    ensures DistinctKeys(c) ==> DistinctKeys(AddAll(c, techs))
  {
    if techs != [] {
      var init := techs[..|techs| - 1];
      AddAllGet(c, init, tech);
      GetIncrement(AddAll(c, init), techs[|techs| - 1], tech);
      if DistinctKeys(c) {
        DistinctIncrement(AddAll(c, init), techs[|techs| - 1]);
      }
      assert techs == init + [techs[|techs| - 1]];
    }
  }

  /** Each technology's count is the number of times it is listed. */
  lemma {:induction false} TechCountGet(maps: seq<MapItem>, tech: string)
    ensures Get(TechCount(maps), tech) == TechOccurrences(maps, tech)
    ensures DistinctKeys(TechCount(maps))
  {
    if maps != [] {
      TechCountGet(maps[..|maps| - 1], tech);
      AddAllGet(TechCount(maps[..|maps| - 1]), TechsOf(maps[|maps| - 1]), tech);
    }
  }

  /** When no item lists a technology twice, its count is the number of
      items that list it. */
  lemma {:induction false} TechCountIsMapsListing(maps: seq<MapItem>, tech: string)
    requires forall k :: 0 <= k < |maps| ==> multiset(TechsOf(maps[k]))[tech] <= 1
    ensures Get(TechCount(maps), tech) == MapsListing(maps, tech)
  {
    TechCountGet(maps, tech);
    OccurrencesAreListings(maps, tech);
  }

  lemma {:induction false} OccurrencesAreListings(maps: seq<MapItem>, tech: string)
    requires forall k :: 0 <= k < |maps| ==> multiset(TechsOf(maps[k]))[tech] <= 1
    ensures TechOccurrences(maps, tech) == MapsListing(maps, tech)
  {
    if maps != [] {
      var init := maps[..|maps| - 1];
      assert forall k :: 0 <= k < |init| ==> init[k] == maps[k];
      OccurrencesAreListings(init, tech);
      var last := TechsOf(maps[|maps| - 1]);
      assert tech in last <==> tech in multiset(last);
    }
  }

  /** The `/api/stats` body (the average rating is not modelled). */
  datatype Stats = Stats(
    totalMaps: nat,
    totalCategories: nat,
    totalViews: int,
    technologyDistribution: Counter,
    categoryDistribution: Counter)

  /** `get_stats`: the totals and the two counting loops. */
  method GetStats(maps: seq<MapItem>, categories: seq<string>) returns (s: Stats)
    ensures s.totalMaps == |maps| && s.totalCategories == |categories| && s.totalViews == TotalViews(maps)
    ensures s.technologyDistribution == TechCount(maps)
    ensures s.categoryDistribution == CategoryCount(maps)
  {
    var techCount := CountTechnologies(maps);
    var categoryCount := CountCategories(maps);
    s := Stats(|maps|, |categories|, TotalViews(maps), techCount, categoryCount);
  }

  /** The `tech_count` loop: for each map, for each of its technologies,
      add one. */
  method CountTechnologies(maps: seq<MapItem>) returns (techCount: Counter)
    ensures techCount == TechCount(maps)
  {
    techCount := [];
    var i := 0;
    while i < |maps|
      invariant 0 <= i <= |maps|
      invariant techCount == TechCount(maps[..i])
    {
      var techs := TechsOf(maps[i]);
      var j := 0;
      assert maps[..i + 1][..i] == maps[..i];
      while j < |techs|
        invariant 0 <= j <= |techs|
        invariant techCount == AddAll(TechCount(maps[..i]), techs[..j])
      {
        assert techs[..j + 1][..j] == techs[..j];
        techCount := Increment(techCount, techs[j]);
        j := j + 1;
      }
      assert techs[..j] == techs;
      i := i + 1;
    }
    assert maps[..i] == maps;
  }

  /** The `category_count` loop. */
  method CountCategories(maps: seq<MapItem>) returns (categoryCount: Counter)
    ensures categoryCount == CategoryCount(maps)
  {
    categoryCount := [];
    var i := 0;
    while i < |maps|
      invariant 0 <= i <= |maps|
      invariant categoryCount == CategoryCount(maps[..i])
    {
      assert maps[..i + 1][..i] == maps[..i];
      categoryCount := Increment(categoryCount, maps[i].category);
      i := i + 1;
    }
    assert maps[..i] == maps;
  }

  /** A JSON value as `request.get_json()` gives it; lists and objects are
      represented by their size, as only emptiness matters here. */
  datatype JsonValue = JNull | JBool(b: bool) | JNumber(x: real) | JString(s: string) | JList(size: nat) | JObject(size: nat)

  /** Python truthiness of a value. */
  predicate Truthy(v: JsonValue) {
    match v
    case JNull => false
    case JBool(b) => b
    case JNumber(x) => x != 0.0
    case JString(s) => s != ""
    case JList(n) => n > 0
    case JObject(n) => n > 0
  }

  /** `data.get(field)` is truthy. */
  predicate Provided(data: map<string, JsonValue>, field: string) {
    field in data && Truthy(data[field])
  }

  const RequiredFields: seq<string> := ["name", "email", "subject", "message"]

  /** The three outcomes of the validation: go on to save the message, a 400
      naming the missing field, or a 500 when there is no JSON object. */
  datatype ContactOutcome = Accepted | MissingField(field: string) | ServerError

  /** The 400 response's message. */
  function MissingFieldMessage(field: string): string {
    "Le champ " + field + " est requis"
  }

  /** The required-field check of `submit_contact_form`: the fields are
      checked in order and the first one that is missing or empty is
      reported. A body that is not a JSON object makes `data.get` raise. */
  method ValidateContact(data: Option<map<string, JsonValue>>) returns (r: ContactOutcome)
    ensures data.None? <==> r == ServerError
    ensures r == Accepted <==> data.Some? && forall k :: 0 <= k < |RequiredFields| ==> Provided(data.value, RequiredFields[k])
    ensures r.MissingField? ==> exists k :: 0 <= k < |RequiredFields| && RequiredFields[k] == r.field &&
                                             !Provided(data.value, r.field) &&
                                             forall j :: 0 <= j < k ==> Provided(data.value, RequiredFields[j])
  {
    if data.None? {
      return ServerError;
    }
    var d := data.value;
    for i := 0 to |RequiredFields|
      invariant forall j :: 0 <= j < i ==> Provided(d, RequiredFields[j])
    {
      var field := RequiredFields[i];
      if !(field in d && Truthy(d[field])) {
        return MissingField(field);
      }
    }
    return Accepted;
  }

  /** A form with every field filled in but an empty name is refused on the
      name, whatever else is missing. */
  method NameIsCheckedFirst(data: map<string, JsonValue>) returns (r: ContactOutcome)
    requires !Provided(data, "name")
    ensures r == MissingField("name")
  {
    r := ValidateContact(Some(data));
    assert RequiredFields[0] == "name";
  }
}
