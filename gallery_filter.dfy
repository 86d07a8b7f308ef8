/** The gallery component (`MapGalleryApp`): the category/search filter, the
    rounded per-axis mean of the MacEachren triples of the filtered items,
    the result heading, and the open/close state of the detail modal. The
    same filter and modal actions are duplicated in the single-file front end
    (`react-app.js`); this module models both. */
module GalleryFilter {
  import opened Wrappers
  import opened JsText
  import opened GalleryData
  import opened Seqs

  /** The category value that stands for "no category filter". */
  const AllCategories := "Toutes"

  /** The category half of the filter predicate. */
  predicate MatchesCategory(m: MapItem, selected: string) {
    selected == AllCategories || m.category == selected
  }

  /** `tags.some(tag => tag.toLowerCase().includes(needle))`. */
  predicate SomeTagContains(tags: seq<string>, needle: string) {
    exists k :: 0 <= k < |tags| && Contains(Lower(tags[k]), needle)
  }

  /** The search half of the filter predicate, evaluated like the source's
      `||` chain: the title first, then the description, then the tags. A
      paragraph-list description has no `toLowerCase`, so reaching it throws. */
  function MatchesSearch(m: MapItem, term: string): Result<bool, JsError> {
    var needle := Lower(term);
    if Contains(Lower(m.title), needle) then Ok(true)
    else match m.description
      case Paragraphs(_) => Err(TypeError)
      case Text(d) => Ok(Contains(Lower(d), needle) || SomeTagContains(m.tags, needle))
  }

  /** An item is shown when both halves of the predicate hold. */
  predicate Keeps(m: MapItem, selected: string, term: string) {
    MatchesCategory(m, selected) && MatchesSearch(m, term) == Ok(true)
  }

  /** `maps.filter(...)`: the predicate is evaluated on every item in order
      (the search half even when the category half is false), and an
      exception from any item aborts the whole filter. */
  function FilteredMaps(maps: seq<MapItem>, selected: string, term: string): Result<seq<MapItem>, JsError>
  {
    if maps == [] then Ok([])
    else if MatchesSearch(maps[0], term).Err? then Err(TypeError)
    else match FilteredMaps(maps[1..], selected, term)
      case Err(e) => Err(e)
      case Ok(rest) => Ok(if Keeps(maps[0], selected, term) then [maps[0]] + rest else rest)
  }

  /** The filter fails exactly when the search half throws on some item. */
  lemma {:induction false} FilteredMapsOkIff(maps: seq<MapItem>, selected: string, term: string)
    ensures FilteredMaps(maps, selected, term).Ok? <==>
              forall k :: 0 <= k < |maps| ==> MatchesSearch(maps[k], term).Ok?
  {
    if maps != [] {
      FilteredMapsOkIff(maps[1..], selected, term);
      if forall k :: 0 <= k < |maps| ==> MatchesSearch(maps[k], term).Ok? {
        assert forall k :: 0 <= k < |maps[1..]| ==> MatchesSearch(maps[1..][k], term).Ok?;
      } else {
        var k :| 0 <= k < |maps| && !MatchesSearch(maps[k], term).Ok?;
        assert k != 0 ==> !MatchesSearch(maps[1..][k - 1], term).Ok?;
      }
    }
  }

  /** When the filter succeeds, its result keeps the original order. */
  lemma {:induction false} FilteredMapsIsSubsequence(maps: seq<MapItem>, selected: string, term: string)
    requires FilteredMaps(maps, selected, term).Ok?
    ensures IsSubsequence(FilteredMaps(maps, selected, term).value, maps)
  {
    if maps != [] {
      FilteredMapsIsSubsequence(maps[1..], selected, term);
      var rest := FilteredMaps(maps[1..], selected, term).value;
      var r := FilteredMaps(maps, selected, term).value;
      if Keeps(maps[0], selected, term) {
        assert r == [maps[0]] + rest;
        assert r[1..] == rest;
      } else {
        assert r == rest;
      }
    }
  }

  /** When the filter succeeds, its result holds every item satisfying the
      predicate exactly as often as `maps` does, and nothing else. */
  lemma {:induction false} FilteredMapsCounts(maps: seq<MapItem>, selected: string, term: string)
    requires FilteredMaps(maps, selected, term).Ok?
    ensures forall x :: multiset(FilteredMaps(maps, selected, term).value)[x] ==
                        if Keeps(x, selected, term) then multiset(maps)[x] else 0
  {
    if maps != [] {
      FilteredMapsCounts(maps[1..], selected, term);
      assert maps == [maps[0]] + maps[1..];
      var rest := FilteredMaps(maps[1..], selected, term).value;
      var r := FilteredMaps(maps, selected, term).value;
      assert r == if Keeps(maps[0], selected, term) then [maps[0]] + rest else rest;
    }
  }

  /** The gallery filter, end to end: it fails exactly when the search half
      throws on some item; when it succeeds, its result is a subsequence of
      `maps` in the original order that holds exactly the items satisfying
      the predicate, each as often as `maps` does. */
  lemma FilteredMapsSpec(maps: seq<MapItem>, selected: string, term: string)
    ensures FilteredMaps(maps, selected, term).Ok? <==>
              forall k :: 0 <= k < |maps| ==> MatchesSearch(maps[k], term).Ok?
    ensures FilteredMaps(maps, selected, term).Ok? ==>
              var r := FilteredMaps(maps, selected, term).value;
              && IsSubsequence(r, maps)
              && (forall x :: multiset(r)[x] == if Keeps(x, selected, term) then multiset(maps)[x] else 0)
              && (forall x :: x in r <==> x in maps && Keeps(x, selected, term))
  {
    FilteredMapsOkIff(maps, selected, term);
    if FilteredMaps(maps, selected, term).Ok? {
      FilteredMapsIsSubsequence(maps, selected, term);
      FilteredMapsCounts(maps, selected, term);
      var r := FilteredMaps(maps, selected, term).value;
      forall x ensures x in r <==> x in maps && Keeps(x, selected, term) {
        assert x in r <==> multiset(r)[x] > 0;
        assert x in maps <==> multiset(maps)[x] > 0;
      }
    }
  }

  /** With the initial empty search term nothing throws and only the category
      decides; with the category 'Toutes' as well, every item is shown. */
  lemma {:induction false} EmptySearchKeepsCategory(maps: seq<MapItem>, selected: string)
    ensures FilteredMaps(maps, selected, "").Ok?
    ensures forall x :: x in FilteredMaps(maps, selected, "").value <==> x in maps && MatchesCategory(x, selected)
    ensures FilteredMaps(maps, AllCategories, "") == Ok(maps)
  {
    if maps != [] {
      EmptySearchKeepsCategory(maps[1..], selected);
      assert maps == [maps[0]] + maps[1..];
    }
  }

  /** With plain-text descriptions the filter never throws. */
  lemma PlainDescriptionsNeverThrow(maps: seq<MapItem>, selected: string, term: string)
    requires forall k :: 0 <= k < |maps| ==> maps[k].description.Text?
    ensures FilteredMaps(maps, selected, term).Ok?
  {
    FilteredMapsOkIff(maps, selected, term);
  }

  /** An item with a paragraph-list description whose title does not contain
      the search term makes the whole filter throw, even when its category is
      not selected. */
  lemma ParagraphDescriptionThrows(maps: seq<MapItem>, selected: string, term: string, k: nat)
    requires k < |maps| && maps[k].description.Paragraphs?
    requires !Contains(Lower(maps[k].title), Lower(term))
    ensures FilteredMaps(maps, selected, term).Err?
  {
    FilteredMapsOkIff(maps, selected, term);
  }

  /** The search ignores the case of the term. */
  lemma SearchIgnoresTermCase(m: MapItem, term: string)
    ensures MatchesSearch(m, term) == MatchesSearch(m, Lower(term))
  {
    LowerIdempotent(term);
  }

  /** The per-axis mean of the MacEachren triples. */
  datatype Averages = Averages(communication: int, task: int, interaction: int)

  /** The neutral triple. */
  const Neutral := Averages(50, 50, 50)

  datatype Axis = Communication | Task | Interaction

  function AxisValue(t: MetricTriple, a: Axis): Option<int> {
    match a
    case Communication => t.communication
    case Task => t.task
    case Interaction => t.interaction
  }

  function AverageAxis(avg: Averages, a: Axis): int {
    match a
    case Communication => avg.communication
    case Task => avg.task
    case Interaction => avg.interaction
  }

  /** `value || 50`: an absent value and a 0 both count as 50. */
  function OrFifty(v: Option<int>): int {
    if v.None? || v.value == 0 then 50 else v.value
  }

  /** The triples of the items that carry one, in order
      (`filteredMaps.filter(map => map.maceachren)`). */
  function MetricsOf(maps: seq<MapItem>): seq<MetricTriple> {
    if maps == [] then []
    else (if maps[0].maceachren.Some? then [maps[0].maceachren.value] else []) + MetricsOf(maps[1..])
  }

  /** The `reduce` sum of one axis, each value taken with `|| 50`. */
  function AxisSum(ts: seq<MetricTriple>, a: Axis): int {
    if ts == [] then 0 else OrFifty(AxisValue(ts[0], a)) + AxisSum(ts[1..], a)
  }

  /** `Math.round(sum / count)`, which is floor(sum/count + 1/2): the integer
      r with r <= sum/count + 1/2 < r + 1, written here multiplied through by
      2*count. */
  function RoundedMean(sum: int, count: nat): (r: int)
    requires count > 0
    ensures 2 * count * r <= 2 * sum + count < 2 * count * (r + 1)
  {
    var q := (2 * sum + count) / (2 * count);
    var m := (2 * sum + count) % (2 * count);
    assert 2 * count * q + m == 2 * sum + count && 0 <= m < 2 * count;
    q
  }

  /** `globalMaceachren`: (50,50,50) when nothing is filtered or no filtered
      item carries a triple, otherwise the rounded per-axis mean over the
      items that carry one. */
  function GlobalMacEachren(filtered: seq<MapItem>): Averages {
    if |filtered| == 0 then Neutral
    else
      var data := MetricsOf(filtered);
      if |data| == 0 then Neutral
      else Averages(
        RoundedMean(AxisSum(data, Communication), |data|),
        RoundedMean(AxisSum(data, Task), |data|),
        RoundedMean(AxisSum(data, Interaction), |data|))
  }

  /** Each axis of the aggregate is `Math.round` of the mean of that axis over
      the items that carry a triple, or 50 when there are none. */
  lemma AggregateIsRoundedMean(filtered: seq<MapItem>, a: Axis)
    ensures var data := MetricsOf(filtered);
            var r := AverageAxis(GlobalMacEachren(filtered), a);
            if |data| == 0 then r == 50
            else 2 * |data| * r <= 2 * AxisSum(data, a) + |data| < 2 * |data| * (r + 1)
  {
  }

  lemma {:induction false} MetricsOfAppend(a: seq<MapItem>, b: seq<MapItem>)
    ensures MetricsOf(a + b) == MetricsOf(a) + MetricsOf(b)
  {
    if a == [] {
      assert a + b == b;
    } else {
      var head: seq<MetricTriple> := if a[0].maceachren.Some? then [a[0].maceachren.value] else [];
      assert (a + b)[0] == a[0] && (a + b)[1..] == a[1..] + b;
      MetricsOfAppend(a[1..], b);
      assert MetricsOf(a + b) == head + (MetricsOf(a[1..]) + MetricsOf(b));
      assert MetricsOf(a) == head + MetricsOf(a[1..]);
    }
  }

  /** The aggregate depends on the filtered items only through their triples. */
  lemma AggregateDependsOnlyOnMetrics(x: seq<MapItem>, y: seq<MapItem>)
    requires MetricsOf(x) == MetricsOf(y)
    ensures GlobalMacEachren(x) == GlobalMacEachren(y)
  {
  }

  /** Items without a triple never dilute the mean: adding them anywhere
      leaves the aggregate unchanged. */
  lemma NoDilution(a: seq<MapItem>, b: seq<MapItem>, c: seq<MapItem>)
    requires MetricsOf(b) == []
    ensures GlobalMacEachren(a + b + c) == GlobalMacEachren(a + c)
  {
    MetricsOfAppend(a + b, c);
    MetricsOfAppend(a, b);
    MetricsOfAppend(a, c);
    assert MetricsOf(a + b) == MetricsOf(a);
    AggregateDependsOnlyOnMetrics(a + b + c, a + c);
  }

  /** When no filtered item carries a triple (in particular when nothing is
      filtered), the aggregate is the neutral triple. */
  lemma {:induction false} NoMetricsGivesNeutral(filtered: seq<MapItem>)
    requires forall k :: 0 <= k < |filtered| ==> filtered[k].maceachren.None?
    ensures GlobalMacEachren(filtered) == Neutral
  {
    if filtered != [] {
      NoMetricsGivesNeutral(filtered[1..]);
      if |filtered[1..]| > 0 {
        assert MetricsOf(filtered) == MetricsOf(filtered[1..]);
      }
    }
  }

  /** An axis value that is absent or lies in [0,100]. */
  predicate WithinPercent(v: Option<int>) {
    v.None? || 0 <= v.value <= 100
  }

  lemma {:induction false} AxisSumBounds(ts: seq<MetricTriple>, a: Axis)
    requires forall k :: 0 <= k < |ts| ==> WithinPercent(AxisValue(ts[k], a))
    ensures |ts| <= AxisSum(ts, a) <= 100 * |ts|
  {
    if ts != [] {
      AxisSumBounds(ts[1..], a);
    }
  }

  lemma CancelPositive(c: int, x: int, y: int)
    requires c > 0 && c * x < c * y
    ensures x < y
  {
  }

  lemma RoundedMeanBounds(sum: int, count: nat)
    requires 0 < count && count <= sum <= 100 * count
    ensures 1 <= RoundedMean(sum, count) <= 100
  {
    var r := RoundedMean(sum, count);
    assert count * (2 * r) <= 2 * sum + count;
    assert count * (2 * r) < count * 202;
    CancelPositive(count, 2 * r, 202);
    assert 2 * sum + count < count * (2 * r + 2);
    assert count * 2 < count * (2 * r + 2);
    CancelPositive(count, 2, 2 * r + 2);
  }

  lemma {:induction false} MetricsOfMembers(maps: seq<MapItem>, t: MetricTriple)
    requires t in MetricsOf(maps)
    ensures exists k :: 0 <= k < |maps| && maps[k].maceachren == Some(t)
  {
    if maps[0].maceachren == Some(t) {
      assert maps[0].maceachren == Some(t);
    } else {
      MetricsOfMembers(maps[1..], t);
      var k :| 0 <= k < |maps[1..]| && maps[1..][k].maceachren == Some(t);
      assert maps[k + 1].maceachren == Some(t);
    }
  }

  /** When every value present lies in [0,100], each axis of the aggregate
      lies in [1,100] (a 0 counts as 50). */
  lemma AggregateBounds(filtered: seq<MapItem>, a: Axis)
    requires forall k :: 0 <= k < |filtered| && filtered[k].maceachren.Some? ==>
                           WithinPercent(AxisValue(filtered[k].maceachren.value, a))
    ensures 1 <= AverageAxis(GlobalMacEachren(filtered), a) <= 100
  {
    var data := MetricsOf(filtered);
    if |filtered| > 0 && |data| > 0 {
      forall k | 0 <= k < |data|
        ensures WithinPercent(AxisValue(data[k], a))
      {
        MetricsOfMembers(filtered, data[k]);
      }
      AxisSumBounds(data, a);
      RoundedMeanBounds(AxisSum(data, a), |data|);
    }
  }

  /** The end-to-end case: one item with the triple (80,20,60) and items
      without a triple give exactly (80,20,60). */
  lemma SingleTripleIsKeptExactly(withData: MapItem, others: seq<MapItem>)
    requires withData.maceachren == Some(MetricTriple(Some(80), Some(20), Some(60)))
    requires forall k :: 0 <= k < |others| ==> others[k].maceachren.None?
    ensures GlobalMacEachren([withData] + others) == Averages(80, 20, 60)
  {
    MetricsOfAppend([withData], others);
    assert MetricsOf(others) == [] by {
      if MetricsOf(others) != [] {
        MetricsOfMembers(others, MetricsOf(others)[0]);
      }
    }
    var t := withData.maceachren.value;
    assert [withData][1..] == [];
    assert MetricsOf([withData]) == [t];
    var data := MetricsOf([withData] + others);
    assert data == [t];
    assert [t][1..] == [];
    assert AxisSum(data, Communication) == 80;
    assert AxisSum(data, Task) == 20;
    assert AxisSum(data, Interaction) == 60;
  }

  /** A 0 counts as 50: the triples (0,100,50) and (100,0,50) average to
      (75,75,50), not to (50,50,50). */
  lemma ZeroCountsAsFifty(m1: MapItem, m2: MapItem)
    requires m1.maceachren == Some(MetricTriple(Some(0), Some(100), Some(50)))
    requires m2.maceachren == Some(MetricTriple(Some(100), Some(0), Some(50)))
    ensures GlobalMacEachren([m1, m2]) == Averages(75, 75, 50)
  {
    var t1, t2 := m1.maceachren.value, m2.maceachren.value;
    assert [m1, m2][1..] == [m2];
    assert [m2][1..] == [];
    assert MetricsOf([m2]) == [t2];
    assert MetricsOf([m1, m2]) == [t1, t2];
    assert [t1, t2][1..] == [t2];
    assert [t2][1..] == [];
    assert AxisSum([t2], Communication) == 100;
    assert AxisSum([t2], Task) == 50;
    assert AxisSum([t2], Interaction) == 50;
    assert AxisSum([t1, t2], Communication) == 150;
    assert AxisSum([t1, t2], Task) == 150;
    assert AxisSum([t1, t2], Interaction) == 100;
  }

  /** The result heading: "<n> Carte(s) Trouvée(s)". */
  function Heading(count: nat): (h: string)
    ensures |h| > |DecimalString(count)| && h[..|DecimalString(count)|] == DecimalString(count)
    ensures (h[|h| - 1] == 's') <==> count != 1
  {
    var plural := if count != 1 then "s" else "";
    DecimalString(count) + " Carte" + plural + " Trouv\U{E9}e" + plural
  }

  /** The gallery's React state (after the data has loaded) together with the
      page's `document.body.style.overflow`. */
  class GalleryApp {
    var maps: seq<MapItem>
    var selectedCategory: string
    var searchTerm: string
    var selectedMap: Option<MapItem>
    var isModalOpen: bool
    var bodyOverflow: string

    /** The state once the item list has loaded: no category filter, empty
        search, no modal. */
    constructor(loaded: seq<MapItem>, overflow: string)
      ensures maps == loaded && selectedCategory == AllCategories && searchTerm == ""
      ensures selectedMap == None && !isModalOpen && bodyOverflow == overflow
    {
      maps := loaded;
      selectedCategory := AllCategories;
      searchTerm := "";
      selectedMap := None;
      isModalOpen := false;
      bodyOverflow := overflow;
    }

    /** The `filteredMaps` memo. */
    function Filtered(): Result<seq<MapItem>, JsError>
      reads this
    {
      FilteredMaps(maps, selectedCategory, searchTerm)
    }

    /** The detail modal is on screen: `selectedMap` is set and the modal is
        told it is open. */
    predicate ModalShown()
      reads this
    {
      selectedMap.Some? && isModalOpen
    }

    method SetSearchTerm(term: string)
      modifies this
      ensures searchTerm == term
      ensures maps == old(maps) && selectedCategory == old(selectedCategory)
      ensures selectedMap == old(selectedMap) && isModalOpen == old(isModalOpen) && bodyOverflow == old(bodyOverflow)
    {
      searchTerm := term;
    }

    method SetCategory(category: string)
      modifies this
      ensures selectedCategory == category
      ensures maps == old(maps) && searchTerm == old(searchTerm)
      ensures selectedMap == old(selectedMap) && isModalOpen == old(isModalOpen) && bodyOverflow == old(bodyOverflow)
    {
      selectedCategory := category;
    }

    /** `openModal`: selects the item, opens the modal and stops the page
        from scrolling; the filter state is untouched. */
    method OpenModal(m: MapItem)
      modifies this
      ensures selectedMap == Some(m) && isModalOpen && bodyOverflow == "hidden"
      ensures ModalShown()
      ensures maps == old(maps) && selectedCategory == old(selectedCategory) && searchTerm == old(searchTerm)
    {
      selectedMap := Some(m);
      isModalOpen := true;
      bodyOverflow := "hidden";
    }

    /** `closeModal`: closes the modal, clears the selection and lets the page
        scroll again; the filter state is untouched. */
    method CloseModal()
      modifies this
      ensures !isModalOpen && selectedMap == None && bodyOverflow == "auto"
      ensures !ModalShown()
      ensures maps == old(maps) && selectedCategory == old(selectedCategory) && searchTerm == old(searchTerm)
    {
      isModalOpen := false;
      selectedMap := None;
      bodyOverflow := "auto";
    }
  }
}
