# Map gallery — a Dafny model of its rules

The map gallery shows a grid of map cards that can be filtered by category
and by a search term. A MacEachren cube (interaction, communication and
task, each 0–100) summarises the visible maps, and each map's detail modal
holds its own cube, a media gallery and a full-screen image viewer. A small
Flask back end serves the list with mode filtering and pagination, counts
views and statistics, and validates the contact form.

This project models the rules beneath that interface and proves properties
of them:

- `GalleryFilter` (`gallery_filter.dfy`): the category/search filter, the
  averaged MacEachren triple, the result heading, and the app state that
  opens and closes the detail modal.
- `Cube` (`cube.dfy`): how a metric triple is clamped and placed in the
  cube, the glow fractions and the beam condition, and the drag rotation.
  The item cube and the global cube share one model and differ only in
  scale (1 against 1.2) and drag rate (0.01 against 0.008).
- `ImageViewer` (`image_viewer.dfy`): the wrapping index that the buttons,
  arrow keys and thumbnails move, and what is drawn for the current image.
- `MapModal` (`map_modal.dfy`): media-kind inference, the first-time hints
  stored in `localStorage`, and the guards on opening the viewer.
- `MapCard` (`map_card.dfy`): description truncation and the preview image.
- `Backend` (`backend.dfy`) with `PyCounter` (`counter.dfy`): the back
  end's list logic — mode and search filter, page slice and page count,
  lookup by id, the in-place view increment, the statistics counters and
  the contact form's required fields.
- Shared pieces: `Wrappers` (Option, Result), `GalleryData` (the item
  record), `JsText` (lower-casing, substring search, JavaScript `trim`,
  decimal strings), `Seqs` (subsequences) and `Arith` (signs of products).

Values that JavaScript or Python treat loosely are written out: a
description is either one text or a list of paragraphs (calling a string
method on the list throws, so the filters return a `Result`); `Number(v)`
is a real number, an infinity or NaN; absent keys are `Option`s; Python's
slicing, floor division and `str` of an id are spelt out.

The model keeps these behaviours of the code:

- A non-numeric metric value clamps to 0 (`Number(v) || 0`). Only an
  absent key takes the default 50, through the object spread.
- A metric value of 0 counts as 50 in the averaged triple (`|| 50`), so the
  triples (0,100,50) and (100,0,50) average to (75,75,50).
- The search calls `toLowerCase` on the description, so a description that
  is a list of paragraphs throws (unless the title already matched); its
  paragraphs are never searched one by one.
- The viewer always starts at index 0: the index passed by the modal is not
  read. The viewer has no zoom, pan or video thumbnails.
- The front end filters on `category`, but the back end filters on `mode`,
  and `/api/categories` returns the modes.

## Model

| member | source | states |
|---|---|---|
| GalleryFilter.FilteredMapsSpec | static/js/components/MapGalleryApp.js:55-63 | the filter fails exactly when a kept-or-tested item throws; otherwise it keeps, in order, exactly the items whose category and search both match |
| GalleryFilter.FilteredMapsOkIff | static/js/components/MapGalleryApp.js:55-63 | the filter fails iff some item's search throws, whatever its category, because the search is evaluated for every item before the `&&` |
| GalleryFilter.FilteredMapsIsSubsequence | static/js/components/MapGalleryApp.js:55-63 | the filtered list is a subsequence of the loaded list, in the original order |
| GalleryFilter.FilteredMapsCounts | static/js/components/MapGalleryApp.js:55-63 | every item that satisfies the predicate is kept as many times as it occurs, and no other item is kept |
| GalleryFilter.EmptySearchKeepsCategory | static/js/components/MapGalleryApp.js:57-58 | an empty term never throws and keeps exactly the category's items; "Toutes" with an empty term keeps the whole list |
| GalleryFilter.PlainDescriptionsNeverThrow | static/js/react-app.js:497-505 | when every description is one text, the filter never throws |
| GalleryFilter.ParagraphDescriptionThrows | static/js/components/MapGalleryApp.js:58-60 | a paragraph-list description whose title does not match the term makes the filter throw |
| GalleryFilter.SearchIgnoresTermCase | static/js/components/MapGalleryApp.js:58-60 | the search gives the same answer for a term and for its lower-case form |
| GalleryFilter.AggregateIsRoundedMean | static/js/components/MapGalleryApp.js:66-90 | with metric data present, each axis is the rounded mean of the axis values, a missing or zero value counting as 50 |
| GalleryFilter.RoundedMean | static/js/components/MapGalleryApp.js:85-89 | the result is the integer nearest to sum/count, halves rounding up, as `Math.round` does |
| GalleryFilter.AggregateDependsOnlyOnMetrics | static/js/components/MapGalleryApp.js:71-76 | two lists with the same metric triples in the same order give the same aggregate |
| GalleryFilter.NoDilution | static/js/components/MapGalleryApp.js:71-74 | inserting items without metrics anywhere in the list leaves the aggregate unchanged |
| GalleryFilter.NoMetricsGivesNeutral | static/js/components/MapGalleryApp.js:67-74 | an empty list, or one where no item has metrics, gives (50,50,50) |
| GalleryFilter.MetricsOfAppend | static/js/components/MapGalleryApp.js:71 | collecting metrics distributes over concatenation |
| GalleryFilter.AggregateBounds | static/js/components/MapGalleryApp.js:76-89 | when every present value is in 1..100 (or absent or 0), each aggregate axis is in 1..100 |
| GalleryFilter.RoundedMeanBounds | static/js/components/MapGalleryApp.js:85-89 | the rounded mean of values in 1..100 is in 1..100 |
| GalleryFilter.AxisSumBounds | static/js/components/MapGalleryApp.js:76-84 | n values, each counting as 1..100, sum to between n and 100n |
| GalleryFilter.SingleTripleIsKeptExactly | static/js/components/MapGalleryApp.js:71-89 | one item with (80,20,60) among items without metrics gives exactly (80,20,60) |
| GalleryFilter.ZeroCountsAsFifty | static/js/components/MapGalleryApp.js:76-89 | (0,100,50) and (100,0,50) average to (75,75,50) because a 0 counts as 50 |
| GalleryFilter.Heading | static/js/components/MapGalleryApp.js:136 | the heading starts with the count in decimal and ends in "s" exactly when the count is not 1 |
| GalleryFilter.GalleryApp.constructor | static/js/components/MapGalleryApp.js:6-11 | the app starts on "Toutes" with an empty term and no modal |
| GalleryFilter.GalleryApp.SetSearchTerm | static/js/components/MapGalleryApp.js:58 | only the term changes |
| GalleryFilter.GalleryApp.SetCategory | static/js/components/MapGalleryApp.js:57 | only the category changes |
| GalleryFilter.GalleryApp.OpenModal | static/js/components/MapGalleryApp.js:13-17 | the map is selected, the modal is open and shown, page scrolling is hidden, nothing else changes |
| GalleryFilter.GalleryApp.CloseModal | static/js/components/MapGalleryApp.js:19-23 | the modal is closed, no map is selected, scrolling is back to "auto", nothing else changes |
| Cube.Clamp | static/js/components/MaceachrenCube.js:11 | the result is in [0,100], is the value itself inside [0,100], 0 below and 100 above |
| Cube.NonNumericClampsToZero | static/js/components/GlobalCube.js:12 | NaN clamps to 0, the same as 0 does |
| Cube.ClampMonotone | static/js/react-app.js:13 | clamping preserves order |
| Cube.ToUnit | static/js/components/MaceachrenCube.js:12 | the result is in [-1,1] and maps back to the clamped value by 50u+50 |
| Cube.ToUnitLandmarks | static/js/components/GlobalCube.js:13 | 0 goes to -1, 50 to 0 and 100 to 1 |
| Cube.ToUnitMonotone | static/js/react-app.js:14 | the mapping preserves order, strictly inside [0,100] |
| Cube.Scale | static/js/components/GlobalCube.js:82-86 | the global cube's scale factor is positive |
| Cube.DragRate | static/js/components/GlobalCube.js:170-171 | the drag rate is positive |
| Cube.Merge | static/js/components/MaceachrenCube.js:8-9 | no config gives (50,50,50); a key present in the config overrides its default, an absent one stays 50 |
| Cube.PresentNaNIsNotDefaulted | static/js/react-app.js:10-11 | a present NaN value is not replaced by 50 and ends up clamped to 0 |
| Cube.Marker | static/js/components/MaceachrenCube.js:94 | each coordinate lies within the cube's scale and is the scaled unit value of interaction (x), communication (y) and task (z) |
| Cube.GlowOf | static/js/components/MaceachrenCube.js:98-100 | each glow fraction is in [0,1] |
| Cube.GlowMatchesMarker | static/js/components/GlobalCube.js:90-92 | each glow fraction is the clamped axis value over 100, the same value the marker places |
| Cube.CentredHasNoBeam | static/js/components/MaceachrenCube.js:143-145 | the neutral triple puts the marker at the origin, with no beam |
| Cube.MissingConfigHasNoBeam | static/js/components/MaceachrenCube.js:8-9 | a missing config puts the marker at the origin, with no beam |
| Cube.BeamIffOffCentre | static/js/components/GlobalCube.js:134-136 | for whole-number values the beam is drawn exactly when some clamped axis value is not 50 |
| Cube.OffCentreCoordinate | static/js/components/GlobalCube.js:134 | an off-centre whole-number axis value puts the marker more than 0.001 from the centre along that axis |
| Cube.ClampInt | static/js/components/MaceachrenCube.js:11 | clamping a whole number gives a whole number in 0..100 |
| Cube.GlobalCubeWithoutData | static/js/components/MapGalleryApp.js:67-74 | the global cube of a list without metrics has its marker at the origin and no beam |
| Cube.BuildScene | static/js/components/MaceachrenCube.js:15-16 | nothing is built iff THREE or the container is missing; otherwise the scene holds the merged marker, glow and beam |
| Cube.RotationOnlyWhileDragging | static/js/components/MaceachrenCube.js:168-173 | a step changes the rotation only on a move while dragging; a move while not dragging changes nothing |
| Cube.IdleRunChangesNothing | static/js/components/GlobalCube.js:157-175 | without a mouse-down, any sequence of events leaves the state unchanged |
| Cube.DragTelescopes | static/js/components/MaceachrenCube.js:168-175 | a run of moves while dragging turns the scene by the rate times the total pointer displacement |
| Cube.DragGesture | static/js/react-app.js:161-179 | down, moves, up from the initial state turns the scene by the rate times the displacement from the press point and ends not dragging |
| Cube.RunAppend | static/js/components/MaceachrenCube.js:159-177 | running two event sequences one after the other is running their concatenation |
| Cube.DragRotation.constructor | static/js/components/MaceachrenCube.js:159-161 | the rotation starts at (0.35,0.45), not dragging, with the variant's rate |
| Cube.DragRotation.OnMouseDown | static/js/components/MaceachrenCube.js:163-166 | the state becomes the step for a press: dragging, rotation unchanged |
| Cube.DragRotation.OnMouseMove | static/js/components/GlobalCube.js:166-173 | the state becomes the step for a move; nothing changes when not dragging |
| Cube.DragRotation.OnMouseUp | static/js/components/MaceachrenCube.js:177 | the state becomes the step for a release: not dragging, rotation unchanged |
| ImageViewer.NextIndex | static/js/components/ImageViewer.js:14-16 | the next index stays in [0,n) |
| ImageViewer.PrevIndex | static/js/components/ImageViewer.js:18-20 | the previous index stays in [0,n) |
| ImageViewer.PrevFromFirstIsLast | static/js/components/ImageViewer.js:18-20 | going back from 0 reaches n-1 |
| ImageViewer.PrevNextInverse | static/js/components/ImageViewer.js:14-20 | previous undoes next and next undoes previous |
| ImageViewer.NextTimesShifts | static/js/components/ImageViewer.js:14-16 | k presses of next move from i to (i+k) mod n |
| ImageViewer.NextCycle | static/js/components/ImageViewer.js:14-16 | n presses of next return to the starting index |
| ImageViewer.ImageUrl | static/js/components/ImageViewer.js:11 | a string entry is its own URL; an object gives its url |
| ImageViewer.ImageTitle | static/js/components/ImageViewer.js:12 | a string entry has no title; an object gives its title |
| ImageViewer.Render | static/js/components/ImageViewer.js:5-104 | nothing is drawn for a null or empty list; otherwise the current image, with caption, buttons, counter and thumbnails exactly in interactive mode |
| ImageViewer.NoNavigationOutsideInteractive | static/js/components/ImageViewer.js:8 | a non-interactive map or a single image gets no buttons, counter, caption or thumbnails |
| ImageViewer.Viewer.constructor | static/js/components/ImageViewer.js:3 | the index starts at 0 whatever initial index is passed |
| ImageViewer.Viewer.Next | static/js/components/ImageViewer.js:14-16 | the index becomes the next index |
| ImageViewer.Viewer.Prev | static/js/components/ImageViewer.js:18-20 | the index becomes the previous index |
| ImageViewer.Viewer.ClickThumbnail | static/js/components/ImageViewer.js:99 | the index becomes the clicked thumbnail's |
| ImageViewer.Viewer.KeyDown | static/js/components/ImageViewer.js:22-31 | ArrowRight is next, ArrowLeft previous, Escape asks to close; any other key, or an empty list, leaves the index alone |
| MapModal.KindOf | static/js/components/MapModal.js:186-188 | a non-empty explicit type decides; otherwise, for a bare URL and for an object with a url, video iff the lower-cased text after the last dot contains a video extension; an object without url or type throws, and nothing else does |
| MapModal.ExtensionDecides | static/js/components/MapModal.js:188 | a URL ending in ".ext" is a video iff the lower-cased ext contains one of mp4, webm, ogg, mov, avi |
| MapModal.ExtensionMakesVideo | static/js/components/MapModal.js:188 | an extension containing any listed video extension gives a video |
| MapModal.AfterDotIsExtension | static/js/components/MapModal.js:188 | the text after the last dot of stem + "." + ext is ext when ext has no dot |
| MapModal.UpperCaseExtension | static/js/components/MapModal.js:188 | an upper-case ".MP4" is a video |
| MapModal.OnlyLastExtensionCounts | static/js/components/MapModal.js:188 | ".mp4.png" is an image: only the last extension is read |
| MapModal.MovieIsVideo | static/js/components/MapModal.js:188 | the unanchored test makes ".movie" a video |
| MapModal.AvifIsVideo | static/js/components/MapModal.js:188 | the unanchored test makes an ".avif" picture a video, through "avi" |
| MapModal.ExplicitTypeWins | static/js/components/MapModal.js:187 | an explicit "image" or "video" type decides whatever the URL |
| MapModal.GalleryKinds | static/js/components/MapModal.js:175-188 | the gallery gives each entry its kind, in order, or throws when some entry throws |
| MapModal.HintsOnOpen | static/js/components/MapModal.js:8-22 | the 2D hint shows iff the mode is 2d and its key is unset or empty; the interactive hint iff the mode is not 2d, its key is unset or empty and there are images |
| MapModal.AtMostOneHint | static/js/components/MapModal.js:10-19 | the two hints never show together |
| MapModal.DontRemindIsPermanent | static/js/components/MapModal.js:24-32 | after "don't remind" stores "true", that hint never shows again on open and the other hint is unaffected |
| MapModal.EmptyValueIsNotSeen | static/js/components/MapModal.js:11-12 | an empty stored value counts as not seen |
| MapModal.ViewerImages | static/js/components/MapModal.js:133 | in 2d mode the viewer gets the single entry {thumbnail, title}; otherwise the map's images |
| MapModal.ModalView | static/js/react-app.js:263 | nothing is rendered when closed; when open, the preview falls back to the default, the enlarge button and the gallery appear exactly under their conditions, the gallery holding the kind of each image in order; the render fails iff the modal is open, the item has images and one of them has no readable kind |
| MapModal.KeyValueStore.GetItem | static/js/components/MapModal.js:11 | a stored key gives its value; an absent key gives none |
| MapModal.KeyValueStore.SetItem | static/js/components/MapModal.js:25 | the key is set to the value and nothing else changes |
| MapModal.Modal.constructor | static/js/components/MapModal.js:3-22 | the viewer is closed at index 0 and the hints are those computed on open from the store |
| MapModal.Modal.DontRemindAgain2D | static/js/components/MapModal.js:24-27 | the 2D key is stored as "true", the 2D hint is hidden, nothing else changes |
| MapModal.Modal.DontRemindAgainInteractive | static/js/components/MapModal.js:29-32 | the interactive key is stored as "true", the interactive hint is hidden, nothing else changes |
| MapModal.Modal.Dismiss2DHint | static/js/components/MapModal.js:79 | the 2D hint is hidden without touching the store |
| MapModal.Modal.DismissInteractiveHint | static/js/components/MapModal.js:121 | the interactive hint is hidden without touching the store |
| MapModal.Modal.HandleImageClick | static/js/components/MapModal.js:36-41 | with images the viewer opens at the clicked index; without images nothing changes |
| MapModal.Modal.Enlarge | static/js/components/MapModal.js:169-172 | the viewer opens, the index and hints unchanged |
| MapModal.Modal.CloseViewer | static/js/components/MapModal.js:135 | the viewer closes, the index and hints unchanged |
| MapCard.Truncate | static/js/components/MapCard.js:4-9 | throws iff there is no first text; a short text is unchanged; a long one is exactly the trim of its first maxLength characters (none for a negative maxLength) followed by "...", at most maxLength+3 long |
| MapCard.CleanCutIsKept | static/js/components/MapCard.js:8 | a cut between words keeps exactly the first maxLength characters before "..." |
| MapCard.ParagraphsUseFirst | static/js/components/MapCard.js:6 | a paragraph list is shortened like its first paragraph |
| MapCard.DefaultLengthIsEighty | static/js/components/MapCard.js:4 | by default a text of at most 80 characters is unchanged and a longer one becomes at most 83 ending in "..." |
| MapCard.PreviewSrc | static/js/components/MapCard.js:20 | an absent or empty preview falls back to the default image |
| MapCard.TrimClean | static/js/components/MapCard.js:8 | trimming a string without surrounding whitespace leaves it unchanged |
| JsText.Lower | static/js/components/MapGalleryApp.js:58-60 | same length, each character lower-cased |
| JsText.LowerIdempotent | static/js/react-app.js:501-504 | lower-casing twice is lower-casing once |
| JsText.ContainsIffOccurs | static/js/components/MapGalleryApp.js:58-60 | the substring test holds iff the needle occurs at some position |
| JsText.EmptyIsContained | static/js/components/MapGalleryApp.js:58 | the empty string is contained in every string |
| JsText.Trim | static/js/components/MapCard.js:8 | the result is the input with only whitespace removed before and after it; it neither starts nor ends with whitespace, and is empty iff the input is all whitespace |
| JsText.TrimStartIndex | static/js/components/MapCard.js:8 | the trimmed text starts at the first non-whitespace character: everything before it is whitespace |
| JsText.TrimEndIndex | static/js/components/MapCard.js:8 | the trimmed text ends after the last non-whitespace character: everything after it is whitespace |
| JsText.TrimIdempotent | static/js/components/MapCard.js:8 | trimming twice is trimming once |
| JsText.AfterLastDot | static/js/components/MapModal.js:188 | the result is the dot-free tail of the input, preceded by a dot when shorter |
| Backend.WithPreview | app.py:220-221 | the preview is the thumbnail when the key is present, otherwise the default image; nothing else changes |
| Backend.ModeFilterSpec | app.py:232-233 | "Toutes" keeps everything; another value keeps, in order, exactly the items of that mode, each as often as in the input |
| Backend.ModeFilterIsSubsequence | app.py:232-233 | the kept items keep their original order |
| Backend.ModeFilterCounts | app.py:232-233 | each item's multiplicity in the result is its multiplicity in the input if it is kept, 0 otherwise |
| Backend.SearchAllSpec | app.py:235-240 | the search raises iff some item raises; otherwise it keeps, in order, exactly the matching items, each as often as in the input |
| Backend.SearchAllOkIff | app.py:235-240 | the search raises iff some item's test raises |
| Backend.SearchAllIsSubsequence | app.py:235-240 | when the search succeeds, the matching items keep their original order |
| Backend.SearchAllCounts | app.py:235-240 | when the search succeeds, each item's multiplicity in the result is its multiplicity in the input if it matches, 0 otherwise |
| Backend.EmptySearchKeepsAll | app.py:235 | an empty search keeps the list |
| Backend.PlainDescriptionsNeverRaise | app.py:238 | with text descriptions only, the search never raises |
| Backend.PyIndex | app.py:245 | a slice bound is clamped to [0,n], a negative one counted from the end |
| Backend.PySlice | app.py:245 | the slice is the part between the two normalised bounds, empty when they cross |
| Backend.PyFloorDiv | app.py:252 | the quotient rounds toward negative infinity |
| Backend.GetMaps | app.py:206-255 | a 500 iff the search raises or per_page is 0; otherwise total is the filtered length, the page is the slice, pages the floor division |
| Backend.PageIsWindow | app.py:243-245 | for page and per_page at least 1 the page holds the filtered items from (page-1)*per_page up to page*per_page |
| Backend.PageCountIsCeiling | app.py:252 | pages is the ceiling of total / per_page: enough pages for all items and no more, 0 iff nothing matched |
| Backend.OnePageHoldsAll | app.py:243-252 | when the matches fit in one page, page 1 is the whole list and the page count is 1 |
| Backend.PageRunIsPrefix | app.py:243-245 | the first k pages together are exactly the first k*per_page items |
| Backend.AllPagesCoverList | app.py:243-252 | pages 1 to `pages` together are the whole filtered list |
| Backend.PagePastEndIsEmpty | app.py:243-252 | a page number past `pages` gives an empty page |
| Backend.DefaultRequestListsAll | app.py:224-227 | the default query returns up to 100 items, all of them, on one page |
| Backend.CategoriesSelectModes | app.py:258-265 | the first offered value selects everything, the others select the items of that mode |
| Backend.GetMap | app.py:268-273 | over the built-in list: none iff no item has that string id; otherwise the first item with it |
| Backend.FirstWithId | app.py:289-291 | the first position whose `str(id)` equals the requested id, none iff there is none |
| Backend.ViewsIncremented | app.py:289-295 | exactly the first matching item gets one more view; nothing else changes |
| Backend.ViewIncrementAddsOne | app.py:289-298 | the total view count rises by one iff some id matches, otherwise stays |
| Backend.TotalViewsOneChanged | app.py:293 | changing one item's views changes the total by the same amount |
| Backend.NumericIdQuirk | app.py:270-291 | a data-file item with a numeric id is found, and its views raised by one, by the view increment through the id's decimal form, while the lookup over a built-in list without that string id answers none |
| Backend.IncrementView | app.py:276-308 | the array becomes the incremented list; the result is none (404) iff no id matches, otherwise the new view count |
| Backend.CategoryCountTotal | app.py:338-341 | the category counts add up to the number of maps |
| Backend.CategoryCountGet | app.py:338-341 | each category's count is the number of maps in it, and each category appears once |
| Backend.TechCountGet | app.py:331-335 | each technology's count is how often it is listed over all maps, and each appears once |
| Backend.TechCountIsMapsListing | app.py:331-335 | when no map lists a technology twice, its count is the number of maps listing it |
| Backend.AddAllGet | app.py:333-335 | counting a list adds its number of occurrences of each key |
| Backend.GetStats | app.py:311-350 | the totals are the list lengths and view sum; the two distributions are the counting folds |
| Backend.CountTechnologies | app.py:331-335 | the nested loop's counter equals the technology fold over all maps (each technology occurrence counted once, in first-seen order) |
| Backend.CountCategories | app.py:338-341 | the loop's counter equals the category fold over all maps |
| Backend.ValidateContact | app.py:365-374 | a 500 iff there is no JSON object; accepted iff every required field is truthy; otherwise the first missing field in the order name, email, subject, message |
| Backend.NameIsCheckedFirst | app.py:371-374 | an empty name is reported before any other field |
| PyCounter.GetIncrement | app.py:335 | incrementing a key adds one to its count and to no other |
| PyCounter.TotalIncrement | app.py:341 | each increment adds one to the total |
| PyCounter.KeysIncrement | app.py:341 | a known key keeps its place; a new key is appended, as dict insertion order does |
| PyCounter.DistinctIncrement | app.py:335 | incrementing keeps the keys distinct |
| PyCounter.GetPositiveMeansKey | app.py:335 | a key with a non-zero count is present |

## Left out

- Network and fetching: the initial data load, the API helpers and the
  contact-form submission on the client side are asynchronous I/O.
- File I/O and Flask plumbing: reading and writing the JSON data file,
  saving contact messages, `jsonify`, routes, status codes and error
  handlers. The data is an in-memory list; a `Result`/`Option` error stands
  for the 500 or 404 response.
- `int()` parsing of `page` and `per_page`: the model takes integers; a
  non-numeric parameter (a `ValueError`, then a 500) is not modelled.
- Missing keys in the back end's data file (`KeyError` on `mode`, `title`,
  `views`, `category`): the item record always holds them.
- The fallback branch of `get_stats`: any exception in the main branch
  (an unreadable data file, but also a missing key such as `rating` or
  `category` in one item) makes it report the built-in list's totals
  instead. The average rating, rounded to one decimal, is floating point
  and is left out with it.
- What happens to a valid contact form after validation (timestamp, file,
  log): I/O and the clock.
- Three.js scene building, render loops, resize handlers, the glow texture
  and the colour `lerp` toward white: foreign library calls and rendering.
- The decorative particle and earth animations, the screenshot and
  thumbnail scripts, and the DOM glue (scroll, navigation, GSAP, timers):
  they hold no rule of the gallery.
- JsText.Lower: lower-cases ASCII letters only; JavaScript's and Python's
  Unicode case mapping (accented capitals such as "É") is not modelled.
- GalleryFilter.AggregateIsRoundedMean: metric values are whole numbers; a
  fractional value in the data file is not modelled.
- Cube.BeamIffOffCentre: stated for whole-number axis values; the beam test
  compares the squared length with 0.000001 instead of the length with
  0.001, which is the same test without a square root.
- ImageViewer.Viewer.Next: required to have a non-empty list, because the
  buttons and key listener exist only when something is rendered.
- MapModal.KeyValueStore: an in-memory map; persistence across page loads
  and storage quotas are not modelled.
- Backend.GetMap: `get_map` searches the built-in `MAPS_DATA` list, while
  the other handlers read the data file; the model passes each handler its
  list as a parameter and does not hold the built-in list's contents.
- MapCard.Truncate, JsText: strings are sequences of Unicode code points,
  while JavaScript's `length` and `substring` count UTF-16 code units; for
  text with characters outside the Basic Multilingual Plane (emoji, for
  instance) the cut point and the length bound differ from the browser's.
- Backend.GetStats: `total_categories` is the length of the data file's
  category list, passed in as a list of names.
