# UniversalPose viewer controller, modelled in Dafny

The showcase page of the UniversalPose project lets a visitor pick a sensing
modality (WiFi-CSI, mmWave, LiDAR, depth, acoustic, multi-receiver WiFi-CSI),
shows four images of one sample of it (raw signal, ground truth, the UniversalPose
prediction, the baseline prediction) and steps through the samples listed in a
manifest. A scroll handler highlights the navigation entry of the section in view.

This project models the page controller `js/main.js` without its DOM and network
plumbing:

- `Labels` — the two fixed label tables and their `table[id] || fallback` lookups.
- `SamplePaths` — the image path template `data/samples/<modality>/<category>/<filename>`
  and a parser that inverts it.
- `Selection` — the values behind the controller: the manifest, the selection state
  with JavaScript's index arithmetic (`% 0` gives NaN), the guards of the renderer
  and the cycler, the four display slots, their render and image-failure
  transitions, and the `active` flags of the modality items.
- `ScrollNav` — the scroll highlighter: which sections match an offset, the last
  match in document order, and the navigation flags after one pass.
- `Viewer` — class `Controller`: the closure state (`samples`, `currentModality`,
  `currentIndex`), the labels and the next-sample control, the modality items, the
  four slots (an array of 4 records) and the navigation items, with one method per
  handler. Each method's contract ties the new state to the functions above; the
  invariant `Valid()` says the index points at a sample whenever one can be shown.
- `Scenarios` — client walk-throughs proved from the controller's contracts alone
  (the lidar manifest with samples `a.png`, `b.png`; a failed manifest load; scrolling).

JavaScript details that the model keeps: an empty modality id is falsy, so it
neither passes the click guard nor the render guard; an empty sample list is
truthy, so the cycler does run on it and computes `(i + 1) % 0`, which is NaN
(`JsIndex.NaN`); the label lookups fall back on an absent key and also on an
empty value; a slot whose `onerror` handler has not been installed by a render
ignores a failed load; a render re-shows a slot but leaves the placeholder's text
as the last failure set it.

Two behaviours of the code are kept as written: the cycler is not a no-op on an
empty sample list (it sets the index to NaN; the render that follows is a no-op),
and when several sections match a scroll offset the last one in document order
decides (the code does not rely on sections being disjoint). A selection that
cannot be shown (an id the manifest lacks, or an empty list) does not revert the
slots to placeholders: the previous modality's images stay as they were.

Environment inputs become parameters: the fetched manifest (or its failure) is the
argument of `LoadSamples`; the data attributes of the modality items and the
`href`s of the navigation items are constructor arguments; section geometry and
`window.scrollY` are integer arguments of `UpdateNavOnScroll`; a failed image load
is the call `ImageFailed(role)`.

## Model

| member | source | states |
|---|---|---|
| Labels.DisplayName | js/main.js:62-70 | the modality label is the table's name for a known id and the raw id otherwise; never empty for a non-empty id |
| Labels.BaselineName | js/main.js:71 | the baseline heading is the table's name (lines 8-15) for a known id and "Expert Baseline" otherwise; never empty |
| SamplePaths.SamplePath | js/main.js:92-95 | the image path `data/samples/<modality>/<category>/<filename>`; its partner is the parser below |
| SamplePaths.ParsePath | js/main.js:92-95 | whatever the parser accepts is a template path of the modality, category and filename it returns |
| SamplePaths.ParseSamplePath | js/main.js:92-95 | every template path parses back to its modality, category and filename (for a modality id without `/`) |
| SamplePaths.SamplePathInjective | js/main.js:92-95 | two images share a path only if they agree on modality, category and filename (for modality ids without `/`) |
| Selection.Advance | js/main.js:146 | the next index stays in `[0, len)`, moves one step, wraps from the last sample to the first, and is NaN for an empty list |
| Selection.AdvanceTimesNoWrap | js/main.js:146 | before the end of the list, `k` advances move the index `k` steps |
| Selection.WrapToFirst | js/main.js:146 | from position `i`, `len - i` advances land on the first sample |
| Selection.CycleReturns | js/main.js:146 | `len` advances return the index to where it started |
| Selection.CyclePeriodic | js/main.js:146 | the index sequence repeats with period `len` |
| Selection.EmptyCycleIsNaN | js/main.js:146 | on an empty list every advance yields NaN |
| Selection.CanAdvance | js/main.js:141-143 | the cycler runs only when a non-empty modality id is selected and the manifest has it |
| Selection.CanShow | js/main.js:80-87 | the renderer runs only when, in addition, that modality's list is non-empty |
| Selection.ToShow | js/main.js:79-89 | a sample is shown exactly when a non-empty modality is selected, the manifest has it and its list is non-empty; it is that modality's file at the current index |
| Selection.EmptyManifestShowsNothing | js/main.js:80-82 | with the manifest a failed load leaves (empty), no selection shows anything |
| Selection.RenderSlot | js/main.js:97-114 | one slot after a render: the new `src`, image visible, placeholder hidden, handler installed |
| Selection.Rendered | js/main.js:97-114 | the four slots after a render of the sample shown, each at its role's path; unchanged when nothing is shown |
| Selection.FailSlot | js/main.js:117-136 | one slot's `onerror` handler: image hidden, placeholder shown with "Image not available"; no change without a handler |
| Selection.Failed | js/main.js:117-136 | the four slots after one slot's image failed to load |
| Selection.RenderedPaths | js/main.js:89-114 | a render shows all four slots with placeholders hidden at `data/samples/m/signals/f`, `.../poses-universalpose/f` (twice) and `.../poses-baseline/f`, and installs every handler |
| Selection.RenderIdempotent | js/main.js:97-114 | rendering the same state twice gives the same slots as rendering once |
| Selection.FailOnlyTouchesItsSlot | js/main.js:117-136 | a failed load hides only its own image and shows its placeholder with "Image not available"; the other slots are untouched; without a handler nothing changes |
| Selection.FailAfterRender | js/main.js:97-136 | after any render a failure shows the placeholder, and the next render shows the image again at the same path |
| Selection.FirstIndexOf | js/main.js:52 | the item found is the first one carrying the id, and none is found exactly when no item carries it |
| Selection.ActiveItems | js/main.js:51-55 | the modality items' `active` flags after clearing all and activating the first item carrying the id |
| Selection.ActiveItemsExclusive | js/main.js:51-55 | after selecting `m` at most one item is active, it carries `m`, and one is active exactly when some item carries `m` |
| Selection.SelectedItemIsSole | js/main.js:51-55 | after selecting an id some item carries, exactly one item is active and it carries that id; the flags do not depend on what was active before |
| ScrollNav.Matches | js/main.js:153-160 | a section matches when `top <= scrollY + 100 < top + height` |
| ScrollNav.Highlight | js/main.js:161-166 | the navigation flags after clearing every item and activating those whose href is `#id` |
| ScrollNav.NavAfterScroll | js/main.js:155-168 | the navigation flags after the pass over the sections in document order |
| ScrollNav.LastMatch | js/main.js:155-160 | the index returned is a matching section after which none matches; none is returned exactly when no section matches |
| ScrollNav.LastMatchWins | js/main.js:155-168 | one pass over the sections leaves the flags unchanged without a match and otherwise equals highlighting the last matching section |
| ScrollNav.ActiveExactlyLinked | js/main.js:161-166 | after a match, an item is active exactly when its href is `#` followed by the winning section's id |
| ScrollNav.NoMatchUnchanged | js/main.js:155-168 | when no section contains the offset, the navigation flags stay as they were |
| ScrollNav.TopBoundaryHighlights | js/main.js:160 | an offset plus look-ahead exactly on a section's top highlights it unless a later section matches |
| ScrollNav.BottomBoundaryExcluded | js/main.js:160 | an offset at or past a section's bottom does not match it, and a later matching section takes the highlight |
| Viewer.Controller.constructor | js/main.js:5-7 | the manifest starts empty, nothing is selected and the index is 0 |
| Viewer.Controller.LoadSamples | js/main.js:38-46 | success replaces the manifest, failure leaves it; the selection state is untouched |
| Viewer.Controller.ShowCurrentSample | js/main.js:79-137 | the slots become the render of the current sample, and stay as they were when the guard fails |
| Viewer.Controller.SelectModality | js/main.js:49-76 | the modality is set and the index reset to 0 whatever the previous state; only its first item is active; labels with fallback; next enabled; the first sample rendered |
| Viewer.Controller.ClickModality | js/main.js:172-180 | an empty id changes nothing; any other id behaves as the selection |
| Viewer.Controller.NextSample | js/main.js:140-148 | without a selected, present modality nothing changes; otherwise the index advances modulo the list length and the new sample is rendered; the invariant keeps the index in range |
| Viewer.Controller.ImageFailed | js/main.js:117-136 | the slots become the failure transition of one slot; nothing else changes |
| Viewer.Controller.UpdateNavOnScroll | js/main.js:151-169 | the navigation flags become the result of the pass over the sections in document order |

## Left out

- Fetching and parsing the manifest (`fetch`, `response.json()`), and the two console messages: the outcome is the argument of `LoadSamples`, which runs once.
- The manifest as arbitrary JSON: each value is taken to be a list of strings.
- Property lookups that reach `Object.prototype` (an id such as `constructor` or `toString` finds an inherited value in the manifest and in the label tables): the tables are modelled as plain maps.
- DOM queries: `document.querySelector` is taken to find the first modality item carrying the id; other elements with a `data-modality` attribute, and ids that would break the CSS selector, are not modelled.
- The page's initial markup: labels, placeholder texts and `active` classes start blank or cleared; the next control starts disabled; each image starts hidden with its placeholder shown and no `onerror` handler.
- Layout values: section offsets, heights and `window.scrollY` are integers (a fractional scroll offset is not modelled).
- Asynchronous image loading: a failed load is an explicit `ImageFailed` call, and the model does not distinguish a late failure of a superseded source.
- Registration of the event listeners and the startup calls (lines 172-187); the click guard of line 176 is `ClickModality`. The browser's refusal to deliver clicks to the disabled next control is not modelled; the invariant `Valid()` shows that while it is disabled nothing is selected, so `NextSample` would change nothing anyway.
- The `baseline` argument of `selectModality`, which is never read.
- SamplePaths.ParseSamplePath: stated for modality ids without `/`; with a slash in the id two different samples can share an image path.
