/**
 * The values behind the viewer controller: the manifest, the selection state
 * with JavaScript's index arithmetic, the four display slots and the
 * highlighting of modality items. The controller class in module Viewer is
 * specified in terms of the functions here.
 */
module Selection {
  import opened Wrappers
  import opened SamplePaths

  /** Modality id -> ordered sample filenames, as parsed from the manifest. */
  type Manifest = map<string, seq<string>>

  /**
   * `currentIndex` as the script holds it: a number, or NaN once it has been
   * computed as `x % 0`.
   */
  datatype JsIndex = At(n: nat) | NaN

  /** `currentModality` is truthy: set, and not the empty string. */
  predicate Selected(current: Option<string>)
  {
    current.Some? && current.value != ""
  }

  /** The guard of the sample cycler: a modality is selected and the manifest has it. */
  predicate CanAdvance(samples: Manifest, current: Option<string>)
  {
    Selected(current) && current.value in samples
  }

  /** The guard of the renderer: as above, and the sequence is non-empty. */
  predicate CanShow(samples: Manifest, current: Option<string>)
  {
    CanAdvance(samples, current) && |samples[current.value]| > 0
  }

  /** The selection invariant: whenever a sample can be shown, the index points at one. */
  predicate IndexFits(samples: Manifest, current: Option<string>, index: JsIndex)
  {
    CanShow(samples, current) ==> index.At? && index.n < |samples[current.value]|
  }

  /** `(currentIndex + 1) % len` in JavaScript arithmetic. */
  function Advance(index: JsIndex, len: nat): (r: JsIndex)
    ensures len == 0 ==> r == NaN
    ensures index.At? && len > 0 ==> r.At? && r.n < len
    ensures index.At? && index.n + 1 < len ==> r == At(index.n + 1)
    ensures index.At? && index.n + 1 == len ==> r == At(0)
    ensures index == NaN ==> r == NaN
  {
    match index
    case NaN => NaN
    case At(i) => if len == 0 then NaN else At((i + 1) % len)
  }

  /** `k` successive advances. */
  function AdvanceTimes(index: JsIndex, len: nat, k: nat): JsIndex
  {
    if k == 0 then index else Advance(AdvanceTimes(index, len, k - 1), len)
  }

  /** Advances compose: `a` advances followed by `b` more are `a + b` advances. */
  lemma {:induction false} AdvanceTimesAdd(index: JsIndex, len: nat, a: nat, b: nat)
    ensures AdvanceTimes(AdvanceTimes(index, len, a), len, b) == AdvanceTimes(index, len, a + b)
  {
    if b > 0 {
      AdvanceTimesAdd(index, len, a, b - 1);
    }
  }

  /** Before it reaches the end of the sequence, each advance moves the index one step on. */
  lemma {:induction false} AdvanceTimesNoWrap(i: nat, len: nat, k: nat)
    requires i + k < len
    ensures AdvanceTimes(At(i), len, k) == At(i + k)
  {
    if k > 0 {
      AdvanceTimesNoWrap(i, len, k - 1);
    }
  }

  /** From position `i`, `len - i` advances wrap around to the first sample. */
  lemma WrapToFirst(i: nat, len: nat)
    requires i < len
    ensures AdvanceTimes(At(i), len, len - i) == At(0)
  {
    AdvanceTimesNoWrap(i, len, len - i - 1);
    assert AdvanceTimes(At(i), len, len - i) == Advance(At(len - 1), len);
  }

  /** Advancing as many times as there are samples returns to where it started. */
  lemma CycleReturns(i: nat, len: nat)
    requires i < len
    ensures AdvanceTimes(At(i), len, len) == At(i)
  {
    WrapToFirst(i, len);
    AdvanceTimesNoWrap(0, len, i);
    AdvanceTimesAdd(At(i), len, len - i, i);
  }

  /** The index sequence is periodic with period `len`. */
  lemma CyclePeriodic(i: nat, len: nat, k: nat)
    requires i < len
    ensures AdvanceTimes(At(i), len, len + k) == AdvanceTimes(At(i), len, k)
  {
    CycleReturns(i, len);
    AdvanceTimesAdd(At(i), len, len, k);
  }

  /** With an empty sequence the index becomes NaN and stays NaN. */
  lemma EmptyCycleIsNaN(index: JsIndex, k: nat)
    requires k > 0
    ensures AdvanceTimes(index, 0, k) == NaN
  {
  }

  /** `sampleFiles[currentIndex]`, interpolated into a template: a missing element reads "undefined". */
  function ElementOr(files: seq<string>, index: JsIndex): string
  {
    if index.At? && index.n < |files| then files[index.n] else "undefined"
  }

  /** The modality and filename a render shows. */
  datatype Sample = Sample(modality: string, filename: string)

  /** What the renderer shows in a given selection state, if anything. */
  function ToShow(samples: Manifest, current: Option<string>, index: JsIndex): (r: Option<Sample>)
    ensures r.Some? <==> CanShow(samples, current)
    ensures r.Some? ==> r.value.modality == current.value
    ensures r.Some? && IndexFits(samples, current, index) ==>
      r.value.filename == samples[current.value][index.n]
  {
    if CanShow(samples, current) then
      Some(Sample(current.value, ElementOr(samples[current.value], index)))
    else None
  }

  /** An empty manifest (a failed load) never shows anything. */
  lemma EmptyManifestShowsNothing(current: Option<string>, index: JsIndex)
    ensures ToShow(map[], current, index) == None
  {
  }

  // ---------------------------------------------------------------- slots

  /** The four display slots, in page order. */
  datatype Role = Signal | GroundTruth | Prediction | Baseline

  function RoleAt(k: nat): Role
    requires k < 4
  {
    if k == 0 then Signal else if k == 1 then GroundTruth else if k == 2 then Prediction else Baseline
  }

  function SlotIndex(role: Role): (k: nat)
    ensures k < 4 && RoleAt(k) == role
  {
    match role
    case Signal => 0
    case GroundTruth => 1
    case Prediction => 2
    case Baseline => 3
  }

  /** The image directory each slot reads from. */
  function RoleCategory(role: Role): Category
  {
    match role
    case Signal => Signals
    case GroundTruth => PosesUniversalPose
    case Prediction => PosesUniversalPose
    case Baseline => PosesBaseline
  }

  const NotAvailable: string := "Image not available"

  /**
   * One slot: the image's `src`, whether it has class `visible`, whether its
   * placeholder has class `hidden`, the placeholder's text, and whether an
   * `onerror` handler is installed on the image.
   */
  datatype Slot = Slot(src: string, visible: bool, placeholderHidden: bool, placeholderText: string, onError: bool)

  const Blank: Slot := Slot("", false, false, "", false)

  /** A slot after the renderer has assigned `path` to it and installed its handler. */
  function RenderSlot(s: Slot, path: string): Slot
  {
    s.(src := path, visible := true, placeholderHidden := true, onError := true)
  }

  /** The four slots after a render of `shown`; nothing changes when nothing is shown. */
  function Rendered(slots: seq<Slot>, shown: Option<Sample>): (r: seq<Slot>)
    requires |slots| == 4
    ensures |r| == 4
  {
    match shown
    case None => slots
    case Some(s) =>
      seq(4, k requires 0 <= k < 4 =>
        RenderSlot(slots[k], SamplePath(s.modality, RoleCategory(RoleAt(k)), s.filename)))
  }

  /** The `onerror` handler of one slot: without an installed handler a failed load changes nothing. */
  function FailSlot(s: Slot): Slot
  {
    if s.onError then s.(visible := false, placeholderHidden := false, placeholderText := NotAvailable) else s
  }

  /** The four slots after the image of `role` failed to load. */
  function Failed(slots: seq<Slot>, role: Role): (r: seq<Slot>)
    requires |slots| == 4
    ensures |r| == 4
  {
    slots[SlotIndex(role) := FailSlot(slots[SlotIndex(role)])]
  }

  /**
   * A render of sample `f` of modality `m` shows all four images with their
   * placeholders hidden, at the four template paths; ground truth and
   * prediction read the same file. Placeholder texts are left as they were.
   */
  lemma RenderedPaths(slots: seq<Slot>, m: string, f: string)
    requires |slots| == 4
    ensures var r := Rendered(slots, Some(Sample(m, f)));
      && r[0].src == "data/samples/" + m + "/signals/" + f
      && r[1].src == "data/samples/" + m + "/poses-universalpose/" + f
      && r[2].src == "data/samples/" + m + "/poses-universalpose/" + f
      && r[3].src == "data/samples/" + m + "/poses-baseline/" + f
      && forall k :: 0 <= k < 4 ==>
           r[k].visible && r[k].placeholderHidden && r[k].onError
           && r[k].placeholderText == slots[k].placeholderText
  {
    var r := Rendered(slots, Some(Sample(m, f)));
    assert r[0].src == Root + m + "/" + "signals" + "/" + f;
    assert r[1].src == Root + m + "/" + "poses-universalpose" + "/" + f;
    assert r[2].src == Root + m + "/" + "poses-universalpose" + "/" + f;
    assert r[3].src == Root + m + "/" + "poses-baseline" + "/" + f;
  }

  /** Rendering the same sample twice gives what rendering it once gives. */
  lemma RenderIdempotent(slots: seq<Slot>, shown: Option<Sample>)
    requires |slots| == 4
    ensures Rendered(Rendered(slots, shown), shown) == Rendered(slots, shown)
  {
  }

  /**
   * A failed load turns only its own slot into the placeholder
   * "Image not available"; the other three slots are untouched.
   */
  lemma FailOnlyTouchesItsSlot(slots: seq<Slot>, role: Role)
    requires |slots| == 4
    ensures var r := Failed(slots, role);
      && (forall k :: 0 <= k < 4 && k != SlotIndex(role) ==> r[k] == slots[k])
      && (slots[SlotIndex(role)].onError ==>
            var s := r[SlotIndex(role)];
            !s.visible && !s.placeholderHidden && s.placeholderText == NotAvailable
            && s.src == slots[SlotIndex(role)].src && s.onError)
      && (!slots[SlotIndex(role)].onError ==> r == slots)
  {
  }

  /** After any render, a failed load does show the placeholder, and a later render hides it again. */
  lemma FailAfterRender(slots: seq<Slot>, s: Sample, role: Role)
    requires |slots| == 4
    ensures var f := Failed(Rendered(slots, Some(s)), role)[SlotIndex(role)];
      !f.visible && !f.placeholderHidden && f.placeholderText == NotAvailable
    ensures var again := Rendered(Failed(Rendered(slots, Some(s)), role), Some(s));
      again[SlotIndex(role)].visible && again[SlotIndex(role)].placeholderHidden
      && again[SlotIndex(role)].src == Rendered(slots, Some(s))[SlotIndex(role)].src
  {
  }

  // ------------------------------------------------------ modality items

  /** The first modality item (in document order) whose id is `m`. */
  function FirstIndexOf(items: seq<string>, m: string): (r: Option<nat>)
    ensures r.None? <==> m !in items
    ensures r.Some? ==>
      (r.value < |items| && items[r.value] == m && forall j :: 0 <= j < r.value ==> items[j] != m)
  {
    if |items| == 0 then None
    else if items[0] == m then Some(0)
    else
      match FirstIndexOf(items[1..], m)
      case None => None
      case Some(i) => Some(i + 1)
  }

  /** The `active` flags of the modality items after selecting `m`. */
  function ActiveItems(items: seq<string>, m: string): seq<bool>
  {
    seq(|items|, i requires 0 <= i < |items| => FirstIndexOf(items, m) == Some(i))
  }

  /**
   * After selecting `m`, at most one modality item is active; one is exactly
   * when some item carries `m`, and that item carries `m`.
   */
  lemma ActiveItemsExclusive(items: seq<string>, m: string)
    ensures var a := ActiveItems(items, m);
      && |a| == |items|
      && (forall i, j :: 0 <= i < |a| && 0 <= j < |a| && a[i] && a[j] ==> i == j)
      && (forall i :: 0 <= i < |a| && a[i] ==> items[i] == m)
      && ((exists i :: 0 <= i < |a| && a[i]) <==> m in items)
  {
    var a := ActiveItems(items, m);
    forall i | 0 <= i < |a| && a[i]
      ensures items[i] == m
    {
      assert FirstIndexOf(items, m) == Some(i);
    }
    if m in items {
      var k := FirstIndexOf(items, m).value;
      assert a[k];
    }
  }

  /** Selecting a modality that some item carries leaves exactly that item active. */
  lemma SelectedItemIsSole(items: seq<string>, b: string)
    requires b in items
    ensures var act := ActiveItems(items, b);
      exists i :: 0 <= i < |act| && act[i] && items[i] == b
        && forall j :: 0 <= j < |act| && j != i ==> !act[j]
  {
    var k := FirstIndexOf(items, b).value;
    assert ActiveItems(items, b)[k];
  }
}
