/**
 * The page controller: the selection state the script keeps in closure
 * variables, the four display slots, the `active` flags of the modality items
 * and of the navigation items, and the handlers that update them.
 */
module Viewer {
  import opened Wrappers
  import opened Labels
  import opened SamplePaths
  import opened Selection
  import opened ScrollNav

  class Controller {
    // selection state
    var samples: Manifest
    var currentModality: Option<string>
    var currentIndex: JsIndex
    /** Whether the one manifest load has finished; bookkeeping of the model, not a variable of the script. */
    ghost var loaded: bool

    // page text and controls written by the controller
    var modalityLabel: string
    var baselineLabel: string
    var nextEnabled: bool

    /** `data-modality` of each modality item, in document order, and their `active` flags. */
    const modalityItems: seq<string>
    const itemActive: array<bool>

    /** Signal, ground truth, prediction and baseline slots. */
    const slots: array<Slot>

    /** `href` of each navigation item (a missing attribute as a string that is no anchor) and their `active` flags. */
    const navHrefs: seq<string>
    const navActive: array<bool>

    ghost predicate Valid()
      reads this
    {
      && slots.Length == 4
      && itemActive.Length == |modalityItems|
      && navActive.Length == |navHrefs|
      && itemActive != navActive
      // the manifest starts empty and the index can only have moved once it is loaded
      && (!loaded ==> samples == map[] && currentIndex == At(0))
      // the next control stays disabled until the first selection
      && (!nextEnabled ==> currentModality == None)
      && IndexFits(samples, currentModality, currentIndex)
    }

    constructor (items: seq<string>, hrefs: seq<string>)
      ensures Valid()
      ensures fresh(itemActive) && fresh(slots) && fresh(navActive)
      ensures modalityItems == items && navHrefs == hrefs
      ensures samples == map[] && currentModality == None && currentIndex == At(0)
      ensures !loaded && !nextEnabled
      ensures itemActive[..] == seq(|items|, _ => false)
      ensures navActive[..] == seq(|hrefs|, _ => false)
      ensures slots[..] == [Blank, Blank, Blank, Blank]
    {
      samples := map[];
      currentModality := None;
      currentIndex := At(0);
      loaded := false;
      modalityLabel := "";
      baselineLabel := "";
      nextEnabled := false;
      modalityItems := items;
      navHrefs := hrefs;
      itemActive := new bool[|items|](_ => false);
      navActive := new bool[|hrefs|](_ => false);
      slots := new Slot[4](_ => Blank);
      new;
      assert slots[..] == [Blank, Blank, Blank, Blank];
    }

    /**
     * The one manifest load: `fetched` is the parsed manifest, or None when
     * the request or the parse failed, which leaves the manifest empty.
     */
    method LoadSamples(fetched: Option<Manifest>)
      requires Valid() && !loaded
      modifies this
      ensures Valid() && loaded
      ensures samples == if fetched.Some? then fetched.value else old(samples)
      ensures currentModality == old(currentModality) && currentIndex == old(currentIndex)
      ensures modalityLabel == old(modalityLabel) && baselineLabel == old(baselineLabel)
      ensures nextEnabled == old(nextEnabled)
    {
      if fetched.Some? {
        samples := fetched.value;
      }
      loaded := true;
    }

    /** Renders the current sample into the four slots, or does nothing when none can be shown. */
    method ShowCurrentSample()
      requires Valid()
      modifies slots
      ensures Valid()
      ensures slots[..] == Rendered(old(slots[..]), ToShow(samples, currentModality, currentIndex))
      ensures !CanShow(samples, currentModality) ==> slots[..] == old(slots[..])
    {
      if !Selected(currentModality) || currentModality.value !in samples {
        return;
      }
      var modality := currentModality.value;
      var sampleFiles := samples[modality];
      if |sampleFiles| == 0 {
        return;
      }
      var filename := ElementOr(sampleFiles, currentIndex);

      var signalPath := SamplePath(modality, Signals, filename);
      var gtPath := SamplePath(modality, PosesUniversalPose, filename);
      var universalposePath := SamplePath(modality, PosesUniversalPose, filename);
      var baselinePath := SamplePath(modality, PosesBaseline, filename);

      slots[0] := slots[0].(src := signalPath, visible := true, placeholderHidden := true);
      slots[1] := slots[1].(src := gtPath, visible := true, placeholderHidden := true);
      slots[2] := slots[2].(src := universalposePath, visible := true, placeholderHidden := true);
      slots[3] := slots[3].(src := baselinePath, visible := true, placeholderHidden := true);

      slots[0] := slots[0].(onError := true);
      slots[1] := slots[1].(onError := true);
      slots[2] := slots[2].(onError := true);
      slots[3] := slots[3].(onError := true);

      assert slots[..] == Rendered(old(slots[..]), Some(Sample(modality, filename)));
    }

    /**
     * Selects `modality`: only its first item is active, the index restarts
     * at 0, the labels are updated, the next control is enabled and the first
     * sample is rendered.
     */
    method SelectModality(modality: string)
      requires Valid()
      modifies this, itemActive, slots
      ensures Valid()
      ensures currentModality == Some(modality) && currentIndex == At(0)
      ensures samples == old(samples) && loaded == old(loaded)
      ensures modalityLabel == DisplayName(modality) && baselineLabel == BaselineName(modality)
      ensures nextEnabled
      ensures itemActive[..] == ActiveItems(modalityItems, modality)
      ensures slots[..] == Rendered(old(slots[..]), ToShow(samples, Some(modality), At(0)))
    {
      var i := 0;
      while i < itemActive.Length
        invariant 0 <= i <= itemActive.Length
        invariant forall k :: 0 <= k < i ==> !itemActive[k]
        modifies itemActive
      {
        itemActive[i] := false;
        i := i + 1;
      }
      var selected := FirstIndexOf(modalityItems, modality);
      if selected.Some? {
        itemActive[selected.value] := true;
      }
      assert itemActive[..] == ActiveItems(modalityItems, modality);

      currentModality := Some(modality);
      currentIndex := At(0);

      modalityLabel := DisplayName(modality);
      baselineLabel := BaselineName(modality);
      nextEnabled := true;

      ShowCurrentSample();
    }

    /** A click on a modality item: an empty id selects nothing. */
    method ClickModality(modality: string)
      requires Valid()
      modifies this, itemActive, slots
      ensures Valid()
      ensures samples == old(samples) && loaded == old(loaded)
      ensures modality == "" ==>
        && currentModality == old(currentModality) && currentIndex == old(currentIndex)
        && modalityLabel == old(modalityLabel) && baselineLabel == old(baselineLabel)
        && nextEnabled == old(nextEnabled)
        && itemActive[..] == old(itemActive[..]) && slots[..] == old(slots[..])
      ensures modality != "" ==>
        && currentModality == Some(modality) && currentIndex == At(0)
        && modalityLabel == DisplayName(modality) && baselineLabel == BaselineName(modality)
        && nextEnabled
        && itemActive[..] == ActiveItems(modalityItems, modality)
        && slots[..] == Rendered(old(slots[..]), ToShow(samples, Some(modality), At(0)))
    {
      if modality != "" {
        SelectModality(modality);
      }
    }

    /** Moves to the next sample of the current modality, wrapping around, and renders it. */
    method NextSample()
      requires Valid()
      modifies this, slots
      ensures Valid()
      ensures samples == old(samples) && loaded == old(loaded) && currentModality == old(currentModality)
      ensures modalityLabel == old(modalityLabel) && baselineLabel == old(baselineLabel)
      ensures nextEnabled == old(nextEnabled)
      ensures CanAdvance(samples, currentModality) ==>
        && currentIndex == Advance(old(currentIndex), |samples[currentModality.value]|)
        && slots[..] == Rendered(old(slots[..]), ToShow(samples, currentModality, currentIndex))
      ensures !CanAdvance(samples, currentModality) ==>
        currentIndex == old(currentIndex) && slots[..] == old(slots[..])
    {
      if !Selected(currentModality) || currentModality.value !in samples {
        return;
      }
      var sampleFiles := samples[currentModality.value];
      currentIndex := Advance(currentIndex, |sampleFiles|);
      ShowCurrentSample();
    }

    /** The `onerror` handler of the image in slot `role`. */
    method ImageFailed(role: Role)
      requires Valid()
      modifies slots
      ensures Valid()
      ensures slots[..] == Failed(old(slots[..]), role)
    {
      var k := SlotIndex(role);
      if slots[k].onError {
        slots[k] := slots[k].(visible := false);
        slots[k] := slots[k].(placeholderHidden := false);
        slots[k] := slots[k].(placeholderText := NotAvailable);
      }
    }

    /**
     * The scroll handler: for each section (in document order) whose range
     * holds `scrollY` plus the look-ahead, clears every navigation item and
     * activates those linking to that section.
     */
    method UpdateNavOnScroll(sections: seq<Section>, scrollY: int)
      requires Valid()
      modifies navActive
      ensures Valid()
      ensures navActive[..] == NavAfterScroll(navHrefs, old(navActive[..]), sections, scrollY)
    {
      var scrollPosition := scrollY + LookAhead;
      var i := 0;
      while i < |sections|
        invariant 0 <= i <= |sections|
        invariant navActive[..] == NavAfterScroll(navHrefs, old(navActive[..]), sections[..i], scrollY)
      {
        var section := sections[i];
        if scrollPosition >= section.top && scrollPosition < section.top + section.height {
          var j := 0;
          while j < navActive.Length
            invariant 0 <= j <= navActive.Length
            invariant forall k :: 0 <= k < j ==> navActive[k] == (navHrefs[k] == Anchor(section.id))
          {
            navActive[j] := false;
            if navHrefs[j] == Anchor(section.id) {
              navActive[j] := true;
            }
            j := j + 1;
          }
          assert navActive[..] == Highlight(navHrefs, section.id);
        }
        assert sections[..i + 1][..i] == sections[..i];
        i := i + 1;
      }
      assert sections[..|sections|] == sections;
    }
  }
}
