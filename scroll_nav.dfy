/**
 * The scroll-linked navigation highlighter as values: which sections match a
 * scroll offset, and the `active` flags of the navigation items after one
 * pass over the sections in document order.
 */
module ScrollNav {
  import opened Wrappers

  /** A page section with an id: its layout offset, its height and the id. */
  datatype Section = Section(top: int, height: int, id: string)

  /** The look-ahead added to the scroll offset before testing sections. */
  const LookAhead: int := 100

  /** The section's range contains the scroll offset plus the look-ahead. */
  predicate Matches(s: Section, scrollY: int)
  {
    s.top <= scrollY + LookAhead < s.top + s.height
  }

  /** The anchor a navigation item must link to for section `id`. */
  function Anchor(id: string): string
  {
    "#" + id
  }

  /** Flags after clearing every item and activating the ones linking to `id`. */
  function Highlight(hrefs: seq<string>, id: string): (r: seq<bool>)
    ensures |r| == |hrefs|
  {
    seq(|hrefs|, i requires 0 <= i < |hrefs| => hrefs[i] == Anchor(id))
  }

  /** The flags after the loop has visited `sections` in order, starting from `active`. */
  function NavAfterScroll(hrefs: seq<string>, active: seq<bool>, sections: seq<Section>, scrollY: int): seq<bool>
  {
    if |sections| == 0 then active
    else
      var before := NavAfterScroll(hrefs, active, sections[..|sections| - 1], scrollY);
      if Matches(sections[|sections| - 1], scrollY) then Highlight(hrefs, sections[|sections| - 1].id)
      else before
  }

  /** The last section in document order that matches, if any. */
  function LastMatch(sections: seq<Section>, scrollY: int): (r: Option<nat>)
    ensures r.None? <==> forall k :: 0 <= k < |sections| ==> !Matches(sections[k], scrollY)
    ensures r.Some? ==>
      (r.value < |sections| && Matches(sections[r.value], scrollY)
       && forall k :: r.value < k < |sections| ==> !Matches(sections[k], scrollY))
  {
    if |sections| == 0 then None
    else if Matches(sections[|sections| - 1], scrollY) then Some(|sections| - 1)
    else
      var r := LastMatch(sections[..|sections| - 1], scrollY);
      assert forall k :: 0 <= k < |sections| - 1 ==> sections[..|sections| - 1][k] == sections[k];
      r
  }

  /**
   * The pass over the sections leaves the flags unchanged when no section
   * matches; otherwise the last matching section wins and the active items
   * are exactly those linking to its id.
   */
  lemma {:induction false} LastMatchWins(hrefs: seq<string>, active: seq<bool>, sections: seq<Section>, scrollY: int)
    ensures NavAfterScroll(hrefs, active, sections, scrollY) ==
      match LastMatch(sections, scrollY)
      case None => active
      case Some(k) => Highlight(hrefs, sections[k].id)
  {
    if |sections| > 0 && !Matches(sections[|sections| - 1], scrollY) {
      var init := sections[..|sections| - 1];
      LastMatchWins(hrefs, active, init, scrollY);
      match LastMatch(init, scrollY)
      case None =>
      case Some(k) => assert init[k] == sections[k];
    }
  }

  /** After a match, an item is active exactly when it links to the winning section. */
  lemma ActiveExactlyLinked(hrefs: seq<string>, active: seq<bool>, sections: seq<Section>, scrollY: int)
    requires LastMatch(sections, scrollY).Some?
    ensures var r := NavAfterScroll(hrefs, active, sections, scrollY);
      && |r| == |hrefs|
      && forall i :: 0 <= i < |hrefs| ==>
           (r[i] <==> hrefs[i] == "#" + sections[LastMatch(sections, scrollY).value].id)
  {
    LastMatchWins(hrefs, active, sections, scrollY);
    var id := sections[LastMatch(sections, scrollY).value].id;
    var h := Highlight(hrefs, id);
    forall i | 0 <= i < |hrefs|
      ensures h[i] <==> hrefs[i] == "#" + id
    {
      assert h[i] == (hrefs[i] == Anchor(id));
    }
  }

  /** No matching section: the highlighting is left exactly as it was. */
  lemma {:induction false} NoMatchUnchanged(hrefs: seq<string>, active: seq<bool>, sections: seq<Section>, scrollY: int)
    requires forall k :: 0 <= k < |sections| ==> !Matches(sections[k], scrollY)
    ensures NavAfterScroll(hrefs, active, sections, scrollY) == active
  {
    LastMatchWins(hrefs, active, sections, scrollY);
  }

  /**
   * A scroll offset whose look-ahead sits exactly on a section's top boundary
   * highlights that section, unless a later section also matches.
   */
  lemma {:induction false} TopBoundaryHighlights(hrefs: seq<string>, active: seq<bool>, sections: seq<Section>, scrollY: int, k: nat)
    requires k < |sections| && sections[k].height > 0
    requires scrollY + LookAhead == sections[k].top
    requires forall j :: k < j < |sections| ==> !Matches(sections[j], scrollY)
    ensures NavAfterScroll(hrefs, active, sections, scrollY) == Highlight(hrefs, sections[k].id)
  {
    LastMatchWins(hrefs, active, sections, scrollY);
    assert LastMatch(sections, scrollY) == Some(k);
  }

  /**
   * A look-ahead at or past a section's bottom boundary does not match it, so
   * when a later section's range has started the later one is highlighted.
   */
  lemma {:induction false} BottomBoundaryExcluded(hrefs: seq<string>, active: seq<bool>, sections: seq<Section>, scrollY: int, k: nat, j: nat)
    requires k < j < |sections|
    requires scrollY + LookAhead >= sections[k].top + sections[k].height
    requires Matches(sections[j], scrollY)
    ensures !Matches(sections[k], scrollY)
    ensures LastMatch(sections, scrollY).Some? && LastMatch(sections, scrollY).value >= j
    ensures NavAfterScroll(hrefs, active, sections, scrollY) ==
      Highlight(hrefs, sections[LastMatch(sections, scrollY).value].id)
  {
    LastMatchWins(hrefs, active, sections, scrollY);
  }
}
