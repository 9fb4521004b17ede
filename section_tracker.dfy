/** The section scan of `handleScroll` in the `App` component: which of the
    journey's sections holds the centre of the scroll container's viewport. */
module SectionTracker {

  /** One `<section>` of the journey container, as the scan reads it:
      its `offsetTop` and its `clientHeight` (never negative). */
  datatype Span = Span(top: int, height: nat)

  /** The span test of the scan: the viewport centre `scrollTop + vh/2` lies in
      `[top, top + height)`. Both sides are doubled so that `vh/2` stays exact. */
  predicate InSpan(s: Span, scrollTop: int, vh: nat) {
    2 * scrollTop >= 2 * s.top - vh && 2 * scrollTop < 2 * (s.top + s.height) - vh
  }

  /** No section passes the span test. */
  predicate NoMatch(layout: seq<Span>, scrollTop: int, vh: nat) {
    forall i :: 0 <= i < |layout| ==> !InSpan(layout[i], scrollTop, vh)
  }

  /** Reference definition of the scan's result: 0 when nothing matches,
      otherwise the largest index whose span matches. */
  ghost predicate IsLastMatch(layout: seq<Span>, scrollTop: int, vh: nat, r: nat) {
    if NoMatch(layout, scrollTop, vh) then r == 0
    else
      r < |layout| && InSpan(layout[r], scrollTop, vh) &&
      forall j :: r < j < |layout| ==> !InSpan(layout[j], scrollTop, vh)
  }

  /** The index the scan publishes: start from 0 and let every match overwrite
      it, so the last match wins. */
  function SectionIndex(layout: seq<Span>, scrollTop: int, vh: nat): (r: nat)
    ensures |layout| == 0 ==> r == 0
    ensures |layout| > 0 ==> r < |layout|
    ensures r > 0 ==> r < |layout| && InSpan(layout[r], scrollTop, vh)
    ensures forall j :: r < j < |layout| ==> !InSpan(layout[j], scrollTop, vh)
  {
    if |layout| == 0 then 0
    else if InSpan(layout[|layout| - 1], scrollTop, vh) then |layout| - 1
    else SectionIndex(layout[..|layout| - 1], scrollTop, vh)
  }

  /** The scan meets its reference definition, and nothing else does. */
  lemma SectionIndexIsLastMatch(layout: seq<Span>, scrollTop: int, vh: nat, r: nat)
    ensures IsLastMatch(layout, scrollTop, vh, r) <==> r == SectionIndex(layout, scrollTop, vh)
  {
  }

  /** When nothing matches, including when there are no sections, the result is 0. */
  lemma NoMatchGivesZero(layout: seq<Span>, scrollTop: int, vh: nat)
    ensures NoMatch(layout, scrollTop, vh) ==> SectionIndex(layout, scrollTop, vh) == 0
  {
  }

  /** The `forEach` of the scan: walk the sections in order and let each match
      overwrite the running index. */
  method ScanSections(layout: seq<Span>, scrollTop: int, vh: nat) returns (newSection: nat)
    ensures newSection == SectionIndex(layout, scrollTop, vh)
  {
    newSection := 0;
    for i := 0 to |layout|
      invariant newSection == SectionIndex(layout[..i], scrollTop, vh)
    {
      assert layout[..i + 1][..i] == layout[..i];
      if InSpan(layout[i], scrollTop, vh) {
        newSection := i;
      }
    }
    assert layout[..|layout|] == layout;
  }

  /** Sections stacked one after another with no gap and no overlap, as the
      journey container lays them out. */
  ghost predicate Contiguous(layout: seq<Span>) {
    forall i :: 0 < i < |layout| ==> layout[i].top == layout[i - 1].top + layout[i - 1].height
  }

  /** In a contiguous layout every later section starts at or after the end of an earlier one. */
  lemma {:induction false} LaterSectionsStartAfter(layout: seq<Span>, i: nat, j: nat)
    requires Contiguous(layout) && i < j < |layout|
    ensures layout[i].top + layout[i].height <= layout[j].top
    decreases j - i
  {
    if j > i + 1 {
      LaterSectionsStartAfter(layout, i, j - 1);
    }
  }

  /** In a contiguous layout at most one section passes the span test. */
  lemma AtMostOneMatch(layout: seq<Span>, scrollTop: int, vh: nat, i: nat, j: nat)
    requires Contiguous(layout) && i < |layout| && j < |layout|
    requires InSpan(layout[i], scrollTop, vh) && InSpan(layout[j], scrollTop, vh)
    ensures i == j
  {
    if i < j {
      LaterSectionsStartAfter(layout, i, j);
    } else if j < i {
      LaterSectionsStartAfter(layout, j, i);
    }
  }

  /** In a contiguous layout the scan picks the one section that matches. */
  lemma UniqueMatchSelected(layout: seq<Span>, scrollTop: int, vh: nat, k: nat)
    requires Contiguous(layout) && k < |layout| && InSpan(layout[k], scrollTop, vh)
    ensures SectionIndex(layout, scrollTop, vh) == k
  {
    var r := SectionIndex(layout, scrollTop, vh);
    if r != k {
      AtMostOneMatch(layout, scrollTop, vh, k, r);
    }
  }

  /** Scrolling forward never moves the index backward, as long as the viewport
      centre lies in some section before and after the move. */
  lemma ScrollForwardMonotone(layout: seq<Span>, before: int, after: int, vh: nat)
    requires Contiguous(layout) && before <= after
    requires !NoMatch(layout, before, vh) && !NoMatch(layout, after, vh)
    ensures SectionIndex(layout, before, vh) <= SectionIndex(layout, after, vh)
  {
    var k1 :| 0 <= k1 < |layout| && InSpan(layout[k1], before, vh);
    var k2 :| 0 <= k2 < |layout| && InSpan(layout[k2], after, vh);
    UniqueMatchSelected(layout, before, vh, k1);
    UniqueMatchSelected(layout, after, vh, k2);
    if k2 < k1 {
      LaterSectionsStartAfter(layout, k2, k1);
    }
  }

  /** The bottom edge of the last section: the height of the scrolled content. */
  function LayoutEnd(layout: seq<Span>): int
    requires |layout| > 0
  {
    layout[|layout| - 1].top + layout[|layout| - 1].height
  }

  /** In a contiguous layout, a (doubled) viewport centre between the first
      section's top and the last section's bottom lies in some section. */
  lemma {:induction false} CentreCovered(layout: seq<Span>, scrollTop: int, vh: nat)
    requires Contiguous(layout) && |layout| > 0
    requires 2 * layout[0].top <= 2 * scrollTop + vh < 2 * LayoutEnd(layout)
    ensures !NoMatch(layout, scrollTop, vh)
    decreases |layout|
  {
    var n := |layout|;
    if 2 * layout[n - 1].top <= 2 * scrollTop + vh {
      assert InSpan(layout[n - 1], scrollTop, vh);
    } else {
      var prefix := layout[..n - 1];
      assert Contiguous(prefix);
      assert LayoutEnd(prefix) == layout[n - 1].top;
      CentreCovered(prefix, scrollTop, vh);
      var k :| 0 <= k < |prefix| && InSpan(prefix[k], scrollTop, vh);
      assert InSpan(layout[k], scrollTop, vh);
    }
  }

  /** A container holding a contiguous layout that starts at 0 scrolls from 0
      to the content height minus the viewport height; over all of that
      range some section holds the viewport centre. */
  lemma ScrollRangeCovered(layout: seq<Span>, scrollTop: int, vh: nat)
    requires Contiguous(layout) && |layout| > 0 && layout[0].top == 0 && vh > 0
    requires 0 <= scrollTop && scrollTop + vh <= LayoutEnd(layout)
    ensures !NoMatch(layout, scrollTop, vh)
  {
    CentreCovered(layout, scrollTop, vh);
  }

  /** Over the whole range the container can scroll, scrolling forward never
      moves the index backward. */
  lemma MonotoneOverScrollRange(layout: seq<Span>, before: int, after: int, vh: nat)
    requires Contiguous(layout) && |layout| > 0 && layout[0].top == 0 && vh > 0
    requires 0 <= before <= after && after + vh <= LayoutEnd(layout)
    ensures SectionIndex(layout, before, vh) <= SectionIndex(layout, after, vh)
  {
    ScrollRangeCovered(layout, before, vh);
    ScrollRangeCovered(layout, after, vh);
    ScrollForwardMonotone(layout, before, after, vh);
  }

  /** Once the viewport centre is past the end of the last section, nothing
      matches and the index falls back to 0. */
  lemma PastLastSectionFallsBack(layout: seq<Span>, scrollTop: int, vh: nat)
    requires Contiguous(layout) && |layout| > 0
    requires 2 * scrollTop >= 2 * (layout[|layout| - 1].top + layout[|layout| - 1].height) - vh
    ensures NoMatch(layout, scrollTop, vh)
    ensures SectionIndex(layout, scrollTop, vh) == 0
  {
    forall i | 0 <= i < |layout| - 1
      ensures !InSpan(layout[i], scrollTop, vh)
    {
      LaterSectionsStartAfter(layout, i, |layout| - 1);
    }
  }

  /** At the top of a contiguous layout whose first section starts at 0 and is
      taller than half the viewport, the scan picks the first section. */
  lemma AtTopIsFirst(layout: seq<Span>, vh: nat)
    requires Contiguous(layout) && |layout| > 0
    requires layout[0].top == 0 && 2 * layout[0].height > vh
    ensures SectionIndex(layout, 0, vh) == 0
  {
    UniqueMatchSelected(layout, 0, vh, 0);
  }

  /** Two sections spanning [0, 500) and [500, 1000) in an 800-high viewport
      scrolled to 500: only the second one holds the centre. */
  lemma TwoSectionBoundary()
    ensures SectionIndex([Span(0, 500), Span(500, 500)], 500, 800) == 1
  {
  }
}
