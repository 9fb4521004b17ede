# Boarding pass → journey: view state and section tracking

This models the only stateful logic of the birthday card's `App` component.
The card opens on a boarding-pass screen. Tapping the pass switches the view
to the journey, a vertically scrolling container of five full-screen
sections: hero, gate, jet bridge, plane seat and finale. While the journey is
shown, a scroll handler works out which section holds the centre of the
viewport. Two things read that index. The finale's confetti is shown while
the index is the last section (4). The handler also asks the background video
to play when the index is 4.

Two modules:

- `SectionTracker` (`section_tracker.dfy`) holds the scan. A `Span` is one
  section's `offsetTop` and `clientHeight`. `InSpan` is the source's span
  test, `scrollTop >= top - vh/2 && scrollTop < top + height - vh/2`,
  written with both sides doubled so that `vh/2` stays exact on integers.
  `SectionIndex` is the result as a function: 0 by default, overwritten by
  every match, so the last match wins. `IsLastMatch` is an independent
  reference definition of that result. `ScanSections` is the loop of the
  source, proved equal to `SectionIndex`. The lemmas cover the layout the
  journey produces. In that layout the sections are stacked with no gap
  (`Contiguous`), so at most one section matches and the index moves
  forward as the user scrolls forward.
- `AppComponent` (`app.dfy`) holds the class `App`. Its fields are
  `appState`, `currentSection` and `listening`. The last one says whether
  the scroll handler is attached. `Board` is the tap on the pass.
  `TrackingEffect` is the effect that runs when the view state changes.
  `HandleScroll` is the scroll handler, and `OnScroll` is a scroll event on
  the container. `MountContainer` is the corrected mount step described
  below. The object invariant `Valid` says that, while boarding, the
  handler is not attached and the index is still 0. No method moves
  `appState` from `Journey` back to `Boarding`.

The effect's gate at line 80 also checks that the journey container exists.
That is the `containerMounted` parameter of `Board`. The effect depends on
the view state alone (line 114), so it does not run again when the container
mounts later. The journey container sits inside `AnimatePresence` in "wait"
mode (line 118), and the boarding screen has an exit transition (lines
123-124). So the journey container mounts only after the boarding screen has
left, by which time the effect has already returned at line 80. The handler
is then never attached. For the rest of the session the index stays 0 and the
confetti at line 240 stays off, however far the user scrolls
(`BoardBeforeMount`). `App.MountContainer` models the evidently intended
behaviour: the effect runs again once the container is mounted
(`BoardThenMount`). See "## Findings".

Facts about the scan and its consumers in `src/App.tsx`:

- The container can scroll from 0 to the content height minus the viewport
  height. Over that range some section always holds the viewport centre, so
  scrolling forward never lowers the index (`ScrollRangeCovered`,
  `MonotoneOverScrollRange`). A centre past the end of the last section is
  beyond that range. There no span matches, and the index would be 0
  (`PastLastSectionFallsBack`).
- Line 104 compares the index with the literal `4`. Line 240 compares it with
  `totalSections - 1`, where `totalSections` is 5. `FinaleTriggers` proves
  that, for any five-section geometry, both hold exactly when the centre lies
  in the fifth section.
- `ProgressDots` (src/components/Sections.tsx:58) is not rendered by `App`,
  so there is no click-to-navigate.

## Model

| member | source | states |
|---|---|---|
| SectionTracker.SectionIndex | src/App.tsx:89-101 | With no sections the index is 0. With sections it is a valid index below their count. A nonzero index names a section whose span holds the viewport centre, and no later section's span holds it. |
| SectionTracker.SectionIndexIsLastMatch | src/App.tsx:89-100 | The index equals `r` exactly when `r` meets the reference definition: 0 if no span matches, otherwise the largest matching position. Both directions are proved. |
| SectionTracker.NoMatchGivesZero | src/App.tsx:89 | When no section passes the span test, including with zero sections, the index is 0. |
| SectionTracker.ScanSections | src/App.tsx:89-100 | The in-order loop, where each match overwrites the running index that starts at 0, returns the last-match index. |
| SectionTracker.AtMostOneMatch | src/App.tsx:94-97 | In a contiguous layout, where each section starts where the previous one ends, two matching sections are the same section. |
| SectionTracker.UniqueMatchSelected | src/App.tsx:90-100 | In a contiguous layout, if section k holds the viewport centre then the index is k. |
| SectionTracker.ScrollForwardMonotone | src/App.tsx:94-98 | In a contiguous layout, scrolling forward never lowers the index, provided some section holds the centre before and after. |
| SectionTracker.ScrollRangeCovered | src/App.tsx:94-98 | For a contiguous layout starting at 0, every scroll position from 0 to the content height minus the viewport height puts the centre in some section. |
| SectionTracker.MonotoneOverScrollRange | src/App.tsx:89-100 | Over the whole range the container can scroll, a larger scroll position never gives a smaller index. |
| SectionTracker.PastLastSectionFallsBack | src/App.tsx:89-100 | In a contiguous layout, once the centre is past the end of the last section, nothing matches and the index is 0. |
| SectionTracker.AtTopIsFirst | src/App.tsx:94-98 | The layout is contiguous from 0, and the first section is taller than half the viewport, as a full-screen section is. Then at scroll position 0 the index is 0. |
| SectionTracker.TwoSectionBoundary | src/App.tsx:94-98 | Take spans [0,500) and [500,1000), viewport height 800 and scroll position 500. The first span fails its upper bound, the second matches, and the index is 1. |
| AppComponent.FinaleTriggers | src/App.tsx:104 | For any geometry of five sections, the video request (index 4) and the confetti test (index `totalSections - 1`, line 240) each hold exactly when the centre lies in the fifth section. |
| AppComponent.App.constructor | src/App.tsx:65-66 | The view starts as boarding, the index as 0, and no scroll handler is attached. |
| AppComponent.App.Board | src/App.tsx:73-75 | The view becomes journey and never goes back. From boarding, the effect runs. If the container is mounted, the handler is attached and the index is the scan result; otherwise nothing else changes. In the journey, a tap changes nothing. |
| AppComponent.App.TrackingEffect | src/App.tsx:78-114 | The effect keeps the object invariant. It stops, changing nothing, unless the container is mounted and the view is journey. Otherwise it resets the index to 0, attaches the handler and runs it once, leaving the scan result. |
| AppComponent.App.HandleScroll | src/App.tsx:84-109 | The handler runs only once attached, so never while boarding, and keeps the object invariant. It publishes the scan result as the index. It requests video playback exactly when the new index is 4, which is exactly when the confetti shows. |
| AppComponent.App.OnScroll | src/App.tsx:111 | A scroll event runs the handler only if it is attached. It never changes the view or the listener. Without a listener nothing changes. |
| AppComponent.ScrollToFinale | src/App.tsx:240 | Board at the top of five stacked full-viewport sections, then scroll to the fifth. The index goes from 0 to 4, and the confetti is active. |
| AppComponent.BoardBeforeMount | src/App.tsx:80 | The effect ran without a mounted container. Later scrolling, even to the finale, leaves the index at 0 and the confetti off. |
| AppComponent.App.MountContainer | src/App.tsx:78-114 | The corrected effect trigger: when the container mounts in the journey with no handler attached, it attaches the handler and publishes the scan result. Otherwise nothing changes. |
| AppComponent.BoardThenMount | src/App.tsx:240 | With the corrected mount step, tapping before the container mounts still leads to index 4 and the confetti once the user scrolls to the finale. |

## Left out

- Rendering is left out: markup, styling and the animation library's motion
  parameters. This includes every component under `src/components/`, which
  is presentational.
- Random particle generation is left out: stars, clouds, confetti pieces and
  barcode widths. It uses random numbers and floating point.
- The DOM queries are not modelled: the section query, the `offsetTop`,
  `clientHeight` and `scrollTop` reads, and listener registration and
  removal. The geometry is an input sequence of spans. Scroll position and
  viewport height are inputs.
- SectionTracker.InSpan: does not model fractional `scrollTop`, because the
  model takes it as an integer and browsers may report a fraction. Heights
  and offsets are integers in the DOM.
- The video is not modelled. `video.play()` and its swallowed rejection are
  an asynchronous foreign call. The model only returns whether playback is
  requested. The video's own `autoPlay` attribute and `onCanPlay` play call
  (lines 219 and 224-227) are outside the model.
- The `videoRef.current` null check at line 104 is not modelled. The video
  sits inside the finale, which is mounted with the container. So whenever
  the handler is attached, the model treats the video as present.
- The animation library's presence handling is not part of this model. When
  the container mounts relative to the effect is the `containerMounted`
  parameter of `App.Board`.
- React's batching of the two index updates inside the effect is not
  modelled: the reset to 0 and the scan result. The model applies them in
  order, and only the scan result is left afterwards.
- Unmounting `App` and the listener cleanup it triggers (line 113) are not
  modelled. The view never leaves the journey, so the cleanup does not
  otherwise run.
- The `MESSAGES` content constants (lines 22-61) are left out.
- There is no separate lemma for "the same scroll position gives the same
  index". `SectionIndex` is a function, so this holds by construction.

## Findings

| source | as written | input that shows it | evidently intended | confidence | as-written member | corrected member |
|---|---|---|---|---|---|---|
| src/App.tsx:78-114 | The tracking effect returns early when the journey container is not mounted (line 80). It depends only on `appState` (line 114), so it never runs again once the container mounts. | A tap on the boarding pass. With `AnimatePresence mode="wait"` (line 118), the journey container is not yet mounted when the effect runs. Scrolling to the finale then leaves the index at 0 and the confetti off. | Attach the scroll handler once the container is mounted, so the index follows the scroll and the confetti shows on the finale. | medium, not executed; rests on the presence block deferring the mount | AppComponent.BoardBeforeMount | AppComponent.App.MountContainer |
