/** The `App` component's state: the boarding/journey view toggle, the tracked
    section index, and the consumers of that index (confetti and video). */
module AppComponent {
  import opened SectionTracker

  /** The two screens of the card. */
  datatype View = Boarding | Journey

  /** Hero, three themed screens and the finale. */
  const TotalSections: nat := 5

  /** The section on which the scroll handler asks the background video to play. */
  const VideoSection: nat := 4

  /** The confetti on the finale is shown while the tracked index is the last section. */
  predicate ConfettiActive(currentSection: nat) {
    currentSection == TotalSections - 1
  }

  /** The scroll handler requests video playback when the new index is the video section. */
  predicate PlayRequested(newSection: nat) {
    newSection == VideoSection
  }

  /** With the five sections the journey renders, the video request and the
      confetti both fire exactly when the viewport centre lies in the finale,
      whatever the geometry: the last section wins whenever it matches. */
  lemma FinaleTriggers(layout: seq<Span>, scrollTop: int, vh: nat)
    requires |layout| == TotalSections
    ensures PlayRequested(SectionIndex(layout, scrollTop, vh)) <==> InSpan(layout[4], scrollTop, vh)
    ensures ConfettiActive(SectionIndex(layout, scrollTop, vh)) <==> InSpan(layout[4], scrollTop, vh)
  {
  }

  class App {
    /** Which screen is shown. */
    var appState: View
    /** The section index published by the scroll handler. */
    var currentSection: nat
    /** Whether the scroll handler is attached to the journey container. */
    var listening: bool

    /** The handler is attached only in the journey, and nothing touches the
        index before it. */
    ghost predicate Valid()
      reads this
    {
      appState == Boarding ==> currentSection == 0 && !listening
    }

    /** Whether the finale's confetti is shown. */
    predicate Celebrating()
      reads this
    {
      ConfettiActive(currentSection)
    }

    /** First render: boarding screen, index 0. The tracking effect also runs
        now, but its journey gate stops it before it does anything. */
    constructor ()
      ensures Valid()
      ensures appState == Boarding && currentSection == 0 && !listening
    {
      appState := Boarding;
      currentSection := 0;
      listening := false;
    }

    /** The tap on the boarding pass. It switches to the journey, which re-runs
        the tracking effect; in the journey it is a no-op, since setting the
        state to the value it already has does not re-render. */
    method Board(containerMounted: bool, layout: seq<Span>, scrollTop: int, vh: nat)
      returns (play: bool)
      requires Valid()
      modifies this
      ensures Valid()
      ensures appState == Journey
      ensures old(appState) == Journey ==> unchanged(this) && !play
      ensures old(appState) == Boarding ==>
        listening == containerMounted &&
        currentSection == (if containerMounted then SectionIndex(layout, scrollTop, vh) else 0) &&
        play == (containerMounted && PlayRequested(currentSection))
    {
      if appState == Boarding {
        appState := Journey;
        play := TrackingEffect(containerMounted, layout, scrollTop, vh);
      } else {
        play := false;
      }
    }

    /** The effect that runs after the view state changes. It stops unless the
        journey container is mounted and the view is the journey; otherwise it
        resets the index to 0, attaches the scroll handler and runs it once. */
    method TrackingEffect(containerMounted: bool, layout: seq<Span>, scrollTop: int, vh: nat)
      returns (play: bool)
      requires Valid()
      modifies this
      ensures Valid()
      ensures appState == old(appState)
      ensures containerMounted && appState == Journey ==>
        listening && currentSection == SectionIndex(layout, scrollTop, vh) &&
        play == PlayRequested(currentSection)
      ensures !(containerMounted && appState == Journey) ==> unchanged(this) && !play
    {
      if !containerMounted || appState != Journey {
        play := false;
        return;
      }
      currentSection := 0;
      listening := true;
      play := HandleScroll(layout, scrollTop, vh);
    }

    /** The scroll handler: scan the sections, publish the index, and request
        video playback on the video section. */
    method HandleScroll(layout: seq<Span>, scrollTop: int, vh: nat) returns (play: bool)
      requires Valid() && listening
      modifies this`currentSection
      ensures Valid()
      ensures currentSection == SectionIndex(layout, scrollTop, vh)
      ensures play == PlayRequested(currentSection)
      ensures play == ConfettiActive(currentSection)
    {
      var newSection := ScanSections(layout, scrollTop, vh);
      currentSection := newSection;
      play := PlayRequested(newSection);
    }

    /** A scroll event on the journey container: the handler runs if it is
        attached, and nothing changes otherwise. */
    method OnScroll(layout: seq<Span>, scrollTop: int, vh: nat) returns (play: bool)
      requires Valid()
      modifies this
      ensures Valid()
      ensures appState == old(appState) && listening == old(listening)
      ensures old(listening) ==>
        currentSection == SectionIndex(layout, scrollTop, vh) &&
        play == PlayRequested(currentSection) && play == Celebrating()
      ensures !old(listening) ==> unchanged(this) && !play
    {
      if listening {
        play := HandleScroll(layout, scrollTop, vh);
      } else {
        play := false;
      }
    }

    /** Corrected tracking: the journey container mounting re-runs the effect,
        so a handler the effect could not attach at the tap is attached now.
        The component as written has no such step; its effect depends on the
        view state alone. */
    method MountContainer(layout: seq<Span>, scrollTop: int, vh: nat) returns (play: bool)
      requires Valid()
      modifies this
      ensures Valid()
      ensures appState == old(appState) && (old(listening) ==> listening)
      ensures old(appState) == Journey && !old(listening) ==>
        listening && currentSection == SectionIndex(layout, scrollTop, vh) &&
        play == PlayRequested(currentSection)
      ensures !(old(appState) == Journey && !old(listening)) ==> unchanged(this) && !play
    {
      if appState == Journey && !listening {
        play := TrackingEffect(true, layout, scrollTop, vh);
      } else {
        play := false;
      }
    }
  }

  /** `n` contiguous sections, each exactly one viewport high, starting at 0. */
  function StackedSections(vh: nat, n: nat): (layout: seq<Span>)
    ensures |layout| == n && Contiguous(layout)
    ensures forall i :: 0 <= i < n ==> layout[i] == Span(i * vh, vh)
  {
    seq(n, i requires 0 <= i => Span(i * vh, vh))
  }

  /** A session: board with the container mounted at the top, then scroll to
      the finale. The index starts at 0 and reaches the finale, where both the
      confetti and the video fire. */
  method ScrollToFinale(vh: nat) returns (app: App)
    requires vh > 0
    ensures fresh(app) && app.Valid()
    ensures app.appState == Journey && app.listening
    ensures app.currentSection == TotalSections - 1 && app.Celebrating()
  {
    var layout := StackedSections(vh, TotalSections);
    app := new App();
    AtTopIsFirst(layout, vh);
    var play := app.Board(true, layout, 0, vh);
    assert app.currentSection == 0 && !play;
    UniqueMatchSelected(layout, 4 * vh, vh, 4);
    play := app.OnScroll(layout, 4 * vh, vh);
    assert play;
  }

  /** A session whose tracking effect ran before the journey container was
      mounted: the handler is never attached, so later scrolling, even to the
      finale, leaves the index at 0 and the confetti off. */
  method BoardBeforeMount(vh: nat) returns (app: App)
    requires vh > 0
    ensures fresh(app) && app.Valid()
    ensures app.appState == Journey && !app.listening
    ensures app.currentSection == 0 && !app.Celebrating()
  {
    var layout := StackedSections(vh, TotalSections);
    app := new App();
    var play := app.Board(false, layout, 0, vh);
    play := app.OnScroll(layout, 4 * vh, vh);
    assert !play;
  }

  /** The same session with the corrected tracking: the tap comes before the
      container is mounted, the mount attaches the handler at the top, and
      scrolling to the finale then shows the confetti. */
  method BoardThenMount(vh: nat) returns (app: App)
    requires vh > 0
    ensures fresh(app) && app.Valid()
    ensures app.appState == Journey && app.listening
    ensures app.currentSection == TotalSections - 1 && app.Celebrating()
  {
    var layout := StackedSections(vh, TotalSections);
    app := new App();
    var play := app.Board(false, layout, 0, vh);
    AtTopIsFirst(layout, vh);
    play := app.MountContainer(layout, 0, vh);
    assert app.currentSection == 0 && !play;
    UniqueMatchSelected(layout, 4 * vh, vh, 4);
    play := app.OnScroll(layout, 4 * vh, vh);
    assert play;
  }
}
