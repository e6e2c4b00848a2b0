/**
 * The home page component (app/page.jsx): the flags derived from its overlay
 * state, the language switch, the viewport-height bookkeeping, the emoji
 * burst, and the state machine of the project modal (expand on scroll or
 * wheel, collapse back at the top, close by wheeling up once more, a delayed
 * clean-up after closing, and the guarded opening from the hero slider).
 *
 * React renders from a snapshot of the state; a handler reads that snapshot
 * and its setters take effect together afterwards. So every handler is a
 * function from the page state before the event to the page state after it,
 * and every timer or animation-frame callback is a step of its own. Class Home
 * holds the same state as fields (the collapse-intent ref included), and its
 * methods perform the handlers' updates in the source's order; each is proved
 * to produce exactly the state its step function describes.
 */
module HomePage {
  import opened Wrappers

  // ---------------------------------------------------------------------------
  // Page state
  // ---------------------------------------------------------------------------

  /** A project as the page uses it: its id and the colour theme it selects. */
  datatype Project = Project(id: string, theme: string)

  /** The theme the page falls back to when no project is shown. */
  const DefaultTheme := "one"

  /** The project modal's part of the state, with the collapse-intent ref. */
  datatype Modal = Modal(
    activeProject: Option<Project>,
    theme: string,
    isModalOpen: bool,
    isClosing: bool,
    isExpanded: bool,
    lastCollapseAt: int,
    collapseIntent: bool)

  /** The page's React state. */
  datatype Page = Page(
    modal: Modal,
    lang: string,
    showProjects: bool,
    isMenuOpen: bool,
    isAboutOpen: bool,
    isContactOpen: bool,
    showLoader: bool,
    isSmallViewport: bool,
    isHeroSliderExiting: bool)

  /** The state of the first render. */
  const InitialPage := Page(Modal(None, DefaultTheme, false, false, false, 0, false), "bg",
                            false, false, false, false, true, false, false)

  // ---------------------------------------------------------------------------
  // Derived flags
  // ---------------------------------------------------------------------------

  /** Some overlay covers the hero: the menu, the projects panel, the project
      modal, the about overlay or the contact modal. */
  predicate HiddenByOverlay(p: Page)
    ensures p.isMenuOpen || p.modal.isModalOpen ==> HiddenByOverlay(p)
  {
    p.isMenuOpen || p.showProjects || p.modal.isModalOpen || p.isAboutOpen || p.isContactOpen
  }

  /** A panel that behaves like the projects panel is showing. */
  predicate ShowProjectsLike(p: Page)
    ensures ShowProjectsLike(p) ==> HiddenByOverlay(p)
  {
    p.showProjects || p.isAboutOpen || p.isContactOpen
  }

  /** Whether the hero slider is shown. */
  predicate CanShowHeroSlider(p: Page)
    ensures CanShowHeroSlider(p) ==> !HiddenByOverlay(p) && !ShowProjectsLike(p)
  {
    && !p.isSmallViewport && !p.showLoader && !p.isMenuOpen && !p.showProjects
    && !p.isAboutOpen && !p.isContactOpen && !p.modal.isModalOpen && !p.isHeroSliderExiting
  }

  /** The slider shows only when no overlay hides the hero, and exactly when
      the viewport is wide, the loader is gone, nothing hides the hero and the
      slider is not leaving; a projects-like panel always hides the hero. */
  lemma DerivedFlags(p: Page)
    ensures CanShowHeroSlider(p) ==> !HiddenByOverlay(p)
    ensures CanShowHeroSlider(p) <==>
      !p.isSmallViewport && !p.showLoader && !HiddenByOverlay(p) && !p.isHeroSliderExiting
    ensures ShowProjectsLike(p) ==> HiddenByOverlay(p)
  {
  }

  // ---------------------------------------------------------------------------
  // Language switch
  // ---------------------------------------------------------------------------

  /** The language switch: "bg" becomes "en", anything else becomes "bg". */
  function ToggleLang(lang: string): (r: string)
    ensures r == "bg" || r == "en"
    ensures r == "en" <==> lang == "bg"
  {
    if lang == "bg" then "en" else "bg"
  }

  /** Switching twice from one of the two languages returns to it. */
  lemma ToggleLangTwice(lang: string)
    requires lang == "bg" || lang == "en"
    ensures ToggleLang(ToggleLang(lang)) == lang
  {
  }

  // ---------------------------------------------------------------------------
  // Viewport height
  // ---------------------------------------------------------------------------

  /** The largest offset reserved for collapsing browser chrome, in pixels. */
  const BrowserUiOffsetCap := 220

  function Max(a: int, b: int): int {
    if a >= b then a else b
  }

  /** One resize sample: window.innerHeight, visualViewport.height (absent when
      there is no visual viewport), documentElement.clientHeight, and
      screen.height (absent when it is not a number). */
  datatype Sample = Sample(innerHeight: int, visualViewportHeight: Option<int>,
                           clientHeight: int, screenHeight: Option<int>)

  function OrZero(h: Option<int>): int {
    if h.Some? then h.value else 0
  }

  /** The height of what is visible now. */
  function VisualHeight(s: Sample): (r: int)
    ensures r >= s.innerHeight && r >= OrZero(s.visualViewportHeight) && r >= s.clientHeight
    ensures r == s.innerHeight || r == OrZero(s.visualViewportHeight) || r == s.clientHeight
  {
    Max(Max(s.innerHeight, OrZero(s.visualViewportHeight)), s.clientHeight)
  }

  /** The height with the browser chrome collapsed, as far as this sample tells. */
  function FullHeight(s: Sample): (r: int)
    ensures r >= VisualHeight(s) && r >= OrZero(s.screenHeight)
    ensures r == VisualHeight(s) || r == OrZero(s.screenHeight)
  {
    Max(VisualHeight(s), OrZero(s.screenHeight))
  }

  /** The room left for browser chrome: the tallest full height seen so far
      minus the visible height, clamped to [0, 220]. */
  function BrowserUiOffset(maxFullVh: int, visualHeight: int): (r: int)
    ensures 0 <= r <= BrowserUiOffsetCap
    ensures maxFullVh - visualHeight <= 0 ==> r == 0
    ensures maxFullVh - visualHeight >= BrowserUiOffsetCap ==> r == BrowserUiOffsetCap
    ensures 0 <= maxFullVh - visualHeight <= BrowserUiOffsetCap ==> r == maxFullVh - visualHeight
  {
    var gap := maxFullVh - visualHeight;
    if gap <= 0 then 0 else if gap >= BrowserUiOffsetCap then BrowserUiOffsetCap else gap
  }

  /** The three CSS custom properties the page writes, and the ref they come from. */
  datatype Viewport = Viewport(maxFullVh: int, appVh: int, appFullVh: int, browserUiOffset: int)

  /** One call of the resize handler. */
  function Resize(v: Viewport, s: Sample): (r: Viewport)
    ensures r.maxFullVh >= v.maxFullVh && r.maxFullVh >= FullHeight(s)
    ensures r.maxFullVh == v.maxFullVh || r.maxFullVh == FullHeight(s)
    ensures r.appVh == VisualHeight(s) && r.appFullVh == r.maxFullVh
    ensures r.browserUiOffset == BrowserUiOffset(r.maxFullVh, r.appVh)
    ensures 0 <= r.browserUiOffset <= BrowserUiOffsetCap
  {
    var visual := VisualHeight(s);
    var maxFull := Max(v.maxFullVh, FullHeight(s));
    Viewport(maxFull, visual, maxFull, BrowserUiOffset(maxFull, visual))
  }

  function ResizeAll(v: Viewport, samples: seq<Sample>): Viewport
    decreases |samples|
  {
    if samples == [] then v else ResizeAll(Resize(v, samples[0]), samples[1..])
  }

  /** Over any run of resize samples the recorded full height never decreases
      and ends at least as tall as every sample's full height; the offset stays
      within [0, 220] after every sample. */
  lemma {:induction false} ResizeAllTracksTallest(v: Viewport, samples: seq<Sample>)
    ensures ResizeAll(v, samples).maxFullVh >= v.maxFullVh
    ensures forall k :: 0 <= k < |samples| ==> ResizeAll(v, samples).maxFullVh >= FullHeight(samples[k])
    ensures samples != [] ==> 0 <= ResizeAll(v, samples).browserUiOffset <= BrowserUiOffsetCap
    decreases |samples|
  {
    if samples != [] {
      var next := Resize(v, samples[0]);
      ResizeAllTracksTallest(next, samples[1..]);
      forall k | 0 <= k < |samples|
        ensures ResizeAll(v, samples).maxFullVh >= FullHeight(samples[k])
      {
        if k > 0 {
          assert samples[k] == samples[1..][k - 1];
        }
      }
    }
  }

  /** The mutable ref maxFullVhRef and the CSS properties derived from it. */
  class ViewportTracker {
    var maxFullVh: int
    var appVh: int
    var appFullVh: int
    var browserUiOffset: int

    function Current(): Viewport
      reads this
    {
      Viewport(maxFullVh, appVh, appFullVh, browserUiOffset)
    }

    constructor ()
      ensures maxFullVh == 0
    {
      maxFullVh, appVh, appFullVh, browserUiOffset := 0, 0, 0, 0;
    }

    /** setViewportHeight: called on mount and on every resize. */
    method SetViewportHeight(s: Sample)
      modifies this
      ensures Current() == Resize(old(Current()), s)
      ensures maxFullVh >= old(maxFullVh)
      ensures 0 <= browserUiOffset <= BrowserUiOffsetCap
    {
      var visualHeight := VisualHeight(s);
      var fullHeight := FullHeight(s);
      maxFullVh := Max(maxFullVh, fullHeight);
      browserUiOffset := BrowserUiOffset(maxFullVh, visualHeight);
      appVh := visualHeight;
      appFullVh := maxFullVh;
    }
  }

  // ---------------------------------------------------------------------------
  // Emoji burst
  // ---------------------------------------------------------------------------

  /** The side of the screen an emoji flies in from. */
  datatype Side = Left | Right

  const BurstSize := 100

  /** A burst: 100 emojis, the first half from the left, the rest from the right. */
  ghost predicate IsBurstLayout(sides: seq<Side>) {
    |sides| == BurstSize && forall i :: 0 <= i < |sides| ==> (sides[i] == Left <==> i < BurstSize / 2)
  }

  /** The deterministic part of triggerEmojiBurst: the side of each emoji. */
  method EmojiBurstSides() returns (sides: seq<Side>)
    ensures |sides| == 100
    ensures forall i :: 0 <= i < 50 ==> sides[i] == Left
    ensures forall i :: 50 <= i < 100 ==> sides[i] == Right
  {
    sides := [];
    for i := 0 to BurstSize
      invariant |sides| == i
      invariant forall k :: 0 <= k < i ==> sides[k] == (if k < 50 then Left else Right)
    {
      var side := if i < 50 then Left else Right;
      sides := sides + [side];
    }
  }

  /** The result of EmojiBurstSides is a burst layout. */
  lemma BurstLayoutSplit(sides: seq<Side>)
    requires |sides| == 100
    requires forall i :: 0 <= i < 50 ==> sides[i] == Left
    requires forall i :: 50 <= i < 100 ==> sides[i] == Right
    ensures IsBurstLayout(sides)
    ensures multiset(sides)[Left] == 50 && multiset(sides)[Right] == 50
  {
    assert sides == sides[..50] + sides[50..];
    SideCount(sides[..50], Left);
    SideCount(sides[50..], Right);
  }

  /** A sequence of one side holds that side as often as it is long. */
  lemma {:induction false} SideCount(s: seq<Side>, side: Side)
    requires forall i :: 0 <= i < |s| ==> s[i] == side
    ensures multiset(s)[side] == |s|
    ensures multiset(s)[if side == Left then Right else Left] == 0
  {
    if s != [] {
      SideCount(s[1..], side);
      assert s == [s[0]] + s[1..];
    }
  }

  // ---------------------------------------------------------------------------
  // The project modal
  // ---------------------------------------------------------------------------


  /** Scroll position beyond which scrolling expands the modal. */
  const ExpandScrollTop := 20
  /** Scroll position at or below which the content counts as at its top. */
  const TopScrollTop := 2
  /** Scroll position at or below which wheeling up announces a collapse. */
  const IntentScrollTop := 16
  /** Time after a collapse during which wheeling up does not close, in ms. */
  const CloseCooldownMs := 220

  /** The scrolled element at the time of an event. */
  datatype ScrollBox = ScrollBox(scrollTop: int, scrollHeight: int, clientHeight: int)

  /** handleModalScroll with the content scrolled to `scrollTop` at time `now`;
      `small` is isSmallViewport. */
  function ScrollStep(m: Modal, small: bool, scrollTop: int, now: int): (r: Modal)
    ensures small ==> r == m
    ensures r == m.(isExpanded := r.isExpanded, collapseIntent := r.collapseIntent,
                    lastCollapseAt := r.lastCollapseAt)
    ensures !m.isExpanded ==> (r.isExpanded <==> !small && scrollTop > ExpandScrollTop)
    ensures r.isExpanded != m.isExpanded ==> !r.collapseIntent
    ensures m.isExpanded && !r.isExpanded <==>
      !small && m.isExpanded && scrollTop <= TopScrollTop && m.collapseIntent
    ensures r.lastCollapseAt != m.lastCollapseAt ==> m.isExpanded && !r.isExpanded && r.lastCollapseAt == now
    ensures m.isExpanded && !r.isExpanded ==> r.lastCollapseAt == now
    ensures r.isExpanded == m.isExpanded ==> r.collapseIntent == m.collapseIntent && r.lastCollapseAt == m.lastCollapseAt
  {
    if small then m
    else if scrollTop > ExpandScrollTop && !m.isExpanded then
      m.(collapseIntent := false, isExpanded := true)
    else if scrollTop <= TopScrollTop && m.isExpanded && m.collapseIntent then
      m.(collapseIntent := false, isExpanded := false, lastCollapseAt := now)
    else m
  }

  /** closeProjectModal: the immediate part. */
  function Close(m: Modal): (r: Modal)
    ensures !r.isModalOpen && r.isClosing && !r.collapseIntent
    ensures r.(isModalOpen := m.isModalOpen, isClosing := m.isClosing,
               collapseIntent := m.collapseIntent) == m
  {
    m.(collapseIntent := false, isClosing := true, isModalOpen := false)
  }

  /** closeProjectModal: the step 450 ms later. */
  function FinishClose(m: Modal): (r: Modal)
    ensures r.activeProject == None && r.theme == DefaultTheme && !r.isExpanded && !r.isClosing
    ensures r.(activeProject := m.activeProject, theme := m.theme,
               isExpanded := m.isExpanded, isClosing := m.isClosing) == m
  {
    m.(activeProject := None, theme := DefaultTheme, isExpanded := false, isClosing := false)
  }

  /** Whether a wheel event on the modal closes it. */
  predicate WheelCloses(m: Modal, small: bool, box: ScrollBox, deltaY: int, now: int) {
    && !small && !m.isExpanded && box.scrollTop <= 0 && deltaY < 0
    && now - m.lastCollapseAt > CloseCooldownMs
  }

  /** Whether a wheel event on the modal collapses it: wheeling up while
      expanded, at the top or with nothing to scroll. */
  predicate WheelCollapses(m: Modal, small: bool, box: ScrollBox, deltaY: int) {
    && !small && m.isExpanded && deltaY < 0
    && (box.scrollTop <= TopScrollTop || box.scrollHeight <= box.clientHeight + 1)
  }

  /** handleModalWheel with vertical delta `deltaY` at time `now`. */
  function WheelStep(m: Modal, small: bool, box: ScrollBox, deltaY: int, now: int): (r: Modal)
    ensures small ==> r == m
    ensures !small && !m.isExpanded && deltaY > 0 ==>
      r == m.(collapseIntent := false, isExpanded := true)
    ensures WheelCollapses(m, small, box, deltaY) ==>
      r == m.(collapseIntent := false, isExpanded := false, lastCollapseAt := now)
    ensures WheelCloses(m, small, box, deltaY, now) ==> r == Close(m)
    ensures (r.isModalOpen != m.isModalOpen || r.isClosing != m.isClosing) ==> WheelCloses(m, small, box, deltaY, now)
    ensures r.isExpanded != m.isExpanded ==> !r.collapseIntent
    ensures r.lastCollapseAt != m.lastCollapseAt ==> WheelCollapses(m, small, box, deltaY) && r.lastCollapseAt == now
    ensures r.activeProject == m.activeProject && r.theme == m.theme
  {
    if small then m
    else if !m.isExpanded && deltaY > 0 then
      m.(collapseIntent := false, isExpanded := true)
    else if WheelCollapses(m, small, box, deltaY) then
      m.(collapseIntent := false, isExpanded := false, lastCollapseAt := now)
    else
      var intent :=
        if deltaY < 0 && box.scrollTop <= IntentScrollTop then true
        else if deltaY > 0 then false
        else m.collapseIntent;
      var q := m.(collapseIntent := intent);
      if WheelCloses(m, small, box, deltaY, now) then Close(q) else q
  }

  /** A single wheel event never both collapses the modal and closes it. */
  lemma WheelNeverCollapsesAndCloses(m: Modal, small: bool, box: ScrollBox, deltaY: int, now: int)
    ensures !(WheelCollapses(m, small, box, deltaY) && WheelCloses(m, small, box, deltaY, now))
    ensures var r := WheelStep(m, small, box, deltaY, now);
      m.isExpanded && !r.isExpanded ==> r.isModalOpen == m.isModalOpen && r.isClosing == m.isClosing
  {
  }

  /** Wheel events that neither expand nor collapse set the collapse intent
      when wheeling up near the top, clear it when wheeling down, and keep it
      otherwise, unless the event closes the modal, which clears it. */
  lemma WheelIntent(m: Modal, small: bool, box: ScrollBox, deltaY: int, now: int)
    requires !small
    requires !(!m.isExpanded && deltaY > 0) && !WheelCollapses(m, small, box, deltaY)
    ensures var r := WheelStep(m, small, box, deltaY, now);
      && r.isExpanded == m.isExpanded && r.lastCollapseAt == m.lastCollapseAt
      && r.collapseIntent ==
           if WheelCloses(m, small, box, deltaY, now) then false
           else if deltaY < 0 && box.scrollTop <= IntentScrollTop then true
           else if deltaY > 0 then false
           else m.collapseIntent
  {
  }

  /** A collapse performed by a scroll or a wheel event at time t is never
      followed, within 220 ms, by a wheel event that closes the modal. */
  lemma CollapseCooldown(m: Modal, small: bool, scrollTop: int, box1: ScrollBox, box2: ScrollBox,
                         d1: int, d2: int, t: int, now: int)
    requires now - t <= CloseCooldownMs
    ensures var c := ScrollStep(m, small, scrollTop, t);
      m.isExpanded && !c.isExpanded ==>
        var r := WheelStep(c, small, box2, d2, now);
        r.isModalOpen == c.isModalOpen && r.isClosing == c.isClosing
    ensures var c := WheelStep(m, small, box1, d1, t);
      WheelCollapses(m, small, box1, d1) ==>
        var r := WheelStep(c, small, box2, d2, now);
        r.isModalOpen == c.isModalOpen && r.isClosing == c.isClosing
  {
    var c1 := ScrollStep(m, small, scrollTop, t);
    if m.isExpanded && !c1.isExpanded {
      assert !WheelCloses(c1, small, box2, d2, now);
    }
    var c2 := WheelStep(m, small, box1, d1, t);
    if WheelCollapses(m, small, box1, d1) {
      assert !WheelCloses(c2, small, box2, d2, now);
    }
  }

  /** A scroll or a wheel event on the modal, with the time it happens. */
  datatype ModalEvent =
    | Scrolled(scrollTop: int, now: int)
    | Wheeled(box: ScrollBox, deltaY: int, now: int)

  function ModalStep(m: Modal, small: bool, e: ModalEvent): Modal {
    match e
    case Scrolled(scrollTop, now) => ScrollStep(m, small, scrollTop, now)
    case Wheeled(box, deltaY, now) => WheelStep(m, small, box, deltaY, now)
  }

  function ModalRun(m: Modal, small: bool, events: seq<ModalEvent>): Modal
    decreases |events|
  {
    if events == [] then m else ModalRun(ModalStep(m, small, events[0]), small, events[1..])
  }

  /** After a collapse at time t (which records lastCollapseAt == t), no run
      of scroll and wheel events happening within [t, t + 220] closes the
      modal, however many times it expands and collapses again meanwhile. */
  lemma {:induction false} NoCloseDuringCooldown(m: Modal, small: bool, events: seq<ModalEvent>, t: int)
    requires m.lastCollapseAt >= t
    requires forall i :: 0 <= i < |events| ==> t <= events[i].now <= t + CloseCooldownMs
    ensures var r := ModalRun(m, small, events);
      r.isModalOpen == m.isModalOpen && r.isClosing == m.isClosing && r.lastCollapseAt >= t
    decreases |events|
  {
    if events != [] {
      var e := events[0];
      var next := ModalStep(m, small, e);
      if e.Wheeled? {
        assert !WheelCloses(m, small, e.box, e.deltaY, e.now);
      }
      assert next.isModalOpen == m.isModalOpen && next.isClosing == m.isClosing && next.lastCollapseAt >= t;
      forall i | 0 <= i < |events[1..]| ensures t <= events[1..][i].now <= t + CloseCooldownMs {
        assert events[1..][i] == events[i + 1];
      }
      NoCloseDuringCooldown(next, small, events[1..], t);
    }
  }

  /** Closing and then the delayed clean-up leave the modal shut and reset:
      not open, not closing, collapsed, no project, default theme, no intent,
      and the time of the last collapse kept. */
  lemma CloseThenFinish(m: Modal)
    ensures FinishClose(Close(m)) == Modal(None, DefaultTheme, false, false, false, m.lastCollapseAt, false)
  {
  }

  /** openProjectFromHeroSlider: refuses while the slider is leaving or the
      modal is open or closing; otherwise starts the slider's exit. */
  function OpenFromHeroSlider(p: Page): (r: Page)
    ensures p.isHeroSliderExiting || p.modal.isModalOpen || p.modal.isClosing ==> r == p
    ensures !(p.isHeroSliderExiting || p.modal.isModalOpen || p.modal.isClosing) ==>
      r == p.(isHeroSliderExiting := true) && !CanShowHeroSlider(r)
  {
    if p.isHeroSliderExiting || p.modal.isModalOpen || p.modal.isClosing then p
    else p.(isHeroSliderExiting := true)
  }

  /** A second request before the first one's modal shows is refused. */
  lemma OpenFromHeroSliderOnce(p: Page)
    ensures OpenFromHeroSlider(OpenFromHeroSlider(p)) == OpenFromHeroSlider(p)
  {
  }

  /** The guard at page.jsx:133 tests the exit flag, the open flag and the
      closing flag. Between an accepted request and the modal's opening only
      the exit flag is set, so it alone blocks a second request. When the settle timer
      of the effect on the overlay flags fires after an accepted request and
      before the modal opens (it may have been scheduled just before the
      request), it clears the flag, and a second request is accepted. */
  lemma SettleReopensHeroRequest(p: Page)
    requires !(p.isHeroSliderExiting || p.modal.isModalOpen || p.modal.isClosing)
    requires HeroSliderMaySettle(p)
    ensures var q := SettleHeroSlider(OpenFromHeroSlider(p));
      !q.isHeroSliderExiting && OpenFromHeroSlider(q) == q.(isHeroSliderExiting := true)
  {
  }

  /** openProjectModal (run 360 ms after a successful hero-slider request, or
      directly from the projects panel): shows the project and its theme. */
  function OpenProjectModal(m: Modal, project: Project): (r: Modal)
    ensures r.activeProject == Some(project) && r.theme == project.theme
    ensures r.(activeProject := m.activeProject, theme := m.theme) == m
  {
    m.(activeProject := Some(project), theme := project.theme)
  }

  /** The animation-frame callback of openProjectModal: opens the modal. */
  function RevealModal(m: Modal): (r: Modal)
    ensures r.isModalOpen && r.(isModalOpen := m.isModalOpen) == m
  {
    m.(isModalOpen := true)
  }

  /** Opening from the hero slider, once the delay and the frame have passed,
      shows the chosen project in an open modal, with the slider hidden. */
  lemma HeroSliderOpensProject(p: Page, project: Project)
    requires !(p.isHeroSliderExiting || p.modal.isModalOpen || p.modal.isClosing)
    ensures var q := OpenFromHeroSlider(p);
      var r := q.(modal := RevealModal(OpenProjectModal(q.modal, project)));
      && r.modal.isModalOpen && r.modal.activeProject == Some(project) && r.modal.theme == project.theme
      && !CanShowHeroSlider(r) && HiddenByOverlay(r)
  {
  }

  /** The effect on isSmallViewport and isExpanded: a small viewport never
      keeps the modal expanded. */
  function SyncSmallViewport(p: Page): (r: Page)
    ensures r.isSmallViewport ==> !r.modal.isExpanded
    ensures p.isSmallViewport && p.modal.isExpanded ==> !r.modal.collapseIntent
    ensures !(p.isSmallViewport && p.modal.isExpanded) ==> r == p
    ensures r.(modal := p.modal) == p
    ensures r.modal.(isExpanded := p.modal.isExpanded, collapseIntent := p.modal.collapseIntent) == p.modal
  {
    if p.isSmallViewport && p.modal.isExpanded then
      p.(modal := p.modal.(isExpanded := false, collapseIntent := false))
    else p
  }

  /** Whether the effect that lets the hero slider return schedules its timer. */
  predicate HeroSliderMaySettle(p: Page) {
    && !p.showLoader && !p.isMenuOpen && !p.showProjects && !p.isAboutOpen
    && !p.isContactOpen && !p.modal.isModalOpen
  }

  /** The timer (80 ms) of that effect: the slider stops leaving. */
  function SettleHeroSlider(p: Page): (r: Page)
    ensures HeroSliderMaySettle(p) ==> (CanShowHeroSlider(r) <==> !p.isSmallViewport)
    ensures HeroSliderMaySettle(p) ==> r == p.(isHeroSliderExiting := false)
    ensures !HeroSliderMaySettle(p) ==> r == p
    ensures r.(isHeroSliderExiting := p.isHeroSliderExiting) == p
  {
    if HeroSliderMaySettle(p) then p.(isHeroSliderExiting := false) else p
  }

  /** Once the modal is closed and cleaned up and no overlay remains, the
      settle timer brings the hero slider back on a wide viewport. */
  lemma SliderReturnsAfterClose(p: Page)
    requires !p.showLoader && !p.isMenuOpen && !p.showProjects && !p.isAboutOpen && !p.isContactOpen
    ensures var r := SettleHeroSlider(p.(modal := FinishClose(Close(p.modal))));
      CanShowHeroSlider(r) <==> !p.isSmallViewport
  {
  }

  /** The page's state and the collapse-intent ref, updated in place by its handlers. */
  class Home {
    var activeProject: Option<Project>
    var theme: string
    var isModalOpen: bool
    var isClosing: bool
    var isExpanded: bool
    var lastCollapseAt: int
    var collapseIntent: bool
    var lang: string
    var showProjects: bool
    var isMenuOpen: bool
    var isAboutOpen: bool
    var isContactOpen: bool
    var showLoader: bool
    var isSmallViewport: bool
    var isHeroSliderExiting: bool
    /** The sides of the emojis currently flying; empty when there is no burst. */
    var burst: seq<Side>

    function ModalState(): Modal
      reads this
    {
      Modal(activeProject, theme, isModalOpen, isClosing, isExpanded, lastCollapseAt, collapseIntent)
    }

    function Snapshot(): Page
      reads this
    {
      Page(ModalState(), lang, showProjects, isMenuOpen, isAboutOpen, isContactOpen,
           showLoader, isSmallViewport, isHeroSliderExiting)
    }

    /** Nothing outside the modal's own state has changed, the burst aside. */
    twostate predicate OutsideModalUnchanged()
      reads this
    {
      && lang == old(lang) && showProjects == old(showProjects) && isMenuOpen == old(isMenuOpen)
      && isAboutOpen == old(isAboutOpen) && isContactOpen == old(isContactOpen)
      && showLoader == old(showLoader) && isSmallViewport == old(isSmallViewport)
      && isHeroSliderExiting == old(isHeroSliderExiting)
    }

    /** Nothing outside the modal's own state has changed. */
    twostate predicate ModalOnly()
      reads this
    {
      OutsideModalUnchanged() && burst == old(burst)
    }

    constructor ()
      ensures Snapshot() == InitialPage && burst == []
    {
      activeProject, theme, isModalOpen, isClosing := None, DefaultTheme, false, false;
      isExpanded, lastCollapseAt, collapseIntent := false, 0, false;
      lang, showProjects, isMenuOpen, isAboutOpen, isContactOpen := "bg", false, false, false, false;
      showLoader, isSmallViewport, isHeroSliderExiting := true, false, false;
      burst := [];
    }

    method ToggleLanguage()
      modifies this
      ensures Snapshot() == old(Snapshot()).(lang := ToggleLang(old(lang))) && burst == old(burst)
    {
      lang := if lang == "bg" then "en" else "bg";
    }

    method HandleModalScroll(scrollTop: int, now: int)
      modifies this
      ensures ModalState() == ScrollStep(old(ModalState()), old(isSmallViewport), scrollTop, now) && ModalOnly()
    {
      if isSmallViewport {
        return;
      }
      if scrollTop > ExpandScrollTop && !isExpanded {
        collapseIntent := false;
        isExpanded := true;
      } else if scrollTop <= TopScrollTop && isExpanded && collapseIntent {
        collapseIntent := false;
        isExpanded := false;
        lastCollapseAt := now;
      }
    }

    method HandleModalWheel(box: ScrollBox, deltaY: int, now: int)
      modifies this
      ensures ModalState() == WheelStep(old(ModalState()), old(isSmallViewport), box, deltaY, now) && ModalOnly()
    {
      if isSmallViewport {
        return;
      }
      var isAtTop := box.scrollTop <= TopScrollTop;
      var hasScrollableOverflow := box.scrollHeight > box.clientHeight + 1;
      if !isExpanded && deltaY > 0 {
        collapseIntent := false;
        isExpanded := true;
        return;
      }
      if isExpanded && deltaY < 0 && (isAtTop || !hasScrollableOverflow) {
        collapseIntent := false;
        isExpanded := false;
        lastCollapseAt := now;
        return;
      }
      if deltaY < 0 && box.scrollTop <= IntentScrollTop {
        collapseIntent := true;
      } else if deltaY > 0 {
        collapseIntent := false;
      }
      var cooldownPassed := now - lastCollapseAt > CloseCooldownMs;
      if !isExpanded && box.scrollTop <= 0 && deltaY < 0 && cooldownPassed {
        CloseProjectModal();
      }
    }

    method CloseProjectModal()
      modifies this
      ensures ModalState() == Close(old(ModalState())) && ModalOnly()
    {
      collapseIntent := false;
      isClosing := true;
      isModalOpen := false;
    }

    /** The callback closeProjectModal schedules 450 ms later. */
    method FinishCloseProjectModal()
      modifies this
      ensures ModalState() == FinishClose(old(ModalState())) && ModalOnly()
    {
      activeProject := None;
      theme := DefaultTheme;
      isExpanded := false;
      isClosing := false;
    }

    method OpenProjectFromHeroSlider()
      modifies this
      ensures Snapshot() == OpenFromHeroSlider(old(Snapshot())) && burst == old(burst)
    {
      if isHeroSliderExiting || isModalOpen || isClosing {
        return;
      }
      isHeroSliderExiting := true;
    }

    method OpenProject(project: Project)
      modifies this
      ensures ModalState() == OpenProjectModal(old(ModalState()), project) && ModalOnly()
    {
      activeProject := Some(project);
      theme := project.theme;
    }

    /** The animation-frame callback of openProjectModal: opens the modal and
        starts an emoji burst. */
    method RevealProjectModal()
      modifies this
      ensures ModalState() == RevealModal(old(ModalState())) && OutsideModalUnchanged()
      ensures IsBurstLayout(burst)
    {
      isModalOpen := true;
      var sides := EmojiBurstSides();
      BurstLayoutSplit(sides);
      burst := sides;
    }

    /** The media query starting or stopping to match. */
    method OnViewportChange(matches: bool)
      modifies this
      ensures Snapshot() == old(Snapshot()).(isSmallViewport := matches) && burst == old(burst)
    {
      isSmallViewport := matches;
    }

    /** The effect that runs when isSmallViewport or isExpanded changes. */
    method SyncViewportEffect()
      modifies this
      ensures Snapshot() == SyncSmallViewport(old(Snapshot())) && burst == old(burst)
    {
      if isSmallViewport && isExpanded {
        isExpanded := false;
        collapseIntent := false;
      }
    }

    /** The timer of the effect that lets the hero slider return. */
    method SettleHeroSliderTimer()
      modifies this
      ensures Snapshot() == SettleHeroSlider(old(Snapshot())) && burst == old(burst)
    {
      if !showLoader && !isMenuOpen && !showProjects && !isAboutOpen && !isContactOpen && !isModalOpen {
        isHeroSliderExiting := false;
      }
    }

    /** The timer that ends a burst, 5 s after it started. */
    method ClearBurst()
      modifies this
      ensures Snapshot() == old(Snapshot()) && burst == []
    {
      burst := [];
    }
  }
}
