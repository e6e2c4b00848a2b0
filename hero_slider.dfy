/**
 * The hero project slider (app/components/HeroProjectSlider.jsx): the stack of
 * at most three cards around the active project, the clamped previous/next
 * navigation, the throttled wheel navigation and the focus rule of a card.
 *
 * The slider's React state (activeIndex, the focused-hover flag) and its
 * mutable ref (the time of the last accepted wheel event) are the fields of
 * class Slider; the pure functions below say what each of its handlers does.
 */
module HeroSlider {
  import opened Wrappers

  function Abs(x: int): nat {
    if x < 0 then -x else x
  }

  // ---------------------------------------------------------------------------
  // The visible stack
  // ---------------------------------------------------------------------------

  /** A card of the stack: a project and its offset from the active index. */
  datatype StackItem<P> = StackItem(project: P, offset: int)

  /** Every project tagged with offset index - active, in list order. */
  function Tagged<P>(projects: seq<P>, active: int): seq<StackItem<P>> {
    if projects == [] then []
    else [StackItem(projects[0], -active)] + Tagged(projects[1..], active - 1)
  }

  /** The items whose offset is at most 1 in absolute value, in order. */
  function NearFocus<P>(items: seq<StackItem<P>>): seq<StackItem<P>> {
    if items == [] then []
    else (if Abs(items[0].offset) <= 1 then [items[0]] else []) + NearFocus(items[1..])
  }

  /** Inserts `x` before the first item that is not deeper than it, so that
      among equally deep items the ones inserted earlier stay in front. */
  function InsertByDepth<P>(x: StackItem<P>, s: seq<StackItem<P>>): seq<StackItem<P>> {
    if s == [] || Abs(s[0].offset) <= Abs(x.offset) then [x] + s
    else [s[0]] + InsertByDepth(x, s[1..])
  }

  /** A stable sort by non-increasing |offset|: what Array.prototype.sort does
      with the comparator |b.offset| - |a.offset|. */
  function SortByDepth<P>(s: seq<StackItem<P>>): seq<StackItem<P>> {
    if s == [] then [] else InsertByDepth(s[0], SortByDepth(s[1..]))
  }

  /** The cards the slider renders, back to front: at most three, the deeper
      ones first. */
  function Stack<P>(projects: seq<P>, active: int): (r: seq<StackItem<P>>)
    ensures |r| <= 3 && DeepestFirst(r)
  {
    var near := NearFocus(Tagged(projects, active));
    NearFocusWindow(projects, active);
    SortByDepthSpec(near);
    assert |SortByDepth(near)| == |multiset(SortByDepth(near))| == |near|;
    SortByDepth(near)
  }

  ghost predicate DeepestFirst<P>(s: seq<StackItem<P>>) {
    forall i, j :: 0 <= i < j < |s| ==> Abs(s[i].offset) >= Abs(s[j].offset)
  }

  /** Inserting keeps every card and adds only the inserted one. */
  lemma {:induction false} InsertByDepthPermutes<P>(x: StackItem<P>, s: seq<StackItem<P>>)
    ensures multiset(InsertByDepth(x, s)) == multiset([x] + s)
  {
    if s != [] && Abs(s[0].offset) > Abs(x.offset) {
      InsertByDepthPermutes(x, s[1..]);
      assert s == [s[0]] + s[1..];
    }
  }

  /** A depth bound that holds for `x` and for every item of `s` holds for
      every item of the insertion. */
  lemma {:induction false} InsertByDepthBounded<P>(x: StackItem<P>, s: seq<StackItem<P>>, m: int)
    requires Abs(x.offset) <= m
    requires forall k :: 0 <= k < |s| ==> Abs(s[k].offset) <= m
    ensures forall k :: 0 <= k < |InsertByDepth(x, s)| ==> Abs(InsertByDepth(x, s)[k].offset) <= m
  {
    if s != [] && Abs(s[0].offset) > Abs(x.offset) {
      InsertByDepthBounded(x, s[1..], m);
    }
  }

  lemma {:induction false} InsertByDepthSpec<P>(x: StackItem<P>, s: seq<StackItem<P>>)
    requires DeepestFirst(s)
    ensures DeepestFirst(InsertByDepth(x, s))
    ensures multiset(InsertByDepth(x, s)) == multiset([x] + s)
  {
    InsertByDepthPermutes(x, s);
    if s != [] && Abs(s[0].offset) > Abs(x.offset) {
      InsertByDepthSpec(x, s[1..]);
      InsertByDepthBounded(x, s[1..], Abs(s[0].offset));
    }
  }

  /** The sort puts deeper cards first and keeps every card. */
  lemma {:induction false} SortByDepthSpec<P>(s: seq<StackItem<P>>)
    ensures DeepestFirst(SortByDepth(s))
    ensures multiset(SortByDepth(s)) == multiset(s)
  {
    if s != [] {
      SortByDepthSpec(s[1..]);
      InsertByDepthSpec(s[0], SortByDepth(s[1..]));
      assert s == [s[0]] + s[1..];
    }
  }

  /** The card for the project at active + offset, if there is one. */
  function CardAt<P>(projects: seq<P>, active: int, offset: int): seq<StackItem<P>> {
    if 0 <= active + offset < |projects| then [StackItem(projects[active + offset], offset)] else []
  }

  /** Filtering the tagged list keeps the neighbours of the active index in
      list order: the previous project, the active one, the next one. */
  lemma {:induction false} NearFocusWindow<P>(projects: seq<P>, active: int)
    ensures NearFocus(Tagged(projects, active))
         == CardAt(projects, active, -1) + CardAt(projects, active, 0) + CardAt(projects, active, 1)
  {
    if projects != [] {
      var rest := projects[1..];
      NearFocusWindow(rest, active - 1);
      assert Tagged(projects, active)[1..] == Tagged(rest, active - 1);
      if active >= 2 {
        assert CardAt(rest, active - 1, -1) == CardAt(projects, active, -1);
        assert CardAt(rest, active - 1, 0) == CardAt(projects, active, 0);
        assert CardAt(rest, active - 1, 1) == CardAt(projects, active, 1);
      } else if active == 1 {
        assert CardAt(rest, active - 1, 0) == CardAt(projects, active, 0);
        assert CardAt(rest, active - 1, 1) == CardAt(projects, active, 1);
      } else if active == 0 {
        assert CardAt(rest, active - 1, 1) == CardAt(projects, active, 1);
      }
    }
  }

  /** The stack is exactly: the previous project (offset -1), then the next
      one (offset +1), then the active one (offset 0), each when it exists.
      So the focused card comes last and -1 stays before +1. */
  lemma StackShape<P>(projects: seq<P>, active: int)
    ensures Stack(projects, active)
         == CardAt(projects, active, -1) + CardAt(projects, active, 1) + CardAt(projects, active, 0)
  {
    NearFocusWindow(projects, active);
    var a, b, c := CardAt(projects, active, -1), CardAt(projects, active, 0), CardAt(projects, active, 1);
    var w := a + b + c;
    if b != [] {
      var y := b[0];
      assert SortByDepth([y]) == [y];
      if c != [] {
        assert SortByDepth([y] + c) == c + [y] by {
          assert ([y] + c)[1..] == c;
          assert SortByDepth(c) == c;
        }
      } else {
        assert [y] + c == [y];
      }
      if a != [] {
        assert w[1..] == b + c;
      }
    } else if a != [] && c != [] {
      assert false;
    } else if a != [] {
      assert w == [a[0]];
      assert SortByDepth([a[0]]) == [a[0]];
    } else if c != [] {
      assert w == [c[0]];
      assert SortByDepth([c[0]]) == [c[0]];
    } else {
      assert w == [];
    }
  }

  /** The stack holds exactly the projects whose index is within 1 of the
      active index, each tagged with index - active; there are at most three. */
  lemma StackMembers<P>(projects: seq<P>, active: int, item: StackItem<P>)
    ensures |Stack(projects, active)| <= 3
    ensures item in Stack(projects, active) <==>
      exists i :: 0 <= i < |projects| && Abs(i - active) <= 1 && item == StackItem(projects[i], i - active)
  {
    StackShape(projects, active);
    if exists i :: 0 <= i < |projects| && Abs(i - active) <= 1 && item == StackItem(projects[i], i - active) {
      var i :| 0 <= i < |projects| && Abs(i - active) <= 1 && item == StackItem(projects[i], i - active);
      assert item in CardAt(projects, active, i - active);
    }
    if item in Stack(projects, active) {
      var i := active + item.offset;
      assert 0 <= i < |projects| && Abs(i - active) <= 1 && item == StackItem(projects[i], i - active);
    }
  }

  /** When the active index is in range the last card of the stack is the
      active project, and it is the only card with offset 0. */
  lemma StackFocus<P>(projects: seq<P>, active: int)
    requires 0 <= active < |projects|
    ensures var s := Stack(projects, active);
      && s != [] && s[|s| - 1] == StackItem(projects[active], 0)
      && forall k :: 0 <= k < |s| - 1 ==> s[k].offset != 0
  {
    StackShape(projects, active);
  }

  // ---------------------------------------------------------------------------
  // One card
  // ---------------------------------------------------------------------------

  /** A card's stacking order: 30 - |depth|. */
  function ZIndex(depth: int): int {
    30 - Abs(depth)
  }

  /** Only the card at offset 0 is focused; only it takes pointer events,
      hover and wheel input. */
  predicate IsFocused(offset: int) {
    offset == 0
  }

  /** The focused card is drawn strictly above every other card of the stack. */
  lemma FocusedCardOnTop<P>(projects: seq<P>, active: int, i: int, j: int)
    requires 0 <= i < |Stack(projects, active)| && 0 <= j < |Stack(projects, active)| && i != j
    requires IsFocused(Stack(projects, active)[i].offset)
    ensures ZIndex(Stack(projects, active)[i].offset) > ZIndex(Stack(projects, active)[j].offset)
    ensures !IsFocused(Stack(projects, active)[j].offset)
  {
    StackShape(projects, active);
  }

  // ---------------------------------------------------------------------------
  // Navigation
  // ---------------------------------------------------------------------------

  /** prev: one step back, never below 0. */
  function PrevIndex(i: int): (r: int)
    ensures 0 <= r
    ensures HasPrev(i) ==> r == i - 1
    ensures 0 <= i ==> r <= i && (r == i <==> !HasPrev(i))
  {
    if i - 1 > 0 then i - 1 else 0
  }

  /** next: one step forward, never beyond count - 1. */
  function NextIndex(i: int, count: int): (r: int)
    ensures r <= count - 1
    ensures HasNext(i, count) ==> r == i + 1
    ensures i <= count - 1 ==> i <= r && (r == i <==> !HasNext(i, count))
  {
    if i + 1 < count - 1 then i + 1 else count - 1
  }

  /** Whether the "previous" button is enabled. */
  predicate HasPrev(i: int) {
    i > 0
  }

  /** Whether the "next" button is enabled. */
  predicate HasNext(i: int, count: int) {
    i < count - 1
  }

  /** The index invariant: within the list whenever the list is not empty. */
  predicate InRange(i: int, count: int) {
    count > 0 ==> 0 <= i < count
  }

  datatype SliderState = SliderState(activeIndex: int, lastWheelAt: int, focusedHovered: bool)

  const InitialSlider := SliderState(0, 0, false)

  /** Minimum time between two accepted wheel events, in milliseconds. */
  const WheelThrottleMs := 280

  /** A new active index; the effect on activeIndex clears the hover flag
      whenever the index actually changes. */
  function MoveTo(st: SliderState, i: int): (r: SliderState)
    ensures r.activeIndex == i && r.lastWheelAt == st.lastWheelAt
    ensures i != st.activeIndex ==> !r.focusedHovered
    ensures i == st.activeIndex ==> r == st
  {
    st.(activeIndex := i, focusedHovered := st.focusedHovered && i == st.activeIndex)
  }

  function PrevStep(st: SliderState): SliderState {
    MoveTo(st, PrevIndex(st.activeIndex))
  }

  function NextStep(st: SliderState, count: int): SliderState {
    MoveTo(st, NextIndex(st.activeIndex, count))
  }

  /** handleWheelNavigation at time `now`: keeps the index in range, and
      either ignores the event or records its time. */
  function WheelStep(st: SliderState, count: int, now: int, deltaY: int): (r: SliderState)
    ensures InRange(st.activeIndex, count) ==> InRange(r.activeIndex, count)
    ensures r == st || r.lastWheelAt == now
  {
    if now - st.lastWheelAt < WheelThrottleMs then st
    else
      var accepted := st.(lastWheelAt := now);
      var moved := if deltaY > 0 then NextStep(accepted, count) else accepted;
      if deltaY < 0 then PrevStep(moved) else moved
  }

  /** A wheel event inside the throttle window changes nothing; an accepted one
      records its time even when it does not move, moves forward for a
      positive delta, back for a negative one, and stays for a zero delta. */
  lemma WheelThrottle(st: SliderState, count: int, now: int, deltaY: int)
    ensures var r := WheelStep(st, count, now, deltaY);
      && (now - st.lastWheelAt < WheelThrottleMs ==> r == st)
      && (now - st.lastWheelAt >= WheelThrottleMs ==>
            && r.lastWheelAt == now
            && (deltaY > 0 ==> r.activeIndex == NextIndex(st.activeIndex, count))
            && (deltaY < 0 ==> r.activeIndex == PrevIndex(st.activeIndex))
            && (deltaY == 0 ==> r.activeIndex == st.activeIndex && r.focusedHovered == st.focusedHovered))
  {
  }

  /** After an accepted wheel event, every event of the next 280 ms is ignored. */
  lemma WheelBurstMovesOnce(st: SliderState, count: int, t1: int, d1: int, t2: int, d2: int)
    requires t1 - st.lastWheelAt >= WheelThrottleMs
    requires t1 <= t2 < t1 + WheelThrottleMs
    ensures WheelStep(WheelStep(st, count, t1, d1), count, t2, d2) == WheelStep(st, count, t1, d1)
  {
  }

  /** What the user can do to the slider. */
  datatype Input =
    | PrevClick
    | NextClick
    | CardWheel(offset: int, now: int, deltaY: int)
    | CardHover(offset: int, entering: bool)

  /** One input. Wheel and hover reach the slider only through the focused
      card; no input takes the index out of range, and only a wheel event
      can change the time of the last accepted wheel event. */
  function Apply(st: SliderState, count: int, input: Input): (r: SliderState)
    ensures InRange(st.activeIndex, count) ==> InRange(r.activeIndex, count)
    ensures !input.CardWheel? ==> r.lastWheelAt == st.lastWheelAt
    ensures input.CardHover? ==> r.activeIndex == st.activeIndex
    ensures (input.CardWheel? || input.CardHover?) && !IsFocused(input.offset) ==> r == st
    ensures input.CardHover? && IsFocused(input.offset) ==> r == st.(focusedHovered := input.entering)
  {
    match input
    case PrevClick => PrevStep(st)
    case NextClick => NextStep(st, count)
    case CardWheel(offset, now, deltaY) =>
      if IsFocused(offset) then WheelStep(st, count, now, deltaY) else st
    case CardHover(offset, entering) =>
      if IsFocused(offset) then st.(focusedHovered := entering) else st
  }

  function Run(st: SliderState, count: int, inputs: seq<Input>): SliderState
    decreases |inputs|
  {
    if inputs == [] then st else Run(Apply(st, count, inputs[0]), count, inputs[1..])
  }

  /** For a non-empty list the active index stays in [0, count - 1] under any
      sequence of inputs. */
  lemma {:induction false} RunKeepsIndexInRange(st: SliderState, count: int, inputs: seq<Input>)
    requires InRange(st.activeIndex, count)
    ensures InRange(Run(st, count, inputs).activeIndex, count)
    decreases |inputs|
  {
    if inputs != [] {
      var next := Apply(st, count, inputs[0]);
      assert InRange(next.activeIndex, count);
      RunKeepsIndexInRange(next, count, inputs[1..]);
    }
  }

  /** The slider component's state. */
  class Slider<P> {
    const projects: seq<P>
    var activeIndex: int
    var lastWheelAt: int
    var focusedHovered: bool

    function State(): SliderState
      reads this
    {
      SliderState(activeIndex, lastWheelAt, focusedHovered)
    }

    ghost predicate Valid()
      reads this
    {
      InRange(activeIndex, |projects|)
    }

    constructor (projects: seq<P>)
      ensures this.projects == projects && State() == InitialSlider && Valid()
    {
      this.projects := projects;
      activeIndex, lastWheelAt, focusedHovered := 0, 0, false;
    }

    /** The project whose title is shown: projects[activeIndex], if it exists. */
    function FocusedProject(): (r: Option<P>)
      reads this
      requires Valid()
      ensures r.Some? <==> |projects| > 0
      ensures r.Some? ==> r.value == projects[activeIndex]
    {
      if 0 <= activeIndex < |projects| then Some(projects[activeIndex]) else None
    }

    /** The cards rendered for the current state: deepest first, with the
        active project last and the only card at offset 0. */
    function Cards(): (r: seq<StackItem<P>>)
      reads this
      requires Valid()
      ensures |r| <= 3 && DeepestFirst(r)
      ensures |projects| > 0 ==>
        && r != [] && r[|r| - 1] == StackItem(projects[activeIndex], 0)
        && forall k :: 0 <= k < |r| - 1 ==> r[k].offset != 0
    {
      if |projects| > 0 then StackFocus(projects, activeIndex); Stack(projects, activeIndex)
      else Stack(projects, activeIndex)
    }

    method Prev()
      requires Valid()
      modifies this
      ensures Valid() && State() == PrevStep(old(State()))
    {
      var i := PrevIndex(activeIndex);
      if i != activeIndex {
        focusedHovered := false;
      }
      activeIndex := i;
    }

    method Next()
      requires Valid()
      modifies this
      ensures Valid() && State() == NextStep(old(State()), |projects|)
    {
      var i := NextIndex(activeIndex, |projects|);
      if i != activeIndex {
        focusedHovered := false;
      }
      activeIndex := i;
    }

    method HandleWheelNavigation(now: int, deltaY: int)
      requires Valid()
      modifies this
      ensures Valid() && State() == WheelStep(old(State()), |projects|, now, deltaY)
    {
      if now - lastWheelAt < WheelThrottleMs {
        return;
      }
      lastWheelAt := now;
      if deltaY > 0 {
        Next();
      }
      if deltaY < 0 {
        Prev();
      }
    }

    /** A wheel event on the card at `offset`; only the focused card forwards it. */
    method OnCardWheel(offset: int, now: int, deltaY: int)
      requires Valid()
      modifies this
      ensures Valid() && State() == Apply(old(State()), |projects|, CardWheel(offset, now, deltaY))
    {
      if !IsFocused(offset) {
        return;
      }
      HandleWheelNavigation(now, deltaY);
    }

    /** The pointer entering or leaving the card at `offset`. */
    method OnCardHover(offset: int, entering: bool)
      requires Valid()
      modifies this
      ensures Valid() && State() == Apply(old(State()), |projects|, CardHover(offset, entering))
    {
      if IsFocused(offset) {
        focusedHovered := entering;
      }
    }
  }
}
