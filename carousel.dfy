/**
  The featured-products carousel (frontend/src/components/FeaturedCarousel.tsx):
  how many cards fit at a width, when the products are laid out as a plain grid,
  and the `currentIndex` state moved by the arrows, the indicators and the
  five-second auto-advance.

  `n` is the number of products and `k` is `Math.floor(itemsToShow)`; the
  carousel keeps `0 <= currentIndex <= n - k` as long as `itemsToShow` stays
  put. A resize does not touch `currentIndex`, so after a widening the index
  may sit past `n - k`; only `0 <= currentIndex <= max(0, n - 1)` survives every
  event. The arrows do not bring it back: the right arrow is disabled there and
  the left one steps back a single card. A tick or an indicator click does.
*/
module Carousel {

  /** The cards shown at a window width: 1.2 below 640px, 2 below 1024px, else 4. */
  function ItemsToShow(width: int): (x: real)
    ensures x.Floor == 1 <==> width < 640
    ensures x.Floor == 2 <==> 640 <= width < 1024
    ensures x.Floor == 4 <==> 1024 <= width
    ensures IsItemsToShow(x)
  {
    if width < 640 then 1.2 else if width < 1024 then 2.0 else 4.0
  }

  /** The values `itemsToShow` takes. */
  predicate IsItemsToShow(x: real)
  {
    x == 1.2 || x == 2.0 || x == 4.0
  }

  /** For a whole number of products, "fits in `x`" and "fits in `floor(x)`" agree. */
  lemma FitsIffFitsFloor(n: int, x: real)
    ensures n as real <= x <==> n <= x.Floor
  {
  }

  /** The grid is shown when every product fits at once. */
  predicate ShowsGrid(n: nat, k: int)
  {
    n <= k
  }

  /** `handleNext`: one step right unless the last window is already shown. */
  function NextIndex(i: int, n: nat, k: int): (r: int)
    ensures r == i || r == i + 1
    ensures r == i + 1 <==> !NextDisabled(i, n, k)
    ensures InRange(i, n, k) ==> InRange(r, n, k)
  {
    if i < n - k then i + 1 else i
  }

  /** `handlePrev`: one step left unless at the start. */
  function PrevIndex(i: int): (r: int)
    ensures r == i || r == i - 1
    ensures r == i - 1 <==> i > 0
    ensures 0 <= i ==> 0 <= r
  {
    if i > 0 then i - 1 else i
  }

  /** The auto-advance updater: one step right, back to the start after the last window. */
  function AutoAdvanceIndex(prev: int, n: nat, k: int): (r: int)
    ensures NextDisabled(prev, n, k) ==> r == 0
    ensures !NextDisabled(prev, n, k) ==> r == prev + 1
    ensures 0 <= prev && k <= n ==> InRange(r, n, k)
  {
    if prev >= n - k then 0 else prev + 1
  }

  /**
    The number of progress indicators, one per window position: indicators
    `0 .. c - 1` are exactly the positions `0 .. n - k`.
  */
  function IndicatorCount(n: nat, k: int): (c: nat)
    ensures !ShowsGrid(n, k) ==> c >= 2
    ensures c > 0 ==> c - 1 == n - k
    ensures c == 0 <==> n - k < 0
  {
    if n - k + 1 > 0 then n - k + 1 else 0
  }

  /** The left arrow is disabled at the start. */
  predicate PrevDisabled(i: int)
  {
    i == 0
  }

  /** The right arrow is disabled once the last window is reached (or passed). */
  predicate NextDisabled(i: int, n: nat, k: int)
  {
    i >= n - k
  }

  /** The window positions of a carousel of `n` products showing `k` at a time. */
  predicate InRange(i: int, n: nat, k: int)
  {
    0 <= i <= n - k
  }

  // ---------------------------------------------------------------------------
  // Event sequences at a fixed width

  datatype Event = Next | Prev | Tick | Indicator(idx: int)

  /** One event in carousel mode; a click on an indicator that is not rendered does nothing. */
  function Step(i: int, e: Event, n: nat, k: int): (r: int)
    ensures 0 <= i ==> 0 <= r
    ensures e.Indicator? && 0 <= e.idx <= n - k ==> r == e.idx
    ensures e.Indicator? && !(0 <= e.idx <= n - k) ==> r == i
  {
    match e
    case Next => NextIndex(i, n, k)
    case Prev => PrevIndex(i)
    case Tick => AutoAdvanceIndex(i, n, k)
    case Indicator(idx) => if 0 <= idx < IndicatorCount(n, k) then idx else i
  }

  /** The index after a sequence of events; it never goes below 0. */
  function Run(i: int, events: seq<Event>, n: nat, k: int): (r: int)
    ensures 0 <= i ==> 0 <= r
    ensures events == [] ==> r == i
    decreases events
  {
    if events == [] then i else Run(Step(i, events[0], n, k), events[1..], n, k)
  }

  /** Every event keeps the index among the window positions. */
  lemma StepInRange(i: int, e: Event, n: nat, k: int)
    requires !ShowsGrid(n, k) && InRange(i, n, k)
    ensures InRange(Step(i, e, n, k), n, k)
  {
  }

  /** From the start, any sequence of arrows, ticks and indicator clicks keeps `0 <= currentIndex <= n - k`. */
  lemma {:induction false} RunInRange(i: int, events: seq<Event>, n: nat, k: int)
    requires !ShowsGrid(n, k) && InRange(i, n, k)
    ensures InRange(Run(i, events, n, k), n, k)
    decreases events
  {
    if events != [] {
      StepInRange(i, events[0], n, k);
      RunInRange(Step(i, events[0], n, k), events[1..], n, k);
    }
  }

  function Repeat(e: Event, count: nat): (es: seq<Event>)
    ensures |es| == count
  {
    if count == 0 then [] else [e] + Repeat(e, count - 1)
  }

  /** Pressing the right arrow `j` times from the start reaches window `j`, for each window. */
  lemma {:induction false} NextReaches(i: int, j: nat, n: nat, k: int)
    requires 0 <= i && i + j <= n - k
    ensures Run(i, Repeat(Next, j), n, k) == i + j
    decreases j
  {
    if j > 0 {
      assert Repeat(Next, j)[1..] == Repeat(Next, j - 1);
      NextReaches(i + 1, j - 1, n, k);
    }
  }

  /** Auto-advance walks through the windows in order, reaching window `j` after `j` ticks. */
  lemma {:induction false} TicksReach(i: int, j: nat, n: nat, k: int)
    requires 0 <= i && i + j <= n - k
    ensures Run(i, Repeat(Tick, j), n, k) == i + j
    decreases j
  {
    if j > 0 {
      assert Repeat(Tick, j)[1..] == Repeat(Tick, j - 1);
      TicksReach(i + 1, j - 1, n, k);
    }
  }

  /** After one tick per window position the auto-advance is back at the start. */
  lemma TicksWrapAround(n: nat, k: int)
    requires !ShowsGrid(n, k)
    ensures Run(0, Repeat(Tick, n - k + 1), n, k) == 0
  {
    var es := Repeat(Tick, n - k + 1);
    TicksReach(0, n - k, n, k);
    RunSplit(0, Repeat(Tick, n - k), [Tick], n, k);
    assert es == Repeat(Tick, n - k) + [Tick] by {
      RepeatSnoc(Tick, n - k);
    }
  }

  lemma {:induction false} RepeatSnoc(e: Event, count: nat)
    ensures Repeat(e, count + 1) == Repeat(e, count) + [e]
  {
    if count > 0 {
      RepeatSnoc(e, count - 1);
    }
  }

  lemma {:induction false} RunSplit(i: int, a: seq<Event>, b: seq<Event>, n: nat, k: int)
    ensures Run(i, a + b, n, k) == Run(Run(i, a, n, k), b, n, k)
    decreases a
  {
    if a == [] {
      assert a + b == b;
    } else {
      assert (a + b)[1..] == a[1..] + b;
      RunSplit(Step(i, a[0], n, k), a[1..], b, n, k);
    }
  }

  /** The arrows move the index exactly when they are enabled. */
  lemma ArrowsMoveIffEnabled(i: int, n: nat, k: int)
    ensures NextIndex(i, n, k) != i <==> !NextDisabled(i, n, k)
    ensures PrevIndex(i) != i <==> i > 0
    ensures 0 <= i ==> (PrevIndex(i) != i <==> !PrevDisabled(i))
  {
  }

  // ---------------------------------------------------------------------------
  // The component's state

  /** The carousel's state for a fixed list of `n` products. */
  class FeaturedCarousel {
    const n: nat
    var currentIndex: int
    var isHovered: bool
    var itemsToShow: real

    /** `Math.floor(itemsToShow)`. */
    function K(): int
      reads this
    {
      itemsToShow.Floor
    }

    /** What holds after any sequence of events, resizes included. */
    ghost predicate Valid()
      reads this
    {
      0 <= currentIndex <= (if n > 0 then n - 1 else 0) && IsItemsToShow(itemsToShow)
    }

    /** The interval is set up: not everything fits and the mouse is not over the carousel. */
    predicate AutoAdvanceScheduled()
      reads this
    {
      !(n as real <= itemsToShow) && !isHovered
    }

    /**
      The state after mount at window width `width`: index 0, not hovered, and
      the width's card count, which the mount effect sets in place of the initial 4.
    */
    constructor (n: nat, width: int)
      ensures this.n == n && currentIndex == 0 && !isHovered && itemsToShow == ItemsToShow(width)
      ensures Valid() && (!ShowsGrid(n, K()) ==> InRange(currentIndex, n, K()))
    {
      this.n := n;
      currentIndex := 0;
      isHovered := false;
      itemsToShow := ItemsToShow(width);
    }

    method HandleNext()
      requires Valid() && !ShowsGrid(n, K())
      modifies this
      ensures currentIndex == NextIndex(old(currentIndex), n, K())
      ensures isHovered == old(isHovered) && itemsToShow == old(itemsToShow)
      ensures currentIndex != old(currentIndex) <==> !NextDisabled(old(currentIndex), n, K())
      ensures Valid() && (old(InRange(currentIndex, n, K())) ==> InRange(currentIndex, n, K()))
    {
      if currentIndex < n - K() {
        currentIndex := currentIndex + 1;
      }
    }

    method HandlePrev()
      requires Valid() && !ShowsGrid(n, K())
      modifies this
      ensures currentIndex == PrevIndex(old(currentIndex))
      ensures isHovered == old(isHovered) && itemsToShow == old(itemsToShow)
      ensures currentIndex != old(currentIndex) <==> !PrevDisabled(old(currentIndex))
      ensures Valid() && (old(InRange(currentIndex, n, K())) ==> InRange(currentIndex, n, K()))
    {
      if currentIndex > 0 {
        currentIndex := currentIndex - 1;
      }
    }

    /** One firing of the five-second interval; always lands among the window positions. */
    method Tick()
      requires Valid() && AutoAdvanceScheduled()
      modifies this
      ensures currentIndex == AutoAdvanceIndex(old(currentIndex), n, K())
      ensures isHovered == old(isHovered) && itemsToShow == old(itemsToShow)
      ensures Valid() && InRange(currentIndex, n, K())
    {
      FitsIffFitsFloor(n, itemsToShow);
      if currentIndex >= n - K() {
        currentIndex := 0;
      } else {
        currentIndex := currentIndex + 1;
      }
    }

    /** A click on indicator `idx`. */
    method SelectIndicator(idx: int)
      requires Valid() && !ShowsGrid(n, K()) && 0 <= idx < IndicatorCount(n, K())
      modifies this
      ensures currentIndex == idx
      ensures isHovered == old(isHovered) && itemsToShow == old(itemsToShow)
      ensures Valid() && InRange(currentIndex, n, K())
    {
      currentIndex := idx;
    }

    method MouseEnter()
      requires Valid()
      modifies this
      ensures isHovered && !AutoAdvanceScheduled()
      ensures currentIndex == old(currentIndex) && itemsToShow == old(itemsToShow) && Valid()
    {
      isHovered := true;
    }

    method MouseLeave()
      requires Valid()
      modifies this
      ensures !isHovered && (AutoAdvanceScheduled() <==> !ShowsGrid(n, K()))
      ensures currentIndex == old(currentIndex) && itemsToShow == old(itemsToShow) && Valid()
    {
      FitsIffFitsFloor(n, itemsToShow);
      isHovered := false;
    }

    /** `handleResize`: picks the card count for the new width and leaves the index where it was. */
    method Resize(width: int)
      requires Valid()
      modifies this
      ensures itemsToShow == ItemsToShow(width)
      ensures currentIndex == old(currentIndex) && isHovered == old(isHovered) && Valid()
    {
      itemsToShow := ItemsToShow(width);
    }
  }

  /** The grid is shown exactly when the auto-advance is never scheduled. */
  lemma GridIffNoAutoAdvance(n: nat, x: real)
    ensures ShowsGrid(n, x.Floor) <==> n as real <= x
  {
    FitsIffFitsFloor(n, x);
  }

  /**
    With the index past the last window position, the right arrow leaves it
    where it is and the left arrow brings it into range only from one past the
    end; a tick or a click on any rendered indicator always does.
  */
  lemma RecoveryPastLastWindow(i: int, n: nat, k: int)
    requires k <= n && i > n - k
    ensures NextIndex(i, n, k) == i && !InRange(NextIndex(i, n, k), n, k)
    ensures InRange(PrevIndex(i), n, k) <==> i == n - k + 1
    ensures InRange(AutoAdvanceIndex(i, n, k), n, k)
    ensures forall idx :: 0 <= idx < IndicatorCount(n, k) ==> InRange(Step(i, Indicator(idx), n, k), n, k)
  {
  }

  /**
    Six products on a narrow window, right arrow pressed five times, then the
    window widened past 1024px: the index stays at 5 while the last window
    position is now 2.
  */
  lemma WideningLeavesIndexPastLastWindow()
    ensures Run(0, Repeat(Next, 5), 6, ItemsToShow(500).Floor) == 5
    ensures !InRange(5, 6, ItemsToShow(1200).Floor)
  {
    NextReaches(0, 5, 6, 1);
  }
}
