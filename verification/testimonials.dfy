/**
 * The testimonial carousel: a current slide index over `count` testimonials
 * and an autoplay flag. Previous and next buttons wrap around, the dots jump
 * to a slide, every manual navigation switches autoplay off for good, and an
 * autoplay tick (every five seconds in the browser) advances one slide while
 * autoplay is on.
 */
module Testimonials {

  /** The number of testimonials the section lists. */
  const TestimonialCount: int := 4

  /** `(prev + 1) % testimonials.length` */
  function NextIndex(i: int, n: int): (r: int)
    requires 0 <= i < n
    ensures 0 <= r < n
    ensures i < n - 1 ==> r == i + 1
    ensures i == n - 1 ==> r == 0
  {
    (i + 1) % n
  }

  /** `(prev - 1 + testimonials.length) % testimonials.length` */
  function PreviousIndex(i: int, n: int): (r: int)
    requires 0 <= i < n
    ensures 0 <= r < n
    ensures 0 < i ==> r == i - 1
    ensures i == 0 ==> r == n - 1
  {
    (i - 1 + n) % n
  }

  /** What the carousel holds: the slide shown and whether autoplay runs. */
  datatype CarouselView = CarouselView(currentIndex: int, isAutoPlaying: bool)

  /** Something that changes the carousel: a button, a dot, or an autoplay tick. */
  datatype Event = Previous | Next | Slide(index: int) | Tick

  /** A manual navigation, as opposed to an autoplay tick. */
  predicate IsManual(e: Event)
  {
    !e.Tick?
  }

  /** The dots are rendered for the indices 0 .. count - 1 only. */
  predicate Allowed(e: Event, n: int)
  {
    e.Slide? ==> 0 <= e.index < n
  }

  /** The section mounts on the first slide with autoplay on. */
  function Initial(): (v: CarouselView)
    ensures v.currentIndex == 0 && v.isAutoPlaying
  {
    CarouselView(0, true)
  }

  /** The effect of one event on the carousel (the handlers and the interval callback). */
  function Step(v: CarouselView, e: Event, n: int): (r: CarouselView)
    requires 0 <= v.currentIndex < n && Allowed(e, n)
    ensures 0 <= r.currentIndex < n
    ensures IsManual(e) ==> !r.isAutoPlaying
    ensures e.Tick? ==> r.isAutoPlaying == v.isAutoPlaying
    ensures e.Tick? && !v.isAutoPlaying ==> r == v
  {
    match e
    case Previous => CarouselView(PreviousIndex(v.currentIndex, n), false)
    case Next => CarouselView(NextIndex(v.currentIndex, n), false)
    case Slide(index) => CarouselView(index, false)
    case Tick => if v.isAutoPlaying then v.(currentIndex := NextIndex(v.currentIndex, n)) else v
  }

  /** Applying a sequence of events in order. */
  function Run(v: CarouselView, events: seq<Event>, n: int): (r: CarouselView)
    requires 0 <= v.currentIndex < n
    requires forall k :: 0 <= k < |events| ==> Allowed(events[k], n)
    ensures 0 <= r.currentIndex < n
    ensures r.isAutoPlaying <==> v.isAutoPlaying && forall k :: 0 <= k < |events| ==> !IsManual(events[k])
    decreases |events|
  {
    if events == [] then v
    else Run(Step(v, events[0], n), events[1..], n)
  }

  /** Next then previous returns to the slide one started from. */
  lemma NextThenPrevious(v: CarouselView, n: int)
    requires 0 <= v.currentIndex < n
    ensures Step(Step(v, Next, n), Previous, n).currentIndex == v.currentIndex
  {
  }

  /** Previous then next returns to the slide one started from. */
  lemma PreviousThenNext(v: CarouselView, n: int)
    requires 0 <= v.currentIndex < n
    ensures Step(Step(v, Previous, n), Next, n).currentIndex == v.currentIndex
  {
  }

  /** `k` ticks of autoplay, as a sequence of events. */
  function Ticks(k: nat): seq<Event>
  {
    seq(k, j => Tick)
  }

  /** While autoplay runs, `k` ticks move the carousel `k` slides on, modulo the count. */
  lemma {:induction false} TicksAdvance(v: CarouselView, n: int, k: nat)
    requires 0 <= v.currentIndex < n && v.isAutoPlaying
    ensures Run(v, Ticks(k), n) == CarouselView((v.currentIndex + k) % n, true)
    decreases k
  {
    if k > 0 {
      var w := Step(v, Tick, n);
      assert Ticks(k)[1..] == Ticks(k - 1);
      TicksAdvance(w, n, k - 1);
      assert w.currentIndex == (v.currentIndex + 1) % n;
      ModAddOne(v.currentIndex, k - 1, n);
    } else {
      assert v.currentIndex % n == v.currentIndex;
    }
  }

  lemma ModAddOne(i: int, k: nat, n: int)
    requires 0 <= i < n
    ensures ((i + 1) % n + k) % n == (i + 1 + k) % n
  {
    if i + 1 == n {
      assert (i + 1) % n == 0;
      var q, r := k / n, k % n;
      ModUnique(i + 1 + k, n, q + 1, r);
    } else {
      assert (i + 1) % n == i + 1;
    }
  }

  /** Quotient and remainder are unique. */
  lemma ModUnique(x: int, n: int, q: int, r: int)
    requires 0 <= r < n && x == q * n + r
    ensures x % n == r
  {
    var q', r' := x / n, x % n;
    assert (q - q') * n == r' - r;
    if q - q' >= 1 {
      MulAtLeast(q - q', n);
      assert false;
    } else if q' - q >= 1 {
      MulAtLeast(q' - q, n);
      assert false;
    }
  }

  lemma MulAtLeast(d: int, n: int)
    requires d >= 1 && n > 0
    ensures d * n >= n
  {
    assert d * n == n + (d - 1) * n;
  }

  /** So autoplay left alone for `count` ticks comes back to the slide it started from. */
  lemma FullCycle(v: CarouselView, n: int)
    requires 0 <= v.currentIndex < n && v.isAutoPlaying
    ensures Run(v, Ticks(n), n) == v
  {
    TicksAdvance(v, n, n);
    ModUnique(v.currentIndex + n, n, 1, v.currentIndex);
  }

  /**
   * On the site's four testimonials: left alone, autoplay shows each in turn,
   * a different slide on each of ticks 0 .. 3, and comes back after four ticks.
   */
  lemma SiteCarouselCycles(v: CarouselView)
    requires 0 <= v.currentIndex < TestimonialCount && v.isAutoPlaying
    ensures forall k1, k2 :: 0 <= k1 < k2 < TestimonialCount
              ==> Run(v, Ticks(k1), TestimonialCount).currentIndex != Run(v, Ticks(k2), TestimonialCount).currentIndex
    ensures Run(v, Ticks(TestimonialCount), TestimonialCount) == v
  {
    var i, n := v.currentIndex, TestimonialCount;
    forall k | 0 <= k < n
      ensures Run(v, Ticks(k), n).currentIndex == if i + k < n then i + k else i + k - n
    {
      TicksAdvance(v, n, k);
      if i + k < n {
        ModUnique(i + k, n, 0, i + k);
      } else {
        ModUnique(i + k, n, 1, i + k - n);
      }
    }
    FullCycle(v, TestimonialCount);
  }

  /** The carousel component: its two state hooks. */
  class Carousel {
    const count: int
    var currentIndex: int
    var isAutoPlaying: bool

    ghost predicate Valid()
      reads this
    {
      0 <= currentIndex < count
    }

    function View(): CarouselView
      reads this
    {
      CarouselView(currentIndex, isAutoPlaying)
    }

    constructor (count: int)
      requires 0 < count
      ensures Valid() && this.count == count
      ensures View() == Initial()
    {
      this.count := count;
      currentIndex := 0;
      isAutoPlaying := true;
    }

    method GoToPrevious()
      requires Valid()
      modifies this
      ensures Valid()
      ensures View() == Step(old(View()), Previous, count)
    {
      isAutoPlaying := false;
      currentIndex := (currentIndex - 1 + count) % count;
    }

    method GoToNext()
      requires Valid()
      modifies this
      ensures Valid()
      ensures View() == Step(old(View()), Next, count)
    {
      isAutoPlaying := false;
      currentIndex := (currentIndex + 1) % count;
    }

    method GoToSlide(index: int)
      requires Valid() && 0 <= index < count
      modifies this
      ensures Valid()
      ensures View() == Step(old(View()), Slide(index), count)
    {
      isAutoPlaying := false;
      currentIndex := index;
    }

    /** The interval callback; the interval only exists while autoplay is on. */
    method AutoplayTick()
      requires Valid()
      modifies this
      ensures Valid()
      ensures View() == Step(old(View()), Tick, count)
    {
      if isAutoPlaying {
        currentIndex := (currentIndex + 1) % count;
      }
    }

    /** The "current / total" counter under the dots shows `currentIndex + 1`. */
    method CounterLabel() returns (shown: int)
      requires Valid()
      ensures 1 <= shown <= count
      ensures shown - 1 == currentIndex
    {
      shown := currentIndex + 1;
    }

    /** The dot drawn wide: exactly the one whose index is the current slide. */
    method IsDotActive(index: int) returns (active: bool)
      requires Valid() && 0 <= index < count
      ensures active <==> index == currentIndex
    {
      active := index == currentIndex;
    }
  }
}
