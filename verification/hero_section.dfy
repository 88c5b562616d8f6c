/** The hero slideshow of app/components/HeroSection.tsx: which of the six
    images is shown, advanced by an interval while auto-slide is on, moved
    by swipes and set by the dots. Timers are events; touch positions are
    whole pixels. */
module Hero {

  /** `weddingImages.length`. */
  const ImageCount: int := 6
  const MinSwipeDistance: int := 30

  predicate InRange(i: int) {
    0 <= i < ImageCount
  }

  /** `(prev + 1) % weddingImages.length`. */
  function Next(i: int): (j: int)
    ensures InRange(j)
  {
    (i + 1) % ImageCount
  }

  /** `prev > 0 ? prev - 1 : weddingImages.length - 1`. */
  function Prev(i: int): (j: int)
    ensures InRange(i) ==> InRange(j)
  {
    if i > 0 then i - 1 else ImageCount - 1
  }

  /** Forward and back are inverse steps around the ring of images. */
  lemma NextPrevInverse(i: int)
    requires InRange(i)
    ensures InRange(Next(i)) && InRange(Prev(i))
    ensures Prev(Next(i)) == i && Next(Prev(i)) == i
  {
  }

  /** The image shown after `k` interval ticks. */
  function Advance(i: int, k: nat): int {
    if k == 0 then i else Next(Advance(i, k - 1))
  }

  /** `k` ticks move `k` places around the ring, so six ticks come back. */
  lemma {:induction false} AdvanceIsModular(i: int, k: nat)
    requires InRange(i)
    ensures Advance(i, k) == (i + k) % ImageCount
  {
    if k > 0 {
      AdvanceIsModular(i, k - 1);
    }
  }

  /** Moving `k` places around the ring, for `k` up to one full turn. */
  lemma WrapAround(i: int, k: int)
    requires InRange(i) && 0 < k <= ImageCount
    ensures (i + k) % ImageCount == if i + k < ImageCount then i + k else i + k - ImageCount
  {
  }

  lemma FullCycle(i: int)
    requires InRange(i)
    ensures Advance(i, ImageCount as nat) == i
    ensures forall k: nat :: 0 < k < ImageCount ==> Advance(i, k) != i
  {
    AdvanceIsModular(i, ImageCount as nat);
    WrapAround(i, ImageCount);
    forall k: nat | 0 < k < ImageCount ensures Advance(i, k) != i {
      AdvanceIsModular(i, k);
      WrapAround(i, k);
    }
  }

  /** The image a counted swipe of `distance = start - end` leads to: past
      the threshold leftwards is forward, rightwards is back, else no move. */
  function SwipeTarget(i: int, distance: int): (j: int)
    requires InRange(i)
    ensures InRange(j)
    ensures -MinSwipeDistance <= distance <= MinSwipeDistance ==> j == i
    ensures distance > MinSwipeDistance ==> Prev(j) == i
    ensures distance < -MinSwipeDistance ==> Next(j) == i
  {
    var magnitude := if distance < 0 then -distance else distance;
    if magnitude > MinSwipeDistance then
      (if distance > 0 then Next(i) else Prev(i))
    else i
  }

  /** Swiping one way and then the same distance back returns to the image
      one started from. */
  lemma SwipeThereAndBack(i: int, distance: int)
    requires InRange(i)
    ensures SwipeTarget(SwipeTarget(i, distance), -distance) == i
  {
    NextPrevInverse(i);
  }

  class Carousel {
    var activeImage: int
    var imagesLoaded: bool
    var touchStartX: int
    var touchEndX: int
    var autoSlideEnabled: bool
    /** Timers that will turn auto-slide back on, scheduled and not yet fired. */
    var reenableTimers: nat

    ghost predicate Valid()
      reads this
    {
      InRange(activeImage)
    }

    constructor ()
      ensures Valid()
      ensures activeImage == 0 && !imagesLoaded && touchStartX == 0 && touchEndX == 0
      ensures autoSlideEnabled && reenableTimers == 0
    {
      activeImage := 0;
      imagesLoaded := false;
      touchStartX, touchEndX := 0, 0;
      autoSlideEnabled := true;
      reenableTimers := 0;
    }

    /** The preload finished (every image loaded or failed). */
    method FinishLoading()
      requires Valid()
      modifies this`imagesLoaded
      ensures Valid() && imagesLoaded
    {
      imagesLoaded := true;
    }

    /** A four-second tick: the interval exists only while auto-slide is on
        and the images are loaded; otherwise nothing happens. */
    method IntervalTick()
      requires Valid()
      modifies this`activeImage
      ensures Valid()
      ensures activeImage == if autoSlideEnabled && imagesLoaded then Next(old(activeImage)) else old(activeImage)
    {
      if autoSlideEnabled && imagesLoaded {
        activeImage := Next(activeImage);
      }
    }

    /** `handleTouchStart`: remember where the finger went down and stop
        auto-sliding. */
    method TouchStart(x: int)
      requires Valid()
      modifies this
      ensures Valid()
      ensures touchStartX == x && touchEndX == x && !autoSlideEnabled
      ensures activeImage == old(activeImage) && imagesLoaded == old(imagesLoaded)
      ensures reenableTimers == old(reenableTimers)
    {
      touchStartX, touchEndX := x, x;
      autoSlideEnabled := false;
    }

    /** `handleTouchMove`: follow the finger, unless no start was recorded. */
    method TouchMove(x: int)
      requires Valid()
      modifies this`touchEndX
      ensures Valid()
      ensures touchEndX == if old(touchStartX) == 0 then old(touchEndX) else x
    {
      if touchStartX == 0 {
        return;
      }
      touchEndX := x;
    }

    /** `handleTouchEnd`. Without both positions it only schedules auto-slide
        to come back; otherwise it applies the swipe, forgets both positions
        and schedules auto-slide to come back. */
    method TouchEnd()
      requires Valid()
      modifies this
      ensures Valid()
      ensures reenableTimers == old(reenableTimers) + 1
      ensures imagesLoaded == old(imagesLoaded) && autoSlideEnabled == old(autoSlideEnabled)
      ensures old(touchStartX) == 0 || old(touchEndX) == 0 ==>
        activeImage == old(activeImage) && touchStartX == old(touchStartX) && touchEndX == old(touchEndX)
      ensures old(touchStartX) != 0 && old(touchEndX) != 0 ==>
        activeImage == SwipeTarget(old(activeImage), old(touchStartX) - old(touchEndX)) &&
        touchStartX == 0 && touchEndX == 0
    {
      if touchStartX == 0 || touchEndX == 0 {
        reenableTimers := reenableTimers + 1;
        return;
      }
      var distance := touchStartX - touchEndX;
      if distance > MinSwipeDistance || distance < -MinSwipeDistance {
        if distance > 0 {
          activeImage := Next(activeImage);
        } else {
          activeImage := Prev(activeImage);
        }
      }
      touchStartX, touchEndX := 0, 0;
      reenableTimers := reenableTimers + 1;
    }

    /** A navigation dot is clicked: show its image and pause auto-slide. */
    method DotClick(index: int)
      requires Valid() && InRange(index)
      modifies this
      ensures Valid()
      ensures activeImage == index && !autoSlideEnabled && reenableTimers == old(reenableTimers) + 1
      ensures touchStartX == old(touchStartX) && touchEndX == old(touchEndX) && imagesLoaded == old(imagesLoaded)
    {
      activeImage := index;
      autoSlideEnabled := false;
      reenableTimers := reenableTimers + 1;
    }

    /** One of the scheduled timers fires and turns auto-slide back on. */
    method ReenableFired()
      requires Valid() && reenableTimers > 0
      modifies this
      ensures Valid()
      ensures autoSlideEnabled && reenableTimers == old(reenableTimers) - 1
      ensures activeImage == old(activeImage) && imagesLoaded == old(imagesLoaded)
      ensures touchStartX == old(touchStartX) && touchEndX == old(touchEndX)
    {
      autoSlideEnabled := true;
      reenableTimers := reenableTimers - 1;
    }
  }

  /** A swipe gesture from `start` to `end` (both non-zero) on a carousel
      showing `shown`: the index stays in range and moves by at most one. */
  method Swipe(shown: int, start: int, end: int) returns (now: int)
    requires InRange(shown) && start != 0 && end != 0
    ensures InRange(now)
    ensures now == shown || now == Next(shown) || now == Prev(shown)
    ensures start - end > MinSwipeDistance <==> now == Next(shown)
  {
    var c := new Carousel();
    c.DotClick(shown);
    c.TouchStart(start);
    c.TouchMove(end);
    c.TouchEnd();
    now := c.activeImage;
  }
}
