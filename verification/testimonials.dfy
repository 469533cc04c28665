/** The testimonials carousel on the home page: an active index over a fixed list of
    testimonials, moved by the previous and next buttons and set by the dots. */
module Testimonials {

  /** A testimonial, without its quote text and photo. */
  datatype Testimonial = Testimonial(id: nat, author: string, city: string, rating: nat)

  const Items: seq<Testimonial> := [
    Testimonial(1, "Priya Sharma", "Mumbai", 5),
    Testimonial(2, "Ananya Reddy", "Bangalore", 5),
    Testimonial(3, "Meera Kapoor", "Delhi", 5)
  ]

  // ---------------------------------------------------------------- index arithmetic

  /** `(prev + 1) % n`. Both operands are non-negative, so JavaScript's `%` and Dafny's agree. */
  function NextIndex(i: nat, n: nat): (j: nat)
    requires n > 0
    ensures j < n
  {
    (i + 1) % n
  }

  /** `(prev - 1 + n) % n`, again with a non-negative dividend for every index `prev >= 0`. */
  function PrevIndex(i: nat, n: nat): (j: nat)
    requires n > 0
    ensures j < n
  {
    (i - 1 + n) % n
  }

  /** The next button steps one place forward and wraps from the last item to the first. */
  lemma NextSteps(i: nat, n: nat)
    requires i < n
    ensures i + 1 < n ==> NextIndex(i, n) == i + 1
    ensures i + 1 == n ==> NextIndex(i, n) == 0
  {
  }

  /** The previous button steps one place back and wraps from the first item to the last. */
  lemma PrevSteps(i: nat, n: nat)
    requires i < n
    ensures i > 0 ==> PrevIndex(i, n) == i - 1
    ensures i == 0 ==> PrevIndex(i, n) == n - 1
  {
  }

  /** Previous undoes next and next undoes previous. */
  lemma NextPrevInverse(i: nat, n: nat)
    requires i < n
    ensures PrevIndex(NextIndex(i, n), n) == i
    ensures NextIndex(PrevIndex(i, n), n) == i
  {
    NextSteps(i, n);
    PrevSteps(i, n);
    if i + 1 < n {
      PrevSteps(i + 1, n);
    } else {
      PrevSteps(0, n);
    }
    if i > 0 {
      NextSteps(i - 1, n);
    } else {
      NextSteps(n - 1, n);
    }
  }

  /** The index after pressing next `k` times. */
  function NextTimes(i: nat, k: nat, n: nat): (j: nat)
    requires n > 0
    ensures j < n || (k == 0 && j == i)
    decreases k
  {
    if k == 0 then i else NextIndex(NextTimes(i, k - 1, n), n)
  }

  /** Pressing next `k <= n` times advances the index by `k` places around the circle. */
  lemma {:induction false} NextTimesAdvances(i: nat, k: nat, n: nat)
    requires i < n && k <= n
    ensures NextTimes(i, k, n) == if i + k < n then i + k else i + k - n
    decreases k
  {
    if k > 0 {
      NextTimesAdvances(i, k - 1, n);
      var v := if i + k - 1 < n then i + k - 1 else i + k - 1 - n;
      NextSteps(v, n);
    }
  }

  /** Going once round the testimonials returns to the one shown before. */
  lemma FullCycle(i: nat, n: nat)
    requires i < n
    ensures NextTimes(i, n, n) == i
  {
    NextTimesAdvances(i, n, n);
  }

  /** In particular three presses of next on the three testimonials. */
  lemma ThreeNextsReturn(i: nat)
    requires i < |Items|
    ensures NextTimes(i, 3, |Items|) == i
  {
    FullCycle(i, |Items|);
  }

  // ---------------------------------------------------------------- the component's state

  /** `activeIndex`, updated in place by the buttons and the dots. */
  class Carousel {
    var activeIndex: nat

    predicate Valid()
      reads this
    {
      activeIndex < |Items|
    }

    /** The testimonial on display. */
    function Shown(): Testimonial
      reads this
      requires Valid()
    {
      Items[activeIndex]
    }

    /** The dot drawn highlighted, by position. */
    predicate DotActive(index: nat)
      reads this
    {
      index == activeIndex
    }

    /** The carousel starts on the first testimonial. */
    constructor()
      ensures Valid() && activeIndex == 0
    {
      activeIndex := 0;
    }

    /** `nextTestimonial`. */
    method Next()
      requires Valid()
      modifies this
      ensures Valid()
      ensures activeIndex == NextIndex(old(activeIndex), |Items|)
    {
      activeIndex := (activeIndex + 1) % |Items|;
    }

    /** `prevTestimonial`. */
    method Prev()
      requires Valid()
      modifies this
      ensures Valid()
      ensures activeIndex == PrevIndex(old(activeIndex), |Items|)
    {
      activeIndex := (activeIndex - 1 + |Items|) % |Items|;
    }

    /** A dot's click handler: show the testimonial at that dot's position. */
    method GoTo(index: nat)
      requires index < |Items|
      modifies this
      ensures Valid() && activeIndex == index
      ensures DotActive(index) && forall j :: j != index ==> !DotActive(j)
    {
      activeIndex := index;
    }
  }
}
