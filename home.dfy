/** The landing page: the slide carousel's index arithmetic and the
    `MedicalService` value class. */
module Home {

  /** The facts shown one per slide; there are as many slides as facts. */
  const HospitalFacts: seq<string> := [
    "Our hospital has a 98% patient satisfaction rate across all departments",
    "Our emergency response team arrives within 8 minutes on average",
    "MedCare Hospital has performed over 10,000 successful surgeries last year",
    "Our cardiac unit has a 95% recovery rate for heart patients",
    "We employ over 200 doctors specialized in 40 different medical fields",
    "Our pediatric ward treats over 5,000 children annually"
  ]

  const SlideCount: nat := |HospitalFacts|

  /** JavaScript's `%`: the remainder takes the sign of the dividend. */
  function JsRem(a: int, n: int): (r: int)
    requires n > 0
    ensures a >= 0 ==> r == a % n && 0 <= r < n
    ensures a < 0 ==> -n < r <= 0
  {
    if a >= 0 then a % n else -((-a) % n)
  }

  /** `(prevSlide + 1) % slides.length` */
  function NextIndex(i: int, n: int): (r: int)
    requires n > 0
    ensures i >= -1 ==> 0 <= r < n
    ensures 0 <= i < n - 1 ==> r == i + 1
    ensures i == n - 1 ==> r == 0
  {
    JsRem(i + 1, n)
  }

  /** `(prevSlide - 1 + slides.length) % slides.length` */
  function PrevIndex(i: int, n: int): (r: int)
    requires n > 0
    ensures i >= 1 - n ==> 0 <= r < n
    ensures 0 < i < n ==> r == i - 1
    ensures i == 0 ==> r == n - 1
  {
    JsRem(i - 1 + n, n)
  }

  /** Forward then back, or back then forward, returns to the slide. */
  lemma PrevUndoesNext(i: int, n: int)
    requires n > 0 && 0 <= i < n
    ensures PrevIndex(NextIndex(i, n), n) == i
    ensures NextIndex(PrevIndex(i, n), n) == i
  {
  }

  /** The slide shown after k ticks of the five-second timer. */
  function Advance(i: int, k: nat, n: int): int
    requires n > 0
  {
    if k == 0 then i else NextIndex(Advance(i, k - 1, n), n)
  }

  /** From a slide in range, k ticks move k slides on, wrapping round. */
  lemma {:induction false} AdvanceWraps(i: int, k: nat)
    requires 0 <= i < SlideCount
    ensures Advance(i, k, SlideCount) == (i + k) % SlideCount
  {
    if k > 0 {
      AdvanceWraps(i, k - 1);
      NextOfRemainder(i + k - 1);
    }
  }

  /** One step forward from the remainder of a is the remainder of a + 1. */
  lemma NextOfRemainder(a: nat)
    ensures NextIndex(a % SlideCount, SlideCount) == (a + 1) % SlideCount
  {
    var r := a % SlideCount;
    if r < SlideCount - 1 {
      assert a + 1 == (a / SlideCount) * SlideCount + (r + 1);
    } else {
      assert a + 1 == (a / SlideCount + 1) * SlideCount;
    }
  }

  /** As many ticks as slides bring the carousel back to where it was: the
      slide shown is periodic in the number of ticks. */
  lemma FullCycleReturns(i: int, k: nat)
    requires 0 <= i < SlideCount
    ensures Advance(i, k + SlideCount, SlideCount) == Advance(i, k, SlideCount)
  {
    AdvanceWraps(i, k + SlideCount);
    AdvanceWraps(i, k);
    ShiftByRound(i + k);
  }

  lemma ShiftByRound(a: nat)
    ensures (a + SlideCount) % SlideCount == a % SlideCount
  {
  }

  /** The `currentSlide` state of the page. */
  class Carousel {
    var currentSlide: int

    predicate Valid()
      reads this
    {
      0 <= currentSlide < SlideCount
    }

    constructor ()
      ensures currentSlide == 0 && Valid()
    {
      currentSlide := 0;
    }

    method NextSlide()
      modifies this
      ensures currentSlide == NextIndex(old(currentSlide), SlideCount)
      ensures old(Valid()) ==> Valid()
    {
      currentSlide := JsRem(currentSlide + 1, SlideCount);
    }

    method PrevSlide()
      modifies this
      ensures currentSlide == PrevIndex(old(currentSlide), SlideCount)
      ensures old(Valid()) ==> Valid()
    {
      currentSlide := JsRem(currentSlide - 1 + SlideCount, SlideCount);
    }

    /** The interval callback: the same step as the forward button. */
    method Tick()
      modifies this
      ensures currentSlide == NextIndex(old(currentSlide), SlideCount)
      ensures old(Valid()) ==> Valid()
    {
      NextSlide();
    }

    /** A dot was clicked: that slide is shown, whatever it is. */
    method GoToSlide(index: int)
      modifies this
      ensures currentSlide == index
      ensures Valid() <==> 0 <= index < SlideCount
    {
      currentSlide := index;
    }
  }

  /** The timer running a full round: every slide is shown once and the
      carousel ends where it started. */
  method RunFullRound(c: Carousel) returns (shown: seq<int>)
    requires c.Valid()
    modifies c
    ensures c.currentSlide == old(c.currentSlide) && c.Valid()
    ensures |shown| == SlideCount
    ensures forall k :: 0 <= k < SlideCount ==> shown[k] == (old(c.currentSlide) + k + 1) % SlideCount
  {
    ghost var start := c.currentSlide;
    shown := [];
    var k := 0;
    while k < SlideCount
      invariant 0 <= k <= SlideCount
      invariant c.Valid() && c.currentSlide == (start + k) % SlideCount
      invariant |shown| == k
      invariant forall m :: 0 <= m < k ==> shown[m] == (start + m + 1) % SlideCount
    {
      c.Tick();
      shown := shown + [c.currentSlide];
      k := k + 1;
    }
  }

  /** `MedicalService`: three values fixed at construction and their getters. */
  class MedicalService {
    const name: string
    const description: string
    const icon: string

    constructor (name: string, description: string, icon: string)
      ensures this.name == name && this.description == description && this.icon == icon
    {
      this.name := name;
      this.description := description;
      this.icon := icon;
    }

    function GetDisplayName(): (r: string)
      ensures r == name
    {
      name
    }

    function GetDescription(): (r: string)
      ensures r == description
    {
      description
    }

    function GetIcon(): (r: string)
      ensures r == icon
    {
      icon
    }
  }
}
