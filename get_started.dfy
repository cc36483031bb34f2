/** The onboarding carousel: a slide counter stepped by Next and Back over four slides, and the
    controls shown for each position. */
module GetStarted {

  /** `slides.length`: the workouts, health, goals and personalisation slides. */
  const SlideCount: nat := 4

  /** What the page shows at a given slide. */
  datatype Controls = Controls(backDisabled: bool, nextShown: bool, signButtonsShown: bool, bottomLinksShown: bool)

  function ControlsAt(current: nat): (c: Controls)
    requires current < SlideCount
    ensures c.backDisabled <==> current == 0
    ensures c.nextShown <==> current != SlideCount - 1
    ensures c.signButtonsShown <==> !c.nextShown
    ensures c.bottomLinksShown <==> c.nextShown
  {
    Controls(current == 0, current < SlideCount - 1, !(current < SlideCount - 1), current != SlideCount - 1)
  }

  /** The indicator dots: dot `index` is highlighted iff it is the current slide. */
  function Indicators(current: nat): (dots: seq<bool>)
    requires current < SlideCount
    ensures |dots| == SlideCount
    ensures forall index :: 0 <= index < SlideCount ==> (dots[index] <==> index == current)
  {
    seq(SlideCount, index => index == current)
  }

  class Carousel {
    var currentSlide: nat

    ghost predicate Valid()
      reads this
    {
      currentSlide < SlideCount
    }

    constructor ()
      ensures Valid() && currentSlide == 0
    {
      currentSlide := 0;
    }

    /** `nextSlide`: advance unless on the last slide. */
    method NextSlide()
      requires Valid()
      modifies this
      ensures Valid()
      ensures old(currentSlide) < SlideCount - 1 ==> currentSlide == old(currentSlide) + 1
      ensures old(currentSlide) == SlideCount - 1 ==> currentSlide == old(currentSlide)
    {
      if currentSlide < SlideCount - 1 {
        currentSlide := currentSlide + 1;
      }
    }

    /** `prevSlide`: go back unless on the first slide. */
    method PrevSlide()
      requires Valid()
      modifies this
      ensures Valid()
      ensures old(currentSlide) > 0 ==> currentSlide == old(currentSlide) - 1
      ensures old(currentSlide) == 0 ==> currentSlide == 0
    {
      if currentSlide > 0 {
        currentSlide := currentSlide - 1;
      }
    }
  }
}
