/** The section spotlight (src/components/backgrounds/SectionSpotlight.tsx):
    a soft highlight that follows the centre of the most visible section. */
module SectionSpotlight {
  import opened Wrappers
  import opened Visibility

  /** A JavaScript number as the centre formula can produce it: a finite
      value, or the NaN and infinities that a division by zero yields. */
  datatype Number = Finite(value: real) | NaN | PosInfinity | NegInfinity

  /** The `activePosition` state: section id and centre, in percent. */
  datatype Position = Position(id: string, centerX: Number, centerY: Number)

  /** The window measurements the centre formula reads. */
  datatype Viewport = Viewport(width: real, height: real, scrollY: real, scrollHeight: real)

  /** `Math.max(lo, Math.min(hi, v))`. */
  function Clamp(lo: real, hi: real, v: real): (r: real)
    requires lo <= hi
    ensures lo <= r <= hi
    ensures lo <= v <= hi ==> r == v
    ensures v < lo ==> r == lo
    ensures v > hi ==> r == hi
  {
    if v < lo then lo else if v > hi then hi else v
  }

  /** Clamping twice is clamping once. */
  lemma ClampIdempotent(lo: real, hi: real, v: real)
    requires lo <= hi
    ensures Clamp(lo, hi, Clamp(lo, hi, v)) == Clamp(lo, hi, v)
  {
  }

  /** `a / b * 100` on JavaScript numbers. The divisors here are
      `innerWidth` and `scrollHeight`, which are never negative zero, so a
      zero divisor gives NaN for 0, and an infinity of the numerator's sign
      otherwise. */
  function Percent(a: real, b: real): (r: Number)
    ensures b != 0.0 ==> r == Finite(a / b * 100.0)
    ensures r.NaN? <==> b == 0.0 && a == 0.0
    ensures r.PosInfinity? <==> b == 0.0 && a > 0.0
    ensures r.NegInfinity? <==> b == 0.0 && a < 0.0
  {
    if b != 0.0 then Finite(a / b * 100.0)
    else if a == 0.0 then NaN
    else if a > 0.0 then PosInfinity
    else NegInfinity
  }

  /** `Math.max(lo, Math.min(hi, v))` on JavaScript numbers: NaN passes
      through both, the infinities land on the bounds. */
  function ClampNumber(lo: real, hi: real, v: Number): (r: Number)
    requires lo <= hi
    ensures r.NaN? <==> v.NaN?
    ensures !v.NaN? ==> r.Finite? && lo <= r.value <= hi
    ensures v.Finite? ==> r == Finite(Clamp(lo, hi, v.value))
    ensures v.PosInfinity? ==> r == Finite(hi)
    ensures v.NegInfinity? ==> r == Finite(lo)
  {
    match v
    case Finite(x) => Finite(Clamp(lo, hi, x))
    case NaN => NaN
    case PosInfinity => Finite(hi)
    case NegInfinity => Finite(lo)
  }

  /** The horizontal centre of the rectangle, in viewport pixels. */
  function CenterX(rect: Rect): real {
    rect.left + rect.width / 2.0
  }

  /** The vertical centre of the rectangle, in document pixels. */
  function CenterY(rect: Rect, view: Viewport): real {
    rect.top + rect.height / 2.0 + view.scrollY
  }

  /** The centre stays away from the edges: x in [20, 80], y in [10, 90]. */
  predicate InBounds(p: Position) {
    p.centerX.Finite? && 20.0 <= p.centerX.value <= 80.0
    && p.centerY.Finite? && 10.0 <= p.centerY.value <= 90.0
  }

  /** The clamped position stored for a winning entry. A coordinate is NaN,
      and escapes the clamp, exactly when its divisor and its numerator are
      both zero; every other centre lands inside the bounds. */
  function SpotFor(e: Entry, view: Viewport): (p: Position)
    ensures p.id == e.id
    ensures p.centerX.NaN? <==> view.width == 0.0 && CenterX(e.rect) == 0.0
    ensures p.centerY.NaN? <==> view.scrollHeight == 0.0 && CenterY(e.rect, view) == 0.0
    ensures InBounds(p) <==> !p.centerX.NaN? && !p.centerY.NaN?
    ensures view.width != 0.0 && 20.0 <= CenterX(e.rect) / view.width * 100.0 <= 80.0 ==>
      p.centerX == Finite(CenterX(e.rect) / view.width * 100.0)
    ensures view.scrollHeight != 0.0 && 10.0 <= CenterY(e.rect, view) / view.scrollHeight * 100.0 <= 90.0 ==>
      p.centerY == Finite(CenterY(e.rect, view) / view.scrollHeight * 100.0)
  {
    Position(e.id,
             ClampNumber(20.0, 80.0, Percent(CenterX(e.rect), view.width)),
             ClampNumber(10.0, 90.0, Percent(CenterY(e.rect, view), view.scrollHeight)))
  }

  /** The hysteresis threshold the winning ratio must exceed. */
  const Threshold: real := 0.2

  class Spotlight {
    var activePosition: Position
    /** The spring targets the animated highlight moves to. */
    var springX: Number
    var springY: Number

    predicate Valid()
      reads this
    {
      InBounds(activePosition)
    }

    constructor ()
      ensures activePosition == Position("hero", Finite(50.0), Finite(50.0))
      ensures springX == Finite(50.0) && springY == Finite(50.0)
      ensures Valid()
    {
      activePosition := Position("hero", Finite(50.0), Finite(50.0));
      springX := Finite(50.0);
      springY := Finite(50.0);
    }

    /** `updateSpotlightPosition`: move to the most visible entry's clamped
        centre when there is one and its ratio is above 0.2; otherwise stay.
        The bounds survive every update whose divisors are not zero. */
    method UpdatePosition(entries: seq<Entry>, view: Viewport)
      modifies this
      ensures Winner(entries).Some? && MaxRatio(entries) > Threshold ==>
        activePosition == SpotFor(entries[Winner(entries).value], view)
      ensures !(Winner(entries).Some? && MaxRatio(entries) > Threshold) ==>
        activePosition == old(activePosition)
      ensures old(Valid()) && view.width != 0.0 && view.scrollHeight != 0.0 ==> Valid()
      ensures springX == old(springX) && springY == old(springY)
    {
      var maxRatio, best := MostVisible(entries);
      if best.Some? && maxRatio > Threshold {
        activePosition := SpotFor(entries[best.value], view);
      }
    }

    /** The effect that hands the position to the springs; it does nothing
        while reduced motion is on. */
    method SyncSprings(reducedMotion: bool)
      modifies this
      ensures activePosition == old(activePosition)
      ensures !reducedMotion ==> springX == activePosition.centerX && springY == activePosition.centerY
      ensures reducedMotion ==> springX == old(springX) && springY == old(springY)
    {
      if !reducedMotion {
        springX := activePosition.centerX;
        springY := activePosition.centerY;
      }
    }

    /** Where the highlight is drawn, in percent: pinned at the centre under
        reduced motion, at the spring targets otherwise. */
    function HighlightAt(reducedMotion: bool): (r: (Number, Number))
      reads this
      ensures reducedMotion ==> r == (Finite(50.0), Finite(50.0))
      ensures !reducedMotion ==> r == (springX, springY)
    {
      if reducedMotion then (Finite(50.0), Finite(50.0)) else (springX, springY)
    }
  }

  /** After a sync without reduced motion, the highlight is drawn inside the
      clamping bounds. */
  lemma SyncedHighlightInBounds(s: Spotlight)
    requires s.Valid()
    requires s.springX == s.activePosition.centerX && s.springY == s.activePosition.centerY
    ensures s.HighlightAt(false).0.Finite? && 20.0 <= s.HighlightAt(false).0.value <= 80.0
    ensures s.HighlightAt(false).1.Finite? && 10.0 <= s.HighlightAt(false).1.value <= 90.0
  {
  }

  /** A zero-width viewport with a winning section centred on its left edge
      stores a NaN centre, which the clamp lets through: the bounds no longer
      hold. */
  method ZeroWidthViewportStoresNaN() returns (s: Spotlight)
    ensures s.activePosition.id == "about"
    ensures s.activePosition.centerX.NaN?
    ensures !s.Valid()
  {
    s := new Spotlight();
    var e := Entry("about", 1.0, Rect(0.0, 100.0, 0.0, 200.0));
    s.UpdatePosition([e], Viewport(0.0, 800.0, 0.0, 2000.0));
  }
}
