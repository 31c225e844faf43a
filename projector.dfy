/** The savings simulation: for one goal and a chosen simulation mode, a
    daily saving is recommended and projected over the days left. */
module Projector {
  import opened Records

  /** The simulation's verdict: the goal is reached, or missed by a shortfall. */
  datatype Verdict = WillReach | ShortBy(shortfall: real)

  /** One goal's simulation report. */
  datatype Projection = Projection(
    remaining: real,
    daysLeft: int,
    recommendedDaily: real,
    projected: real,
    verdict: Verdict)

  /** How much more (or less) than the even daily share each mode saves. */
  function Factor(m: Mode): real
  {
    match m
    case Conservative => 1.2
    case Balanced => 1.0
    case Relaxed => 0.8
  }

  /** The even daily share is scaled by the mode and then multiplied back by
      the days left, so the projection is the remainder scaled by the mode's
      factor. A goal is reached exactly when the projection covers the
      remainder, which for a non-negative remainder means every mode but
      Relaxed (Relaxed reaches only a remainder of zero or less). */
  function Project(remaining: real, daysLeft: int, m: Mode): (p: Projection)
    requires daysLeft >= 1
    ensures p.remaining == remaining && p.daysLeft == daysLeft
    ensures p.recommendedDaily * (daysLeft as real) == remaining * Factor(m)
    ensures p.projected == remaining * Factor(m)
    ensures p.verdict == WillReach <==> p.projected >= remaining
    ensures p.verdict.ShortBy? ==> p.verdict.shortfall > 0.0 && p.projected + p.verdict.shortfall == remaining
    ensures p.verdict == WillReach <==>
              match m
              case Conservative => remaining >= 0.0
              case Balanced => true
              case Relaxed => remaining <= 0.0
  {
    var days := daysLeft as real;
    var base := remaining / days;
    var daily := match m
                 case Conservative => base * 1.2
                 case Relaxed => base * 0.8
                 case Balanced => base;
    assert base * days == remaining;
    assert daily * days == remaining * Factor(m);
    var projected := daily * days;
    Projection(remaining, daysLeft, daily, projected,
               if projected >= remaining then WillReach else ShortBy(remaining - projected))
  }
}
