/** The queries on which the limits turn are vectors of payloads, with the program's own constants. */
module PayloadQueries {
  import opened ForkedIndex
  import opened Grid
  import opened GridError
  import opened RoundingLimits
  import opened Vectorizer
  import opened Wrappers

  /** The query of the search limits: twelve instalments of a large amount at midnight on a Monday, at home, at a
    * known merchant with the lowest risk, and either no last transaction or one at the same moment and place. */
  function LimitInputs(alone: bool, minutes: real): Inputs {
    var now := Time(0, 1, minutes);
    var last := if alone then None else Some(Trip(now, 0.0));
    Inputs(1000000.0, 12, now, last, 1000.0, 0, true, 0.15, 0.0, false, false, 0.0)
  }

  lemma LimitQueryIsVector(alone: bool, minutes: real)
    ensures var x := LimitInputs(alone, minutes);
      && OnClock(x.time) && x.risk == FastRisk("5411")
      && VectorOf(StandardNorm(), x) == Query(alone)
  {
    hide Query;
    var v, q := VectorOf(StandardNorm(), LimitInputs(alone, minutes)), Query(alone);
    QueryValues(alone);
    var last := if alone then -1.0 else 0.0;
    assert v == [1.0, 1.0, 1.0, 0.0, 0.0, last, last, 0.0, 0.0, 0.0, 0.0, 0.0, 0.15, 0.0];
    assert q == v;
  }

  lemma QueryValues(alone: bool)
    ensures var last := if alone then -1.0 else 0.0;
      Query(alone) == [1.0, 1.0, 1.0, 0.0, 0.0, last, last, 0.0, 0.0, 0.0, 0.0, 0.0, 0.15, 0.0]
  {
    assert Dequant(0) == -1.0 && Dequant(1) == 0.0 && Dequant(MAX_CODE) == 1.0 && Dequant(1501) == 0.15;
  }

  /** An amount of 0.50 at two in the morning on a Tuesday, 108 seconds and 50 metres after the last transaction. */
  function SmallInputs(minutes: real): Inputs {
    var last := Trip(Time(2, 2, minutes - 1.8), 0.05);
    Inputs(0.5, 2, Time(2, 2, minutes), Some(last), 1000.0, 0, true, 0.15, 0.5, false, false, 0.05)
  }

  /** A row one step below that in each of nine dimensions. */
  function OneStepBelow(): Codes {
    [1, 1667, 1, 870, 1667, 13, 1, 1, 1, 1, 1, 1, 1501, 1]
  }

  function SmallVector(): Vec {
    [0.00005, 1.0 / 6.0, 0.00005, 2.0 / 23.0, 1.0 / 6.0, 0.00125, 0.00005, 0.00005, 0.0, 0.0, 0.0, 0.0, 0.15, 0.00005]
  }

  lemma SmallIsVector(minutes: real)
    ensures var x := SmallInputs(minutes);
      OnClock(x.time) && x.risk == FastRisk("5411") && VectorOf(StandardNorm(), x) == SmallVector()
  {
    var v := VectorOf(StandardNorm(), SmallInputs(minutes));
    forall i | 0 <= i < DIMS
      ensures v[i] == SmallVector()[i]
    {
    }
  }

  /** The comment's bound fails for the vector of a payload, too. */
  lemma VectorBreaksBound(minutes: real)
    ensures var q := VectorOf(StandardNorm(), SmallInputs(minutes));
      WellFormed(q) && InBucket(OneStepBelow(), BucketOf(q)) && !WithinComment(q, OneStepBelow())
  {
    hide VectorOf, WithinComment, WellFormed, InBucket, BucketOf;
    SmallIsVector(minutes);
    SmallShape();
    SmallGain();
  }

  lemma SmallShape()
    ensures WellFormed(SmallVector()) && InBucket(OneStepBelow(), BucketOf(SmallVector()))
  {
  }

  /** The steps between the two, before rounding. */
  function StepsAt(i: int): real {
    if 8 <= i <= 12 then 0.0 else if i == 1 || i == 4 then 2.0 / 3.0 else if i == 3 then 13.0 / 23.0 else 0.5
  }

  lemma SmallTerm(i: int)
    requires 0 <= i < DIMS
    ensures 10000.0 * (SmallVector()[i] - Dequant(OneStepBelow()[i])) == StepsAt(i)
  {
    assert Dequant(1) == 0.0 && Dequant(13) == 0.0012 && Dequant(1501) == 0.15 && Dequant(1667) == 0.1666
      && Dequant(870) == 0.0869;
  }

  lemma SmallTerms()
    ensures forall i | 0 <= i < DIMS :: 1e8 * Terms(SmallVector(), OneStepBelow())[i] == StepsAt(i) * StepsAt(i)
  {
    hide SmallVector, OneStepBelow, StepsAt, Dequant;
    forall i | 0 <= i < DIMS
      ensures 1e8 * Terms(SmallVector(), OneStepBelow())[i] == StepsAt(i) * StepsAt(i)
    {
      SmallTerm(i);
      ScaleSquare(SmallVector()[i] - Dequant(OneStepBelow()[i]), StepsAt(i));
    }
  }

  lemma SmallDistances()
    ensures 1e8 * Dist2(SmallVector(), OneStepBelow()) == 1.5 + 8.0 / 9.0 + 169.0 / 529.0
    ensures IntDist(QuantizeVec(SmallVector()), OneStepBelow()) == 9
  {
    SmallTerms();
    SumOfFourteen(Terms(SmallVector(), OneStepBelow()));
    SmallIntDist();
    hide SmallVector, OneStepBelow, Terms, SumTo, IntDist;
  }

  lemma SmallIntDist()
    ensures IntDist(QuantizeVec(SmallVector()), OneStepBelow()) == 9
  {
    SmallCodes();
    ISumOfFourteen(ITerms(QuantizeVec(SmallVector()), OneStepBelow()));
  }

  lemma SmallGain()
    ensures !WithinComment(SmallVector(), OneStepBelow())
  {
    hide Dist2, IntDist, SmallVector, OneStepBelow, QuantizeVec;
    SmallDistances();
    var d := 1.5 + 8.0 / 9.0 + 169.0 / 529.0;
    assert (9.0 - d) * (9.0 - d) > 14.0 * d;
  }

  lemma SmallCodes()
    ensures QuantizeVec(SmallVector()) == [2, 1668, 2, 871, 1668, 14, 2, 2, 1, 1, 1, 1, 1501, 2]
  {
  }
}
