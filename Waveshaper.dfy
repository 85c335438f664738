/**
 * The waveshaper stage: a static piecewise-quadratic soft clipper applied to a 16 times
 * oversampled signal. The oversampler (upsampling, decimation and its latency) is library
 * code; this module models the transfer curve, the oversampling constants and the sample
 * by sample application of the curve to the oversampled block.
 */
module Waveshaper {

  /** The oversampler runs at two to the power of this order times the host rate. */
  const OversamplingOrder: nat := 4

  /** The oversampling factor, one shifted left by the order. */
  function OversamplingFactor(): (f: nat)
    ensures f == 16
  {
    ((1 as bv32) << OversamplingOrder) as nat
  }

  // ---------------------------------------------------------------- the transfer curve

  /** The lower knee, for inputs between -1.7 and -0.3: a parabola through (-1.7, -1) and (-0.3, -0.3). */
  function LowerKnee(input: real): real
  {
    var x := input + 0.3;
    x + (x * x) / (4.0 * (1.0 - 0.3)) - 0.3
  }

  /** The upper knee, for inputs between 0.9 and 1.1: a parabola through (0.9, 0.9) and (1.1, 1). */
  function UpperKnee(input: real): real
  {
    var x := input - 0.9;
    x - (x * x) / (4.0 * (1.0 - 0.9)) + 0.9
  }

  /**
   * The transfer curve as written: hard -1 up to -1.7, lower knee, identity from -0.3 to 0.9,
   * upper knee, hard 1 above 1.1. The last test is a strict comparison, so an input of
   * exactly 1.1 takes no branch and comes out unchanged.
   */
  function Transfer(input: real): real
  {
    if input <= -1.7 then -1.0
    else if -1.7 < input < -0.3 then LowerKnee(input)
    else if 0.9 < input < 1.1 then UpperKnee(input)
    else if input > 1.1 then 1.0
    else input
  }

  /** The transfer curve with the last test made inclusive, so that 1.1 is clipped to 1. */
  function TransferCorrected(input: real): real
  {
    if input <= -1.7 then -1.0
    else if -1.7 < input < -0.3 then LowerKnee(input)
    else if 0.9 < input < 1.1 then UpperKnee(input)
    else if input >= 1.1 then 1.0
    else input
  }

  /** The two curves differ at exactly one input. */
  lemma TransferAgreesExceptAtElevenTenths(input: real)
    ensures Transfer(input) == TransferCorrected(input) <==> input != 1.1
  {
  }

  /** Saturation below -1.7 and above 1.1, and the identity region from -0.3 to 0.9. */
  lemma TransferRegions(input: real)
    ensures input <= -1.7 ==> Transfer(input) == -1.0
    ensures input > 1.1 ==> Transfer(input) == 1.0
    ensures -0.3 <= input <= 0.9 ==> Transfer(input) == input
  {
  }

  /** Signs of a product of two reals. */
  lemma ProductSigns(u: real, v: real)
    ensures u > 0.0 && v > 0.0 ==> u * v > 0.0
    ensures u >= 0.0 && v >= 0.0 ==> u * v >= 0.0
  {
  }

  /** A value that changes by a positive width times a positive slope has risen. */
  lemma RiseOverPositiveSlope(before: real, after: real, width: real, slope: real)
    requires after - before == width * slope && width > 0.0 && slope > 0.0
    ensures after > before
  {
  }

  /** The secant slope of the lower knee between a and b. */
  lemma LowerKneeSecant(a: real, b: real)
    ensures LowerKnee(b) - LowerKnee(a) == (b - a) * (1.0 + (a + b + 0.6) / 2.8)
  {
  }

  /** The secant slope of the upper knee between a and b. */
  lemma UpperKneeSecant(a: real, b: real)
    ensures UpperKnee(b) - UpperKnee(a) == (b - a) * (1.0 - (a + b - 1.8) / 0.4)
  {
  }

  /** The lower knee stays above its value -1 at -1.7 to the right of -1.7. */
  lemma LowerKneeAboveFloor(input: real)
    requires -1.7 < input
    ensures LowerKnee(input) > -1.0
  {
    KneesMeetNeighbours();
    LowerKneeSecant(-1.7, input);
    RiseOverPositiveSlope(LowerKnee(-1.7), LowerKnee(input), input - -1.7, 1.0 + (-1.7 + input + 0.6) / 2.8);
  }

  /** The lower knee stays below its value -0.3 at -0.3 on the open knee. */
  lemma LowerKneeBelowJoin(input: real)
    requires -1.7 < input < -0.3
    ensures LowerKnee(input) < -0.3
  {
    LowerKneeSecant(input, -0.3);
    var fall, fallSlope := -0.3 - input, 1.0 + (input + 0.3) / 2.8;
    ProductSigns(fall, fallSlope);
  }

  /** The upper knee stays above its value 0.9 at 0.9 on the open knee. */
  lemma UpperKneeAboveJoin(input: real)
    requires 0.9 < input < 1.1
    ensures UpperKnee(input) > 0.9
  {
    UpperKneeSecant(0.9, input);
    var rise, riseSlope := input - 0.9, 1.0 - (input - 0.9) / 0.4;
    ProductSigns(rise, riseSlope);
  }

  /** The upper knee stays below its value 1 at 1.1 to the left of 1.1. */
  lemma UpperKneeBelowCeiling(input: real)
    requires input < 1.1
    ensures UpperKnee(input) < 1.0
  {
    KneesMeetNeighbours();
    UpperKneeSecant(input, 1.1);
    RiseOverPositiveSlope(UpperKnee(input), UpperKnee(1.1), 1.1 - input, 1.0 - (input + 1.1 - 1.8) / 0.4);
  }

  /** On the open lower knee the output lies strictly between -1 and -0.3. */
  lemma LowerKneeRange(input: real)
    requires -1.7 < input < -0.3
    ensures -1.0 < Transfer(input) < -0.3
    ensures Transfer(input) == LowerKnee(input)
  {
    LowerKneeAboveFloor(input);
    LowerKneeBelowJoin(input);
  }

  /** On the open upper knee the output lies strictly between 0.9 and 1. */
  lemma UpperKneeRange(input: real)
    requires 0.9 < input < 1.1
    ensures 0.9 < Transfer(input) < 1.0
    ensures Transfer(input) == UpperKnee(input)
  {
    UpperKneeAboveJoin(input);
    UpperKneeBelowCeiling(input);
  }

  /**
   * Neighbouring pieces meet: the knees reach -1 at -1.7, -0.3 at -0.3, 0.9 at 0.9 and 1 at
   * 1.1, the values of the flat and identity pieces there (of the corrected curve at 1.1; the
   * slopes at the joins are in KneeSlopesAtJoins).
   */
  lemma KneesMeetNeighbours()
    ensures LowerKnee(-1.7) == -1.0 == Transfer(-1.7)
    ensures LowerKnee(-0.3) == -0.3 == Transfer(-0.3)
    ensures UpperKnee(0.9) == 0.9 == Transfer(0.9)
    ensures UpperKnee(1.1) == 1.0 == TransferCorrected(1.1)
  {
  }

  /**
   * Near each end of a knee, the knee departs from its end value by h times a slope that
   * tends to 0 at -1.7 and 1.1 and to 1 at -0.3 and 0.9. So the corrected curve is smooth at
   * all four joins; the curve as written is smooth at -1.7, -0.3 and 0.9 only, since it is not
   * even continuous at 1.1 (TransferGapAtElevenTenths).
   */
  lemma KneeSlopesAtJoins(h: real)
    ensures LowerKnee(-1.7 + h) - LowerKnee(-1.7) == h * (h / 2.8)
    ensures LowerKnee(-0.3 + h) - LowerKnee(-0.3) == h * (1.0 + h / 2.8)
    ensures UpperKnee(0.9 + h) - UpperKnee(0.9) == h * (1.0 - h / 0.4)
    ensures UpperKnee(1.1 + h) - UpperKnee(1.1) == h * (-h / 0.4)
  {
  }

  // ---------------------------------------------------------------- continuity and order

  /** Which piece of the corrected curve an input falls in, counted from the left. */
  function Piece(input: real): (p: nat)
    ensures p <= 4
  {
    if input < -1.7 then 0
    else if input < -0.3 then 1
    else if input < 0.9 then 2
    else if input < 1.1 then 3
    else 4
  }

  /** The right end of piece p. */
  function PieceEnd(p: nat): real
    requires p < 4
  {
    if p == 0 then -1.7 else if p == 1 then -0.3 else if p == 2 then 0.9 else 1.1
  }

  /** The left end of piece p, which is the right end of the one before it. */
  function PieceStart(p: nat): real
    requires 0 < p <= 4
  {
    PieceEnd(p - 1)
  }

  /** Across the closed lower knee the knee rises by at least 0 and at most b - a. */
  lemma LowerKneeSecantBounds(a: real, b: real)
    requires -1.7 <= a <= b <= -0.3
    ensures 0.0 <= LowerKnee(b) - LowerKnee(a) <= b - a
  {
    LowerKneeSecant(a, b);
    var width, k := b - a, 1.0 + (a + b + 0.6) / 2.8;
    var rest := 1.0 - k;
    ProductSigns(width, k);
    ProductSigns(width, rest);
    assert width * k + width * rest == width;
  }

  /** Across the closed upper knee the knee rises by at least 0 and at most b - a. */
  lemma UpperKneeSecantBounds(a: real, b: real)
    requires 0.9 <= a <= b <= 1.1
    ensures 0.0 <= UpperKnee(b) - UpperKnee(a) <= b - a
  {
    UpperKneeSecant(a, b);
    var width, k := b - a, 1.0 - (a + b - 1.8) / 0.4;
    var rest := 1.0 - k;
    ProductSigns(width, k);
    ProductSigns(width, rest);
    assert width * k + width * rest == width;
  }

  /** Both inputs in one closed piece: the corrected curve rises by at least 0 and at most b - a. */
  lemma SecantWithinPiece(a: real, b: real, p: nat)
    requires a <= b && p <= 4
    requires p > 0 ==> PieceStart(p) <= a
    requires p < 4 ==> b <= PieceEnd(p)
    ensures 0.0 <= TransferCorrected(b) - TransferCorrected(a) <= b - a
  {
    if p == 1 {
      KneesMeetNeighbours();
      assert TransferCorrected(a) == LowerKnee(a);
      assert TransferCorrected(b) == LowerKnee(b);
      LowerKneeSecantBounds(a, b);
    } else if p == 3 {
      KneesMeetNeighbours();
      assert TransferCorrected(a) == UpperKnee(a);
      assert TransferCorrected(b) == UpperKnee(b);
      UpperKneeSecantBounds(a, b);
    }
  }

  /**
   * The corrected curve is non-decreasing and 1-Lipschitz: for a <= b it rises by at least 0
   * and at most b - a. In particular it is continuous everywhere.
   */
  lemma {:induction false} TransferCorrectedSecant(a: real, b: real)
    requires a <= b
    ensures 0.0 <= TransferCorrected(b) - TransferCorrected(a) <= b - a
    decreases 4 - Piece(a)
  {
    var p := Piece(a);
    if p == 4 || b <= PieceEnd(p) {
      SecantWithinPiece(a, b, p);
    } else {
      var e := PieceEnd(p);
      SecantWithinPiece(a, e, p);
      assert Piece(e) == p + 1;
      TransferCorrectedSecant(e, b);
    }
  }

  /** The corrected curve never leaves [-1, 1]. */
  lemma TransferCorrectedBounded(input: real)
    ensures -1.0 <= TransferCorrected(input) <= 1.0
  {
    if input > -1.7 {
      TransferCorrectedSecant(-1.7, input);
    }
    if input < 1.1 {
      TransferCorrectedSecant(input, 1.1);
    }
  }

  /**
   * The curve as written is non-decreasing and 1-Lipschitz between any two inputs other than
   * 1.1, and stays within [-1, 1] for every input other than 1.1.
   */
  lemma TransferSecant(a: real, b: real)
    requires a <= b && a != 1.1 && b != 1.1
    ensures 0.0 <= Transfer(b) - Transfer(a) <= b - a
    ensures -1.0 <= Transfer(a) <= 1.0
  {
    TransferAgreesExceptAtElevenTenths(a);
    TransferAgreesExceptAtElevenTenths(b);
    TransferCorrectedSecant(a, b);
    TransferCorrectedBounded(a);
  }

  /**
   * The gap in the curve as written: exactly at 1.1 the output is 1.1, outside [-1, 1], and
   * larger than the output for the larger input 1.2, so the curve is not monotone there.
   */
  lemma TransferGapAtElevenTenths()
    ensures Transfer(1.1) == 1.1
    ensures Transfer(1.2) == 1.0 < Transfer(1.1)
    ensures TransferCorrected(1.1) == 1.0
  {
  }

  // ---------------------------------------------------------------- the shaping pass

  /** The oversampled block with the curve as written applied to every sample. */
  function Shaped(x: seq<real>): (r: seq<real>)
    ensures |r| == |x|
  {
    if x == [] then [] else [Transfer(x[0])] + Shaped(x[1..])
  }

  /** Each shaped sample is the curve applied to the sample at the same position. */
  lemma {:induction false} ShapedAt(x: seq<real>, i: int)
    requires 0 <= i < |x|
    ensures Shaped(x)[i] == Transfer(x[i])
    decreases i
  {
    if i > 0 {
      ShapedAt(x[1..], i - 1);
    }
  }

  /**
   * A shaped block lies within [-1, 1] and keeps the order of any two of its samples, except
   * that a sample of exactly 1.1 passes through as 1.1 (see TransferGapAtElevenTenths).
   */
  lemma {:induction false} ShapedBoundedAndOrdered(x: seq<real>)
    ensures forall i :: 0 <= i < |x| && x[i] != 1.1 ==> -1.0 <= Shaped(x)[i] <= 1.0
    ensures forall i :: 0 <= i < |x| && x[i] == 1.1 ==> Shaped(x)[i] == 1.1
    ensures forall i, j :: 0 <= i < |x| && 0 <= j < |x| && x[i] <= x[j] && x[i] != 1.1 && x[j] != 1.1 ==>
              Shaped(x)[i] <= Shaped(x)[j]
  {
    forall i | 0 <= i < |x|
      ensures Shaped(x)[i] == Transfer(x[i])
    {
      ShapedAt(x, i);
    }
    forall i | 0 <= i < |x| && x[i] != 1.1
      ensures -1.0 <= Shaped(x)[i] <= 1.0
    {
      TransferSecant(x[i], x[i]);
    }
    forall i, j | 0 <= i < |x| && 0 <= j < |x| && x[i] <= x[j] && x[i] != 1.1 && x[j] != 1.1
      ensures Shaped(x)[i] <= Shaped(x)[j]
    {
      TransferSecant(x[i], x[j]);
    }
  }

  /** Applies the curve as written to every sample of the oversampled block, in place. */
  method ShapeBlock(block: array<real>)
    modifies block
    ensures block[..] == Shaped(old(block[..]))
  {
    var i := 0;
    while i < block.Length
      invariant 0 <= i <= block.Length
      invariant forall k :: 0 <= k < i ==> block[k] == Transfer(old(block[k]))
      invariant forall k :: i <= k < block.Length ==> block[k] == old(block[k])
    {
      block[i] := Transfer(block[i]);
      i := i + 1;
    }
    forall k | 0 <= k < block.Length
      ensures block[..][k] == Shaped(old(block[..]))[k]
    {
      ShapedAt(old(block[..]), k);
    }
  }
}
