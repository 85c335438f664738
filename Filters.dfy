/**
 * Filter coefficient sets and filter evaluation as the rest of the model sees them.
 *
 * The plug-in designs its filters with library calls (first-order high and low pass,
 * peaking biquads after the Audio EQ Cookbook) and evaluates them with a library IIR
 * filter. Neither is modelled numerically: a coefficient set is kept as the symbolic
 * design request that produced it, and evaluating a filter is a function handed in by
 * the caller (a `FilterKernel`).
 */
module Filters {

  /** A coefficient set, identified by the design call that produced it. */
  datatype Coefficients =
    | Unset                                            // a null pointer, or storage not yet filled by prepare
    | Default                                          // the library's default-constructed coefficient set
    | FirstOrderHighPass(sampleRate: real, frequency: real)
    | FirstOrderLowPass(sampleRate: real, frequency: real)
    | PeakFilter(sampleRate: real, frequency: real, q: real, gainDb: real)  // gain converted with decibelsToGain

  /** What one call of a filter's process produces: the output samples and the new delay-line memory. */
  datatype FilterRun = FilterRun(output: seq<real>, memory: seq<real>)

  /** The library filter evaluation: coefficients, delay-line memory and input block in, a run out. */
  type FilterKernel = (Coefficients, seq<real>, seq<real>) -> FilterRun

  /** Every filter writes exactly one output sample per input sample. */
  ghost predicate LengthPreserving(kernel: FilterKernel)
  {
    forall c, m, x :: |kernel(c, m, x).output| == |x|
  }

  /** Cleared delay-line memory of a filter of the given order. */
  function ZeroMemory(order: nat): (m: seq<real>)
    ensures |m| == order
    ensures forall i :: 0 <= i < order ==> m[i] == 0.0
  {
    seq(order, _ => 0.0)
  }

  /** Memory of the same order with every value cleared, which is what a filter reset does. */
  function Cleared(m: seq<real>): (r: seq<real>)
    ensures |r| == |m|
    ensures forall i :: 0 <= i < |r| ==> r[i] == 0.0
  {
    ZeroMemory(|m|)
  }

  /** The five drive- and mode-dependent peaking stages of the chain, each holding a value of type T. */
  datatype PeakStages<T> = PeakStages(
    preDriveBoost: T,
    preDriveNotch: T,
    postDriveBoost1: T,
    postDriveBoost2: T,
    postDriveBoost3: T)

  /** All five stages holding the same value. */
  function Uniform<T>(x: T): PeakStages<T>
  {
    PeakStages(x, x, x, x, x)
  }
}
