/**
 * The tone stack: the block is split into a high-pass and a low-pass branch that share one
 * corner frequency per mode, and the high-pass branch is blended back in with a gain that
 * depends on the mode and on the normalised Tone value.
 */
module ToneStack {
  import opened Filters

  datatype Mode = Hp | Lp

  const HpModeFrequency: real := 358.0
  const LpModeFrequency: real := 160.0

  /** The mode a new tone stack starts in. */
  const InitialMode: Mode := Lp

  /** The corner frequency both branches use in mode m. */
  function CornerFrequency(m: Mode): (f: real)
    ensures f == HpModeFrequency || f == LpModeFrequency
    ensures f == HpModeFrequency <==> m == Hp
  {
    match m
    case Hp => HpModeFrequency
    case Lp => LpModeFrequency
  }

  /** The coefficient set the high-pass branch uses in mode m. */
  function HighPassFor(sampleRate: real, m: Mode): Coefficients
  {
    FirstOrderHighPass(sampleRate, CornerFrequency(m))
  }

  /** The coefficient set the low-pass branch uses in mode m. */
  function LowPassFor(sampleRate: real, m: Mode): Coefficients
  {
    FirstOrderLowPass(sampleRate, CornerFrequency(m))
  }

  /** The linear gain applied to the high-pass branch before it is added to the output. */
  function HpfGain(m: Mode, tone: real): real
  {
    if m == Hp then 0.7 * tone else 0.2 * tone
  }

  /**
   * For a tone in [0, 1] the blend gain stays in [0, 0.7] in hp mode and in [0, 0.2] in lp
   * mode, it is proportional to the tone, and hp mode never blends in less high end than lp.
   */
  lemma HpfGainBounds(m: Mode, tone: real)
    requires 0.0 <= tone <= 1.0
    ensures 0.0 <= HpfGain(m, tone) <= (if m == Hp then 0.7 else 0.2)
    ensures HpfGain(m, tone) == HpfGain(m, 1.0) * tone
    ensures HpfGain(Lp, tone) <= HpfGain(Hp, tone)
    ensures tone == 0.0 ==> HpfGain(m, tone) == 0.0
  {
  }

  /** The recombined block: the low-pass output plus the scaled high-pass output, sample by sample. */
  function Recombine(lp: seq<real>, hp: seq<real>, gain: real): (r: seq<real>)
    requires |lp| == |hp|
    ensures |r| == |lp|
  {
    seq(|lp|, i requires 0 <= i < |lp| => lp[i] + gain * hp[i])
  }

  /** A block scaled by a linear gain, as a gain stage applies it. */
  function Scaled(x: seq<real>, gain: real): (r: seq<real>)
    ensures |r| == |x|
  {
    seq(|x|, i requires 0 <= i < |x| => gain * x[i])
  }

  /**
   * Recombining is the same as adding the scaled high-pass block to the low-pass block; with
   * a zero gain (tone at zero) only the low-pass branch reaches the output, and two silent
   * branches give a silent block.
   */
  lemma {:induction false} RecombineIsSumOfBranches(lp: seq<real>, hp: seq<real>, gain: real)
    requires |lp| == |hp|
    ensures forall i :: 0 <= i < |lp| ==> Recombine(lp, hp, gain)[i] == lp[i] + Scaled(hp, gain)[i]
    ensures gain == 0.0 ==> Recombine(lp, hp, gain) == lp
    ensures (forall i :: 0 <= i < |lp| ==> lp[i] == 0.0 && hp[i] == 0.0) ==>
              forall i :: 0 <= i < |lp| ==> Recombine(lp, hp, gain)[i] == 0.0
  {
    if gain == 0.0 {
      assert forall i :: 0 <= i < |lp| ==> Recombine(lp, hp, gain)[i] == lp[i];
    }
  }

  class ToneStack {
    var currentMode: Mode
    var tone: real
    /** The coefficient sets the two branch filters run with (the duplicators' shared state). */
    var hpfCoeffs: Coefficients
    var lpfCoeffs: Coefficients
    /** Delay-line memory of the two branch filters. */
    var hpfMemory: seq<real>
    var lpfMemory: seq<real>
    /** Coefficient sets designed by prepare for both modes. */
    var hpfCoeffsHpMode: Coefficients
    var hpfCoeffsLpMode: Coefficients
    var lpfCoeffsHpMode: Coefficients
    var lpfCoeffsLpMode: Coefficients
    /** Scratch buffer for the high-pass branch, sized to the maximum block size. */
    var hpfTemp: array<real>

    ghost var prepared: bool
    ghost var Repr: set<object>

    /** The stored high-pass coefficient set for mode m. */
    function StoredHighPass(m: Mode): Coefficients
      reads this
    {
      if m == Hp then hpfCoeffsHpMode else hpfCoeffsLpMode
    }

    /** The stored low-pass coefficient set for mode m. */
    function StoredLowPass(m: Mode): Coefficients
      reads this
    {
      if m == Hp then lpfCoeffsHpMode else lpfCoeffsLpMode
    }

    /** Both modes' pairs are the ones designed at the given rate. */
    ghost predicate DesignedFor(sampleRate: real)
      reads this
    {
      && StoredHighPass(Hp) == HighPassFor(sampleRate, Hp) && StoredLowPass(Hp) == LowPassFor(sampleRate, Hp)
      && StoredHighPass(Lp) == HighPassFor(sampleRate, Lp) && StoredLowPass(Lp) == LowPassFor(sampleRate, Lp)
    }

    /** Once prepared, both branch filters run with the pair designed for the current mode. */
    ghost predicate Valid()
      reads this, Repr
    {
      && Repr == {this, hpfTemp}
      && (prepared ==> hpfCoeffs == StoredHighPass(currentMode) && lpfCoeffs == StoredLowPass(currentMode))
    }

    /** A fresh stack is in lp mode with tone 1 and has not designed any coefficients yet. */
    constructor ()
      ensures Valid() && fresh(Repr) && !prepared
      ensures currentMode == InitialMode && tone == 1.0
      ensures hpfCoeffs == Default && lpfCoeffs == Default
      ensures hpfCoeffsHpMode == hpfCoeffsLpMode == lpfCoeffsHpMode == lpfCoeffsLpMode == Unset
      ensures hpfTemp.Length == 0
    {
      currentMode := InitialMode;
      tone := 1.0;
      hpfCoeffs, lpfCoeffs := Default, Default;
      hpfMemory, lpfMemory := [], [];
      hpfCoeffsHpMode, hpfCoeffsLpMode := Unset, Unset;
      lpfCoeffsHpMode, lpfCoeffsLpMode := Unset, Unset;
      hpfTemp := new real[0];
      prepared := false;
      Repr := {this, hpfTemp};
    }

    /**
     * Sizes the scratch buffer, designs both modes' pairs (each mode's two branches share
     * that mode's corner), installs the pair of the current mode and clears both filters.
     */
    method Prepare(sampleRate: real, maximumBlockSize: nat)
      requires Valid()
      modifies this
      ensures Valid() && prepared && fresh(hpfTemp) && hpfTemp.Length == maximumBlockSize
      ensures fresh(Repr - old(Repr))
      ensures currentMode == old(currentMode) && tone == old(tone)
      ensures DesignedFor(sampleRate)
      ensures hpfMemory == [0.0] && lpfMemory == [0.0]
    {
      ResizeScratch(maximumBlockSize);
      DesignPairs(sampleRate);
    }

    /** Replaces the scratch buffer by a fresh one of the given size. */
    method ResizeScratch(maximumBlockSize: nat)
      requires Valid()
      modifies this`hpfTemp, this`Repr
      ensures Valid() && fresh(hpfTemp) && hpfTemp.Length == maximumBlockSize
      ensures fresh(Repr - old(Repr))
    {
      hpfTemp := new real[maximumBlockSize];
      Repr := {this, hpfTemp};
    }

    /** Designs both modes' pairs, installs the current mode's pair and clears both filters. */
    method DesignPairs(sampleRate: real)
      requires Valid()
      modifies this
      ensures Valid() && prepared && DesignedFor(sampleRate)
      ensures hpfMemory == [0.0] && lpfMemory == [0.0]
      ensures Repr == old(Repr) && hpfTemp == old(hpfTemp) && currentMode == old(currentMode) && tone == old(tone)
    {
      hpfCoeffsHpMode := FirstOrderHighPass(sampleRate, HpModeFrequency);
      hpfCoeffsLpMode := FirstOrderHighPass(sampleRate, LpModeFrequency);
      lpfCoeffsHpMode := FirstOrderLowPass(sampleRate, HpModeFrequency);
      lpfCoeffsLpMode := FirstOrderLowPass(sampleRate, LpModeFrequency);

      hpfCoeffs := if currentMode == Hp then hpfCoeffsHpMode else hpfCoeffsLpMode;
      lpfCoeffs := if currentMode == Hp then lpfCoeffsHpMode else lpfCoeffsLpMode;

      hpfMemory := [0.0];
      lpfMemory := [0.0];

      prepared := true;
    }

    /**
     * Switches the mode. Only a real change swaps the branch filters to the other mode's
     * pair; asking for the current mode changes nothing.
     */
    method SetHpLpMode(newMode: Mode)
      requires Valid()
      modifies this
      ensures Valid() && Repr == old(Repr) && prepared == old(prepared)
      ensures currentMode == newMode
      ensures old(currentMode) == newMode ==> hpfCoeffs == old(hpfCoeffs) && lpfCoeffs == old(lpfCoeffs)
      ensures old(currentMode) != newMode ==>
                hpfCoeffs == StoredHighPass(newMode) && lpfCoeffs == StoredLowPass(newMode)
      ensures tone == old(tone) && hpfTemp == old(hpfTemp)
      ensures hpfMemory == old(hpfMemory) && lpfMemory == old(lpfMemory)
      ensures hpfCoeffsHpMode == old(hpfCoeffsHpMode) && hpfCoeffsLpMode == old(hpfCoeffsLpMode)
      ensures lpfCoeffsHpMode == old(lpfCoeffsHpMode) && lpfCoeffsLpMode == old(lpfCoeffsLpMode)
    {
      if currentMode != newMode {
        currentMode := newMode;
        hpfCoeffs := if newMode == Hp then hpfCoeffsHpMode else hpfCoeffsLpMode;
        lpfCoeffs := if newMode == Hp then lpfCoeffsHpMode else lpfCoeffsLpMode;
      }
    }

    /** Stores the normalised tone as given, without clamping. */
    method SetTone(newTone: real)
      requires Valid()
      modifies this`tone
      ensures Valid() && tone == newTone
    {
      tone := newTone;
    }

    /** Clears both branch filters' memory; mode, tone and coefficients stay as they are. */
    method Reset()
      requires Valid()
      modifies this`hpfMemory, this`lpfMemory
      ensures Valid()
      ensures hpfMemory == Cleared(old(hpfMemory)) && lpfMemory == Cleared(old(lpfMemory))
    {
      hpfMemory := Cleared(hpfMemory);
      lpfMemory := Cleared(lpfMemory);
    }

    /**
     * Processes one block in place. The high-pass branch reads the original input into the
     * scratch buffer, the low-pass branch then overwrites the block, the whole scratch buffer
     * is scaled by the blend gain and its first block-length samples are added into the block.
     */
    method Process(block: array<real>, kernel: FilterKernel)
      requires Valid() && block !in Repr
      requires block.Length <= hpfTemp.Length
      requires LengthPreserving(kernel)
      modifies this`hpfMemory, this`lpfMemory, hpfTemp, block
      ensures Valid()
      ensures var gain := HpfGain(currentMode, tone);
              var hp := kernel(hpfCoeffs, old(hpfMemory), old(block[..]));
              var lp := kernel(lpfCoeffs, old(lpfMemory), old(block[..]));
              && block[..] == Recombine(lp.output, hp.output, gain)
              && hpfTemp[..block.Length] == Scaled(hp.output, gain)
              && hpfTemp[block.Length..] == Scaled(old(hpfTemp[block.Length..]), gain)
              && hpfMemory == hp.memory && lpfMemory == lp.memory
    {
      var n := block.Length;
      var gain := HpfGain(currentMode, tone);
      ghost var input := block[..];
      ghost var oldTemp := hpfTemp[..];

      // High-pass branch into the scratch buffer, reading the untouched input.
      var hp := kernel(hpfCoeffs, hpfMemory, block[..]);
      WriteBlock(hpfTemp, hp.output);
      hpfMemory := hp.memory;

      // Low-pass branch in place.
      var lp := kernel(lpfCoeffs, lpfMemory, block[..]);
      WriteBlock(block, lp.output);
      lpfMemory := lp.memory;

      // The gain stage scales the whole scratch buffer, which is then added into the block.
      ghost var written := hpfTemp[..];
      ScaleInPlace(hpfTemp, gain);
      ScaledSlices(written, n, gain);
      AddInto(block, hpfTemp);
      RecombineFromSum(block[..], lp.output, hp.output, gain, hpfTemp[..]);
    }
  }

  /** Scaling commutes with cutting a sequence in two. */
  lemma ScaledSlices(x: seq<real>, n: nat, gain: real)
    requires n <= |x|
    ensures Scaled(x, gain)[..n] == Scaled(x[..n], gain)
    ensures Scaled(x, gain)[n..] == Scaled(x[n..], gain)
  {
    assert forall k :: 0 <= k < n ==> Scaled(x, gain)[..n][k] == Scaled(x[..n], gain)[k];
    assert forall k :: 0 <= k < |x| - n ==> Scaled(x, gain)[n..][k] == Scaled(x[n..], gain)[k];
  }

  /** A block holding the low-pass output plus a buffer whose front is the scaled high-pass output is their recombination. */
  lemma RecombineFromSum(b: seq<real>, lp: seq<real>, hp: seq<real>, gain: real, t: seq<real>)
    requires |b| == |lp| == |hp| <= |t|
    requires t[..|hp|] == Scaled(hp, gain)
    requires forall k :: 0 <= k < |b| ==> b[k] == lp[k] + t[k]
    ensures b == Recombine(lp, hp, gain)
  {
    assert forall k :: 0 <= k < |b| ==> t[k] == t[..|hp|][k];
  }

  /** Writes a block of samples to the front of an array, leaving the rest as it was. */
  method WriteBlock(dst: array<real>, src: seq<real>)
    requires |src| <= dst.Length
    modifies dst
    ensures dst[..|src|] == src
    ensures dst[|src|..] == old(dst[|src|..])
  {
    var i := 0;
    while i < |src|
      invariant 0 <= i <= |src|
      invariant forall k :: 0 <= k < i ==> dst[k] == src[k]
      invariant forall k :: i <= k < dst.Length ==> dst[k] == old(dst[k])
    {
      dst[i] := src[i];
      i := i + 1;
    }
  }

  /** Multiplies every sample of an array by a linear gain, in place. */
  method ScaleInPlace(a: array<real>, gain: real)
    modifies a
    ensures a[..] == Scaled(old(a[..]), gain)
  {
    var i := 0;
    while i < a.Length
      invariant 0 <= i <= a.Length
      invariant forall k :: 0 <= k < i ==> a[k] == gain * old(a[k])
      invariant forall k :: i <= k < a.Length ==> a[k] == old(a[k])
    {
      a[i] := gain * a[i];
      i := i + 1;
    }
    assert forall k :: 0 <= k < a.Length ==> a[..][k] == Scaled(old(a[..]), gain)[k];
  }

  /** Adds the first dst.Length samples of src into dst, sample by sample. */
  method AddInto(dst: array<real>, src: array<real>)
    requires dst != src && dst.Length <= src.Length
    modifies dst
    ensures forall k :: 0 <= k < dst.Length ==> dst[k] == old(dst[k]) + src[k]
  {
    var i := 0;
    while i < dst.Length
      invariant 0 <= i <= dst.Length
      invariant forall k :: 0 <= k < i ==> dst[k] == old(dst[k]) + src[k]
      invariant forall k :: i <= k < dst.Length ==> dst[k] == old(dst[k])
    {
      dst[i] := dst[i] + src[i];
      i := i + 1;
    }
  }
}
