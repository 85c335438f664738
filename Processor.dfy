/**
 * The audio processor: the fixed order of the eleven stages of its signal chain, the
 * calculator that turns Drive and the HP/LP switch into the settings of the five peaking
 * filters, the hand-off through which newly designed coefficient sets reach the audio
 * thread, and the processor object that ties parameters, tone stack and hand-off together.
 */
module Processor {
  import opened Filters
  import opened ToneStack
  import opened Parameters
  import Editor

  /** The processor handles exactly one channel. */
  const NumChannels: nat := 1

  /** The fixed linear gain in front of the waveshaper. */
  const PreWaveshaperGainLinear: real := 11.0

  /** Corner frequencies of the fixed first-order filters at both ends of the chain. */
  const InputHighPassFrequency: real := 30.0
  const OutputLowPassFrequency: real := 6300.0

  // ---------------------------------------------------------------- the signal path

  /** The stages of the chain. */
  datatype Stage =
    | Hpf30
    | BiquadPreDriveBoost
    | BiquadPreDriveNotch
    | PreWaveshaperGain
    | WaveshaperStage
    | BiquadPostDriveBoost1
    | BiquadPostDriveBoost2
    | BiquadPostDriveBoost3
    | Lpf6k3
    | ToneStage
    | VolumeStage

  /** The processor type each position of the chain is declared with. */
  datatype ProcessorType = HighPass | Biquad | Gain | WaveshaperProcessor | LowPass | ToneStackProcessor

  /** The position of a stage in the chain, as the enumeration numbers it. */
  function StageIndex(s: Stage): (i: nat)
    ensures i < 11
  {
    match s
    case Hpf30 => 0
    case BiquadPreDriveBoost => 1
    case BiquadPreDriveNotch => 2
    case PreWaveshaperGain => 3
    case WaveshaperStage => 4
    case BiquadPostDriveBoost1 => 5
    case BiquadPostDriveBoost2 => 6
    case BiquadPostDriveBoost3 => 7
    case Lpf6k3 => 8
    case ToneStage => 9
    case VolumeStage => 10
  }

  /** The stages in the order a block passes through them; each stage sits at its own index. */
  function ChainOrder(): (order: seq<Stage>)
    ensures |order| == 11
    ensures forall s :: order[StageIndex(s)] == s
    ensures forall i, j :: 0 <= i < j < |order| ==> order[i] != order[j]
  {
    [Hpf30, BiquadPreDriveBoost, BiquadPreDriveNotch, PreWaveshaperGain, WaveshaperStage,
     BiquadPostDriveBoost1, BiquadPostDriveBoost2, BiquadPostDriveBoost3, Lpf6k3, ToneStage, VolumeStage]
  }

  /** The processor types of the chain, in declaration order. */
  function ChainTemplate(): seq<ProcessorType>
  {
    [HighPass, Biquad, Biquad, Gain, WaveshaperProcessor, Biquad, Biquad, Biquad, LowPass, ToneStackProcessor, Gain]
  }

  /** The processor type a stage needs. */
  function TypeOf(s: Stage): ProcessorType
  {
    match s
    case Hpf30 => HighPass
    case BiquadPreDriveBoost | BiquadPreDriveNotch => Biquad
    case BiquadPostDriveBoost1 | BiquadPostDriveBoost2 | BiquadPostDriveBoost3 => Biquad
    case PreWaveshaperGain | VolumeStage => Gain
    case WaveshaperStage => WaveshaperProcessor
    case Lpf6k3 => LowPass
    case ToneStage => ToneStackProcessor
  }

  /** Every stage's index selects a chain position declared with the type that stage needs. */
  lemma ChainMatchesTemplate()
    ensures |ChainTemplate()| == |ChainOrder()|
    ensures forall i :: 0 <= i < |ChainOrder()| ==> TypeOf(ChainOrder()[i]) == ChainTemplate()[i]
    ensures forall s :: ChainTemplate()[StageIndex(s)] == TypeOf(s)
  {
  }

  /** The stages the Drive parameter reaches, as the enumeration documents them. */
  predicate DependsOnDrive(s: Stage)
  {
    s == BiquadPreDriveBoost || s == BiquadPreDriveNotch || s == BiquadPostDriveBoost2
  }

  /** The stages the HP/LP switch reaches, as the enumeration documents them. */
  predicate DependsOnMode(s: Stage)
  {
    s == BiquadPostDriveBoost1 || s == BiquadPostDriveBoost3
  }

  /** The slot of a peaking stage in a record of the five peaking stages. */
  function Select<T>(stages: PeakStages<T>, s: Stage): T
    requires TypeOf(s) == Biquad
  {
    match s
    case BiquadPreDriveBoost => stages.preDriveBoost
    case BiquadPreDriveNotch => stages.preDriveNotch
    case BiquadPostDriveBoost1 => stages.postDriveBoost1
    case BiquadPostDriveBoost2 => stages.postDriveBoost2
    case BiquadPostDriveBoost3 => stages.postDriveBoost3
  }

  // ---------------------------------------------------------------- the peaking filter settings

  /** The design parameters of one peaking filter: centre frequency in Hz, Q and gain in dB. */
  datatype PeakTriple = PeakTriple(frequency: real, q: real, gainDb: real)

  /** The settings of the five peaking stages for a normalised drive and a tone stack mode. */
  function PeakSettings(drive: real, mode: Mode): PeakStages<PeakTriple>
  {
    var driveSquared := drive * drive;
    PeakStages(
      PeakTriple(-1400.0 * driveSquared + 500.0 * drive + 1600.0, -0.1 * drive + 0.15, 32.0 * drive + 4.0),
      PeakTriple(8000.0, 0.8, -5.0 * driveSquared),
      PeakTriple(if mode == Hp then 2052.0 else 2781.0, 0.5, if mode == Hp then 4.6 else 4.38),
      PeakTriple(74.0, 0.2, 7.38 * drive + 8.12),
      PeakTriple(2935.0, 0.1, if mode == Hp then 10.0 else 16.9))
  }

  /** A product of two non-negative reals is non-negative. */
  lemma NonNegativeProduct(u: real, v: real)
    requires u >= 0.0 && v >= 0.0
    ensures u * v >= 0.0
  {
  }

  /** On [0, 1] the square of a value lies between 0 and the value itself. */
  lemma SquareWithinUnit(d: real, square: real)
    requires 0.0 <= d <= 1.0 && square == d * d
    ensures 0.0 <= square <= d
  {
    var rest := 1.0 - d;
    NonNegativeProduct(d, d);
    NonNegativeProduct(d, rest);
    assert square == d - d * rest;
  }

  /**
   * For a drive in [0, 1] every stage has a positive centre frequency and a positive Q; the
   * drive boosts rise with drive while the notch only ever cuts.
   */
  lemma {:induction false} PeakSettingsInRange(drive: real, mode: Mode)
    requires 0.0 <= drive <= 1.0
    ensures var s := PeakSettings(drive, mode);
            && 700.0 <= s.preDriveBoost.frequency <= 1650.0 && 0.05 <= s.preDriveBoost.q <= 0.15
            && 4.0 <= s.preDriveBoost.gainDb <= 36.0
            && -5.0 <= s.preDriveNotch.gainDb <= 0.0
            && 8.12 <= s.postDriveBoost2.gainDb <= 15.5
            && s.preDriveNotch.frequency > 0.0 && s.preDriveNotch.q > 0.0
            && s.postDriveBoost1.frequency > 0.0 && s.postDriveBoost1.q > 0.0
            && s.postDriveBoost2.frequency > 0.0 && s.postDriveBoost2.q > 0.0
            && s.postDriveBoost3.frequency > 0.0 && s.postDriveBoost3.q > 0.0
  {
    SquareWithinUnit(drive, drive * drive);
    var offset := drive - 5.0 / 28.0;
    NonNegativeProduct(if offset >= 0.0 then offset else -offset, if offset >= 0.0 then offset else -offset);
    assert drive * drive - (5.0 / 14.0) * drive == offset * offset - 25.0 / 784.0;
  }

  /** The settings at the two ends of the Drive range. */
  lemma PeakSettingsAtEnds(mode: Mode)
    ensures PeakSettings(0.0, mode).preDriveBoost == PeakTriple(1600.0, 0.15, 4.0)
    ensures PeakSettings(1.0, mode).preDriveBoost == PeakTriple(700.0, 0.05, 36.0)
    ensures PeakSettings(0.0, mode).preDriveNotch == PeakTriple(8000.0, 0.8, 0.0)
    ensures PeakSettings(1.0, mode).preDriveNotch == PeakTriple(8000.0, 0.8, -5.0)
    ensures PeakSettings(0.0, mode).postDriveBoost2 == PeakTriple(74.0, 0.2, 8.12)
    ensures PeakSettings(1.0, mode).postDriveBoost2 == PeakTriple(74.0, 0.2, 15.5)
  {
  }

  /** The mode-dependent stages in the two modes. */
  lemma PeakSettingsByMode(drive: real)
    ensures PeakSettings(drive, Hp).postDriveBoost1 == PeakTriple(2052.0, 0.5, 4.6)
    ensures PeakSettings(drive, Lp).postDriveBoost1 == PeakTriple(2781.0, 0.5, 4.38)
    ensures PeakSettings(drive, Hp).postDriveBoost3 == PeakTriple(2935.0, 0.1, 10.0)
    ensures PeakSettings(drive, Lp).postDriveBoost3 == PeakTriple(2935.0, 0.1, 16.9)
  {
  }

  /**
   * Each peaking stage follows exactly the parameter its documentation names: a stage that
   * depends on Drive differs between drive 0 and drive 1 and ignores the mode, and a stage that
   * depends on HP/LP differs between the modes and ignores Drive.
   */
  lemma PeakSettingsDependence(s: Stage, drive1: real, drive2: real, mode: Mode)
    requires TypeOf(s) == Biquad
    ensures DependsOnDrive(s) != DependsOnMode(s)
    ensures !DependsOnDrive(s) ==> Select(PeakSettings(drive1, mode), s) == Select(PeakSettings(drive2, mode), s)
    ensures DependsOnDrive(s) ==> Select(PeakSettings(0.0, mode), s) != Select(PeakSettings(1.0, mode), s)
    ensures !DependsOnMode(s) ==> Select(PeakSettings(drive1, Hp), s) == Select(PeakSettings(drive1, Lp), s)
    ensures DependsOnMode(s) ==> Select(PeakSettings(drive1, Hp), s) != Select(PeakSettings(drive1, Lp), s)
  {
  }

  /** The peaking filter designed for a triple; the gain is handed over in dB and converted by the library. */
  function PeakFilterFor(sampleRate: real, t: PeakTriple): Coefficients
  {
    PeakFilter(sampleRate, t.frequency, t.q, t.gainDb)
  }

  /** The five coefficient sets designed at a sample rate for the five settings. */
  function DesignPeakSet(sampleRate: real, settings: PeakStages<PeakTriple>): (c: PeakStages<Coefficients>)
    ensures forall s :: TypeOf(s) == Biquad ==> Select(c, s) == PeakFilterFor(sampleRate, Select(settings, s))
  {
    PeakStages(
      PeakFilterFor(sampleRate, settings.preDriveBoost),
      PeakFilterFor(sampleRate, settings.preDriveNotch),
      PeakFilterFor(sampleRate, settings.postDriveBoost1),
      PeakFilterFor(sampleRate, settings.postDriveBoost2),
      PeakFilterFor(sampleRate, settings.postDriveBoost3))
  }

  // ---------------------------------------------------------------- the coefficient hand-off

  /**
   * The state shared by the thread that designs coefficient sets and the audio thread: the
   * sets the chain runs with, the sets waiting to be picked up, the update flag and the lock.
   */
  datatype Handoff = Handoff(active: PeakStages<Coefficients>, pending: PeakStages<Coefficients>, updated: bool, locked: bool)

  /** A new processor: default filters in the chain, nothing pending, flag down, lock free. */
  function InitialHandoff(): (h: Handoff)
    ensures h.active == Uniform(Default) && h.pending == Uniform(Unset)
    ensures !h.updated && !h.locked
  {
    Handoff(Uniform(Default), Uniform(Unset), false, false)
  }

  // The designing thread's four steps. Taking the lock waits until it is free.

  function EnterLock(h: Handoff): Handoff
    requires !h.locked
  {
    h.(locked := true)
  }

  function StorePending(h: Handoff, published: PeakStages<Coefficients>): Handoff
  {
    h.(pending := published)
  }

  function RaiseFlag(h: Handoff): Handoff
  {
    h.(updated := true)
  }

  function ExitLock(h: Handoff): Handoff
  {
    h.(locked := false)
  }

  /** A publication as the recalculation is written: the flag is raised after the lock is released. */
  function PublishAsWritten(h: Handoff, published: PeakStages<Coefficients>): (r: Handoff)
    requires !h.locked
    ensures r.pending == published && r.updated && !r.locked && r.active == h.active
  {
    RaiseFlag(ExitLock(StorePending(EnterLock(h), published)))
  }

  /** A publication with the flag raised while the lock is still held. */
  function PublishCorrected(h: Handoff, published: PeakStages<Coefficients>): (r: Handoff)
    requires !h.locked
    ensures r.pending == published && r.updated && !r.locked && r.active == h.active
  {
    ExitLock(RaiseFlag(StorePending(EnterLock(h), published)))
  }

  /**
   * The audio thread's step at the start of a block: only when the flag is up and the lock can
   * be taken, the active and pending sets trade places and the flag goes down. No set is lost
   * and nothing changes while the designing thread holds the lock.
   */
  function Pickup(h: Handoff): (r: Handoff)
    ensures multiset{r.active, r.pending} == multiset{h.active, h.pending}
    ensures r.locked == h.locked
    ensures h.locked || !h.updated ==> r == h
    ensures !h.locked ==> !r.updated
    ensures h.updated && !h.locked ==> r.active == h.pending && r.pending == h.active
  {
    if h.updated && !h.locked then Handoff(h.pending, h.active, false, false) else h
  }

  /** A second pickup right after the first finds nothing to do. */
  lemma PickupIdempotent(h: Handoff)
    ensures Pickup(Pickup(h)) == Pickup(h)
  {
  }

  /** After a publication with no interleaving, a pickup installs the published sets, in both orders. */
  lemma PublishThenPickup(h: Handoff, published: PeakStages<Coefficients>)
    requires !h.locked
    ensures Pickup(PublishCorrected(h, published)).active == published
    ensures Pickup(PublishAsWritten(h, published)).active == published
    ensures Pickup(PublishCorrected(h, published)).pending == h.active
  {
  }

  /** Of two publications before a pickup, the later one is installed. */
  lemma LastPublicationWins(h: Handoff, first: PeakStages<Coefficients>, second: PeakStages<Coefficients>)
    requires !h.locked
    ensures Pickup(PublishCorrected(PublishCorrected(h, first), second)).active == second
  {
  }

  /**
   * As written, a pickup can slip in between the release of the lock and the raising of the
   * flag. When an earlier publication is still waiting, that pickup installs the second set and
   * lowers the flag; the flag then goes up again with nothing new pending, and the next pickup
   * swaps the stale sets the chain ran with before both publications back in. The latest
   * setting stays out of the chain until the next recalculation.
   */
  lemma StaleSetAfterInterleavedPickup(h: Handoff, first: PeakStages<Coefficients>, second: PeakStages<Coefficients>)
    requires !h.locked && h.active != second
    ensures var published := PublishAsWritten(h, first);
            var stored := ExitLock(StorePending(EnterLock(published), second));
            var interleaved := Pickup(stored);
            var flagged := RaiseFlag(interleaved);
            var next := Pickup(flagged);
            && interleaved.active == second
            && next.active == h.active && next.active != second
            && next.pending == second && !next.updated && !next.locked
  {
  }

  /** Where the designing thread is within a corrected publication. */
  datatype WriterPhase = Idle | Entered | Stored | Flagged

  /**
   * What the corrected publication keeps true about the latest published sets: whenever the
   * lock is free, either they are waiting with the flag up or the chain already runs with them.
   */
  predicate HandoffInvariant(h: Handoff, latest: PeakStages<Coefficients>, phase: WriterPhase)
  {
    match phase
    case Idle => !h.locked && (h.updated ==> h.pending == latest) && (!h.updated ==> h.active == latest)
    case Entered => h.locked && (h.updated ==> h.pending == latest) && (!h.updated ==> h.active == latest)
    case Stored => h.locked && h.pending == latest
    case Flagged => h.locked && h.pending == latest && h.updated
  }

  /** A new processor satisfies the invariant with its default sets as the latest. */
  lemma InitialHandoffInvariant()
    ensures HandoffInvariant(InitialHandoff(), Uniform(Default), Idle)
  {
  }

  /**
   * With the flag raised inside the lock, every step of the designing thread and a pickup at
   * any point keep the invariant, and any pickup while the designing thread is idle leaves the
   * chain running with the latest published sets.
   */
  lemma CorrectedHandoffKeepsLatest(h: Handoff, latest: PeakStages<Coefficients>, phase: WriterPhase, published: PeakStages<Coefficients>)
    requires HandoffInvariant(h, latest, phase)
    ensures HandoffInvariant(Pickup(h), latest, phase)
    ensures phase == Idle ==> HandoffInvariant(EnterLock(h), latest, Entered)
    ensures phase == Entered ==> HandoffInvariant(StorePending(h, published), published, Stored)
    ensures phase == Stored ==> HandoffInvariant(RaiseFlag(h), latest, Flagged)
    ensures phase == Flagged ==> HandoffInvariant(ExitLock(h), latest, Idle)
    ensures phase == Idle ==> Pickup(h).active == latest
  {
  }

  /** A whole corrected publication takes the idle invariant to the idle invariant for the new sets. */
  lemma PublishCorrectedKeepsInvariant(h: Handoff, latest: PeakStages<Coefficients>, published: PeakStages<Coefficients>)
    requires HandoffInvariant(h, latest, Idle)
    ensures HandoffInvariant(PublishCorrected(h, published), published, Idle)
  {
  }

  /**
   * What a recalculation does to the hand-off: nothing before a sample rate is known, otherwise
   * it publishes the peaking filters designed for the normalised Drive value and the HP/LP mode.
   */
  function RecalculatedHandoff(h: Handoff, sampleRate: real, raw: RawValues): (r: Handoff)
    requires !h.locked
    ensures sampleRate == 0.0 ==> r == h
    ensures sampleRate != 0.0 ==>
              && r.pending == DesignPeakSet(sampleRate, PeakSettings(NormaliseRawValue(raw.drive), ModeFromRaw(raw.hpLp)))
              && r.updated && !r.locked && r.active == h.active
  {
    if sampleRate == 0.0 then h
    else PublishCorrected(h, DesignPeakSet(sampleRate, PeakSettings(NormaliseRawValue(raw.drive), ModeFromRaw(raw.hpLp))))
  }

  // ---------------------------------------------------------------- host facing pieces

  /** The speaker positions a channel set can hold. */
  datatype ChannelType = Left | Right | Centre | LeftSurround | RightSurround | Lfe

  /** The mono channel set. */
  function Mono(): set<ChannelType>
  {
    {Centre}
  }

  /** The channel sets of the main input and output buses the host proposes. */
  datatype BusesLayout = BusesLayout(mainInput: set<ChannelType>, mainOutput: set<ChannelType>)

  /** Only a mono input with a mono output is accepted, so both buses carry the one processed channel. */
  function IsBusesLayoutSupported(layout: BusesLayout): (supported: bool)
    ensures supported <==> layout.mainInput == Mono() && layout.mainOutput == Mono()
    ensures supported ==> |layout.mainInput| == NumChannels && |layout.mainOutput| == NumChannels
  {
    layout.mainInput == Mono() && layout.mainOutput == Mono()
  }

  /** Conversion of a real to an int by dropping the fraction, toward zero. */
  function TruncateToInt(x: real): (n: int)
    ensures x >= 0.0 ==> n as real <= x < n as real + 1.0
    ensures x < 0.0 ==> n as real - 1.0 < x <= n as real
  {
    if x >= 0.0 then x.Floor else -((-x).Floor)
  }

  /** The raw parameter values the host holds at the moment they are read. */
  datatype RawValues = RawValues(drive: real, tone: real, volume: real, hpLp: real)

  // ---------------------------------------------------------------- the processor

  class AudioProcessor {
    /** The sample rate the host has set; 0 until the first preparation. */
    var sampleRate: real
    var activePeaks: PeakStages<Coefficients>
    var pendingPeaks: PeakStages<Coefficients>
    var parametersUpdated: bool
    var locked: bool
    var hpf30: Coefficients
    var lpf6k3: Coefficients
    var preWaveshaperGain: real
    var volumeDb: real
    var latencySamples: int
    var toneStack: ToneStack
    var uiState: Editor.UiState
    ghost var Repr: set<object>

    /** The hand-off fields as one value. */
    function HandoffState(): Handoff
      reads this
    {
      Handoff(activePeaks, pendingPeaks, parametersUpdated, locked)
    }

    /** The processor owns its tone stack, and between calls nobody holds the lock. */
    ghost predicate Valid()
      reads this, Repr
    {
      && this in Repr
      && toneStack in Repr
      && toneStack.Repr <= Repr
      && this !in toneStack.Repr
      && Repr == {this} + toneStack.Repr
      && toneStack.Valid()
      && !locked
    }

    /**
     * A new processor: the fixed gain of 11 in front of the waveshaper, default filters in the
     * chain, nothing pending with the flag down, and the editor's initial state stored.
     */
    constructor ()
      ensures Valid() && fresh(Repr)
      ensures HandoffState() == InitialHandoff()
      ensures sampleRate == 0.0 && preWaveshaperGain == PreWaveshaperGainLinear
      ensures hpf30 == Default && lpf6k3 == Default && latencySamples == 0
      ensures toneStack.currentMode == Lp && toneStack.tone == 1.0 && !toneStack.prepared
      ensures uiState == Editor.CreateUiStateSubtree()
    {
      sampleRate := 0.0;
      activePeaks, pendingPeaks := Uniform(Default), Uniform(Unset);
      parametersUpdated, locked := false, false;
      hpf30, lpf6k3 := Default, Default;
      preWaveshaperGain := PreWaveshaperGainLinear;
      latencySamples := 0;
      uiState := Editor.CreateUiStateSubtree();
      toneStack := new ToneStack();
      new;
      Repr := {this} + toneStack.Repr;
    }

    /**
     * Designs the five peaking filters for the current Drive and HP/LP values and publishes
     * them for the audio thread. Before a sample rate is known nothing happens. The flag is
     * raised before the lock is released (see PublishCorrected).
     */
    method RecalculateFilters(raw: RawValues)
      requires Valid()
      modifies this`pendingPeaks, this`parametersUpdated, this`locked
      ensures Valid()
      ensures HandoffState() == RecalculatedHandoff(old(HandoffState()), sampleRate, raw)
    {
      if sampleRate == 0.0 {
        return;
      }
      var mode := ModeFromRaw(raw.hpLp);
      var drive := NormaliseRawValue(raw.drive);
      var designed := DesignPeakSet(sampleRate, PeakSettings(drive, mode));

      locked := true;
      pendingPeaks := designed;
      parametersUpdated := true;
      locked := false;
    }

    /** The listener callback, registered for Drive and HP/LP only. */
    method ParameterChanged(id: ParameterId, raw: RawValues)
      requires Valid() && (id == Drive || id == HpLp)
      modifies this`pendingPeaks, this`parametersUpdated, this`locked
      ensures Valid()
      ensures HandoffState() == RecalculatedHandoff(old(HandoffState()), sampleRate, raw)
    {
      RecalculateFilters(raw);
    }

    /**
     * The start of every block: picks up published coefficient sets when there are any, then
     * hands mode, tone and volume to their stages whether or not a pickup happened. The raw
     * volume value goes to the volume stage as a gain in dB as it is.
     */
    method UpdateParametersForProcessorChain(raw: RawValues)
      requires Valid()
      modifies this`activePeaks, this`pendingPeaks, this`parametersUpdated, this`locked, this`volumeDb, toneStack
      ensures Valid() && Repr == old(Repr)
      ensures HandoffState() == Pickup(old(HandoffState()))
      ensures toneStack.currentMode == ModeFromRaw(raw.hpLp)
      ensures toneStack.tone == NormaliseRawValue(raw.tone)
      ensures old(toneStack.currentMode) == toneStack.currentMode ==>
                toneStack.hpfCoeffs == old(toneStack.hpfCoeffs) && toneStack.lpfCoeffs == old(toneStack.lpfCoeffs)
      ensures old(toneStack.currentMode) != toneStack.currentMode ==>
                toneStack.hpfCoeffs == toneStack.StoredHighPass(toneStack.currentMode)
                && toneStack.lpfCoeffs == toneStack.StoredLowPass(toneStack.currentMode)
      ensures toneStack.prepared == old(toneStack.prepared) && toneStack.hpfTemp == old(toneStack.hpfTemp)
      ensures toneStack.hpfCoeffsHpMode == old(toneStack.hpfCoeffsHpMode) && toneStack.hpfCoeffsLpMode == old(toneStack.hpfCoeffsLpMode)
      ensures toneStack.lpfCoeffsHpMode == old(toneStack.lpfCoeffsHpMode) && toneStack.lpfCoeffsLpMode == old(toneStack.lpfCoeffsLpMode)
      ensures toneStack.hpfMemory == old(toneStack.hpfMemory) && toneStack.lpfMemory == old(toneStack.lpfMemory)
      ensures volumeDb == raw.volume
    {
      if parametersUpdated && !locked {
        locked := true;
        activePeaks, pendingPeaks := pendingPeaks, activePeaks;
        parametersUpdated := false;
        locked := false;
      }

      toneStack.SetHpLpMode(ModeFromRaw(raw.hpLp));
      toneStack.SetTone(NormaliseRawValue(raw.tone));

      volumeDb := raw.volume;
    }

    /**
     * Preparation for playback at the rate the host has just set. When only the channel count
     * changed nothing else happens; otherwise the chain is prepared (PrepareChain).
     */
    method PrepareResources(hostSampleRate: real, maximumBlockSize: nat, numChannelsChanged: bool,
                            raw: RawValues, waveshaperLatency: real)
      requires Valid()
      modifies this, toneStack
      ensures Valid() && fresh(Repr - old(Repr))
      ensures sampleRate == hostSampleRate && toneStack == old(toneStack)
      ensures numChannelsChanged ==>
                HandoffState() == old(HandoffState()) && hpf30 == old(hpf30) && lpf6k3 == old(lpf6k3)
                && latencySamples == old(latencySamples) && unchanged(toneStack)
      ensures !numChannelsChanged ==> ChainPrepared(maximumBlockSize, waveshaperLatency)
      ensures toneStack.currentMode == old(toneStack.currentMode) && toneStack.tone == old(toneStack.tone)
      ensures !numChannelsChanged ==> HandoffState() == RecalculatedHandoff(old(HandoffState()), hostSampleRate, raw)
      ensures numChannelsChanged ==> Repr == old(Repr)
      ensures preWaveshaperGain == old(preWaveshaperGain) && volumeDb == old(volumeDb) && uiState == old(uiState)
    {
      sampleRate := hostSampleRate;
      if !numChannelsChanged {
        PrepareChain(maximumBlockSize, raw, waveshaperLatency);
      }
    }

    /**
     * The chain after preparation at the current rate: the tone stack is prepared and runs with
     * its current mode's pair, the fixed 30 Hz high-pass and 6.3 kHz low-pass are designed, and
     * the reported latency is the waveshaper's latency with its fraction dropped.
     */
    ghost predicate ChainPrepared(maximumBlockSize: nat, waveshaperLatency: real)
      reads this, toneStack
    {
      && toneStack.prepared && toneStack.hpfTemp.Length == maximumBlockSize
      && toneStack.DesignedFor(sampleRate)
      && toneStack.hpfMemory == [0.0] && toneStack.lpfMemory == [0.0]
      && toneStack.hpfCoeffs == HighPassFor(sampleRate, toneStack.currentMode)
      && toneStack.lpfCoeffs == LowPassFor(sampleRate, toneStack.currentMode)
      && hpf30 == FirstOrderHighPass(sampleRate, InputHighPassFrequency)
      && lpf6k3 == FirstOrderLowPass(sampleRate, OutputLowPassFrequency)
      && latencySamples == TruncateToInt(waveshaperLatency)
    }

    /** Prepares every stage of the chain at the current rate and publishes fresh peaking filters. */
    method PrepareChain(maximumBlockSize: nat, raw: RawValues, waveshaperLatency: real)
      requires Valid()
      modifies this, toneStack
      ensures Valid() && fresh(Repr - old(Repr))
      ensures ChainPrepared(maximumBlockSize, waveshaperLatency)
      ensures HandoffState() == RecalculatedHandoff(old(HandoffState()), sampleRate, raw)
      ensures sampleRate == old(sampleRate) && toneStack == old(toneStack)
      ensures toneStack.currentMode == old(toneStack.currentMode) && toneStack.tone == old(toneStack.tone)
      ensures preWaveshaperGain == old(preWaveshaperGain) && volumeDb == old(volumeDb) && uiState == old(uiState)
    {
      toneStack.Prepare(sampleRate, maximumBlockSize);
      Repr := {this} + toneStack.Repr;
      RecalculateFilters(raw);

      hpf30 := FirstOrderHighPass(sampleRate, InputHighPassFrequency);
      lpf6k3 := FirstOrderLowPass(sampleRate, OutputLowPassFrequency);

      latencySamples := TruncateToInt(waveshaperLatency);
    }
  }

  /**
   * A processor's life from construction through preparation to its first block: the chain
   * then runs with the peaking filters designed for the default Drive and HP/LP values.
   */
  method FirstBlockAfterPrepare(hostSampleRate: real, maximumBlockSize: nat) returns (p: AudioProcessor)
    requires hostSampleRate > 0.0
    ensures p.Valid()
    ensures p.activePeaks == DesignPeakSet(hostSampleRate, PeakSettings(0.165, Lp))
    ensures p.pendingPeaks == Uniform(Default) && !p.parametersUpdated
    ensures p.volumeDb == 8.35 && p.toneStack.currentMode == Lp && p.toneStack.tone == 0.5
  {
    var defaults := RawValues(1.65, 5.0, 8.35, 0.0);
    p := new AudioProcessor();
    p.PrepareResources(hostSampleRate, maximumBlockSize, false, defaults, 0.0);
    p.UpdateParametersForProcessorChain(defaults);
  }

  /**
   * A switch to hp at the first block after preparation installs the hp pair that preparation
   * designed, with the filters' memories as preparation left them.
   */
  method SwitchToHpAfterPrepare(hostSampleRate: real, maximumBlockSize: nat) returns (p: AudioProcessor)
    requires hostSampleRate > 0.0
    ensures p.Valid()
    ensures p.toneStack.currentMode == Hp
    ensures p.toneStack.hpfCoeffs == HighPassFor(hostSampleRate, Hp)
    ensures p.toneStack.lpfCoeffs == LowPassFor(hostSampleRate, Hp)
    ensures p.toneStack.hpfMemory == [0.0] && p.toneStack.lpfMemory == [0.0]
  {
    var defaults := RawValues(1.65, 5.0, 8.35, 0.0);
    p := new AudioProcessor();
    p.PrepareResources(hostSampleRate, maximumBlockSize, false, defaults, 0.0);
    p.UpdateParametersForProcessorChain(defaults.(hpLp := 1.0));
  }
}
