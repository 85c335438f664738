# Schrammel OJD: a Dafny model of the plug-in's control layer

The Schrammel OJD is a guitar overdrive plug-in. It processes one channel through a fixed
chain of eleven stages:

1. a 30 Hz high-pass filter;
2. two drive-dependent peaking filters;
3. a fixed gain of 11;
4. a 16-times oversampled soft-clipping waveshaper;
5. three peaking filters that depend on drive or on the HP/LP switch;
6. a 6.3 kHz low-pass filter;
7. a two-branch tone stack;
8. a volume gain.

This project models everything around the numeric DSP:

- **Parameters** (`Parameters.dfy`):
  - the five parameters, their display range, defaults and the preset list;
  - the conversions from the hosts' raw 0 to 10 values;
  - the text labels of the HP/LP and Bypass switches, and their parsers.
- **Waveshaper** (`Waveshaper.dfy`):
  - the piecewise-quadratic transfer curve and the oversampling constants;
  - the sample-by-sample shaping pass over the oversampled block, as an in-place array method.
- **Tone stack** (`ToneStack.dfy`), a class with the fields of the original object:
  - its hp/lp mode machine;
  - preparation, which designs both modes' filter pairs;
  - the blend gain;
  - the in-place recombination of the two filtered branches.
- **Processor** (`Processor.dfy`):
  - the stage order of the chain;
  - the polynomial calculator that turns Drive and HP/LP into five peaking-filter settings;
  - the flag-and-lock hand-off that moves new coefficient sets from the designing thread to the audio thread;
  - the mono-only bus check;
  - preparation and latency bookkeeping;
  - the per-block parameter update.
- **Editor** (`Editor.dfy`): the window size constraint and the stored initial window size.
- **Filters** (`Filters.dfy`): the symbolic coefficient sets and the filter evaluation passed in as a function (`FilterKernel`).

Filter coefficients are kept as the design request that produced them, for example
`PeakFilter(sampleRate, frequency, q, gainDb)`. Filter evaluation is a function the caller
supplies. All arithmetic is over `real`.

In a few places the code does something other than what its own structure suggests; the
model follows the code:

- **Volume.** The processor passes the raw Volume value to the volume stage as a gain in dB
  as it is (`Source/OJDProcessor.cpp:91`). It does not go through the -60 to -20 dB mapping,
  which is modelled on its own as `DbValueFromRawValue`.
- **Clipping at 1.1.** The lower clip is inclusive (`in <= -1.7`, `Source/Waveshaper.h:36`)
  and the upper knee reaches 1 at 1.1, but the upper clip tests `in > 1.1`
  (`Source/Waveshaper.h:48`), so 1.1 itself passes through unchanged (Findings, row 1).
- **Drive and Tone normalisation.** The processor calls a range conversion that belongs to a
  different revision of the parameters file. It is modelled as that revision's
  `normaliseRawValue`: raw / 10. That conversion also clamps its result to [0, 1] and raw / 10
  does not, but the two agree on [0, 10], the only values the parameter's range delivers.
- **Preset list name.** The header declares the preset-list function as
  `getPresetMangagerParameters`, but the source file defines `getPresetManagerParameters`.
  The model follows the definition.

## Model

| member | source | states |
|---|---|---|
| Filters.Cleared | Source/ToneStack.h:73-77 | clearing a filter's memory keeps its order and sets every value to zero |
| Parameters.NormaliseRawValue | Source/OJDParameters.cpp:40-43 | the result is the raw value divided by 10; a raw value in [0, 10] gives a value in [0, 1] |
| Parameters.NormaliseRawValueOrder | Source/OJDParameters.h:39-40 | normalisation is strictly increasing and sends 0 to 0 and 10 to 1 |
| Parameters.Jmap | Source/OJDParameters.cpp:45-48 | the result is the linear interpolation of the value from the source range onto the target range |
| Parameters.DbValueFromRawValue | Source/OJDParameters.cpp:45-48 | the result is -60 + 4 * raw; a raw value in [0, 10] gives a value in [-60, -20] dB |
| Parameters.DbValueFromRawValueOrder | Source/OJDParameters.h:56-57 | the dB mapping is strictly increasing, with 0 giving -60 dB and 10 giving -20 dB |
| Parameters.ModeFromRaw | Source/OJDParameters.cpp:77-80 | hp exactly when the raw value is above 0.5, lp otherwise (0.5 itself gives lp); partners SwitchReadsRawValue and SwitchDefaultsMatchInitialState |
| Parameters.IsBypassActive | Source/OJDParameters.cpp:82-85 | bypass is active exactly when the raw value is above 0.5; partners SwitchReadsRawValue and SwitchDefaultsMatchInitialState |
| Parameters.SwitchReadsRawValue | Source/OJDParameters.cpp:77-85 | the raw value a switch reports for a state (1 on, 0 off) reads back as that state: hp for HP/LP on, lp for off; bypass active exactly when on |
| Parameters.SwitchDefaultsMatchInitialState | Source/OJDParameters.cpp:101-106 | the HP/LP default (off) reads as the mode a new tone stack starts in, and the Bypass default reads as not bypassed |
| Parameters.StringWithMaxLength | Source/OJDParameters.cpp:51-54 | the result is a prefix of the text; its length is the whole text when the limit is <= 0 or too long, otherwise the limit |
| Parameters.ToLower | Source/OJDParameters.cpp:66-69 | ASCII capitals fold to lower case; every other character is unchanged |
| Parameters.ToLowerIs | Source/OJDParameters.cpp:66-69 | a character folds to a lower-case letter exactly when it is that letter or its capital |
| Parameters.EqualsIgnoreCase | Source/OJDParameters.cpp:66-74 | defines the case-insensitive comparison: equal lengths and equal folded characters; its meaning for "hp" is HpLpBoolFromStringAccepts |
| Parameters.HpLpStringFromBool | Source/OJDParameters.cpp:56-59 | defines the HP/LP label, "HP" or "LP" cut to the limit; its partner is HpLpRoundTrip |
| Parameters.HpLpBoolFromString | Source/OJDParameters.cpp:66-69 | defines the HP/LP parser; HpLpBoolFromStringAccepts gives exactly the texts it accepts |
| Parameters.BypassStringFromBool | Source/OJDParameters.cpp:61-64 | defines the Bypass label, "Off" when bypassed and "On" when not, cut to the limit; its partner is BypassRoundTripInverts |
| Parameters.BypassBoolFromString | Source/OJDParameters.cpp:71-74 | defines the Bypass parser as written (true for "on"); BypassRoundTripInverts shows it inverts the labels |
| Parameters.BypassBoolFromStringCorrected | Source/OJDParameters.cpp:71-74 | defines the corrected Bypass parser (true for "off"); BypassRoundTripCorrected shows it reads the labels back |
| Parameters.HpLpBoolFromStringAccepts | Source/OJDParameters.cpp:66-69 | the HP/LP parser accepts exactly "hp", "hP", "Hp" and "HP" |
| Parameters.HpLpRoundTrip | Source/OJDParameters.cpp:56-69 | parsing the HP/LP label of a value gives the value back, except that the one-character label "H" reads as lp |
| Parameters.BypassRoundTripInverts | Source/OJDParameters.cpp:61-74 | as written, parsing the Bypass label of a value gives its negation (except the one-character "O") |
| Parameters.BypassRoundTripCorrected | Source/OJDParameters.cpp:61-74 | with a parser that accepts "off", every uncut Bypass label reads back as its own value |
| Parameters.ModeMatchesLabel | Source/OJDParameters.h:68-69 | the mode read from a switch state's raw value is hp exactly when that state's uncut label parses back as hp |
| Parameters.IdStringInjective | Source/OJDParameters.cpp:25-29 | no two parameters share an identifier string |
| Parameters.CreateParameterLayout | Source/OJDParameters.cpp:89-108 | five parameters with distinct ids, each parameter at its own fixed position (IdIndex); every rotary uses the shared 0 to 10 range with a default inside it; both switches default to off |
| Parameters.LayoutDefaults | Source/OJDParameters.cpp:101-106 | the defaults are Drive 1.65, Tone 5, Volume 8.35, and both switches off |
| Parameters.PresetManagerParameters | Source/OJDParameters.cpp:110-113 | the preset list names exactly the parameters other than Bypass, four in all |
| Waveshaper.OversamplingFactor | Source/Waveshaper.h:75-77 | one shifted left by the order 4 is 16 |
| Waveshaper.Transfer | Source/Waveshaper.h:32-52 | defines the curve as written, including the strict test at 1.1; its properties are TransferRegions, LowerKneeRange, UpperKneeRange, TransferSecant and TransferGapAtElevenTenths |
| Waveshaper.TransferCorrected | Source/Waveshaper.h:32-52 | defines the curve with the top clip inclusive; its properties are TransferCorrectedSecant and TransferCorrectedBounded |
| Waveshaper.TransferAgreesExceptAtElevenTenths | Source/Waveshaper.h:48-49 | the curve as written and the corrected curve differ exactly at input 1.1 |
| Waveshaper.TransferRegions | Source/Waveshaper.h:34-51 | inputs <= -1.7 give -1, inputs > 1.1 give 1, and inputs in [-0.3, 0.9] pass through unchanged |
| Waveshaper.LowerKneeSecant | Source/Waveshaper.h:38-42 | the lower knee's rise between two inputs, as their distance times the secant slope |
| Waveshaper.UpperKneeSecant | Source/Waveshaper.h:43-47 | the upper knee's rise between two inputs, as their distance times the secant slope |
| Waveshaper.LowerKneeAboveFloor | Source/Waveshaper.h:38-42 | right of -1.7 the lower knee stays above -1 |
| Waveshaper.LowerKneeBelowJoin | Source/Waveshaper.h:38-42 | on the open lower knee the output stays below -0.3 |
| Waveshaper.UpperKneeAboveJoin | Source/Waveshaper.h:43-47 | on the open upper knee the output stays above 0.9 |
| Waveshaper.UpperKneeBelowCeiling | Source/Waveshaper.h:43-47 | left of 1.1 the upper knee stays below 1 |
| Waveshaper.LowerKneeRange | Source/Waveshaper.h:38-42 | on (-1.7, -0.3) the curve is the lower knee and lies strictly between -1 and -0.3 |
| Waveshaper.UpperKneeRange | Source/Waveshaper.h:43-47 | on (0.9, 1.1) the curve is the upper knee and lies strictly between 0.9 and 1 |
| Waveshaper.KneesMeetNeighbours | Source/Waveshaper.h:36-49 | adjacent pieces agree at -1.7, -0.3 and 0.9; the upper knee reaches 1 at 1.1 |
| Waveshaper.KneeSlopesAtJoins | Source/Waveshaper.h:38-47 | each knee's rise near a join: slope 0 at -1.7 and 1.1, slope 1 at -0.3 and 0.9, so the corrected curve is smooth at all four joins; the curve as written is smooth at -1.7, -0.3 and 0.9 only, being discontinuous at 1.1 (TransferGapAtElevenTenths) |
| Waveshaper.LowerKneeSecantBounds | Source/Waveshaper.h:38-42 | across the closed lower knee the output rises by at least 0 and at most the input distance |
| Waveshaper.UpperKneeSecantBounds | Source/Waveshaper.h:43-47 | across the closed upper knee the output rises by at least 0 and at most the input distance |
| Waveshaper.SecantWithinPiece | Source/Waveshaper.h:32-52 | within one closed piece the corrected curve rises by at least 0 and at most the input distance |
| Waveshaper.TransferCorrectedSecant | Source/Waveshaper.h:32-52 | the corrected curve is non-decreasing and 1-Lipschitz, so it is continuous everywhere; the proof steps across the five pieces of the curve (Piece) |
| Waveshaper.TransferCorrectedBounded | Source/Waveshaper.h:32-52 | the corrected curve never leaves [-1, 1] |
| Waveshaper.TransferSecant | Source/Waveshaper.h:32-52 | the curve as written is non-decreasing, 1-Lipschitz and within [-1, 1] away from input 1.1 |
| Waveshaper.TransferGapAtElevenTenths | Source/Waveshaper.h:43-51 | as written, input 1.1 gives 1.1: outside [-1, 1] and above the output 1 for input 1.2 |
| Waveshaper.Shaped | Source/Waveshaper.h:60-68 | shaping with the curve as written keeps the block length |
| Waveshaper.ShapedAt | Source/Waveshaper.h:60-68 | the shaped sample at every position is the curve as written applied to the input sample at that position; ShapedBoundedAndOrdered and ShapeBlock rest on it |
| Waveshaper.ShapedBoundedAndOrdered | Source/Waveshaper.h:60-68 | every shaped sample lies within [-1, 1] except one that was exactly 1.1, which stays 1.1; any two samples other than 1.1 keep their order |
| Waveshaper.ShapeBlock | Source/Waveshaper.h:65 | the block is replaced in place by the curve as written applied to every sample |
| ToneStack.CornerFrequency | Source/ToneStack.h:42-43 | hp mode uses the 358 Hz corner and lp mode the 160 Hz corner |
| ToneStack.HpfGain | Source/ToneStack.h:61 | defines the blend gain, 0.7 * tone in hp and 0.2 * tone in lp; its properties are HpfGainBounds |
| ToneStack.HpfGainBounds | Source/ToneStack.h:61 | the blend gain is 0.7 * tone in hp and 0.2 * tone in lp; for tone in [0, 1] it stays in [0, 0.7] or [0, 0.2], and hp never blends in less than lp |
| ToneStack.Recombine | Source/ToneStack.h:63-70 | recombination keeps the block length |
| ToneStack.Scaled | Source/ToneStack.h:69 | scaling keeps the block length |
| ToneStack.RecombineIsSumOfBranches | Source/ToneStack.h:63-70 | each output sample is the low-pass sample plus the scaled high-pass sample; zero gain leaves only the low-pass branch; silent branches give silence |
| ToneStack.ToneStack.constructor | Source/ToneStack.h:94-102 | a new stack is in its initial mode, lp, with tone 1 and has no designed coefficients yet |
| ToneStack.ToneStack.Prepare | Source/ToneStack.h:37-56 | sizes the scratch buffer to the maximum block, designs both modes' pairs (each on its mode's single corner), installs the current mode's pair and clears both filters; mode and tone are kept |
| ToneStack.ToneStack.ResizeScratch | Source/ToneStack.h:39-40 | the scratch buffer is a fresh array of the maximum block size |
| ToneStack.ToneStack.DesignPairs | Source/ToneStack.h:42-55 | both modes' pairs are designed at the rate, and the filters run with the current mode's pair and cleared memory |
| ToneStack.ToneStack.SetHpLpMode | Source/ToneStack.h:79-88 | the mode becomes the new one; the filters switch to the stored pair only on a real change; nothing else changes |
| ToneStack.ToneStack.SetTone | Source/ToneStack.h:90-91 | the tone is stored as given, without clamping |
| ToneStack.ToneStack.Reset | Source/ToneStack.h:73-77 | only the two filters' memories are cleared |
| ToneStack.ToneStack.Process | Source/ToneStack.h:58-71 | the block becomes the low-pass output of the original input plus the blend gain times the high-pass output; the whole scratch buffer is scaled |
| ToneStack.WriteBlock | Source/ToneStack.h:64 | a filter's output is written to the front of a buffer, and the rest is kept |
| ToneStack.ScaleInPlace | Source/ToneStack.h:69 | every sample of the buffer is multiplied by the gain, in place |
| ToneStack.AddInto | Source/ToneStack.h:70 | each block sample gets the scratch sample at its position added |
| Processor.ChainOrder | Source/OJDProcessor.h:49-62 | the chain has eleven distinct stages, each at the index its enumerator has (StageIndex) |
| Processor.ChainMatchesTemplate | Source/OJDProcessor.h:49-69 | each position of the chain is declared with the processor type its stage needs |
| Processor.PeakSettings | Source/OJDProcessor.cpp:100-122 | defines the five (frequency, Q, gain in dB) settings from drive and mode; its properties are PeakSettingsInRange, PeakSettingsAtEnds, PeakSettingsByMode and PeakSettingsDependence |
| Processor.PeakSettingsInRange | Source/OJDProcessor.cpp:104-122 | for drive in [0, 1] every centre frequency and Q is positive; the pre-drive boost stays in [700, 1650] Hz with Q in [0.05, 0.15] and gain in [4, 36] dB; the notch only cuts (0 to -5 dB); boost 2 stays in [8.12, 15.5] dB |
| Processor.SquareWithinUnit | Source/OJDProcessor.cpp:102 | on [0, 1] the drive squared lies between 0 and the drive |
| Processor.PeakSettingsAtEnds | Source/OJDProcessor.cpp:104-118 | at drive 0 and 1 the pre-drive boost is (1600, 0.15, 4) and (700, 0.05, 36); the notch gain is 0 and -5; boost 2 is (74, 0.2, 8.12) and (74, 0.2, 15.5) |
| Processor.PeakSettingsByMode | Source/OJDProcessor.cpp:112-122 | boost 1 is (2052, 0.5, 4.6) in hp and (2781, 0.5, 4.38) in lp; boost 3 has gain 10 in hp and 16.9 in lp |
| Processor.PeakSettingsDependence | Source/OJDProcessor.h:52-58 | each peaking stage follows exactly the one parameter its comment names: Drive stages change with drive and ignore the mode, HP/LP stages change with the mode and ignore drive |
| Processor.DesignPeakSet | Source/OJDProcessor.cpp:129-135 | every peaking slot holds the filter designed for that slot's setting |
| Processor.InitialHandoff | Source/OJDProcessor.h:73-79 | a new processor has default filters in the chain, nothing pending, the flag down and the lock free |
| Processor.EnterLock | Source/OJDProcessor.cpp:126 | the designing thread takes the free lock |
| Processor.StorePending | Source/OJDProcessor.cpp:131-135 | the designed sets become the pending sets |
| Processor.RaiseFlag | Source/OJDProcessor.cpp:138 | the update flag goes up |
| Processor.ExitLock | Source/OJDProcessor.cpp:136 | the lock is released at the end of its scope |
| Processor.PublishAsWritten | Source/OJDProcessor.cpp:125-138 | a publication as written leaves the new sets pending, the flag up, the lock free and the chain unchanged |
| Processor.PublishCorrected | Source/OJDProcessor.cpp:125-138 | the same end state, with the flag raised before the lock is released |
| Processor.Pickup | Source/OJDProcessor.cpp:74-84 | with the flag up and the lock free, active and pending trade places; otherwise nothing changes; no set is lost, and afterwards the flag is down unless the lock was held |
| Processor.PickupIdempotent | Source/OJDProcessor.cpp:74-84 | a second pickup straight after the first changes nothing |
| Processor.PublishThenPickup | Source/OJDProcessor.cpp:74-138 | a pickup after an uninterrupted publication installs the published sets and keeps the old ones pending |
| Processor.LastPublicationWins | Source/OJDProcessor.cpp:74-138 | of two publications before a pickup, the later one is installed |
| Processor.StaleSetAfterInterleavedPickup | Source/OJDProcessor.cpp:74-138 | as written, a pickup between lock release and flag raise leads the next pickup to reinstall the stale sets and park the latest ones |
| Processor.InitialHandoffInvariant | Source/OJDProcessor.h:73-79 | a new processor meets the hand-off invariant with the default sets as the latest |
| Processor.CorrectedHandoffKeepsLatest | Source/OJDProcessor.cpp:74-138 | every step of a corrected publication and a pickup at any point keep the invariant; a pickup while the designer is idle installs the latest sets |
| Processor.PublishCorrectedKeepsInvariant | Source/OJDProcessor.cpp:125-138 | a whole corrected publication re-establishes the idle invariant for the new sets |
| Processor.RecalculatedHandoff | Source/OJDProcessor.cpp:94-139 | at sample rate 0 nothing changes; otherwise the sets designed for the normalised drive and the mode are pending, the flag is up, the lock is free and the chain is unchanged |
| Processor.IsBusesLayoutSupported | Source/OJDProcessor.cpp:52-56 | supported exactly when both main buses are mono; both then carry the processor's one channel |
| Processor.TruncateToInt | Source/OJDProcessor.cpp:47-48 | the latency conversion drops the fraction toward zero |
| Processor.AudioProcessor.HandoffState | Source/OJDProcessor.h:72-79 | defines the hand-off value of the four fields (active sets, pending sets, flag, lock); RecalculateFilters, ParameterChanged, UpdateParametersForProcessorChain and PrepareResources state their effect through it |
| Processor.AudioProcessor.constructor | Source/OJDProcessor.cpp:8-24 | fixed gain 11 before the waveshaper, default filters, nothing pending with the flag down, and the editor's initial state stored |
| Processor.AudioProcessor.RecalculateFilters | Source/OJDProcessor.cpp:94-139 | the new hand-off state is the recalculated hand-off of the old one |
| Processor.AudioProcessor.ParameterChanged | Source/OJDProcessor.cpp:141-147 | for Drive or HP/LP, the processor recalculates the peaking filters |
| Processor.AudioProcessor.UpdateParametersForProcessorChain | Source/OJDProcessor.cpp:71-92 | picks up any pending sets; then, on every block, sets the tone stack's mode (switching to the stored pair only on a change) and tone, and the raw volume as the dB gain; the stored pairs, memories and scratch buffer are kept |
| Processor.AudioProcessor.PrepareResources | Source/OJDProcessor.cpp:26-49 | with a channel-count change nothing but the rate changes, the tone stack and the editor state included; otherwise the chain is prepared and fresh peaking filters are published; the tone stack's mode and tone are kept |
| Processor.AudioProcessor.PrepareChain | Source/OJDProcessor.cpp:37-48 | the tone stack is prepared: both modes' pairs designed at the rate, the current mode's pair installed, memories cleared, mode and tone kept; the 30 Hz and 6.3 kHz filters are designed; the latency is the waveshaper latency truncated; peaking filters are published; the gain before the waveshaper, the volume and the editor state are kept |
| Processor.FirstBlockAfterPrepare | Source/OJDProcessor.cpp:8-92 | after construction, preparation and one block at default values, the chain runs the peaking filters for drive 0.165 in lp mode |
| Processor.SwitchToHpAfterPrepare | Source/OJDProcessor.cpp:71-92 | after preparation, a block with HP/LP on runs the tone stack with the hp pair preparation designed and cleared memories |
| Editor.RoundToInt | Source/OJDAudioProcessorEditor.cpp:95 | the result is within one half of the input, and ties go to the even neighbour |
| Editor.RoundToIntMonotone | Source/OJDAudioProcessorEditor.cpp:95 | rounding never reverses the order of two values |
| Editor.ConstrainedSize | Source/OJDAudioProcessorEditor.cpp:92-98 | the height is at least 588 and the width at least 310; a height of 588 or more is kept; a smaller one becomes 588 |
| Editor.WidthFollowsAspectRatio | Source/OJDAudioProcessorEditor.cpp:94-95 | the width is always the content height times the aspect ratio, rounded; the 310 minimum never binds |
| Editor.ConstrainedSizeIdempotent | Source/OJDAudioProcessorEditor.cpp:92-98 | constraining twice gives the same size as constraining once |
| Editor.ConstrainedSizeFixedPoints | Source/OJDAudioProcessorEditor.cpp:92-98 | a size is left unchanged exactly when its height is at least 588 and its width follows the aspect ratio |
| Editor.CheckBounds | Source/OJDAudioProcessorEditor.cpp:92-98 | the bounds are resized to the constrained size of their height, and their position is kept |
| Editor.CreateUiStateSubtree | Source/OJDAudioProcessorEditor.cpp:83-90 | the initial state is a "uiState" tree holding 310 x 588, and the size constraint leaves that size unchanged |

## Left out

- Filter design and evaluation:
  - The library's first-order and peaking filter design (Audio EQ Cookbook formulas in single precision) is not computed. Coefficient sets are symbolic design requests.
  - The IIR filter evaluation is a `FilterKernel` function supplied by the caller. It is only assumed to keep the block length.
- The decibel-to-gain conversion used by the peaking design is not computed. A peaking set records its gain in dB.
- The oversampler:
  - upsampling, decimation and its reported latency are library code;
  - the latency enters `PrepareResources` as a parameter;
  - `ShapeBlock` models only the shaping pass over the already oversampled block.
- The waveshaper stage's prepare and reset only forward to the oversampler, so they are not modelled.
- Floating point: the model computes over exact reals, so single-precision rounding at literals such as 1.1f and -1.7f is not captured.
- Threads:
  - the spin lock and the atomic flag are modelled as a sequential state machine over one shared `Handoff` value;
  - only interleavings written out step by step are covered, and atomicity and memory ordering are not.
- The chain's processing of a block:
  - only the tone stack's `Process` and the waveshaper's shaping pass are modelled;
  - the gains and the other filters' sample processing and memories are library code;
  - `processBlock` appears only as its parameter update (`UpdateParametersForProcessorChain`).
- ToneStack.ToneStack.Process: the gain stage's own smoothing state is not kept; the blend gain is applied as a plain multiplication.
- ToneStack.ToneStack.Prepare: the filters' prepare is modelled as one cleared memory value per branch, the order of a first-order filter.
- Processor.AudioProcessor.PrepareResources: the sample rate is a parameter, because the plug-in base class sets it before the call. The base class's own lifecycle and its latency reporting are not part of this model.
- Processor.AudioProcessor.RecalculateFilters: uses the corrected publication order from Findings. Inside one method call the order is not observable; the as-written order is modelled by `PublishAsWritten`.
- Processor.AudioProcessor.constructor: does not state the volume stage's gain before the first block. That gain is the library's default and is not part of this model.
- Parameters.EqualsIgnoreCase: case folding covers ASCII letters only, where the library folds all of Unicode. Every label involved is ASCII.
- Editor.CheckBounds: the previous bounds, the limits and the four stretching flags are ignored by the source and are not parameters here.
- The editor's drawing and layout code, the look-and-feel and the pedal graphics are rendering code with no logic to prove.
- The message-of-the-day download, the preset manager itself and the parameter-ID versioning are network code or foreign code.
- Processor.AudioProcessor.constructor: registering the two parameter listeners is shown by `ParameterChanged` requiring Drive or HP/LP, not as state.

## Findings

| source | as written | input that shows it | evidently intended | confidence | as-written member | corrected member |
|---|---|---|---|---|---|---|
| Source/Waveshaper.h:48-49 | the top clip tests `in > 1.1`, so 1.1 itself takes no branch and passes through | input 1.1 gives output 1.1: outside [-1, 1], and greater than the output 1 for input 1.2 | `in >= 1.1`, clipping 1.1 to 1, which makes the curve continuous, non-decreasing and bounded by 1 | high; not executed | Waveshaper.TransferGapAtElevenTenths | Waveshaper.TransferCorrectedSecant |
| Source/OJDParameters.cpp:71-74 | the Bypass parser returns true for "on", while the label for true (bypassed) is "Off" (lines 61-64) | bypassed gives the label "Off", which parses as not bypassed; not bypassed gives "On", which parses as bypassed | the parser accepts "off", so a label reads back as its own value | high; not executed | Parameters.BypassRoundTripInverts | Parameters.BypassRoundTripCorrected |
| Source/OJDProcessor.cpp:125-138 | the update flag is raised after the lock is released | with a first publication still pending, a second one stores its sets and releases the lock; a block then picks up (installing the second sets), and the flag is raised again; the next block swaps the stale sets back into the chain | raise the flag while still holding the lock, so every pickup finds the flag and the pending sets consistent | medium; needs a block to start in a short window between two parameter changes; not executed | Processor.StaleSetAfterInterleavedPickup | Processor.CorrectedHandoffKeepsLatest |
