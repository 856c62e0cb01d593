# spectro-cam-rs spectrum core in Dafny

This project models the numeric core of spectro-cam-rs, a webcam spectrometer.
It covers four parts:

- **Window reduction.** `SpectrumCalculator::process_window` turns a cropped RGB camera strip into a 3-row raw spectrum.
- **Spectrum container.** `SpectrumContainer` buffers raw spectra, averages them and applies the per-channel gains. It appends a Sum row (optionally scaled by a reference calibration), optionally low-pass filters every row in both directions, and subtracts a zero reference. It also answers queries: channel views, point export, the JSON document with its frame timestamps, the maximum value, peaks and dips, and reference calibration.
- **Wavelength calibration.** The two-point map from pixel index to wavelength and the configuration defaults.
- **Tungsten reference.** The tungsten-halogen reference curve: the banded emissivity fit and a 340–1999 nm grid normalised to a peak of one.

Modules, one per file:

- `Wrappers`: Option and Result.
- `Matrix`: row-major matrices of reals, entrywise sums, and maxima.
- `Config`: `src/config.rs`.
- `SpectrumCalculator`: `process_window`.
- `Pipeline`: the `update_spectrum` pipeline as functions over a `Snapshot` of the container's three fields, plus the in-place filter loops as methods.
- `PipelineLemmas`: properties of one update and of sequences of updates.
- `PeaksDips`: the sliding-window extremum search and the neighbourhood de-duplication.
- `Container`: the queries as functions of a `Snapshot`, and the class `SpectrumContainer`, whose methods change its fields.
- `TungstenHalogen`: `src/tungsten_halogen.rs`.

Number and function representations:

- `f32`/`f64` values are reals.
- Timestamps are an opaque type that is only copied.
- The following definitions are not in the modelled files, so each is a function-typed parameter:
  - the linearisation curve;
  - the Butterworth biquad (its coefficients and `run`);
  - `get_scaling_factor_from_index`, which the calibration lemmas assume to be indexing (see Left out);
  - `ReferenceConfig::get_value_at_wavelength`;
  - the black-body factor of `spectral_irradiance`.

## Model

| member | source | states |
|---|---|---|
| SpectrumCalculator.ProcessWindowSpec | src/spectrum.rs:61-78 | The result has 3 rows of `width` columns. Entry (c, j) is channel c summed over all rows at column j, divided by rows·255·3, and lies in [0, 1/3]. A window with no rows gives zeros. |
| SpectrumCalculator.ChannelTotalBounds | src/spectrum.rs:64-71 | A channel's column total over n byte rows lies in [0, 255·n]. |
| SpectrumCalculator.RowMatricesSum | src/spectrum.rs:66-75 | Reducing the per-row matrices with `+` yields, at every entry, the channel total of that column. |
| SpectrumCalculator.ProcessWindow | src/spectrum.rs:61-78 | Defines `process_window`. Its properties are stated by SpectrumCalculator.ProcessWindowSpec. |
| Matrix.SumAllAt | src/spectrum.rs:154-161 | The elementwise sum of the buffered matrices is, entry by entry, the sum of that entry over the buffer. |
| Matrix.SeqMax | src/tungsten_halogen.rs:16-20 | The `reduce(max)` of a non-empty sequence bounds every element and is one of them. |
| Matrix.MaxEntry | src/spectrum.rs:419-421 | The reduce over all entries is None exactly when there are none; otherwise it bounds every entry and is attained. |
| Config.WavelengthDelta | src/config.rs:81-84 | The delta is non-negative. Delta times the index span equals the wavelength span. |
| Config.WavelengthFromIndex | src/config.rs:86-89 | Defines the pixel-to-wavelength map. Its properties are in Config.WavelengthAtCalibrationPoints, WavelengthIsLinearInterpolation, WavelengthStep and WavelengthStrictlyIncreasing. |
| Config.WavelengthAtCalibrationPoints | src/config.rs:86-89 | The map sends `low.index` to `low.wavelength` and `high.index` to `high.wavelength`. |
| Config.WavelengthIsLinearInterpolation | src/config.rs:86-89 | The map is the straight line through both anchors at every index, also outside them (no clamping). |
| Config.WavelengthStep | src/config.rs:86-89 | Consecutive indices are exactly one delta apart. |
| Config.WavelengthStrictlyIncreasing | src/config.rs:86-89 | With `low.wavelength < high.wavelength` the map is strictly increasing in the index. |
| Config.ExampleCalibrationValues | src/config.rs:154-173 | For 436 nm at 50 and 546 nm at 100: delta 2.2, and indices 49, 50, 51, 100, 101 map to 433.8, 436, 438.2, 546, 548.2. |
| Config.DefaultCalibration | src/config.rs:92-105 | The default anchors are 436 nm at 261 and 546 nm at 486, with linearisation off, unit gains and no scaling. The anchors satisfy the map's requirements and increase strictly. |
| Config.DefaultPostprocessing | src/config.rs:114-122 | Buffer size 10, filter off, cutoff 0.5. The buffer size lies in the GUI's 1..100 range, and the cutoff in the filter's clamp range. |
| Config.DefaultImageConfig | src/config.rs:55-66 | The default window is a 1500 × 1 strip at (100, 500), flipped, with no camera controls. It lies inside the default 1920 × 1080 frame. |
| Pipeline.Pass | src/spectrum.rs:206-208 | The forward biquad pass keeps the length and clamps every output to ≥ 0. |
| Pipeline.PassBackward | src/spectrum.rs:210-212 | The reverse pass keeps the length and clamps every output to ≥ 0. |
| Pipeline.ZeroPhase | src/spectrum.rs:203-213 | Forward then backward with the same biquad state: same length, all samples ≥ 0. |
| Pipeline.ForwardPass | src/spectrum.rs:206-208 | The in-place forward loop leaves the channel equal to `Pass` of the old contents and returns the biquad's final registers. |
| Pipeline.BackwardPass | src/spectrum.rs:210-212 | The in-place reverse loop leaves the channel equal to `PassBackward` of the old contents, from the given registers. |
| Pipeline.FilterChannel | src/spectrum.rs:204-212 | Both loops over one channel leave it equal to `ZeroPhase` of its old contents. |
| Pipeline.Filter | src/spectrum.rs:193-214 | Filter off: the spectrum is unchanged. Filter on: each of the 4 rows is filtered with a fresh biquad at the clamped cutoff. |
| Pipeline.WithSumRow | src/spectrum.rs:176-191 | Appends the Sum row below R, G and B, giving 4 × n. The Sum row's values are stated by PipelineLemmas.ProcessedSum. |
| Pipeline.PushFront | src/spectrum.rs:150-152 | Defines `push_front` then `truncate`. Its properties are in PipelineLemmas.StepBuffer. |
| Pipeline.Linearized | src/spectrum.rs:144-148 | Keeps the 3 × n shape. Its values are stated by PipelineLemmas.LinearizedSpec. |
| Pipeline.Mean | src/spectrum.rs:154-161 | Keeps the 3 × n shape. Its entries are stated by PipelineLemmas.MeanAt. |
| Pipeline.Gained | src/spectrum.rs:163-174 | Keeps the 3 × n shape. The gains are stated by PipelineLemmas.ProcessedChannel. |
| Pipeline.SumRow | src/spectrum.rs:176-191 | One sample per column. Its values are stated by PipelineLemmas.ProcessedSum. |
| Pipeline.Filtered | src/spectrum.rs:193-214 | Keeps the 4 × n shape. Its behaviour is stated by Pipeline.Filter and PipelineLemmas.ProcessedFilteredNonNegative. |
| Pipeline.Processed | src/spectrum.rs:154-214 | A 4 × n matrix. Its rows are stated by PipelineLemmas.ProcessedChannel, ProcessedSum and ProcessedFilteredNonNegative. |
| Pipeline.ZeroReferenced | src/spectrum.rs:216-218 | Keeps the 4 × n shape. Its use in an update is stated by PipelineLemmas.StepSpectrum. |
| Pipeline.AsWrittenZeroReference | src/spectrum.rs:136-142 | The zero reference as the source keeps it. Its properties are in PipelineLemmas.ZeroReferenceBeforeFirstSpectrum and StepAgreesWithSource. |
| Pipeline.KeptZeroReference | src/spectrum.rs:136-142 | A kept zero reference always has the input's width and is the one held before. |
| Pipeline.Empty | src/spectrum.rs:89-100 | The state of a new container is well formed. The class constructor states its fields. |
| Pipeline.Step | src/spectrum.rs:128-221 | `update_spectrum` keeps the state well-formed: 4 rows, with buffer and zero reference of one width. The width is the input's. |
| Pipeline.Run | src/spectrum.rs:107-126 | Applying `update_spectrum` to each input in order keeps the state well-formed. |
| PipelineLemmas.StepBuffer | src/spectrum.rs:150-152 | The buffer never exceeds the configured size and grows by exactly one below it. The new entry is at the front, and the retained entries follow in their old order. |
| PipelineLemmas.StepWidthChange | src/spectrum.rs:136-142 | A width change drops the zero reference, and the buffer becomes exactly the new entry. A zero reference of another width is dropped as well. Otherwise the zero reference is kept. |
| PipelineLemmas.ZeroReferenceBeforeFirstSpectrum | src/spectrum.rs:216-218 | A zero reference set on a new container is 4 × 0. The source keeps it for the first input of any width, so the subtraction has mismatched shapes. |
| PipelineLemmas.StepAgreesWithSource | src/spectrum.rs:136-142 | The kept zero reference equals the source's exactly when the source's reference has the input's width (or is absent). |
| PipelineLemmas.LinearizedSpec | src/spectrum.rs:144-148 | With linearisation off the input is buffered unchanged; otherwise every sample goes through the curve. |
| PipelineLemmas.MeanAt | src/spectrum.rs:154-161 | Each mean entry is the buffer's entry sum divided by the buffer length, or 0 for an empty buffer. |
| PipelineLemmas.ProcessedChannel | src/spectrum.rs:163-174 | Without the filter, rows R, G and B are the buffer mean times `gain_r`, `gain_g` and `gain_b`. |
| PipelineLemmas.ProcessedSum | src/spectrum.rs:176-191 | Without the filter, Sum[j] is (R+G+B)[j]/3, or (R+G+B)[j]·scale(j)/3 when a scaling vector is set. |
| PipelineLemmas.ProcessedFilteredNonNegative | src/spectrum.rs:193-214 | With the filter on, every sample of every row is ≥ 0. |
| PipelineLemmas.StepSpectrum | src/spectrum.rs:216-220 | The new spectrum is computed from the new buffer alone, minus the kept zero reference, without clamping. |
| PipelineLemmas.RunBufferBounded | src/spectrum.rs:150-152 | After any non-empty sequence of updates the buffer holds at most `spectrum_buffer_size` entries. |
| PipelineLemmas.RunFillsBuffer | src/spectrum.rs:442-461 | Inputs of one width grow the buffer by one per update until it reaches `spectrum_buffer_size`, then it stays there. |
| PipelineLemmas.RunNewestFirst | src/spectrum.rs:150-152 | After updates, the newest input (linearised) is at the front of the buffer. |
| PeaksDips.ExtremaBelow | src/spectrum.rs:235-251 | Every index the window scan marks is a strict extremum of its window. |
| PeaksDips.Extrema | src/spectrum.rs:230-252 | Every candidate index lies in the spectrum. The full characterisation is in PeaksDips.ExtremaMembership and ExtremaIncreasing. |
| PeaksDips.Candidates | src/spectrum.rs:230-252 | The candidate points of the windows loop. The loop is proved equal to it by PeaksDips.FindCandidates, and PeaksDips.CandidatesStep gives its one-window step. |
| PeaksDips.WindowQualifiesIff | src/spectrum.rs:236-244 | The split-at-middle window test holds exactly when the middle sample strictly beats every other sample within fw of it. |
| PeaksDips.WindowQualifies | src/spectrum.rs:236-244 | The source's split-at-middle window test. PeaksDips.WindowQualifiesIff states it equals strict dominance within fw. |
| PeaksDips.ExtremaMembership | src/spectrum.rs:230-252 | Index k is a candidate if and only if fw ≤ k < n − fw and s[k] strictly beats all other samples in [k − fw, k + fw]. |
| PeaksDips.ExtremaIncreasing | src/spectrum.rs:235-251 | Candidates are listed in strictly increasing index order. |
| PeaksDips.NoExtremaInShortSpectrum | src/spectrum.rs:235 | A spectrum shorter than one window has no candidates. |
| PeaksDips.PlateauHasNoExtremum | src/spectrum.rs:238-244 | With fw ≥ 1, two equal neighbouring samples are neither of them a candidate. |
| PeaksDips.NegatedExtremum | src/spectrum.rs:238-244 | k is a dip of −s exactly when it is a peak of s. |
| PeaksDips.ExtremaBelowNegated | src/spectrum.rs:235-251 | The dip indices of −s are the peak indices of s. |
| PeaksDips.NeighbourhoodBestNegated | src/spectrum.rs:258-269 | A point is the best peak of its neighbourhood exactly when its negation is the best dip among the negated points. |
| PeaksDips.DedupedNegated | src/spectrum.rs:254-273 | De-duplicating negated dips gives the negated de-duplicated peaks. |
| PeaksDips.PeaksDipsSymmetry | src/spectrum.rs:223-274 | Dips of −s are the peaks of s with negated values, at the same wavelengths. |
| PeaksDips.DedupedSpec | src/spectrum.rs:258-271 | A point survives de-duplication exactly when it is a candidate that no candidate strictly within ±window/2 of its wavelength beats. |
| PeaksDips.Deduped | src/spectrum.rs:254-273 | Defines the neighbourhood de-duplication. Its properties are in PeaksDips.DedupedSpec and DedupedNegated. |
| PeaksDips.PeaksAndDips | src/spectrum.rs:223-274 | Defines `spectrum_to_peaks_and_dips`. Its properties are in PeaksDips.PeaksDipsSymmetry and the example lemmas, and the method is Container.SpectrumContainer.SpectrumToPeaksAndDips. |
| PeaksDips.CandidatesStep | src/spectrum.rs:245-250 | Scanning one more window appends that window's middle point when it qualifies. |
| PeaksDips.TailHasNoExtremum | src/spectrum.rs:235 | No index past the last full window is a candidate. |
| PeaksDips.FindCandidates | src/spectrum.rs:230-252 | The windows loop yields exactly the strict extrema as points (wavelength of index, value), in index order. |
| PeaksDips.ReducedBestIff | src/spectrum.rs:259-268 | A point in its own neighbourhood equals the neighbourhood's max (min) exactly when no neighbour beats it. |
| PeaksDips.ReduceNeighbourhood | src/spectrum.rs:260-267 | The filter/reduce is None exactly when no candidate lies in the neighbourhood. Otherwise it bounds every neighbour and is one of their values. |
| PeaksDips.Dedupe | src/spectrum.rs:254-273 | The de-duplication loop keeps, in order, exactly the candidates that are best in their neighbourhood. |
| PeaksDips.ExampleExtrema | src/spectrum.rs:230-252 | In [0, 2, 0, 1, 0] with fw = 1 the peaks are at 1 and 3 and the dip at 2. |
| PeaksDips.TwoNearbyPeaksExample | src/spectrum.rs:254-273 | Two peaks within one unique window reduce to the higher one. |
| PeaksDips.DipBetweenPeaksExample | src/spectrum.rs:223-274 | The single dip of the example survives de-duplication. |
| Container.SpectrumChannel | src/spectrum.rs:276-292 | One point per column, carrying the row's value and the calibration map's wavelength for that column. Wavelengths increase strictly for increasing anchors, and the anchor columns carry their wavelengths. |
| Container.SpectrumToPointVec | src/spectrum.rs:402-417 | Point i carries the wavelength of column i and the four channel values of that column, agreeing with every channel view. |
| Container.ToJsonWithTimestamps | src/spectrum.rs:371-391 | Fails with "No spectrum data available" exactly when the buffer is empty. Otherwise start is the oldest frame's start, end is the newest frame's end, and the points are the Sum channel. |
| Container.GetSpectrumMaxValue | src/spectrum.rs:419-421 | None exactly when the spectrum has no columns; otherwise the largest of all 4·n entries, attained. |
| Container.HasZeroReference | src/spectrum.rs:317-319 | Holds exactly when a zero reference is held. Container.SpectrumContainer.SetZeroReference and ClearZeroReference state that it then holds or fails. |
| Container.SetCalibration | src/spectrum.rs:296-315 | Fails on a wavelength without a reference value, or on a zero Sum sample. Otherwise it changes only `scaling`, to one factor per column with factor·Sum = reference. |
| Container.FactorAt | src/spectrum.rs:306-312 | A committed factor is the reference value divided by a non-zero Sum sample. |
| Container.ScaledSumRow | src/spectrum.rs:182-187 | Setting a scaling vector on an unscaled, unfiltered configuration multiplies each Sum sample by its factor. Assumes the lookup returns entry j of the vector. |
| Container.ScaledToReference | src/spectrum.rs:182-187 | A factor equal to reference over Sum turns the rescaled Sum sample into the reference. Assumes the lookup returns entry j of the vector. |
| Container.CalibrationMatchesReference | src/spectrum.rs:294-315 | Reprocessing the same frames with the committed scaling gives the reference value in every column (unfiltered, unscaled start). Assumes the lookup returns entry k of any vector. |
| Container.StepMessage | src/spectrum.rs:119-124 | With a non-zero buffer size each update yields exactly one document, ending where its input frame ended. |
| Container.PublishedEnds | src/spectrum.rs:107-126 | `update` publishes one document per input, in input order, each ending where its input's frame ended. |
| Container.NothingPublishedWithoutBuffer | src/spectrum.rs:119-124 | With a buffer size of zero every document fails, and `update` publishes nothing. |
| Container.Message | src/spectrum.rs:119-124 | What one update sends: at most one document, and none exactly when the buffer is empty. |
| Container.Published | src/spectrum.rs:107-126 | The documents `update` sends, at most one per input. Container.PublishedEnds and NothingPublishedWithoutBuffer state which. |
| Container.DefaultConfigMaxValue | src/spectrum.rs:464-471 | Under the default configuration a new container fed a uniform spectrum of value v reports v as its maximum. |
| Container.SpectrumContainer.constructor | src/spectrum.rs:90-101 | A new container holds a 4 × 0 spectrum, an empty buffer and no zero reference. |
| Container.SpectrumContainer.ClearBuffer | src/spectrum.rs:103-105 | Empties the buffer. The spectrum and the zero reference are unchanged. |
| Container.SpectrumContainer.SetZeroReference | src/spectrum.rs:321-323 | Stores the current spectrum as zero reference; `has_zero_reference` then holds. |
| Container.SpectrumContainer.ClearZeroReference | src/spectrum.rs:325-327 | Drops the zero reference; `has_zero_reference` then fails. |
| Container.SpectrumContainer.UpdateSpectrum | src/spectrum.rs:128-221 | The field updates leave the state equal to `Step` of the old state, and valid. |
| Container.SpectrumContainer.Update | src/spectrum.rs:107-126 | The drain loop leaves the state equal to `Run` over the inputs and returns exactly the documents `Published` describes. |
| Container.SpectrumContainer.Publish | src/spectrum.rs:119-124 | The document sent after an update is the JSON of the state, or nothing when it fails. |
| Container.SpectrumContainer.SpectrumToPeaksAndDips | src/spectrum.rs:223-274 | Returns exactly the de-duplicated strict extrema of the Sum row. |
| TungstenHalogen.EmissivityBand | src/tungsten_halogen.rs:40-55 | None exactly below 340 nm or above 2600 nm; otherwise the coefficients of the band containing the wavelength. |
| TungstenHalogen.BandsPartition | src/tungsten_halogen.rs:40-53 | The bands cover [340, 2600] without gaps or overlaps. |
| TungstenHalogen.BandLimitsBelongAbove | src/tungsten_halogen.rs:42-53 | A band limit belongs to the band above it, and 2600 nm closes the last band. 420 nm uses the 0.450 µm band. |
| TungstenHalogen.BandCentresInBand | src/tungsten_halogen.rs:42-53 | Every band's centre l0 lies in that band. |
| TungstenHalogen.Emissivity | src/tungsten_halogen.rs:37-62 | Defined exactly on [340, 2600] nm. |
| TungstenHalogen.EmissivityAtBandCentre | src/tungsten_halogen.rs:56-61 | At a band centre the fit is a0 + a1·(T/1000 − 2.2); at 2200 K it is a0. |
| TungstenHalogen.SpectralIrradiance | src/tungsten_halogen.rs:27-33 | Defined exactly where the emissivity is, and equal to emissivity times the black-body factor. |
| TungstenHalogen.RawReference | src/tungsten_halogen.rs:9-15 | 1660 grid points, point i at wavelength 340 + i. |
| TungstenHalogen.GridIrradianceDefined | src/tungsten_halogen.rs:13 | Every grid wavelength lies in the fitted range, so the irradiance `unwrap` never fails on the grid. |
| TungstenHalogen.RawMax | src/tungsten_halogen.rs:16-20 | Defines the `reduce(f32::max)` of the raw grid. Its properties are in TungstenHalogen.LargestValue and NormalisedPeakIsOne. |
| TungstenHalogen.DividedBy | src/tungsten_halogen.rs:21 | Dividing by the maximum keeps every wavelength; each new value times the maximum is the old value. |
| TungstenHalogen.Normalised | src/tungsten_halogen.rs:9-21 | Has 1660 points. Its values are stated by TungstenHalogen.NormalisedGrid and NormalisedPeakIsOne. |
| TungstenHalogen.NormalisedGrid | src/tungsten_halogen.rs:9-21 | Normalisation keeps wavelength 340 + i at point i, and point i's value times the raw maximum is the raw value there. |
| TungstenHalogen.NormalisedPeakIsOne | src/tungsten_halogen.rs:68-76 | 1660 points from 340 to 1999 nm, with maximum exactly 1 when the raw maximum is positive. |
| TungstenHalogen.ReferenceFromFilamentTemp | src/tungsten_halogen.rs:8-23 | Returns the normalised grid. |
| TungstenHalogen.FillGrid | src/tungsten_halogen.rs:9-15 | The fill loop produces the raw irradiance grid in a new array. |
| TungstenHalogen.LargestValue | src/tungsten_halogen.rs:16-20 | The max loop returns the largest value of the array. |
| TungstenHalogen.DivideAll | src/tungsten_halogen.rs:21 | The in-place loop divides every value by the maximum and keeps every wavelength. |

## Left out

- The camera thread, the GUI, the TCP feed server and the channels are left out. `update` drains a channel and `try_send`s each document. Here it takes the queued inputs as a sequence and returns the documents it offers; a full channel dropping a document is not modelled.
- `serde_json` serialisation is not modelled. The JSON document is a datatype, and the serialisation error ("Failed to serialize spectrum to JSON") is not modelled.
- `write_to_csv` (file I/O) is left out; `spectrum_to_point_vec`, which it writes, is modelled.
- `f32`/`f64` arithmetic is modelled as reals: no rounding, NaN or infinity. The value comparison of the de-duplication is therefore exact.
- Fixed-width integers are unbounded here. The `u32` product `rows * 255 * 3` in `process_window` overflows only for windows taller than 5 million rows.
- The linearisation curve, the biquad coefficients and `run`, `ReferenceConfig::get_value_at_wavelength` and the black-body factor (`exp_m1`, physical constants) are function-typed parameters with no assumed properties.
- `get_scaling_factor_from_index` is a function-typed parameter too. Its definition is not part of this model. Container.CalibrationMatchesReference, Container.ScaledSumRow and Container.ScaledToReference require it to return entry k of the scaling vector at index k, as its name and its use at src/spectrum.rs:184-186 suggest. The pipeline functions assume nothing about it. `reference_from_filament_temp`'s peak-one result is proved for a positive raw maximum.
- The `src/config.rs` in the repository has an older shape. It lacks `linearize`, the gains, `scaling` and the view configuration's peak windows, which `src/spectrum.rs` reads. These are modelled as fields with the values `src/spectrum.rs` needs: linearisation off, unit gains and no scaling by default. These defaults are what the maximum-value case at src/spectrum.rs:464-471 relies on.
- The Sum row's scaling multiplies the post-gain R+G+B sum by the factor (src/spectrum.rs:182-187); the model does the same.
- Config.WavelengthFromIndex: requires `low.wavelength <= high.wavelength` and `low.index < high.index`. Otherwise the source's unsigned subtractions underflow, or equal indices divide by zero. The GUI keeps `low < high`.
- Container.SetCalibration: where the source panics on a missing reference value (`unwrap`), the model returns `MissingReference`. Where it stores an infinite or NaN factor for a zero Sum sample, the model returns `NonFiniteFactor` instead of a factor.
- Container.SpectrumChannel: requires `channel < 4`. The source panics on an out-of-range row.
- PeaksDips.Dedupe: requires a unique window > 0 (the GUI's range is ≥ 1). With a non-positive window the source's `unwrap` panics as soon as there is a candidate.
- Container.SpectrumContainer.SpectrumToPeaksAndDips: requires a unique window > 0, as for `Dedupe`.
- TungstenHalogen.ReferenceFromFilamentTemp: requires a non-zero raw maximum. The source divides by it, giving NaN for a zero maximum.
- Pipeline.Step: drops a zero reference whose width differs from the input's, which the source does not do (see Findings). Container.SpectrumContainer.UpdateSpectrum carries the same one-line check.
- The Planck-law factor is not constrained to be positive. The normalisation results hold for any factor with a non-zero (respectively positive) maximum.

## Findings

| source | as written | input that shows it | evidently intended | confidence | as-written member | corrected member |
|---|---|---|---|---|---|---|
| src/spectrum.rs:136-142 | The zero reference is dropped only when the buffer is non-empty and its front has another width. A reference held over an empty buffer survives an input of another width, and `current_spectrum -= zero_reference` (src/spectrum.rs:216-218) then subtracts matrices of different shapes, which panics. | On a new container, "Set Current As Zero Reference" is enabled because no reference is held (src/gui/mod.rs:594-600). It stores the 4 × 0 initial spectrum. The first spectrum, e.g. 1500 columns, then meets an empty buffer, so the reference is kept. The same happens after `clear_buffer` (src/gui/mod.rs:116) followed by a change of window width. | A zero reference whose width differs from the incoming spectrum's is dropped like one on a width change, so the subtraction always has matching shapes. | not executed | PipelineLemmas.ZeroReferenceBeforeFirstSpectrum | Pipeline.KeptZeroReference |
