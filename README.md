# ubahnmapper importer pipeline and LPS25 register logic, in Dafny

ubahnmapper records air pressure on underground rides and turns the
recording into a map of the line. This project models two parts of it.

**The importer pipeline** (`cmd/importer/main.go`) works on a time series
of data points. Each point has a timestamp, a pressure and an optional label.
The pipeline has four stages:

- **combine**: copies the sensor series and gives each protocol event's
  label to the first point recorded strictly after the event.
- **trim**: cuts the series to the span from its first labelled point to its
  last one.
- **collapse**: scans the series once. It replaces every dwell from an
  arrival label (`" an"`) to the next departure label (`" ab"`) with two
  points a fixed duration apart, both at the dwell's average pressure. The
  time this gains or loses is carried forward to every later point. An
  arrival followed by another arrival before any departure is an error.
- **normalize**: moves the series so that its first point lands on the
  nearest whole hour, plus an optional extra shift. It takes every pressure
  relative to a base, which defaults to the first point's pressure. Both
  offsets are recorded in the series.

**The LPS25 driver** (`pkg/lps25/device.go`) has byte-level helpers:
single-bit test, set and clear. It also has the read-modify closures that
enable, disable and reset the sensor and set its output data rate, and the
assembly of the 24-bit raw pressure.

Layout:

- `series.dfy` (module `Series`): the data point, the `Timeseries` class
  and shifting along the time axis.
- `combine.dfy`, `trim.dfy`, `collapse.dfy`, `normalize.dfy`: one module
  per stage. Each stage is a method over `Timeseries` objects, proved
  against a pure specification function (`Combined`, `Trimmed`,
  `Collapsed`, `Normalized`). Lemmas state what the stage promises about
  that function.
- `lps25.dfy` (module `Lps25`): the driver's pure functions over `bv8`
  bytes.

Modelling choices:

- Times and durations are integer nanoseconds. The epoch lies on a whole
  hour, as Go's zero time does.
- Pressures are real numbers.
- A label is a `string`; "no label" is the empty string.
- Go's nil `timeShift` pointer is `None`.
- Go's uint8 bit positions are integers below 256. A position of 8 or more
  shifts the one out of the byte, as in Go.

## Model

| member | source | states |
|---|---|---|
| Series.ShiftAll | cmd/importer/main.go:346-350 | every point moved by the same duration; length, pressure and label kept |
| Series.ChronologicalAppend | cmd/importer/main.go:27-31 | two time-ordered runs, the second starting no earlier than the first ends, form a time-ordered run |
| Series.Timeseries.constructor | cmd/importer/main.go:33-38 | a new series holds the given points with both offsets at Go's zero value |
| Combine.FirstAfter | cmd/importer/main.go:193-198 | the index of the first point recorded strictly after an instant; None exactly when every point is recorded at or before it |
| Combine.SameTimesSameFirstAfter | cmd/importer/main.go:193-198 | the target point depends only on the timestamps, so relabelling never changes which point an event goes to |
| Combine.Attach | cmd/importer/main.go:193-198 | one event: the first point after it takes its label; every other label and every timestamp and pressure is kept; no later point means the event is dropped |
| Combine.CombinedKeepsSamples | cmd/importer/main.go:185-202 | combining keeps the length and every point's timestamp and pressure; only labels change |
| Combine.CombinedStep | cmd/importer/main.go:192-199 | one more event changes only the label of the point it targets |
| Combine.CombinedUntargeted | cmd/importer/main.go:192-199 | a point that no event targets keeps its own label |
| Combine.CombinedLastTarget | cmd/importer/main.go:192-199 | a point carries the label of the last event that targets it; later events overwrite earlier ones |
| Combine.CombineTimeseries | cmd/importer/main.go:185-202 | returns a fresh series whose points are the combined points; an empty protocol gives the data points unchanged; the inputs are not modified |
| Combine.AttachEvent | cmd/importer/main.go:193-198 | the inner loop attaches one event to the series in place; the offsets are kept |
| Trim.FirstLabelledFrom | cmd/importer/main.go:238-245 | the first labelled index from a position on, or None exactly when none is labelled there |
| Trim.LastLabelledBefore | cmd/importer/main.go:252-257 | the last labelled index below a position, or None exactly when none is labelled there |
| Trim.FirstLabelled | cmd/importer/main.go:238-245 | the first labelled index; None exactly when no point is labelled |
| Trim.LastLabelled | cmd/importer/main.go:252-257 | the last labelled index; None exactly when no point is labelled |
| Trim.TrimmedUnlabelled | cmd/importer/main.go:247-261 | without any label, trimming keeps every point |
| Trim.TrimmedSpan | cmd/importer/main.go:237-263 | with labels, the result is exactly the slice from the first labelled index to the last, both ends labelled, and everything dropped is unlabelled |
| Trim.TrimmedEndsLabelled | cmd/importer/main.go:237-263 | if any point is labelled, the result is non-empty and starts and ends with a labelled point |
| Trim.TrimmedIdempotent | cmd/importer/main.go:237-263 | trimming twice is trimming once |
| Trim.TrimmedFromFirst | cmd/importer/main.go:247-261 | the source's two-step cut (drop the points before the first label, then those after the last label of the rest) gives the specified span |
| Trim.TrimTimeseries | cmd/importer/main.go:237-263 | reassigns the given series' own points to the trimmed span and returns that same series; the offsets are kept |
| Collapse.IsArrival | cmd/importer/main.go:365-367 | an arrival label is at least three characters long and ends in 'n' |
| Collapse.IsDeparture | cmd/importer/main.go:369-371 | a departure label ends in 'b', so no label is both an arrival and a departure |
| Collapse.LabelsAreSuffixes | cmd/importer/main.go:365-371 | the two tests are exactly Go's suffix tests for " an" and " ab" |
| Collapse.KindOf | cmd/importer/main.go:284-301 | a point's kind is Arrival exactly when it is an arrival, and Departure exactly when it is a departure |
| Collapse.Kinds | cmd/importer/main.go:281-301 | the kinds of all points, index by index |
| Collapse.ScanFrom | cmd/importer/main.go:289-301 | the inner scan stops at the first point that is not of kind Other: at a departure, at a clashing arrival, or at the end; everything before is of kind Other |
| Collapse.ScanFindsDeparture | cmd/importer/main.go:289-301 | a departure with only quiet points before it is where the scan stops |
| Collapse.ScanFindsClash | cmd/importer/main.go:289-295 | an arrival with only quiet points before it is a clash |
| Collapse.ScanFindsNothing | cmd/importer/main.go:289-301 | with only quiet points left, the scan runs to the end |
| Collapse.SumBounds | cmd/importer/main.go:356-363 | a sum of values between two bounds lies between the count times each bound |
| Collapse.MeanBounds | cmd/importer/main.go:356-363 | the average of values between two bounds lies between those bounds |
| Collapse.Average | cmd/importer/main.go:356-363 | the accumulating loop yields the sum over the count for a non-empty list; None (Go's NaN) exactly for the empty list |
| Collapse.Pressures | cmd/importer/main.go:287-298 | the pressures of a run of points, in order |
| Collapse.PressureSumIsSum | cmd/importer/main.go:356-363 | the index-wise pressure sum of a run is the sum the average loop computes over its pressures |
| Collapse.StopPressureIsMean | cmd/importer/main.go:305-307 | a stop's pressure is the average of the pressures from its arrival to its departure, both included |
| Collapse.StopPoints | cmd/importer/main.go:311-321 | a stop becomes two points: at the shifted arrival time with the arrival's label, and the collapse duration later with the departure's label |
| Collapse.StopPointsShift | cmd/importer/main.go:311-321 | shifting a stop's two points is starting the stop later |
| Collapse.CollapseStopsInTimeseries | cmd/importer/main.go:265-354 | fewer than two points returns the given series itself; otherwise it returns a fresh series holding exactly the collapsed points with zero offsets, or exactly the collapse's pairing error |
| Collapse.CollapseAt | cmd/importer/main.go:282-350 | one round of the outer loop: the points it emits, followed by what the scan emits from where the loop goes on, are what the scan emits from the current point; or it returns the scan's error |
| Collapse.ScanDwell | cmd/importer/main.go:285-302 | the inner loop ends exactly where the specified scan ends; at a departure, the pressures it collected run from the arrival to the departure |
| Collapse.EmitStop | cmd/importer/main.go:304-330 | averages the collected pressures, builds the stop's two points, and grows the shift by the collapse duration minus the recorded length of the stop |
| Collapse.PlainStretch | cmd/importer/main.go:346-350 | a stretch without arrivals is emitted point for point under an unchanged shift |
| Collapse.NoArrivalsFrom | cmd/importer/main.go:346-350 | with no arrivals left, the rest is emitted shifted and nothing fails |
| Collapse.CollapsedWithoutArrivals | cmd/importer/main.go:279-350 | a series without arrival labels comes out unchanged, point for point |
| Collapse.CollapseShiftsUniformly | cmd/importer/main.go:279-333 | starting the scan with more shift moves every emitted point by the same amount and keeps any error |
| Collapse.CollapseStop | cmd/importer/main.go:304-333 | a matched arrival at i and departure at j emit two points at the shifted arrival time and one collapse duration later, both at the stop's pressure and with the two labels; everything after j is shifted by a further collapse duration minus (t_j - t_i) |
| Collapse.CollapseFromSingleStop | cmd/importer/main.go:281-351 | the single-stop case over the kinds of the points |
| Collapse.CollapseSingleStop | cmd/importer/main.go:281-351 | a series with one arrival, closed by a departure, becomes the points before it unchanged, the two stop points, and the points after the departure shifted by the collapse duration minus the recorded length of the stop |
| Collapse.CollapseFromUnterminatedArrival | cmd/importer/main.go:334-341 | wherever the scan meets an arrival with no arrival or departure after it, and under whatever running shift, that arrival and every later point are emitted with that shift, each with its own pressure and label |
| Collapse.CollapseFromUnterminated | cmd/importer/main.go:334-341 | over the kinds of the points: a series whose only arrival is unterminated is emitted unchanged |
| Collapse.CollapseUnterminatedStop | cmd/importer/main.go:334-341 | a series whose only arrival has no later departure comes out unchanged: that arrival is emitted with its own pressure and label, and the shift stays zero |
| Collapse.CollapseFromNoLonger | cmd/importer/main.go:281-351 | the scan never emits more points than it reads |
| Collapse.CollapsedNoLonger | cmd/importer/main.go:265-354 | the collapsed series is never longer than the input |
| Collapse.CollapseFromFailsAt | cmd/importer/main.go:292-294 | an unpaired arrival ahead of the scan makes it fail |
| Collapse.NoClashInStop | cmd/importer/main.go:289-333 | no arrival from a matched stop's arrival to its departure is unpaired, so skipping to after the departure passes over no error |
| Collapse.CollapseFromErrNamesArrival | cmd/importer/main.go:292-294 | a failing scan names the time of the first arrival ahead of it that is followed by another arrival before any departure |
| Collapse.UnpairedArrivalKinds | cmd/importer/main.go:289-301 | an unpaired arrival on the labels is the same as one on the kinds |
| Collapse.CollapsedFailsIff | cmd/importer/main.go:265-354 | the collapse fails exactly when some arrival is followed by another arrival before any departure, and the error names the time of the first such unpaired arrival |
| Collapse.CollapseFromChronological | cmd/importer/main.go:281-351 | with a non-negative collapse duration, a time-ordered input yields a time-ordered output starting at the current point's shifted time |
| Collapse.CollapsedChronological | cmd/importer/main.go:265-354 | collapsing keeps a time-ordered series time-ordered for any non-negative collapse duration |
| Normalize.RoundToHour | cmd/importer/main.go:214-215 | the rounded start is a whole hour, more than half an hour before and at most half an hour after the start; a time exactly halfway rounds up |
| Normalize.RoundToHourUnique | cmd/importer/main.go:214-215 | those two conditions leave only one possible whole hour |
| Normalize.RoundToHourFixedAndHalfway | cmd/importer/main.go:214-215 | a whole hour stays where it is, and a time exactly halfway goes to the later hour |
| Normalize.StartOffset | cmd/importer/main.go:214-220 | the offset moves the start onto a whole hour plus the extra shift, within half an hour of the start |
| Normalize.Normalized | cmd/importer/main.go:228-232 | every point moved by the offset and lowered by the base; the length is kept |
| Normalize.Denormalized | cmd/importer/main.go:225-226 | the recorded offsets applied backwards |
| Normalize.NormalizedRoundTrip | cmd/importer/main.go:225-232 | the recorded offsets give back the original points, and normalising again gives the normalised points |
| Normalize.NormalizedKeepsShape | cmd/importer/main.go:228-232 | the time between any two points, their pressure difference and every label are kept |
| Normalize.NormalizedChronological | cmd/importer/main.go:228-232 | the result is time-ordered exactly when the input is |
| Normalize.NormalizedStart | cmd/importer/main.go:214-232 | the first point lands on a whole hour plus the shift; with base 0 its pressure becomes 0, otherwise it is lowered by the given base |
| Normalize.NormalizeTimeseries | cmd/importer/main.go:204-235 | returns a fresh series: empty input gives an empty series with zero offsets; otherwise it records the start offset and base pressure and holds the normalised points; the input is not changed |
| Lps25.HasBit | pkg/lps25/device.go:9-11 | no bit at position 8 or above is set |
| Lps25.SameBits | pkg/lps25/device.go:9-11 | two bytes with the same eight bits are equal |
| Lps25.ClearBit | pkg/lps25/device.go:13-15 | the bit at the position is cleared and every other bit is kept; a position of 8 or more changes nothing |
| Lps25.SetBit | pkg/lps25/device.go:17-19 | the bit at the position is set and every other bit is kept; a position of 8 or more changes nothing |
| Lps25.SetBitTo | pkg/lps25/device.go:21-27 | the bit becomes 1 for any non-zero value and 0 for zero; every other bit is kept |
| Lps25.PatchBit | pkg/lps25/device.go:92-100 | the bit becomes the patch of its old value and every other bit is kept |
| Lps25.Enable | pkg/lps25/device.go:102-106 | enable writes control register 1 back with bit 7 set and the other bits kept |
| Lps25.Disable | pkg/lps25/device.go:108-112 | disable writes control register 1 back with bit 7 clear and the other bits kept |
| Lps25.Reset | pkg/lps25/device.go:114-118 | reset writes control register 2 back with bit 2 set and the other bits kept |
| Lps25.DataRatePatch | pkg/lps25/device.go:130-153 | bits 4, 5 and 6 follow the rate table, any unnamed rate gives all three clear, and every other bit is kept |
| Lps25.SetDataRate | pkg/lps25/device.go:130-153 | the data rate is written to control register 1: the rate's number in bits 4 to 6, zero for an unnamed rate, the other bits kept |
| Lps25.DataRateIsRateNumber | pkg/lps25/device.go:120-153 | the three rate bits hold the rate's number in binary, or zero for an unnamed rate |
| Lps25.PressureReadCommand | pkg/lps25/device.go:156-157 | the byte sent before the read is the PRESS_OUT_XL address with the auto-increment bit 7 set |
| Lps25.RawPressure | pkg/lps25/device.go:168 | the three bytes, least significant first, form a number below 2^24 |
| Lps25.PressureBytes | pkg/lps25/device.go:168 | a 24-bit value split back into its three bytes |
| Lps25.RawPressureRoundTrip | pkg/lps25/device.go:168 | assembling the raw pressure loses none of the three bytes |
| Lps25.PressureBytesRoundTrip | pkg/lps25/device.go:168 | every 24-bit value is the assembly of its own bytes |
| Lps25.PressureHPa | pkg/lps25/device.go:168-170 | the pressure is the raw value over 4096, between 0 and 4096 hPa |
| Lps25.NewSensor | pkg/lps25/device.go:49-58 | address 0 selects 0x5D and any other address is kept, so the address is never 0 |

Proof helpers carry no row of their own: Series.ShiftAllAppend,
Series.ShiftAllZero, Collapse.PrependNothing, Collapse.PrependPrepend,
Collapse.ShiftPrepend, Collapse.CollapseFromPlain, Collapse.CollapseFromStop,
Collapse.CollapseFromClash, Collapse.PressuresExtend and
Collapse.NoClashAtPlain. They are algebra over emitted runs and one-step
unfoldings of the scan, used by the lemmas above.

## Left out

- Reading and writing files, CSV decoding, flag parsing, timezone loading and SQL output (`main`, `loadData`, `loadProtocol`, `loadCSV`, `printTimeseriesSQL`). They are I/O.
- The I2C transfers of the driver (`readRegister`, `Enabled`, the reads and writes in `patchRegister` and `Pressure`). They are calls into the mcp2221a library. Only the byte values they carry are modelled.
- The hardware polling program `main.go` and the Python scripts. They are hardware I/O.
- IEEE-754 floating point. Pressures, the average and the pressure subtraction use exact reals. The one float32 division in the driver is exact for 24-bit values.
- Go's `time.Time` location, wall clock and monotonic reading. A time is a plain count of nanoseconds.
- The 64-bit range of `time.Duration`. Durations and times are unbounded integers, so overflow is not modelled.
- Collapse.Average: an empty list gives NaN in Go. Here it gives None. The collapser only averages non-empty lists.
- Lps25.RawPressure: requires at least three bytes. In the source the I2C read returns exactly three bytes, and indexing would panic otherwise.
- The `error` results of combineTimeseries, normalizeTimeseries and trimTimeseries are always nil, so they are not modelled.
- The text of the collapse error message. The error carries the arrival's time that the message names.
- Collapse.ScanDwell, Collapse.EmitStop and Collapse.CollapseAt: these pieces of one Go function are separate methods here. The outer loop's body, its inner loop and the stop's two emitted points each get their own contract. The order of operations within an iteration is the source's.
- Combine.AttachEvent: the inner loop of combineTimeseries is a separate method that changes the series in place.
- The pressure buffer that the inner loop collects for an arrival without a departure. The source discards it, so it has no effect.
