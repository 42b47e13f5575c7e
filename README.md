# GFET instrument core, modelled in Dafny

The instrument measures a graphene field-effect transistor. A triangle
wave drives the gate, and an MCP3561 delta-sigma ADC samples the gate
voltage and the drain current. The software:

- cuts the recording into forward and reverse sweeps;
- runs a quality check on one rising sweep of a baseline and of a sample
  recording;
- lights an RGB LED to report the outcome of a test (positive, negative or
  inconclusive) from the shift of the Dirac voltage.

A one-shot firmware script repeats the acquisition and writes the raw data
to a CSV file.

This project models the deterministic logic inside that software:

- `Mcp3561` (mcp3561.dfy): the command-byte framing of the ADC register
  protocol. This covers the fixed messages, the 12-byte configuration
  payload, the multiplexer table, the decoding of bus replies and the
  24-bit two's-complement conversion. Bus replies are inputs.
- `Segmenter` (segmenter.dfy): the slope and peak pass, which writes the
  `_slope`/`_peak` arrays in place. Then the scan that records the sweeps
  between peaks, the pop of the last sweep and the filter of short ones.
- `Splitz` (splitz.dfy): the breakpoint-driven split into forward and back
  sweeps. The change-point detector's breakpoints are an input.
- `MatlabHelpers` (matlab_helpers.dfy): the MATLAB-style moving mean and
  the `preparecurvedata` input validation.
- `Qc` (qc.dfy): the weighted `score` and its argument-swapped copy, and
  the voltage at the first current minimum (`sweepmean`). Also the split
  clamp for the line fits, the normalisation, and the verdict of
  `quality_control`.
- `DeviceStates` (device_states.dfy): the LED table, the colour-to-pin
  sets, the threshold classification, and the operator loop of `main()` as
  a transition function over button and collection events.
- `Firmware` (firmware.dfy): the argument handling, the output-file names,
  the file-wait loop and the raw-data table of the one-shot script.
- `PyCore` (pycore.dfy): the Python semantics the others rely on. These are
  list indexing with negative indices, slicing with clamped bounds, sums,
  and the exceptions raised as error results.

firmware.py repeats the ADC protocol and the segmentation of the standalone
driver line for line. The same members model both copies, and the table
cites both. Where the specification and the code differ, the code is
followed. For example, `quality_control` never returns False for a
well-formed recording, whatever its scores, so a failed check surfaces only
as an exception (the ERROR state).

## Model

| member | source | states |
|---|---|---|
| Mcp3561.CommandByte | standalone/GFET_driver.py:353-375 | a command byte is addr·64 + register·4 + type |
| Mcp3561.CommandByteDecodes | standalone/GFET_driver.py:353-375 | packing then splitting a command byte gives back (address, register, type) |
| Mcp3561.CommandByteCovers | standalone/GFET_driver.py:353-375 | every byte is the packing of its own three fields, so the framing is a bijection on bytes |
| Mcp3561.WaitForDataMessage | standalone/GFET_driver.py:361-365 | the status poll is the single byte 85, a static read of the IRQ register |
| Mcp3561.ReadDataMessage | standalone/GFET_driver.py:368-375 | the data read is [65,0,0,0] in 24-bit mode, with one more zero byte otherwise; it is a static read of ADCDATA; firmware.py:285-292 is a copy with the same behaviour |
| Mcp3561.StartConversionMessage | standalone/GFET_driver.py:513-519 | the conversion start is the single fast-command byte 104 |
| Mcp3561.MuxTableInjective | standalone/GFET_driver.py:260-272 | the nine multiplexer settings are pairwise distinct |
| Mcp3561.OsrCodeAtPosition | standalone/GFET_driver.py:378-487 | the oversampling ratio at list position p is encoded as p << 2 |
| Mcp3561.OsrCodeFallback | standalone/GFET_driver.py:378-487 | an unsupported oversampling ratio is encoded like OSR 256 |
| Mcp3561.Config0Byte | standalone/GFET_driver.py:378-487 | CONFIG0 carries the clock nibble in bits 7:4 and the conversion mode in bits 1:0 |
| Mcp3561.Config3Byte | standalone/GFET_driver.py:378-487 | CONFIG3 is 192 plus the data format in bits 5:4 |
| Mcp3561.ScanDelayByte | standalone/GFET_driver.py:378-487 | the top SCAN byte holds the delay in bits 7:5 |
| Mcp3561.SetConfigBits | standalone/GFET_driver.py:378-487 | IndexError iff the mux selection is outside -9..8; otherwise the payload predicate holds: twelve bytes in register order (CONFIG0..3, IRQ, MUX, SCAN, TIMER) with each byte given by the settings; firmware.py:300-407 is a copy with the same behaviour |
| Mcp3561.WriteInitConfig | standalone/GFET_driver.py:490-510 | IndexError iff the mux selection is out of range; otherwise 13 bytes: header 70 (an incremental write at CONFIG0) followed by exactly the payload the settings call for; the shipped settings give [70,226,12,139,192,54,28,0,0,0,0,0,0]; firmware.py:410-430 is a copy with the same behaviour |
| Mcp3561.SetMuxModeMessage | standalone/GFET_driver.py:765-782 | sends exactly [90, table[sel]], an incremental write of MUX; IndexError iff sel is outside -9..8; firmware.py:631-647 is a copy with the same behaviour |
| Mcp3561.ReadAdc24 | standalone/GFET_driver.py:681-687 | Ok iff the reply has at least 4 bytes, and then the sample is reply[1]·65536 + reply[2]·256 + reply[3], in [0, 2^24), whatever follows; a shorter reply raises IndexError |
| Mcp3561.ReadAdc24RoundTrip | standalone/GFET_driver.py:681-687 | whatever the status byte, the sample the device clocks out is the sample read back |
| Mcp3561.WaitForData | standalone/GFET_driver.py:692-699 | wait iff bit 2 of reply[0] is set; an empty reply raises IndexError; firmware.py:612-628 is a copy with the same behaviour |
| Mcp3561.ToBytes3Unsigned | standalone/GFET_driver.py:784-793 | three bytes below 256 for a value in [0, 2^24); OverflowError otherwise |
| Mcp3561.RawToSigned | standalone/GFET_driver.py:784-793 | raw below 2^23 stays raw, otherwise it becomes raw - 2^24; the result is in [-2^23, 2^23) for either byte order; firmware.py:650-658 is a copy with the same behaviour |
| Mcp3561.ReadSampleConverts | standalone/GFET_driver.py:681-793 | every sample read from the bus converts without an error |
| Mcp3561.RawToSignedInverts | standalone/GFET_driver.py:784-793 | the conversion inverts 24-bit two's-complement encoding |
| Segmenter.SlopeAt | standalone/GFET_driver.py:1085-1091 | the slope is 0 iff i <= 25, and -1 iff the voltage 25 samples earlier was higher (ties count as rising) |
| Segmenter.FirstSlopeIsPeak | standalone/GFET_driver.py:1091-1115 | sample 26 always carries a peak, since the slope leaves 0 there |
| Segmenter.SlopePeakPass | standalone/GFET_driver.py:1071-1103 | the in-place pass writes the slope and peak of every sample taken and leaves the rest of both arrays unchanged; firmware.py:930-962 is a copy with the same behaviour |
| Segmenter.PassWellFormed | standalone/GFET_driver.py:1085-1103 | on zeroed arrays the pass leaves the slope at ±1 inside (25, t), and the peak marks exactly its sign changes |
| Segmenter.PeakFormula | standalone/GFET_driver.py:1093-1103 | a peak is nonzero exactly at a slope change past sample 25: -1 when the slope becomes +1, and 1 otherwise |
| Segmenter.InsideHasNoPeak | standalone/GFET_driver.py:1123-1127 | the slope is constant inside a recorded sweep, so there is no peak there |
| Segmenter.EndIsPeak | standalone/GFET_driver.py:1132-1146 | a sweep that ends before the last sample ends at a peak of the opposite sign |
| Segmenter.Walk | standalone/GFET_driver.py:1123-1130 | the walk stops at the first sample whose slope differs, or at the capacity NN |
| Segmenter.ScanSegments | standalone/GFET_driver.py:1109-1173 | the sweeps: each opens one sample after a peak of matching sign past sample 26 and keeps its slope to its end; there is no peak before the first one; they abut with start = previous end + 1 and alternate direction; at most 16 per direction; unless the table filled up the last one ends at the sample count; IndexError only on a peak in the last slot; firmware.py:964-1028 is a copy with the same behaviour |
| Segmenter.PopLast | standalone/GFET_driver.py:1176-1178 | the last sweep is removed from all three lists; an empty list raises IndexError |
| Segmenter.KeepLongMembers | standalone/GFET_driver.py:1180-1187 | a sweep is kept iff it is at least 500 samples long |
| Segmenter.FilterShort | standalone/GFET_driver.py:1180-1187 | the filter keeps the long sweeps among all but the final one, in order, and always keeps the final sweep; firmware.py:1035-1042 is a copy with the same behaviour |
| Segmenter.FilterShortKeepsLong | standalone/GFET_driver.py:1180-1187 | apart from the final sweep, a sweep survives iff it was recorded and is long |
| Segmenter.KeptFromScan | standalone/GFET_driver.py:1176-1187 | everything that survives was recorded by the scan, and all of it but the final sweep is long |
| Segmenter.SegmentSweep | standalone/GFET_driver.py:1071-1187 | the pass, scan, pop and filter together: the result is exactly the filter applied to the scanned sweeps without the last one, and the scanned sweeps follow the voltage trace (each opens after a peak, keeps its slope and ends at a slope change or the end of the data); IndexError exactly when nothing was scanned, which for fewer than 100000 samples means there is no peak past sample 26; all returned sweeps but the last are long |
| Segmenter.ScannedSweeps | standalone/GFET_driver.py:1071-1173 | the scan of the pass's arrays describes the voltage trace itself, and it records no sweep iff there is no peak past sample 26 |
| Segmenter.CleanedSweeps | standalone/GFET_driver.py:1176-1187 | after the pop and the filter, every sweep left still follows the trace and all but the last are long |
| Splitz.Gates | splitz_new_opt.py:36 | V is the gate column of data[1:], so the header row is skipped |
| Splitz.Diff | splitz_new_opt.py:37 | dv has len(V) - 1 entries, and each is a difference of consecutive voltages |
| Splitz.SweepSliceLength | splitz_new_opt.py:50-51 | a trimmed sweep has at most 753 rows |
| Splitz.SumDiffTelescopes | splitz_new_opt.py:37-46 | the sum of dv over [lo, hi) is V[hi] - V[lo] |
| Splitz.RisingIffVoltageRises | splitz_new_opt.py:46-47 | for breakpoints inside dv, the mean step is positive iff V[pts[2]] > V[pts[1]] |
| Splitz.SweepsElements | splitz_new_opt.py:48-58 | sweep j of a list is the trimmed slice at pts[2j+1] (first list) or pts[2j+2] (second list) |
| Splitz.SplitSweeps | splitz_new_opt.py:46-60 | IndexError iff fewer than 3 breakpoints; forw and back both have max(0, (len(pts)-1)//2 - 1) sweeps; the list filled from pts[1] is forw iff the mean step is positive; standalone/GFET_driver.py:1432-1485 is a copy with the same behaviour |
| MatlabHelpers.Movmean | matlab_helpers.py:20-27 | same length as A, [] for []; element col is the mean of A[max(0,col-k//2) : col+k//2+k%2]; ZeroDivisionError iff some window is empty; standalone/GFET_driver.py:1631-1655 is a copy with the same behaviour |
| MatlabHelpers.WindowShape | matlab_helpers.py:25 | for k >= 1 the window is the truncated range around col, and it contains col |
| MatlabHelpers.WindowCentred | matlab_helpers.py:7-14 | an untruncated window has k elements: centred for odd k, with k/2 before and k/2 - 1 after col for even k |
| MatlabHelpers.ZeroWindowEmpty | matlab_helpers.py:25-26 | with k = 0 every window is empty, so a nonempty A raises |
| MatlabHelpers.MeanOfUnitWindow | matlab_helpers.py:25-26 | with k = 1 each output is its own input |
| MatlabHelpers.MeanBetweenBounds | matlab_helpers.py:26 | each window mean lies between any lower and upper bound of the window |
| MatlabHelpers.MovmeanOfConstant | matlab_helpers.py:25-26 | a constant list maps to itself |
| MatlabHelpers.PrepareCurveData | matlab_helpers.py:29-73 | the error order is not-lists, then length mismatch, then a non-int/float element in list1, then in list2, each with its own message (the first two carry the argument types or lengths, as the f-strings write them); otherwise both lists come back unchanged |
| MatlabHelpers.PrepareCurveDataIdempotent | matlab_helpers.py:46-73 | validated data passes validation again unchanged |
| MatlabHelpers.BoolRejected | matlab_helpers.py:65-66 | a bool element is rejected, because its type is neither int nor float |
| Qc.Score | standalone/GFET_driver.py:1704-1761 | the score is the weight sum of the failed checks, in [0, 16.5] |
| Qc.ScoreInHalves | standalone/GFET_driver.py:1704-1761 | the score is a multiple of 0.5 |
| Qc.ScoreVerdict | standalone/GFET_driver.py:1757-1761 | the message is the failure lines in check order, followed by exactly one verdict line, which is bad iff score > 1 |
| Qc.FailedCounts | standalone/GFET_driver.py:1721-1756 | each failed check among the first k adds exactly its weight to the total, and the number of failures among the first k is at most k |
| Qc.NoFailures | standalone/GFET_driver.py:1721-1756 | with no failed check the score is 0 and no failure line is written |
| Qc.AllPassIsGood | standalone/GFET_driver.py:1704-1761 | with every check passing, the score is 0 and the message is exactly "This data set is good" |
| Qc.HeavyFailureIsBad | standalone/GFET_driver.py:1731-1761 | any failed hyperbola or slope check makes the verdict bad |
| Qc.LightFailuresVerdict | standalone/GFET_driver.py:1710-1761 | with the hyperbola and slope checks passing, the verdict is bad iff at least three of the 0.5-weight checks failed |
| Qc.HelperScore | helperfuncs.py:13-66 | the helper copy, written from its own conditionals and messages, scores between 0 and 16.5 |
| Qc.HelperParabolaChecks | helperfuncs.py:27-35 | the three parabola conditionals add at most 1.5 |
| Qc.HelperHyperbolaChecks | helperfuncs.py:37-48 | the four hyperbola conditionals add at most 8 |
| Qc.HelperResidualChecks | helperfuncs.py:49-60 | the smoothness and slope conditionals add at most 7 |
| Qc.TalliedTotals | standalone/GFET_driver.py:1721-1756 | conditionals applied one at a time give the driver's weight total and its failure lines in order |
| Qc.HelperScoreIsScore | helperfuncs.py:13-66 | helperfuncs.score(X, Y, m, l) equals the driver's score(Y.x, X, m, l), both score and message, so every property proved of the driver's copy holds of this one |
| Qc.HelperAllPassIsGood | helperfuncs.py:13-66 | in the helper copy, with every check passing, the result is exactly (0, "This data set is good") |
| Qc.HelperHeavyFailureIsBad | helperfuncs.py:37-66 | in the helper copy, a failed hyperbola or slope check gives a score above 1 and a message ending in "This data set is bad" |
| Qc.IndexOfMinIsFirstArgMin | standalone/GFET_driver.py:1697-1698 | IDs.index(min(IDs)) is the first position of the minimum |
| Qc.FirstArgMinUnique | standalone/GFET_driver.py:1697-1698 | the first minimum is unique |
| Qc.SweepMinVoltages | standalone/GFET_driver.py:1693-1699 | one voltage per sweep, taken at its first lowest-current point; ValueError iff some sweep is empty |
| Qc.SplitIndexSides | standalone/GFET_driver.py:1539-1542 | with at least 4 points the clamp lies in [2, n-2], both halves have at least 2 points and together they rebuild the list; an index already inside is kept |
| Qc.SplitIndexShort | standalone/GFET_driver.py:1539-1541 | with fewer than 4 points the left half has fewer than 2 points |
| Qc.Normalize | standalone/GFET_driver.py:1494-1499 | an empty list gives an empty list; with a nonzero maximum each element becomes the finite quotient by the maximum; with a zero maximum no element is finite, and an element is NaN iff it is 0 (numpy float64 division) |
| Qc.NormalizedAtMostOne | standalone/GFET_driver.py:1494-1499 | with a positive maximum every normalised element is finite and at most 1 |
| Qc.NormalizedMaxIsOne | standalone/GFET_driver.py:1494-1499 | with a nonzero maximum the value 1 appears among the normalised elements |
| Qc.ThirdSweepNeedsNineBreakpoints | standalone/GFET_driver.py:1901 | sweep_num = 2 selects a sweep that exists iff there are at least 9 breakpoints |
| Qc.QualityControl | standalone/GFET_driver.py:1487-1629 | never returns False; it succeeds iff both recordings have 3 or more breakpoints and sweep_num indexes a sweep of each (negative indices count from the end); every failure is an IndexError |
| DeviceStates.LedDistinct | standalone/GFET_driver.py:1837-1878 | the ten states show pairwise-distinct (colour, flashing) pairs |
| DeviceStates.ColorSetPins | standalone/GFET_driver.py:1372-1393 | the pin set holds distinct RGB pins only, and it is empty iff the colour is unknown |
| DeviceStates.ColorSetMixes | standalone/GFET_driver.py:1372-1393 | cyan, magenta, yellow and white are the unions of their primaries |
| DeviceStates.LedColorsKnown | standalone/GFET_driver.py:1837-1878 | every state lights at least one pin |
| DeviceStates.Classify | standalone/GFET_driver.py:1974-1981 | d < 70 is negative, d > 90 positive, otherwise (NaN included) inconclusive; exactly one applies |
| DeviceStates.OperatorLoop | standalone/GFET_driver.py:1904-1992 | the states lit by the loop are the trace of the transition function from IDLE |
| DeviceStates.B1ReturnsToIdle | standalone/GFET_driver.py:1925-1992 | B1 interrupts a collection and leaves a result, BAD_QC or ERROR state for IDLE |
| DeviceStates.OnlyBaselineReachable | standalone/GFET_driver.py:1938-1983 | as written, no run from IDLE ever reaches the sampling, QC or result states |
| DeviceStates.AsWrittenStopsAtBaseline | standalone/GFET_driver.py:1340-1353 | a completed baseline goes to ERROR, because of the TypeError in wait_for_buttons |
| DeviceStates.StepIntended | standalone/GFET_driver.py:1936-1941 | the intended machine waits in BASELINE_COMPLETE for B1 (to IDLE) or B2 (to sampling); elsewhere it agrees with the machine as written |
| DeviceStates.IntendedReachesResult | standalone/GFET_driver.py:1904-1981 | as intended, baseline, sample and a passing QC with d > 90 end in RESULT_POSITIVE |
| DeviceStates.NoBadQcWithoutFalse | standalone/GFET_driver.py:1965-1971 | BAD_QC is reached only through a QC verdict of False |
| Firmware.ModeNumber | firmware.py:1293-1299 | BASELINE maps to 1 and SAMPLING to 2; anything else exits |
| Firmware.ParseArgs | firmware.py:1261-1299 | argv[1] is the file name and argv[2] the mode; fewer than 3 arguments raise NameError and an unknown mode exits |
| PyCore.NatToString | firmware.py:1337 | str(n) for the mode: non-empty, decimal digits only, one digit exactly when n < 10, and no leading zero otherwise |
| PyCore.NatToStringValue | firmware.py:1337 | the text reads back as n, so it is the decimal numeral of n and distinct numbers give distinct texts |
| Firmware.PolledNeverWritten | firmware.py:1337 | the polled file name never equals the written one |
| Firmware.WaitForFile | firmware.py:1339-1351 | at most 11 existence tests: it stops at the first test that finds the file, and otherwise runs all 11 |
| Firmware.WaitForRawData | firmware.py:1337-1351 | when only the written file appears, the wait runs all 11 tests without finding it |
| Firmware.WaitForWrittenData | firmware.py:1103-1112 | polling the name actually written finds it at the first test |
| Firmware.RawDataTable | firmware.py:1125-1136 | one header row of the 12 names, then one row per n < index_t holding the 12 arrays at n in header order |
| Firmware.HeaderNamesDistinct | firmware.py:80-81 | the 12 header names are distinct, and the last two are Slope and Peak |

## Left out

- SPI transfers, GPIO sysfs reads and writes, and `os.system` LED commands are I/O. Bus replies, button presses and collection outcomes are inputs.
- Threads and shared flags are concurrency and are not modelled. This covers the cancel thread, the LED blink threads, the `running`/`completed` globals and the `join` timeouts. The operator loop is modelled as a sequential transition function over events.
- The busy-wait sampling loop is driven by wall-clock time; the recorded gate voltages are an input.
- The conversion of the signed ADC code to volts (calibration gain, offset and the TIA cubic) is floating-point scaling that comes from calib.json.
- Curve fitting and floating-point numerics are not modelled: `scipy.optimize.fmin`/`least_squares`, `np.polyfit`, `np.linalg.norm`, `np.mean`/`np.std`, and the Dirac extraction. Their results enter `Qc.Score` as parameters.
- Qc.QualityControl: does not model the exceptions the fits, the noise figures and the JSON write could raise after the checks; it returns True where the source would reach its final return.
- Qc.SweepMinVoltages: covers the list of minimum voltages but not its mean and standard deviation, which are floating-point statistics.
- The change-point detector (`ruptures.Binseg`) is a foreign library, so its breakpoints are a parameter of `Splitz.SplitSweeps`.
- The data rows of the split are numbers. The source keeps the text of CSV rows and converts the voltage with `float()`, and a parse failure is not modelled.
- MatlabHelpers.PrepareCurveData: the NaN/Inf flag loop is left out, because it has no effect on the result.
- The section tables filled during the scan (`forward_sections`, `reverse_sections`, and their `_used` flags) only store copies of samples. The scan's row bound is kept as a proved assertion, but their contents are not modelled.
- Segmenter.SegmentSweep: the voltage CSV dump and the Dirac fitting that follow the filter are not modelled.
- The calib.json bootstrap, NTP time update, internet check, the register dump of `read_config`, the "CONFIG ERROR" messages `set_config_bits` prints for an unknown CLK_SEL or OSR before falling back to its default code, and the fake-data branch are file, network or printing only.
- gui.py, ssh_to_device.py, main.py, constants.py and sweepmean2.py are not part of this model. They are a UI, a network client, an entry point, plain constants and a script that cannot run.
- Firmware: the timestamp used for the default file name comes from the clock, so it is a parameter; the cancel check while the collection thread runs is concurrency.

## Findings

| source | as written | input that shows it | evidently intended | confidence | as-written member | corrected member |
|---|---|---|---|---|---|---|
| standalone/GFET_driver.py:1350 | `pressed += {button: …}` adds a dict to a dict, which raises TypeError, so a completed baseline always goes to ERROR and sampling, QC and results are unreachable | B2, baseline completes | wait in BASELINE_COMPLETE for B1 (back to IDLE) or B2 (start sampling) | high, not executed | DeviceStates.AsWrittenStopsAtBaseline | DeviceStates.IntendedReachesResult |
| firmware.py:1337 | the wait polls `{ts}_{mode}_RAW_DATA.csv`, with the integer mode and no device id, while the thread writes `{ts}_{device}_BASELINE_RAW_DATA.csv` or `…_SAMPLING_RAW_DATA.csv` | any run: the written file appears and the wait still makes 11 tests over 22 s | poll the name that was written | high, not executed | Firmware.WaitForRawData | Firmware.WaitForWrittenData |
