# RVX simulation harness, compliance tally and firmware test bookkeeping in Dafny

This project models three parts of the RVX RISC-V core project:

1. **The Verilator harness** (`simulator/rvx_simulator.cpp`). It covers:
   - the reset sequence and the loading of the program image;
   - the run loop, where each iteration toggles the clock, paces the UART, advances time and samples the trace;
   - the exit checks, in the order the loop makes them: the cycle limit, then the completion write, then host output;
   - the memory stores the core makes during each `eval()`, which the completion branch then reads;
   - the signature range, computed as an unsigned 32-bit difference, and the `%08x` dump;
   - the waveform trace, whose open/closed state makes `close_trace` idempotent.

   The hardware model is opaque. A run is the finite sequence of bus snapshots it shows after each `eval()` of the loop; each snapshot carries the words the core stored to its memory during that `eval()`. The tightly coupled memory is an `array<u32>`. The harness is a `Harness` class that holds the globals and pins, and a `TraceSink` class holds the trace. Every method of `Harness` is proved against a function on the `View`, the harness's observable state. Lemmas then state what those functions mean over whole runs.

2. **The RISC-V compliance runner** (`tests/riscv_compliance/run_tests.py`). It covers:
   - `compare_dump`, a first-mismatch search over lines parsed as base-16 integers;
   - the passed/skipped/failed tally of `main`, including the expected-to-fail override and the full-pass banner.

   File existence and the simulator run are inputs. `Compare` is the specification and `CompareDump` is the loop. `MainSummary` is the specification and `Tally` is the loop.

3. **Firmware test bookkeeping.** This covers:
   - the shared HAL test utilities (`tests/hal/source/rvx_hal_test_utils.c`);
   - the per-peripheral copies in the UART, GPIO, timer and SPI manager unit-test programs;
   - the SPI example's interrupt handler and its `print_byte`.

   Each program's globals become a class. Its UART output is a `seq<char>` that the methods append to. A ghost history of `Checked(ok)`/`Cleared` events explains the error flags and counters: the local flag is set exactly when a check failed since the last clear, the global flag exactly when any check failed, and the count is the number of failed checks. The hex formatters (`0x` plus 2 lower-case digits, 8 upper-case digits, `0x` plus 16 upper-case digits) fill arrays as the C code does. They are proved to parse back to their input.

Modules:
- `HexFormat` (`hex.dfy`): fixed-width integers, the digit tables, `ParseHex` and the three formatters.
- `Simulator` (`simulator.dfy`).
- `Compliance` (`compliance.dfy`).
- `HalTestUtils` (`hal_test_utils.dfy`): the flag history, the HAL test utilities, and the "Passed." and "\nByte received: " texts the unit-test programs share.
- `UartUnitTests`, `GpioUnitTests`, `TimerUnitTests` and `SpiManagerUnitTests`: one file each.
- `SpiLink` (`spi_link.dfy`): the SPI calls as a log, a one-byte-delay echo subordinate, and the `"\nByte received: 0x..\n"` text of the SPI programs' `print_byte`.
- `SpiExample` (`spi_example.dfy`).

Two facts of the code shape the model:
- `clk_cur_cycles` is set to 0 and never assigned, so the `--cycles` exit can never fire (`Simulator.CycleLimitUnreachable`).
- `close_trace` writes its last sample at `trace_time`, a global that is never assigned. The closing sample therefore goes back to time 0 after all the increasing samples (`Simulator.RunTraceGoesBack`).

## Model

| member | source | states |
|---|---|---|
| HexFormat.UpperHexCharsIsUpperDigit | tests/hal/source/rvx_hal_test_utils.c:87 | the `hex_chars` table holds 16 characters; entry n is the upper-case digit of nibble n |
| HexFormat.DigitValue | tests/riscv_compliance/run_tests.py:140-141 | a character has a base-16 value exactly when it is 0-9, a-f or A-F |
| HexFormat.DigitValueOfDigit | tests/hal/source/rvx_hal_test_utils.c:74-75 | every digit written for a nibble, in either case, reads back as that nibble |
| HexFormat.HexDigits | simulator/rvx_simulator.cpp:102 | zero-padded n-digit rendering has exactly n characters |
| HexFormat.HexDigitsAt | tests/timer/unit_tests/timer_unit_tests.c:111-114 | position n-1-i of the rendering holds nibble i, so the most significant nibble comes first |
| HexFormat.HexDigitsRoundTrip | simulator/rvx_simulator.cpp:102 | a value below 16^n, rendered in n digits, parses back to itself |
| HexFormat.HexDigitsCaseInsensitive | tests/riscv_compliance/run_tests.py:140-143 | upper- and lower-case renderings of a value parse to the same number |
| HexFormat.ParseHexLeadingZero | tests/riscv_compliance/run_tests.py:140-143 | a leading zero does not change the parsed value |
| HexFormat.WidthsFit | simulator/rvx_simulator.cpp:102 | 2, 8 and 16 hex digits cover exactly the 8-, 32- and 64-bit ranges |
| HexFormat.ByteHex | tests/hal/source/rvx_hal_test_utils.c:67-78 | the byte text is 4 characters long |
| HexFormat.ByteHexRoundTrip | tests/hal/source/rvx_hal_test_utils.c:67-78 | the byte text is `0x` followed by the two lower-case digits of the byte, and those digits parse back to the byte |
| HexFormat.FillByteBuffer | tests/hal/source/rvx_hal_test_utils.c:69-76 | the `str_val` array, filled nibble by nibble, holds the byte text |
| HexFormat.WordHexUpper | tests/gpio/unit_tests/gpio_unit_tests.c:117-129 | 8 characters, no prefix; character 7-i is the upper-case digit of nibble i; they parse back to the word |
| HexFormat.WordHexLower | simulator/rvx_simulator.cpp:102 | the `%08x` text: 8 characters; character 7-i is the lower-case digit of nibble i; they parse back to the word |
| HexFormat.DoubleWordHex | tests/hal/source/rvx_hal_test_utils.c:85-97 | 18 characters: `0x`, then character 17-i is `hex_chars` of nibble i; the digits parse back to the 64-bit value |
| HexFormat.FillDoubleWordBuffer | tests/hal/source/rvx_hal_test_utils.c:88-95 | the buffer filled by the 16-step loop holds the double-word text |
| Simulator.IsFinished | simulator/rvx_simulator.cpp:110-117 | a write of 1 to the completion address, with no latch; such a write to a nonzero address is also a qualifying host-out write on a clear latch, so the loop's order of checks decides |
| Simulator.HostOut | simulator/rvx_simulator.cpp:119-132 | never fires for address 0; fires only with the latch clear, a write request and a matching address; the latch becomes the write request |
| Simulator.HostOutFires | simulator/rvx_simulator.cpp:119-132 | one firing decision per snapshot |
| Simulator.HostOutFiresAt | simulator/rvx_simulator.cpp:121-129 | call k fires exactly when the previous call saw no write request, and there is a write to the nonzero address with nonzero data |
| Simulator.HeldWriteFiresAtMostOnce | simulator/rvx_simulator.cpp:121-129 | a write request held over consecutive calls fires at most once, and only on the first call |
| Simulator.HostOutLog | simulator/rvx_simulator.cpp:232-236 | the host-out log is the `(char)write_data` of exactly the calls that fire, in order, at most one character per call |
| Simulator.HeldWriteLogsAtMostOnce | simulator/rvx_simulator.cpp:121-129 | a write request held over consecutive calls puts at most one character in the log, that of the first call when the latch was clear and address and data qualify |
| Simulator.PacesUart | simulator/rvx_simulator.cpp:183-185 | UART pacing happens only on a high clock, for a write request to the UART data register 0x80000000 |
| Simulator.Advance | simulator/rvx_simulator.cpp:184-197 | each iteration advances time by at least 30; by 20*5208+10 exactly when the clock is high and a UART data write meets `tx_bit_counter == 0` |
| Simulator.UartChars | simulator/rvx_simulator.cpp:183-191 | the characters written to standard output by pacing number at most one per two iterations, because pacing needs the clock high |
| Simulator.ElapsedGrows | simulator/rvx_simulator.cpp:178-198 | every iteration adds at least 30 time units |
| Simulator.LoopSamples | simulator/rvx_simulator.cpp:198 | one trace sample per iteration |
| Simulator.ClockAlternates | simulator/rvx_simulator.cpp:153-181 | over reset and the loop, eval k sees the clock high exactly for odd k, and reset asserted exactly for the first n+1 evals |
| Simulator.SamplesIncrease | simulator/rvx_simulator.cpp:158-198 | the trace sample times of reset and the loop strictly increase, all above the start and within the elapsed time |
| Simulator.SignatureSize | simulator/rvx_simulator.cpp:217-219 | the unsigned size added to the start wraps round to the stop address |
| Simulator.SignatureSizeWraps | simulator/rvx_simulator.cpp:217-219 | the size is stop-start when ordered, wraps by 2^32 otherwise, and is 0 exactly for equal bounds |
| Simulator.DumpLines | simulator/rvx_simulator.cpp:96-104 | exactly size/4 lines of 9 characters each |
| Simulator.DumpLinesReadBack | simulator/rvx_simulator.cpp:98-104 | line i ends in a newline and its 8 digits parse back to word offset/4+i |
| Simulator.FirstExit | simulator/rvx_simulator.cpp:200-230 | the first snapshot on which an exit check succeeds; none before it does |
| Simulator.FirstExitIs | simulator/rvx_simulator.cpp:200-230 | any index where the first exit occurs is the first exit |
| Simulator.Loaded | simulator/rvx_simulator.cpp:56-79 | loading a program keeps the memory size |
| Simulator.CycleLimitUnreachable | simulator/rvx_simulator.cpp:23-209 | a run from `clk_cur_cycles == 0` never ends with the cycle-limit exit, and keeps running exactly when no snapshot signals completion |
| Simulator.StoredMeaning | simulator/rvx_simulator.cpp:181 | after an `eval()`'s stores, a word no store names keeps its value, and a word named by a store holds the value of the last store naming it |
| Simulator.NoStoresKeepMemory | simulator/rvx_simulator.cpp:178-198 | a run whose `eval()`s store nothing leaves the memory as loaded |
| Simulator.StoredEqualBoundsNoDump | simulator/rvx_simulator.cpp:214-226 | when the exiting iteration last stores the same value to words 1 and 2, the run exits with success and no dump, whatever the image held |
| Simulator.FinishStopsAtFirstOccurrence | simulator/rvx_simulator.cpp:211-230 | a run stops by the first snapshot that signals completion, with the signature outcome of the memory as the stores of the iterations executed left it |
| Simulator.FinishOutcome | simulator/rvx_simulator.cpp:211-230 | the completion branch always ends the run, never through the cycle limit; it exits with failure exactly for an unopenable dump path and a size of at least 4; it exits without a dump exactly when no path is given or the size is below 4; a read past memory needs an opened file and words past the end |
| Simulator.DumpOnlyFromFourBytes | simulator/rvx_simulator.cpp:216-226 | a dump is written only with a dump path that opens and a size of at least 4, holding size/4 words from tcm[1]/4 on; equal bounds give no dump; a path that does not open exits with failure whatever the range |
| Simulator.ReplayTiming | simulator/rvx_simulator.cpp:178-198 | iterations that do not exit leave the clock alternating, advance time by the elapsed total and sample once each while the trace is open |
| Simulator.ReplayOutput | simulator/rvx_simulator.cpp:180-191 | those iterations eval once each, reset released, and write the paced UART characters to standard output |
| Simulator.ReplayHostOut | simulator/rvx_simulator.cpp:232-236 | the host-out log is the characters of the firing calls, and the latch ends as the last write request |
| Simulator.LoopViewReplays | simulator/rvx_simulator.cpp:178-237 | the run loop shows the time, pins and output of the iterations it executed; the exiting one skips host-out and may close the trace |
| Simulator.LoopViewOutput | simulator/rvx_simulator.cpp:178-237 | the run loop evaluates, times and outputs the iterations up to and including the exiting one |
| Simulator.LoopViewTrace | simulator/rvx_simulator.cpp:198-228 | the loop samples once per iteration and, when it exits through `close_trace`, adds the `trace_time` sample and closes the trace |
| Simulator.LoopViewHostOut | simulator/rvx_simulator.cpp:232-236 | host-out is checked only on iterations that did not exit |
| Simulator.RunViewPins | simulator/rvx_simulator.cpp:153-181 | over a whole run, the clock alternates and reset is held for exactly the first 11 evals |
| Simulator.RunViewOutput | simulator/rvx_simulator.cpp:153-237 | a whole run ends at time 110 plus the loop's elapsed time, with the UART and host-out characters of the iterations run |
| Simulator.RunViewTrace | simulator/rvx_simulator.cpp:148-237 | with `--out-wave` the trace holds the reset samples, the loop samples and, when the exit closes the trace (decided from the memory at the exit), a sample at 0; otherwise it holds nothing |
| Simulator.RunTraceGoesBack | simulator/rvx_simulator.cpp:22-46 | the sample times increase and are positive, but the closing sample is 0 |
| Simulator.TraceSink.constructor | simulator/rvx_simulator.cpp:27 | a new trace is closed and empty |
| Simulator.TraceSink.Open | simulator/rvx_simulator.cpp:30-37 | opening keeps the samples and opens the trace |
| Simulator.TraceSink.Dump | simulator/rvx_simulator.cpp:164 | a dump records a sample only while the trace is open |
| Simulator.TraceSink.Close | simulator/rvx_simulator.cpp:44 | the trace is closed afterwards |
| Simulator.Harness.constructor | simulator/rvx_simulator.cpp:22-27 | the globals start at 0, the memory holds its initial contents, the trace is closed |
| Simulator.Harness.Eval | simulator/rvx_simulator.cpp:156 | each eval records the current clock and reset pins |
| Simulator.Harness.CloseTrace | simulator/rvx_simulator.cpp:39-46 | samples `trace_time` and closes only if open; a second call changes nothing |
| Simulator.Harness.ExitApp | simulator/rvx_simulator.cpp:48-54 | closes the trace as `close_trace` does and exits with success |
| Simulator.Harness.ExitAppAfterClose | simulator/rvx_simulator.cpp:48-54 | `exit_app` after a close that already ran still exits with success |
| Simulator.Harness.GetSignature | simulator/rvx_simulator.cpp:134-137 | reads word i of memory and changes nothing |
| Simulator.Harness.IsHostOut | simulator/rvx_simulator.cpp:119-132 | the result and the new latch are those of `HostOut` on the old latch |
| Simulator.Harness.HostOutStep | simulator/rvx_simulator.cpp:232-236 | a firing call logs the written character; the latch is updated either way |
| Simulator.Harness.RamInit | simulator/rvx_simulator.cpp:56-79 | loads the image after reset is released; no image leaves memory unchanged |
| Simulator.Harness.RamDumpH32 | simulator/rvx_simulator.cpp:81-107 | fails exactly when the file cannot be opened, before any memory is read; otherwise writes the size/4 lines from word offset/4 |
| Simulator.Harness.Reset | simulator/rvx_simulator.cpp:153-172 | 10 toggles with reset asserted, each after 10 time units; then release with the clock high at time +110; one sample per step while the trace is open |
| Simulator.Harness.EvalStores | simulator/rvx_simulator.cpp:181 | the memory after an `eval()` is the memory before with that `eval()`'s stores applied in order |
| Simulator.Harness.Pace | simulator/rvx_simulator.cpp:183-197 | prints the written byte when pacing applies, and advances time by `Advance` of the clock and bus |
| Simulator.Harness.Tick | simulator/rvx_simulator.cpp:180-198 | toggle, eval (applying the snapshot's stores to memory), UART pacing, time advance and sample of one iteration |
| Simulator.Harness.OnFinished | simulator/rvx_simulator.cpp:214-229 | the signature outcome: a dump file that does not open exits with failure before memory is read, without closing the trace; otherwise the trace is closed |
| Simulator.Harness.Iterate | simulator/rvx_simulator.cpp:178-237 | one iteration: the eval's stores reach memory; then the cycle limit, then completion over that memory, then host-out, which runs only when no exit was taken |
| Simulator.Harness.Loop | simulator/rvx_simulator.cpp:178-237 | the loop ends with the outcome and view of the run-loop functions, and memory holds the stores of the iterations executed |
| Simulator.Harness.Run | simulator/rvx_simulator.cpp:148-237 | open the trace if asked, reset, load, then loop; memory ends as loaded plus the stores of the iterations run; the cycle counter and `trace_time` are never changed |
| Simulator.Simulate | simulator/rvx_simulator.cpp:139-238 | a whole run never takes the cycle-limit exit, and keeps running exactly when completion is never signalled; a signature is written only with an opened dump file and a size of at least 4, read from the memory at the exit |
| Compliance.LineValue | tests/riscv_compliance/run_tests.py:137-141 | only a non-empty line other than a bare newline has a value |
| Compliance.CompareFrom | tests/riscv_compliance/run_tests.py:130-144 | from line i on, a match reports the line after the shorter file with values 0; a mismatch or an unparsable line is reported at a line after i within the shorter file |
| Compliance.Compare | tests/riscv_compliance/run_tests.py:127-144 | `compare_dump` reports a match at the line after the shorter file with values 0, or a 1-based line within the shorter file |
| Compliance.CompareFromMeaning | tests/riscv_compliance/run_tests.py:130-144 | the result is a match at n+1 over the shorter length n, or the first differing or unparsable 1-based line with both values |
| Compliance.CompareOkIff | tests/riscv_compliance/run_tests.py:137-138 | a match exactly when every line of the shorter file agrees; the result is then (True, n+1, 0, 0), so an empty dump matches |
| Compliance.CompareByValue | tests/riscv_compliance/run_tests.py:140-143 | lines are compared only by value, so case and leading zeros do not matter |
| Compliance.LineValueOfDigits | tests/riscv_compliance/run_tests.py:140-141 | a zero-padded rendering, with or without its newline, parses to its value |
| Compliance.DumpMatchesItsReference | tests/riscv_compliance/run_tests.py:127-144 | the simulator's dump of the words a reference lists compares as a match |
| Compliance.CompareDump | tests/riscv_compliance/run_tests.py:127-144 | the `while` loop returns the result of `Compare` |
| Compliance.Classify | tests/riscv_compliance/run_tests.py:186-221 | an entry is skipped exactly when its program exists and it is not run; it counts nowhere exactly when the program, or for a run entry the reference, is missing; it raises exactly when it runs with both files and a dump whose comparison meets an unparsable line; a pass or fail needs a run entry with its reference |
| Compliance.FirstCrash | tests/riscv_compliance/run_tests.py:140-141 | the first entry whose unparsable line stops the script |
| Compliance.MainSummary | tests/riscv_compliance/run_tests.py:146-228 | `main` counts nothing exactly when the simulator is missing, and prints the totals line exactly when no entry's comparison raises |
| Compliance.CountsBounded | tests/riscv_compliance/run_tests.py:177-223 | passed + skipped + failed is at most the number of entries |
| Compliance.CountAll | tests/riscv_compliance/run_tests.py:225 | a count equals the length exactly when every verdict is that one |
| Compliance.PassMeans | tests/riscv_compliance/run_tests.py:212-221 | a pass needs the program, the reference and the dump, and a match or an expected-to-fail program |
| Compliance.TotalsMeaning | tests/riscv_compliance/run_tests.py:170-228 | the totals add up to at most the entries; the banner appears exactly when all entries pass; an unparsable line stops the script at the first entry whose comparison raises, no earlier entry raising, with only the earlier entries counted; without a simulator nothing is counted and no totals line is printed |
| Compliance.MismatchVerdicts | tests/riscv_compliance/run_tests.py:206-221 | a missing dump fails; a compared entry fails exactly when it mismatches and is not expected to fail |
| Compliance.CountStep | tests/riscv_compliance/run_tests.py:186-221 | each entry adds at most one to the counter of its verdict |
| Compliance.Tally | tests/riscv_compliance/run_tests.py:170-228 | the counting loop ends with the summary of `MainSummary` |
| Compliance.UnitTests | tests/riscv_compliance/run_tests.py:20-79 | the table has 58 entries, all marked to run |
| Compliance.ExpectedToFail | tests/riscv_compliance/run_tests.py:81-90 | the 8 expected-to-fail programs are each a program listed in the table |
| Compliance.ShippedTableNeverSkips | tests/riscv_compliance/run_tests.py:20-79 | with the shipped table the skipped count is always 0 |
| Compliance.NoSkips | tests/riscv_compliance/run_tests.py:189-192 | with no entry skipped, no prefix counts a skip |
| HalTestUtils.LocalFlagMeaning | tests/hal/source/rvx_hal_test_utils.c:14-108 | the local flag is 1 exactly when an assertion failed since the last start |
| HalTestUtils.GlobalFlagMeaning | tests/hal/source/rvx_hal_test_utils.c:15-58 | the global flag is 1 exactly when any assertion ever failed |
| HalTestUtils.LocalImpliesGlobal | tests/hal/source/rvx_hal_test_utils.c:27-60 | a set local flag implies a set global flag |
| HalTestUtils.GlobalFlagStaysSet | tests/hal/source/rvx_hal_test_utils.c:15-58 | once set, the global flag stays set whatever follows |
| HalTestUtils.FailedAfterCheck | tests/hal/source/rvx_hal_test_utils.c:29-33 | after a check, the test has failed exactly when it had before or this check failed |
| HalTestUtils.NotFailedAfterClear | tests/hal/source/rvx_hal_test_utils.c:107 | clearing the flag starts a test with no failure |
| HalTestUtils.CheckedStep | tests/hal/source/rvx_hal_test_utils.c:27-35 | a failed check sets both flags and counts one error; a passed one changes none |
| HalTestUtils.ClearedStep | tests/hal/source/rvx_hal_test_utils.c:107 | a clear zeroes the local flag only |
| HalTestUtils.FailuresMeaning | tests/uart/unit_tests/uart_unit_tests.c:92-114 | the error count is 0 exactly when no assertion failed |
| HalTestUtils.FailuresGrow | tests/uart/unit_tests/uart_unit_tests.c:92-114 | the error count never decreases and grows by at most one per event |
| HalTestUtils.FlagImpliesFailures | tests/uart/unit_tests/uart_unit_tests.c:97-98 | a set flag implies a nonzero count |
| HalTestUtils.AssertEqReportReadBack | tests/hal/source/rvx_hal_test_utils.c:51-56 | the mismatch report is the message, then both labelled bytes, parsable at fixed offsets, then a newline |
| HalTestUtils.ErrorCount.constructor | tests/hal/source/rvx_hal_test_utils.c:129 | a caller's local error count starts at 0 |
| HalTestUtils.TestUtils.constructor | tests/hal/source/rvx_hal_test_utils.c:14-15 | both flags start at 0 |
| HalTestUtils.TestUtils.Assert | tests/hal/source/rvx_hal_test_utils.c:27-35 | a false condition writes the message and sets both flags; a true one changes nothing |
| HalTestUtils.TestUtils.AssertEq | tests/hal/source/rvx_hal_test_utils.c:47-60 | unequal bytes write the labelled report and set both flags; equal ones change nothing |
| HalTestUtils.TestUtils.ReportMismatch | tests/hal/source/rvx_hal_test_utils.c:51-56 | the six writes of a mismatch, in order |
| HalTestUtils.TestUtils.PrintByte | tests/hal/source/rvx_hal_test_utils.c:67-78 | writes the byte text |
| HalTestUtils.TestUtils.PrintDoubleWordHex | tests/hal/source/rvx_hal_test_utils.c:85-97 | writes the double-word text |
| HalTestUtils.TestUtils.Start | tests/hal/source/rvx_hal_test_utils.c:104-108 | writes the message and clears only the local flag |
| HalTestUtils.TestUtils.Finish | tests/hal/source/rvx_hal_test_utils.c:113-119 | writes the success message exactly when the local flag is 0 (no failure since the start) and changes no flag |
| HalTestUtils.TestUtils.UpdateErrorCount | tests/hal/source/rvx_hal_test_utils.c:129-133 | adds 1, modulo 2^32, exactly when the current test failed |
| UartUnitTests.MismatchReportReadBack | tests/uart/unit_tests/uart_unit_tests.c:102-114 | the report is the message, then the received and expected bytes at fixed offsets, which parse back |
| UartUnitTests.UartTest.constructor | tests/uart/unit_tests/uart_unit_tests.c:7-8 | count and flag start at 0 |
| UartUnitTests.UartTest.RvxAssert | tests/uart/unit_tests/uart_unit_tests.c:92-100 | a false condition writes the message, counts an error and sets the flag; a true one changes nothing |
| UartUnitTests.UartTest.RvxAssertEq | tests/uart/unit_tests/uart_unit_tests.c:102-114 | unequal bytes write the report, count an error and set the flag; equal ones change nothing |
| UartUnitTests.UartTest.ReportMismatch | tests/uart/unit_tests/uart_unit_tests.c:106-110 | the five writes of a mismatch, in order |
| UartUnitTests.UartTest.PrintByte | tests/uart/unit_tests/uart_unit_tests.c:116-127 | writes the byte text |
| UartUnitTests.UartTest.FinishTest | tests/uart/unit_tests/uart_unit_tests.c:163-170 | "Passed." exactly when no assertion failed since the last finish; the flag ends 0 and the count is unchanged |
| GpioUnitTests.GpioTest.constructor | tests/gpio/unit_tests/gpio_unit_tests.c:8-9 | count and flag start at 0 |
| GpioUnitTests.GpioTest.RvxAssert | tests/gpio/unit_tests/gpio_unit_tests.c:107-115 | a false condition writes the message, counts an error and sets the flag; a true one changes nothing |
| GpioUnitTests.GpioTest.PrintWord | tests/gpio/unit_tests/gpio_unit_tests.c:117-129 | the loop over shifts 28 down to 0 writes the 8 upper-case digits, most significant first |
| GpioUnitTests.GpioTest.FinishTest | tests/gpio/unit_tests/gpio_unit_tests.c:131-138 | "Passed." exactly when no assertion failed since the last finish; the flag ends 0 |
| TimerUnitTests.CounterDiagnosticsReadBack | tests/timer/unit_tests/timer_unit_tests.c:58-64 | the diagnostics hold both counter values at fixed offsets, and they parse back |
| TimerUnitTests.TimerTest.constructor | tests/timer/unit_tests/timer_unit_tests.c:8-9 | count and flag start at 0 |
| TimerUnitTests.TimerTest.RvxAssert | tests/timer/unit_tests/timer_unit_tests.c:86-94 | a false condition writes the message, counts an error and sets the flag; a true one changes nothing |
| TimerUnitTests.TimerTest.FinishTest | tests/timer/unit_tests/timer_unit_tests.c:96-103 | "Passed." exactly when no assertion failed since the last finish; the flag ends 0 |
| TimerUnitTests.TimerTest.PrintDoubleWordHex | tests/timer/unit_tests/timer_unit_tests.c:105-117 | writes the double-word text |
| TimerUnitTests.TimerTest.PrintCounterDiagnostics | tests/timer/unit_tests/timer_unit_tests.c:60-63 | the four writes of the diagnostics, in order |
| TimerUnitTests.TimerTest.CounterStopsCheck | tests/timer/unit_tests/timer_unit_tests.c:57-65 | the diagnostics are written exactly when the test has failed, and before `finish_test` clears the flag; "Passed." otherwise |
| SpiLink.EchoReplies | tests/spi_manager/unit_tests/spi_manager_unit_tests.c:149-165 | the echo subordinate answers once per transfer |
| SpiLink.ReceivedByteText | tests/spi_manager/unit_tests/spi_manager_unit_tests.c:134-147 | the `print_byte` text is 21 characters long |
| SpiLink.ReceivedByteTextReadBack | tests/spi_manager/unit_tests/spi_manager_unit_tests.c:134-147 | the label, then the byte text, whose digits parse back, then a newline |
| SpiManagerUnitTests.TransferOpsListed | tests/spi_manager/unit_tests/spi_manager_unit_tests.c:152-163 | the write and the six transfers, in order |
| SpiManagerUnitTests.StepReport | tests/spi_manager/unit_tests/spi_manager_unit_tests.c:123-132 | a transfer step writes nothing exactly when the reply is the expected byte |
| SpiManagerUnitTests.MismatchesZeroIff | tests/spi_manager/unit_tests/spi_manager_unit_tests.c:149-165 | no mismatch is counted exactly when every reply is the expected one |
| SpiManagerUnitTests.ReportsEmptyIff | tests/spi_manager/unit_tests/spi_manager_unit_tests.c:149-165 | the test writes nothing exactly when no reply mismatched |
| SpiManagerUnitTests.ChecksCountMismatches | tests/spi_manager/unit_tests/spi_manager_unit_tests.c:149-165 | the errors counted are the mismatches |
| SpiManagerUnitTests.EchoMeetsExpectation | tests/spi_manager/unit_tests/spi_manager_unit_tests.c:149-165 | a one-byte-delay echo subordinate returns exactly the expected bytes, each the byte sent just before |
| SpiManagerUnitTests.SpiManagerTest.constructor | tests/spi_manager/unit_tests/spi_manager_unit_tests.c:9-10 | count and flag start at 0 |
| SpiManagerUnitTests.SpiManagerTest.Assert | tests/spi_manager/unit_tests/spi_manager_unit_tests.c:113-121 | a false condition writes the message, counts an error and sets the flag; a true one changes nothing |
| SpiManagerUnitTests.SpiManagerTest.AssertEq | tests/spi_manager/unit_tests/spi_manager_unit_tests.c:123-132 | unequal bytes write the message and only the first byte, count an error and set the flag |
| SpiManagerUnitTests.SpiManagerTest.PrintByte | tests/spi_manager/unit_tests/spi_manager_unit_tests.c:134-147 | writes the label, the byte text and a newline |
| SpiManagerUnitTests.SpiManagerTest.FinishTest | tests/spi_manager/unit_tests/spi_manager_unit_tests.c:167-174 | "Passed." exactly when no assertion failed since the last finish; the flag ends 0 |
| SpiManagerUnitTests.SpiManagerTest.TransferStep | tests/spi_manager/unit_tests/spi_manager_unit_tests.c:153-154 | one transfer and its `ASSERT_EQ` |
| SpiManagerUnitTests.SpiManagerTest.TrackedTransferStep | tests/spi_manager/unit_tests/spi_manager_unit_tests.c:153-164 | step k of the test keeps the running account of SPI calls, output and errors |
| SpiManagerUnitTests.SpiManagerTest.TransferTest | tests/spi_manager/unit_tests/spi_manager_unit_tests.c:149-165 | the write and six transfers; one report and one error per mismatching reply |
| SpiExample.ManufacturerName | examples/spi/software/main.c:23-38 | each of 0x01, 0xC2 and 0x20 gets its own name, and every other byte gets "Unknown" |
| SpiExample.ManufacturerNameRoundTrip | examples/spi/software/main.c:23-38 | a known ID is recovered from its name; an unknown ID's name identifies none |
| SpiExample.ManufacturerIdSound | examples/spi/software/main.c:23-38 | a name that identifies an ID is the one written for it |
| SpiExample.ReadIdOpsFrame | examples/spi/software/main.c:14-17 | one transfer per interrupt, inside one chip-select frame |
| SpiExample.ReportReadBack | examples/spi/software/main.c:21-38 | the report gives the ID in hex and then a name that identifies it exactly when it is known |
| SpiExample.SpiExampleProgram.constructor | examples/spi/software/main.c:6-7 | no output and no SPI call yet |
| SpiExample.SpiExampleProgram.IrqHandler | examples/spi/software/main.c:12-40 | the SPI exchange happens on every interrupt; the report is written only when the UART byte is a newline |
| SpiExample.SpiExampleProgram.ReadId | examples/spi/software/main.c:14-17 | select, write 0x9F, transfer 0x00, deselect |
| SpiExample.SpiExampleProgram.PrintName | examples/spi/software/main.c:23-38 | writes the manufacturer's name |
| SpiExample.SpiExampleProgram.PrintByte | examples/spi/software/main.c:61-74 | writes the label, the byte text and a newline |

## Left out

- The Verilator model, its `eval()` and its internal signals are not modelled. A run is the sequence of bus snapshots the model shows, each with the memory stores its `eval()` made; the model's memory is the `tcm` array. The FST waveform content is reduced to the list of sample times.
- Simulator.Harness.EvalStores: a store is a word index and a value, given as an input of the snapshot; byte-lane writes and the address decoding that produce it belong to the RTL, and a store past the end of memory is ignored, since that memory has no such word.
- The `ram_init_h32`/`ram_init_bin` loaders are only declared in the source. Their parse rules are not modelled: a program image is the word sequence they write, at most the memory size.
- Signal registration (`signal(SIGINT/SIGKILL, exit_app)`) is asynchronous and is not modelled. `exit_app` is modelled as a call that closes the trace and exits.
- `argparse.h` and `Log::*` are not part of this model. The options are a `Config` value. `Log::host_out` is an appended character log, and the other log lines are dropped.
- `VerilatedFstC::dump` on a trace that was never opened is assumed to record nothing.
- Simulator.Harness.RamDumpH32: when the file opens, requires the dumped words to lie inside memory. Past that, the source reads beyond the array, which is undefined behaviour. The run loop ends such a run, with an opened dump file, in the `OutOfRangeRead` outcome. A file that does not open needs no range and exits with failure.
- Simulator.Harness.Run: simulation time is an unbounded `nat`. The 64-bit wrap of `contextp->time()` is not modelled.
- Simulator.Harness.Loop: a run is a finite sequence of snapshots. A run that uses them all ends in `Running`, standing in for the infinite `while (true)`.
- Compliance.LineValue: Python `int(s, 16)` also accepts a leading `+` or `-` sign (`int("-1f", 16)` is -31), surrounding whitespace, underscores and a `0x` prefix. These are not modelled: such lines count as unparsable and give the `Crash` verdict.
- Compliance.Tally: an unparsable line, where Python raises `ValueError` and the script stops, is the `Aborted` summary. File reading, `subprocess.run`, `os.makedirs` and the coloured printing are I/O, replaced by their results as inputs.
- UartUnitTests.UartTest.RvxAssert: `error_count` is a signed `int`. Its overflow after 2^31-1 failures is undefined behaviour and is not modelled. The same holds for UartUnitTests.UartTest.RvxAssertEq, GpioUnitTests.GpioTest.RvxAssert, TimerUnitTests.TimerTest.RvxAssert, SpiManagerUnitTests.SpiManagerTest.Assert and SpiManagerUnitTests.SpiManagerTest.AssertEq.
- The UART, SPI, GPIO and timer HAL drivers are not part of this model. A UART write is an append to the output, and an SPI call is an entry in the SPI log. The bytes read from hardware are inputs.
- The firmware `main` bodies, register pokes, delay loops, `while (1)` halts and interrupt wiring are not modelled. The exception is Test 5 of the timer program (`TimerUnitTests.TimerTest.CounterStopsCheck`), taking both counter readings as inputs. The SPI example's initialisation and busy loop are also not modelled; its handler is modelled with its inputs as parameters.
- The assertion-message macros (`STRINGIFY`, `RVX_ASSERT`, `ASSERT_EQ`) are not modelled: the message is a parameter, except for the `ASSERT_EQ` text of `transfer_test`.
- The UART and hello-world examples, the Verilator testbenches and the HAL test programs that only poke registers are not part of this model.
