/**
 * The bookkeeping of the timer module's unit-test program: a signed error
 * count, an error flag cleared by `finish_test`, `print_double_word_hex`
 * for the 64-bit counter, and the diagnostics of the counter-stops test.
 */
module TimerUnitTests {
  import opened HexFormat
  import opened HalTestUtils

  const WAS_LABEL: string := "\nCounter value was: "
  const EXPECTED_LABEL: string := ", expected: "

  /** The message `RVX_ASSERT` expands to on line 57, the counter comparison of test 5. */
  const COUNTER_ASSERT_MESSAGE: string := "\n[ERROR] Assertion at line 57 failed."

  /** What test 5 writes when its flag is set: the value read after the delay, then the one read before. */
  function CounterDiagnostics(newValue: u64, oldValue: u64): string
  {
    WAS_LABEL + DoubleWordHex(newValue) + EXPECTED_LABEL + DoubleWordHex(oldValue)
  }

  /** Both counter values can be read back from the diagnostics, at fixed offsets. */
  lemma CounterDiagnosticsReadBack(newValue: u64, oldValue: u64)
    ensures var d := CounterDiagnostics(newValue, oldValue);
      && |d| == 68
      && d[20..38] == DoubleWordHex(newValue) && ParseHex(d[22..38]) == Some(newValue as nat)
      && d[50..68] == DoubleWordHex(oldValue) && ParseHex(d[52..68]) == Some(oldValue as nat)
  {
    var d := CounterDiagnostics(newValue, oldValue);
    var a, b := DoubleWordHex(newValue), DoubleWordHex(oldValue);
    assert d[20..38] == a && d[22..38] == a[2..];
    assert d[50..68] == b && d[52..68] == b[2..];
  }

  /** The globals `error_count` and `error_flag` and the UART's output. */
  class TimerTest {
    var errorCount: int
    var errorFlag: int
    var uart: seq<char>
    /** The assertions checked and the flag clears so far. */
    ghost var history: seq<Event>

    /** The count is the number of failed assertions, the flag says whether the current test has one. */
    ghost predicate Valid()
      reads this
    {
      errorFlag == LocalFlag(history) && errorCount == Failures(history)
    }

    constructor ()
      ensures Valid() && history == [] && uart == []
      ensures errorCount == 0 && errorFlag == 0
    {
      errorCount, errorFlag := 0, 0;
      uart := [];
      history := [];
    }

    /** `rvx_assert`: a false condition writes the message, counts an error and sets the flag. */
    method RvxAssert(condition: bool, message: string)
      requires Valid()
      modifies this
      ensures Valid() && history == old(history) + [Checked(condition)]
      ensures condition ==> errorCount == old(errorCount) && errorFlag == old(errorFlag) && uart == old(uart)
      ensures !condition ==> errorCount == old(errorCount) + 1 && errorFlag == 1 && uart == old(uart) + message
    {
      CheckedStep(history, condition);
      history := history + [Checked(condition)];
      if !condition {
        uart := uart + message;
        errorCount := errorCount + 1;
        errorFlag := 1;
      }
    }

    /** `finish_test`: "Passed." exactly when no assertion failed since the last clear; the flag ends cleared. */
    method FinishTest()
      requires Valid()
      modifies this
      ensures Valid() && history == old(history) + [Cleared]
      ensures uart == old(uart) + (if FailedSinceStart(old(history)) then [] else PASSED)
      ensures errorFlag == 0 && errorCount == old(errorCount)
    {
      LocalFlagMeaning(history);
      if errorFlag == 0 {
        uart := uart + PASSED;
      }
      errorFlag := 0;
      history := history + [Cleared];
    }

    /** `print_double_word_hex`: the same buffer fill as the HAL's test utilities. */
    method PrintDoubleWordHex(value: u64)
      modifies this`uart
      ensures uart == old(uart) + DoubleWordHex(value)
    {
      var buffer := FillDoubleWordBuffer(value);
      uart := uart + buffer[..];
    }

    /** The diagnostics branch of test 5, taken only while the flag is set. */
    method PrintCounterDiagnostics(newValue: u64, oldValue: u64)
      modifies this`uart
      ensures uart == old(uart) + CounterDiagnostics(newValue, oldValue)
    {
      uart := uart + WAS_LABEL;
      PrintDoubleWordHex(newValue);
      uart := uart + EXPECTED_LABEL;
      PrintDoubleWordHex(oldValue);
    }

    /**
     * Test 5 after its two counter reads: assert they agree, print the
     * diagnostics while the flag is set (before `finish_test` clears it),
     * then finish the test. The diagnostics appear exactly when the test
     * fails, and "Passed." exactly when it does not.
     */
    method CounterStopsCheck(counterValue: u64, newCounterValue: u64)
      requires Valid()
      modifies this
      ensures Valid() && history == old(history) + [Checked(newCounterValue == counterValue), Cleared]
      ensures errorFlag == 0
      ensures errorCount == old(errorCount) + (if newCounterValue == counterValue then 0 else 1)
      ensures var failed := FailedSinceStart(old(history)) || newCounterValue != counterValue;
        uart == old(uart) + (if newCounterValue == counterValue then [] else COUNTER_ASSERT_MESSAGE)
                          + (if failed then CounterDiagnostics(newCounterValue, counterValue) else PASSED)
    {
      ghost var h0, u0 := history, uart;
      ghost var eq := newCounterValue == counterValue;
      ghost var failed := FailedSinceStart(h0) || !eq;
      RvxAssert(newCounterValue == counterValue, COUNTER_ASSERT_MESSAGE);
      ghost var h1, u1 := history, uart;
      FailedAfterCheck(h0, eq);
      LocalFlagMeaning(h1);
      assert errorFlag != 0 <==> failed;
      if errorFlag != 0 {
        PrintCounterDiagnostics(newCounterValue, counterValue);
      }
      ghost var d := if failed then CounterDiagnostics(newCounterValue, counterValue) else [];
      assert uart == u1 + d;
      FinishTest();
      AppendAssoc(h0, [Checked(eq)], [Cleared]);
      assert [Checked(eq)] + [Cleared] == [Checked(eq), Cleared];
      AppendAssoc(u1, d, if failed then [] else PASSED);
    }
  }
}
