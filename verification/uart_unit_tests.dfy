/**
 * The bookkeeping of the UART module's unit-test program: a signed error
 * count, an error flag cleared by `finish_test`, assertions that report on
 * the UART and its own `print_byte`.
 */
module UartUnitTests {
  import opened HexFormat
  import opened HalTestUtils

  const EXPECTED_LABEL: string := "\nByte expected: "

  /** The text `rvx_assert_eq` writes on a mismatch: no trailing newline. */
  function MismatchReport(val1: u8, val2: u8, message: string): string
  {
    message + RECEIVED_LABEL + ByteHex(val1) + EXPECTED_LABEL + ByteHex(val2)
  }

  /** The received byte follows the message after 16 characters, the expected one 20 characters later. */
  lemma MismatchReportReadBack(val1: u8, val2: u8, message: string)
    ensures var r := MismatchReport(val1, val2, message);
      var m := |message|;
      && |r| == m + 40
      && r[..m] == message
      && r[m + 16..m + 20] == ByteHex(val1) && ParseHex(r[m + 18..m + 20]) == Some(val1 as nat)
      && r[m + 36..m + 40] == ByteHex(val2) && ParseHex(r[m + 38..m + 40]) == Some(val2 as nat)
  {
    var r := MismatchReport(val1, val2, message);
    var m := |message|;
    var b1, b2 := ByteHex(val1), ByteHex(val2);
    var p := message + RECEIVED_LABEL;
    var q := p + b1 + EXPECTED_LABEL;
    AppendAssoc(p + b1, EXPECTED_LABEL, b2);
    AppendAssoc(p, b1, EXPECTED_LABEL + b2);
    Framed(p, b1, EXPECTED_LABEL + b2);
    Framed(q, b2, []);
    Framed(message, RECEIVED_LABEL, []);
    assert q + b2 + [] == r;
    SliceOfSlice(r, m + 16, m + 20, 2);
    SliceOfSlice(r, m + 36, m + 40, 2);
    ByteHexRoundTrip(val1);
    ByteHexRoundTrip(val2);
  }

  /** The globals `error_count` and `error_flag` and the UART's output. */
  class UartTest {
    var errorCount: int
    var errorFlag: int
    var uart: seq<char>
    /** The assertions checked and the flag clears so far. */
    ghost var history: seq<Event>

    /** The count is the number of failed assertions, the flag says whether the current test has one. */
    ghost predicate Valid()
      reads this
    {
      errorFlag == LocalFlag(history) && errorCount == Failures(history)
    }

    constructor ()
      ensures Valid() && history == [] && uart == []
      ensures errorCount == 0 && errorFlag == 0
    {
      errorCount, errorFlag := 0, 0;
      uart := [];
      history := [];
    }

    /** `rvx_assert`: a false condition writes the message, counts an error and sets the flag. */
    method RvxAssert(condition: bool, message: string)
      requires Valid()
      modifies this
      ensures Valid() && history == old(history) + [Checked(condition)]
      ensures condition ==> errorCount == old(errorCount) && errorFlag == old(errorFlag) && uart == old(uart)
      ensures !condition ==> errorCount == old(errorCount) + 1 && errorFlag == 1 && uart == old(uart) + message
    {
      CheckedStep(history, condition);
      history := history + [Checked(condition)];
      if !condition {
        uart := uart + message;
        errorCount := errorCount + 1;
        errorFlag := 1;
      }
    }

    /** `rvx_assert_eq`: unequal bytes write the message and both bytes, count an error and set the flag. */
    method RvxAssertEq(val1: u8, val2: u8, message: string)
      requires Valid()
      modifies this
      ensures Valid() && history == old(history) + [Checked(val1 == val2)]
      ensures val1 == val2 ==> errorCount == old(errorCount) && errorFlag == old(errorFlag) && uart == old(uart)
      ensures val1 != val2 ==> errorCount == old(errorCount) + 1 && errorFlag == 1
      ensures val1 != val2 ==> uart == old(uart) + MismatchReport(val1, val2, message)
    {
      CheckedStep(history, val1 == val2);
      history := history + [Checked(val1 == val2)];
      if val1 != val2 {
        ReportMismatch(val1, val2, message);
        errorCount := errorCount + 1;
        errorFlag := 1;
      }
    }

    /** The writes of `rvx_assert_eq` on a mismatch, in order. */
    method ReportMismatch(val1: u8, val2: u8, message: string)
      modifies this`uart
      ensures uart == old(uart) + MismatchReport(val1, val2, message)
    {
      uart := uart + message;
      uart := uart + RECEIVED_LABEL;
      PrintByte(val1);
      uart := uart + EXPECTED_LABEL;
      PrintByte(val2);
    }

    /** `print_byte` */
    method PrintByte(readData: u8)
      modifies this`uart
      ensures uart == old(uart) + ByteHex(readData)
    {
      var strVal := FillByteBuffer(readData);
      uart := uart + strVal[..];
    }

    /** `finish_test`: "Passed." exactly when no assertion failed since the last clear; the flag ends cleared. */
    method FinishTest()
      requires Valid()
      modifies this
      ensures Valid() && history == old(history) + [Cleared]
      ensures uart == old(uart) + (if FailedSinceStart(old(history)) then [] else PASSED)
      ensures errorFlag == 0 && errorCount == old(errorCount)
    {
      LocalFlagMeaning(history);
      if errorFlag == 0 {
        uart := uart + PASSED;
      }
      errorFlag := 0;
      history := history + [Cleared];
    }
  }
}
