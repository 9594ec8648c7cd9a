/**
 * The bookkeeping of the GPIO module's unit-test program: a signed error
 * count, an error flag cleared by `finish_test`, and `print_word`, which
 * writes a 32-bit register value as eight upper-case hexadecimal digits.
 */
module GpioUnitTests {
  import opened HexFormat
  import opened HalTestUtils

  /** The globals `error_count` and `error_flag` and the UART's output. */
  class GpioTest {
    var errorCount: int
    var errorFlag: int
    var uart: seq<char>
    /** The assertions checked and the flag clears so far. */
    ghost var history: seq<Event>

    /** The count is the number of failed assertions, the flag says whether the current test has one. */
    ghost predicate Valid()
      reads this
    {
      errorFlag == LocalFlag(history) && errorCount == Failures(history)
    }

    constructor ()
      ensures Valid() && history == [] && uart == []
      ensures errorCount == 0 && errorFlag == 0
    {
      errorCount, errorFlag := 0, 0;
      uart := [];
      history := [];
    }

    /** `rvx_assert`: a false condition writes the message, counts an error and sets the flag. */
    method RvxAssert(condition: bool, message: string)
      requires Valid()
      modifies this
      ensures Valid() && history == old(history) + [Checked(condition)]
      ensures condition ==> errorCount == old(errorCount) && errorFlag == old(errorFlag) && uart == old(uart)
      ensures !condition ==> errorCount == old(errorCount) + 1 && errorFlag == 1 && uart == old(uart) + message
    {
      CheckedStep(history, condition);
      history := history + [Checked(condition)];
      if !condition {
        uart := uart + message;
        errorCount := errorCount + 1;
        errorFlag := 1;
      }
    }

    /**
     * `print_word`: one character per step for the shifts 28, 24, ..., 0,
     * so the most significant nibble comes first; no `0x` prefix.
     */
    method PrintWord(readData: u32)
      modifies this`uart
      ensures uart == old(uart) + WordHexUpper(readData)
    {
      ghost var text := WordHexUpper(readData);
      var i := 28;
      while i >= 0
        invariant -4 <= i <= 28 && i % 4 == 0
        invariant uart == old(uart) + text[..(28 - i) / 4]
        decreases i
      {
        var nibble := Shr4(readData, i / 4) % 16;
        var hexChar := if nibble < 10 then ('0' as int + nibble) as char else ('A' as int + (nibble - 10)) as char;
        assert text[(28 - i) / 4] == hexChar by {
          assert text[7 - i / 4] == UpperDigit(NibbleAt(readData, i / 4));
        }
        assert text[..(28 - i) / 4 + 1] == text[..(28 - i) / 4] + [hexChar];
        uart := uart + [hexChar];
        i := i - 4;
      }
      assert text[..8] == text;
    }

    /** `finish_test`: "Passed." exactly when no assertion failed since the last clear; the flag ends cleared. */
    method FinishTest()
      requires Valid()
      modifies this
      ensures Valid() && history == old(history) + [Cleared]
      ensures uart == old(uart) + (if FailedSinceStart(old(history)) then [] else PASSED)
      ensures errorFlag == 0 && errorCount == old(errorCount)
    {
      LocalFlagMeaning(history);
      if errorFlag == 0 {
        uart := uart + PASSED;
      }
      errorFlag := 0;
      history := history + [Cleared];
    }
  }
}
