/**
 * The test bookkeeping shared by the HAL test programs: a local error flag
 * for the current test, a global one for the whole run, assertions that
 * report on the test UART, and per-set error counters.
 *
 * `rvx_uart_write_string` and `rvx_uart_write` (the HAL's UART driver) are
 * modelled as appending their characters to `uart`.
 */
module HalTestUtils {
  import opened HexFormat

  /**
   * What has happened to an error flag: it was cleared (a test started, or
   * the previous one finished), or an assertion checked with outcome `ok`.
   */
  datatype Event = Cleared | Checked(ok: bool)

  /** What `finish_test` writes in each peripheral's unit-test program when no assertion failed. */
  const PASSED: string := "Passed."

  /** The label before a received byte in the UART and SPI programs' reports. */
  const RECEIVED_LABEL: string := "\nByte received: "

  /** `rvx_test_error_flag` after the events `h`, from its initial 0. */
  function LocalFlag(h: seq<Event>): int
  {
    if h == [] then 0
    else
      match h[|h| - 1]
      case Cleared => 0
      case Checked(ok) => if ok then LocalFlag(h[..|h| - 1]) else 1
  }

  /** `rvx_test_global_error_flag` after the events `h`, from its initial 0. */
  function GlobalFlag(h: seq<Event>): int
  {
    if h == [] then 0
    else if h[|h| - 1] == Checked(false) then 1
    else GlobalFlag(h[..|h| - 1])
  }

  /** Some assertion among `h` failed. */
  predicate AnyFailure(h: seq<Event>)
  {
    exists i :: 0 <= i < |h| && h[i] == Checked(false)
  }

  /** Some assertion failed after the flag was last cleared (or from the beginning, when it never was). */
  predicate FailedSinceStart(h: seq<Event>)
  {
    exists i :: 0 <= i < |h| && h[i] == Checked(false) && forall j :: i < j < |h| ==> h[j] != Cleared
  }

  /** The local flag is 1 exactly when an assertion failed in the current test, else 0. */
  lemma {:induction false} LocalFlagMeaning(h: seq<Event>)
    ensures LocalFlag(h) == if FailedSinceStart(h) then 1 else 0
  {
    if h != [] {
      var p := h[..|h| - 1];
      var n := |h| - 1;
      LocalFlagMeaning(p);
      match h[n]
      case Cleared =>
        forall i | 0 <= i < |h| && h[i] == Checked(false)
          ensures exists j :: i < j < |h| && h[j] == Cleared
        {
          assert i < n && h[n] == Cleared;
        }
      case Checked(ok) =>
        if ok {
          if FailedSinceStart(h) {
            var i :| 0 <= i < |h| && h[i] == Checked(false) && forall j :: i < j < |h| ==> h[j] != Cleared;
            assert i < n && p[i] == Checked(false) && forall j :: i < j < |p| ==> p[j] != Cleared;
          }
          if FailedSinceStart(p) {
            var i :| 0 <= i < |p| && p[i] == Checked(false) && forall j :: i < j < |p| ==> p[j] != Cleared;
            assert h[i] == Checked(false) && forall j :: i < j < |h| ==> h[j] != Cleared;
          }
        } else {
          assert h[n] == Checked(false);
        }
    }
  }

  /** The global flag is 1 exactly when some assertion of the run failed, else 0: once set it stays set. */
  lemma {:induction false} GlobalFlagMeaning(h: seq<Event>)
    ensures GlobalFlag(h) == if AnyFailure(h) then 1 else 0
  {
    if h != [] {
      var p := h[..|h| - 1];
      GlobalFlagMeaning(p);
      if AnyFailure(p) {
        var i :| 0 <= i < |p| && p[i] == Checked(false);
        assert h[i] == Checked(false);
      }
      if AnyFailure(h) && h[|h| - 1] != Checked(false) {
        var i :| 0 <= i < |h| && h[i] == Checked(false);
        assert p[i] == Checked(false);
      }
    }
  }

  /** A failed assertion in the current test means a failed assertion in the run: the local flag never exceeds the global. */
  lemma LocalImpliesGlobal(h: seq<Event>)
    ensures LocalFlag(h) <= GlobalFlag(h)
    ensures LocalFlag(h) == 1 ==> GlobalFlag(h) == 1
  {
    LocalFlagMeaning(h);
    GlobalFlagMeaning(h);
  }

  /** Nothing clears the global flag: more events never turn it from 1 back to 0. */
  lemma GlobalFlagStaysSet(h: seq<Event>, more: seq<Event>)
    requires GlobalFlag(h) == 1
    ensures GlobalFlag(h + more) == 1
  {
    GlobalFlagMeaning(h);
    GlobalFlagMeaning(h + more);
    var i :| 0 <= i < |h| && h[i] == Checked(false);
    assert (h + more)[i] == Checked(false);
  }

  /** After one more assertion, the current test has failed exactly when it had already or this assertion failed. */
  lemma FailedAfterCheck(h: seq<Event>, ok: bool)
    ensures FailedSinceStart(h + [Checked(ok)]) <==> FailedSinceStart(h) || !ok
  {
    CheckedStep(h, ok);
    LocalFlagMeaning(h);
    LocalFlagMeaning(h + [Checked(ok)]);
  }

  /** A clear starts a test that has not failed. */
  lemma NotFailedAfterClear(h: seq<Event>)
    ensures !FailedSinceStart(h + [Cleared])
  {
    ClearedStep(h);
    LocalFlagMeaning(h + [Cleared]);
  }

  /** The number of failed assertions among `h`: what every `error_count++` of a failed assertion counts. */
  function Failures(h: seq<Event>): nat
  {
    if h == [] then 0
    else Failures(h[..|h| - 1]) + (if h[|h| - 1] == Checked(false) then 1 else 0)
  }

  /** The count is zero exactly when no assertion failed. */
  lemma {:induction false} FailuresMeaning(h: seq<Event>)
    ensures Failures(h) == 0 <==> !AnyFailure(h)
  {
    if h != [] {
      var p := h[..|h| - 1];
      FailuresMeaning(p);
      if AnyFailure(p) {
        var i :| 0 <= i < |p| && p[i] == Checked(false);
        assert h[i] == Checked(false);
      }
      if AnyFailure(h) && h[|h| - 1] != Checked(false) {
        var i :| 0 <= i < |h| && h[i] == Checked(false);
        assert p[i] == Checked(false);
      }
    }
  }

  /** Later events never lower the count: an error count only grows. */
  lemma {:induction false} FailuresGrow(h: seq<Event>, more: seq<Event>)
    ensures Failures(h) <= Failures(h + more)
    ensures Failures(h + more) <= Failures(h) + |more|
  {
    if more != [] {
      var m := more[..|more| - 1];
      FailuresGrow(h, m);
      assert (h + more)[..|h + more| - 1] == h + m;
    } else {
      assert h + more == h;
    }
  }

  /** A set local flag means the count is positive: the flag never claims a failure the count missed. */
  lemma {:induction false} FlagImpliesFailures(h: seq<Event>)
    ensures LocalFlag(h) <= Failures(h)
  {
    if h != [] {
      FlagImpliesFailures(h[..|h| - 1]);
    }
  }

  /** One more assertion: the flags and the count as the assertion's outcome sets them. */
  lemma CheckedStep(h: seq<Event>, ok: bool)
    ensures LocalFlag(h + [Checked(ok)]) == if ok then LocalFlag(h) else 1
    ensures GlobalFlag(h + [Checked(ok)]) == if ok then GlobalFlag(h) else 1
    ensures Failures(h + [Checked(ok)]) == Failures(h) + if ok then 0 else 1
  {
  }

  /** One more clear: the local flag drops to 0, the global flag and the count stay. */
  lemma ClearedStep(h: seq<Event>)
    ensures LocalFlag(h + [Cleared]) == 0
    ensures GlobalFlag(h + [Cleared]) == GlobalFlag(h)
    ensures Failures(h + [Cleared]) == Failures(h)
  {
  }

  const LEFT_LABEL: string := "\nLeft-hand value: "
  const RIGHT_LABEL: string := "\nRight-hand value: "

  /** The text `rvx_test_assert_eq` writes on a mismatch. */
  function AssertEqReport(val1: u8, val2: u8, message: string): string
  {
    message + LEFT_LABEL + ByteHex(val1) + RIGHT_LABEL + ByteHex(val2) + "\n"
  }

  /** Both values can be read back from the report: left after 18 characters, right after 19 more. */
  lemma AssertEqReportReadBack(val1: u8, val2: u8, message: string)
    ensures var r := AssertEqReport(val1, val2, message);
      var m := |message|;
      && |r| == m + 46
      && r[..m] == message
      && r[m + 18..m + 22] == ByteHex(val1) && ParseHex(r[m + 20..m + 22]) == Some(val1 as nat)
      && r[m + 41..m + 45] == ByteHex(val2) && ParseHex(r[m + 43..m + 45]) == Some(val2 as nat)
  {
    var r := AssertEqReport(val1, val2, message);
    var m := |message|;
    var b1, b2 := ByteHex(val1), ByteHex(val2);
    var p := message + LEFT_LABEL;
    var q := p + b1 + RIGHT_LABEL;
    AppendAssoc(p + b1, RIGHT_LABEL, b2 + "\n");
    AppendAssoc(p, b1, RIGHT_LABEL + (b2 + "\n"));
    AppendAssoc(q, b2, "\n");
    Framed(p, b1, RIGHT_LABEL + (b2 + "\n"));
    Framed(q, b2, "\n");
    Framed(message, LEFT_LABEL, []);
    SliceOfSlice(r, m + 18, m + 22, 2);
    SliceOfSlice(r, m + 41, m + 45, 2);
    ByteHexRoundTrip(val1);
    ByteHexRoundTrip(val2);
  }

  /** The caller's `unsigned int` error count of one set of tests. */
  class ErrorCount {
    var value: u32

    constructor ()
      ensures value == 0
    {
      value := 0;
    }
  }

  /** The globals of `rvx_hal_test_utils.c` and the test UART's output. */
  class TestUtils {
    var errorFlag: int
    var globalErrorFlag: int
    var uart: seq<char>
    /** The flag-changing calls so far. */
    ghost var history: seq<Event>

    /** The flags are what the calls so far made them. */
    ghost predicate Valid()
      reads this
    {
      errorFlag == LocalFlag(history) && globalErrorFlag == GlobalFlag(history)
    }

    /** Program start: both flags 0. */
    constructor ()
      ensures Valid() && history == [] && uart == []
      ensures errorFlag == 0 && globalErrorFlag == 0
    {
      errorFlag, globalErrorFlag := 0, 0;
      uart := [];
      history := [];
    }

    /** `rvx_test_assert`: a false condition writes the message and sets both flags; a true one changes nothing. */
    method Assert(condition: bool, message: string)
      requires Valid()
      modifies this
      ensures Valid() && history == old(history) + [Checked(condition)]
      ensures condition ==> errorFlag == old(errorFlag) && globalErrorFlag == old(globalErrorFlag) && uart == old(uart)
      ensures !condition ==> errorFlag == 1 && globalErrorFlag == 1 && uart == old(uart) + message
    {
      CheckedStep(history, condition);
      history := history + [Checked(condition)];
      if !condition {
        uart := uart + message;
        errorFlag := 1;
        globalErrorFlag := 1;
      }
    }

    /** `rvx_test_assert_eq`: unequal bytes write the message and both values, and set both flags. */
    method AssertEq(val1: u8, val2: u8, message: string)
      requires Valid()
      modifies this
      ensures Valid() && history == old(history) + [Checked(val1 == val2)]
      ensures val1 == val2 ==> errorFlag == old(errorFlag) && globalErrorFlag == old(globalErrorFlag) && uart == old(uart)
      ensures val1 != val2 ==> errorFlag == 1 && globalErrorFlag == 1 && uart == old(uart) + AssertEqReport(val1, val2, message)
    {
      CheckedStep(history, val1 == val2);
      history := history + [Checked(val1 == val2)];
      if val1 != val2 {
        ReportMismatch(val1, val2, message);
        errorFlag := 1;
        globalErrorFlag := 1;
      }
    }

    /** The writes of `rvx_test_assert_eq` on a mismatch, in order. */
    method ReportMismatch(val1: u8, val2: u8, message: string)
      modifies this`uart
      ensures uart == old(uart) + AssertEqReport(val1, val2, message)
    {
      uart := uart + message;
      uart := uart + LEFT_LABEL;
      PrintByte(val1);
      uart := uart + RIGHT_LABEL;
      PrintByte(val2);
      uart := uart + "\n";
    }

    /** `rvx_test_print_byte` */
    method PrintByte(b: u8)
      modifies this`uart
      ensures uart == old(uart) + ByteHex(b)
    {
      var str := FillByteBuffer(b);
      uart := uart + str[..];
    }

    /** `rvx_test_print_double_word_hex` */
    method PrintDoubleWordHex(value: u64)
      modifies this`uart
      ensures uart == old(uart) + DoubleWordHex(value)
    {
      var buffer := FillDoubleWordBuffer(value);
      uart := uart + buffer[..];
    }

    /** `rvx_test_start`: write the message and clear the local flag only. */
    method Start(message: string)
      requires Valid()
      modifies this
      ensures Valid() && history == old(history) + [Cleared]
      ensures uart == old(uart) + message
      ensures errorFlag == 0 && globalErrorFlag == old(globalErrorFlag)
    {
      uart := uart + message;
      errorFlag := 0;
      ClearedStep(history);
      history := history + [Cleared];
    }

    /**
     * `rvx_test_finish`: the success message is written exactly when no
     * assertion failed since the test started; no flag changes.
     */
    method Finish(message: string)
      requires Valid()
      modifies this`uart
      ensures uart == old(uart) + (if FailedSinceStart(history) then [] else message)
      ensures errorFlag == 0 <==> !FailedSinceStart(history)
    {
      LocalFlagMeaning(history);
      if errorFlag == 0 {
        uart := uart + message;
      }
    }

    /** `rvx_test_update_error_count`: add one, wrapping at 2^32, when the last test failed. */
    method UpdateErrorCount(count: ErrorCount)
      requires Valid()
      modifies count
      ensures count.value == if FailedSinceStart(history) then (old(count.value) + 1) % U32_MODULUS else old(count.value)
    {
      LocalFlagMeaning(history);
      if errorFlag != 0 {
        count.value := (count.value + 1) % U32_MODULUS;
      }
    }
  }
}
