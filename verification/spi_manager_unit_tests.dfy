/**
 * The bookkeeping of the SPI manager's unit-test program: a signed error
 * count, an error flag cleared by `finish_test`, an `assert_eq` that reports
 * only the received byte, and the transfer test, which expects the
 * subordinate to echo every byte one transfer later.
 */
module SpiManagerUnitTests {
  import opened HexFormat
  import opened HalTestUtils
  import opened SpiLink

  /**
   * The message `ASSERT_EQ(received_byte, e)` expands to. Every expected
   * value of the transfer test is written as `0x` and two lower-case digits,
   * so its stringified form is `ByteHex(e)`.
   */
  function EqMessage(expected: u8): string
  {
    EQ_MESSAGE_HEAD + ByteHex(expected) + "."
  }

  const EQ_MESSAGE_HEAD: string := "\n[ERROR] Value of received_byte is not equal to "

  /** The bytes the transfer test shifts out: one write, then six transfers. */
  const TRANSFER_SENT: seq<u8> := [0xa5, 0x5a, 0xff, 0x00, 0x3c, 0xc3, 0x00]
  /** The reply the transfer test expects from each of its six transfers. */
  const TRANSFER_EXPECTED: seq<u8> := [0xa5, 0x5a, 0xff, 0x00, 0x3c, 0xc3]
  /** The HAL calls of the transfer test, in order. */
  const TRANSFER_OPS: seq<SpiOp> :=
    [Write(0xa5), Transfer(0x5a), Transfer(0xff), Transfer(0x00), Transfer(0x3c), Transfer(0xc3), Transfer(0x00)]

  /** The state the transfer test changes: the SPI calls, the UART text, the error count and the checks. */
  datatype Track = Track(spi: seq<SpiOp>, uart: string, count: int, history: seq<Event>)

  /** `now` is `start` after the first `k` transfers of `sent[1..]` and checks of `replies` against `expected`. */
  predicate Tracked(start: Track, now: Track, replies: seq<u8>, sent: seq<u8>, expected: seq<u8>, k: nat)
    requires k <= |replies| == |expected| && |sent| == |expected| + 1
  {
    now == Track(start.spi + TransferOps(sent, k),
                 start.uart + Reports(replies, expected, k),
                 start.count + Mismatches(replies, expected, k),
                 start.history + Checks(replies, expected, k))
  }

  /** One more transfer and check carry the tracked state from `k` to `k + 1` steps. */
  lemma TrackStep(start: Track, prev: Track, next: Track, replies: seq<u8>, sent: seq<u8>, expected: seq<u8>, k: nat)
    requires k < |replies| == |expected| && |sent| == |expected| + 1
    requires Tracked(start, prev, replies, sent, expected, k)
    requires next == Track(prev.spi + [Transfer(sent[k + 1])],
                           prev.uart + StepReport(replies[k], expected[k]),
                           prev.count + (if replies[k] == expected[k] then 0 else 1),
                           prev.history + [Checked(replies[k] == expected[k])])
    ensures Tracked(start, next, replies, sent, expected, k + 1)
  {
    AppendAssoc(start.spi, TransferOps(sent, k), [Transfer(sent[k + 1])]);
    AppendAssoc(start.uart, Reports(replies, expected, k), StepReport(replies[k], expected[k]));
    AppendAssoc(start.history, Checks(replies, expected, k), [Checked(replies[k] == expected[k])]);
  }

  /** The transfer test's calls are its write followed by one transfer per further byte of `TRANSFER_SENT`. */
  lemma TransferOpsListed()
    ensures [Write(TRANSFER_SENT[0])] + TransferOps(TRANSFER_SENT, 6) == TRANSFER_OPS
  {
    var t := TRANSFER_SENT;
    assert TransferOps(t, 1) == [Transfer(0x5a)];
    assert TransferOps(t, 2) == [Transfer(0x5a), Transfer(0xff)];
    assert TransferOps(t, 3) == [Transfer(0x5a), Transfer(0xff), Transfer(0x00)];
    assert TransferOps(t, 4) == [Transfer(0x5a), Transfer(0xff), Transfer(0x00), Transfer(0x3c)];
    assert TransferOps(t, 5) == [Transfer(0x5a), Transfer(0xff), Transfer(0x00), Transfer(0x3c), Transfer(0xc3)];
  }

  /** The transfers of the first `k` checks: each shifts out the next byte after the write's. */
  function TransferOps(sent: seq<u8>, k: nat): seq<SpiOp>
    requires k < |sent|
  {
    if k == 0 then [] else TransferOps(sent, k - 1) + [Transfer(sent[k])]
  }

  /** What one `ASSERT_EQ(received_byte, e)` writes: nothing on a match. */
  function StepReport(reply: u8, expected: u8): (s: string)
    ensures s == [] <==> reply == expected
  {
    if reply == expected then [] else EqMessage(expected) + ReceivedByteText(reply)
  }

  /** What the checks of the first `k` replies of `r` against `e` write, in order. */
  function Reports(r: seq<u8>, e: seq<u8>, k: nat): string
    requires k <= |r| == |e|
  {
    if k == 0 then [] else Reports(r, e, k - 1) + StepReport(r[k - 1], e[k - 1])
  }

  /** How many of the first `k` replies of `r` differ from `e`. */
  function Mismatches(r: seq<u8>, e: seq<u8>, k: nat): nat
    requires k <= |r| == |e|
  {
    if k == 0 then 0 else Mismatches(r, e, k - 1) + (if r[k - 1] == e[k - 1] then 0 else 1)
  }

  /** The outcomes the checks of the first `k` replies of `r` against `e` record. */
  function Checks(r: seq<u8>, e: seq<u8>, k: nat): seq<Event>
    requires k <= |r| == |e|
  {
    if k == 0 then [] else Checks(r, e, k - 1) + [Checked(r[k - 1] == e[k - 1])]
  }

  /** The checks find no mismatch exactly when every reply is the expected one. */
  lemma {:induction false} MismatchesZeroIff(r: seq<u8>, e: seq<u8>, k: nat)
    requires k <= |r| == |e|
    ensures Mismatches(r, e, k) == 0 <==> forall i :: 0 <= i < k ==> r[i] == e[i]
  {
    if k > 0 {
      MismatchesZeroIff(r, e, k - 1);
    }
  }

  /** The checks write nothing exactly when they find no mismatch. */
  lemma {:induction false} ReportsEmptyIff(r: seq<u8>, e: seq<u8>, k: nat)
    requires k <= |r| == |e|
    ensures |Reports(r, e, k)| == 0 <==> Mismatches(r, e, k) == 0
    ensures Reports(r, e, k) == [] <==> Mismatches(r, e, k) == 0
  {
    if k > 0 {
      ReportsEmptyIff(r, e, k - 1);
      var a, b := Reports(r, e, k - 1), StepReport(r[k - 1], e[k - 1]);
      assert |Reports(r, e, k)| == |a| + |b|;
      assert |b| == 0 <==> r[k - 1] == e[k - 1];
    }
  }

  /** Each mismatch is one failed assertion. */
  lemma {:induction false} ChecksCountMismatches(r: seq<u8>, e: seq<u8>, k: nat)
    requires k <= |r| == |e|
    ensures Failures(Checks(r, e, k)) == Mismatches(r, e, k)
  {
    if k > 0 {
      ChecksCountMismatches(r, e, k - 1);
      var h := Checks(r, e, k);
      assert h[..|h| - 1] == Checks(r, e, k - 1);
    }
  }

  /**
   * The transfer test's expectation is the echo: whatever the subordinate
   * held before, an echoing subordinate returns exactly the expected replies,
   * each the byte sent by the operation before.
   */
  lemma EchoMeetsExpectation(held: u8)
    ensures EchoReplies(TRANSFER_OPS, held) == TRANSFER_EXPECTED
    ensures forall i :: 0 <= i < 6 ==> TRANSFER_EXPECTED[i] == TRANSFER_SENT[i]
  {
    var ops := TRANSFER_OPS;
    assert ops[..7][..6] == ops[..6] && ops[..7] == ops;
    assert ops[..6][..5] == ops[..5];
    assert ops[..5][..4] == ops[..4];
    assert ops[..4][..3] == ops[..3];
    assert ops[..3][..2] == ops[..2];
    assert ops[..2][..1] == ops[..1];
    assert ops[..1][..0] == [];
    assert EchoReplies(ops[..1], held) == [] && LastShifted(ops[..1], held) == 0xa5;
    assert EchoReplies(ops[..2], held) == [0xa5] && LastShifted(ops[..2], held) == 0x5a;
    assert EchoReplies(ops[..3], held) == [0xa5, 0x5a] && LastShifted(ops[..3], held) == 0xff;
    assert EchoReplies(ops[..4], held) == [0xa5, 0x5a, 0xff] && LastShifted(ops[..4], held) == 0x00;
    assert EchoReplies(ops[..5], held) == [0xa5, 0x5a, 0xff, 0x00] && LastShifted(ops[..5], held) == 0x3c;
    assert EchoReplies(ops[..6], held) == [0xa5, 0x5a, 0xff, 0x00, 0x3c] && LastShifted(ops[..6], held) == 0xc3;
  }

  /** The globals `error_count` and `error_flag`, the UART's output and the SPI calls made. */
  class SpiManagerTest {
    var errorCount: int
    var errorFlag: int
    var uart: seq<char>
    var spi: seq<SpiOp>
    /** The assertions checked and the flag clears so far. */
    ghost var history: seq<Event>

    /** The count is the number of failed assertions, the flag says whether the current test has one. */
    ghost predicate Valid()
      reads this
    {
      errorFlag == LocalFlag(history) && errorCount == Failures(history)
    }

    constructor ()
      ensures Valid() && history == [] && uart == [] && spi == []
      ensures errorCount == 0 && errorFlag == 0
    {
      errorCount, errorFlag := 0, 0;
      uart, spi := [], [];
      history := [];
    }

    /** `assert`: a false condition writes the message, counts an error and sets the flag. */
    method Assert(condition: bool, message: string)
      requires Valid()
      modifies this`errorCount, this`errorFlag, this`uart, this`history
      ensures Valid() && history == old(history) + [Checked(condition)]
      ensures condition ==> errorCount == old(errorCount) && errorFlag == old(errorFlag) && uart == old(uart)
      ensures !condition ==> errorCount == old(errorCount) + 1 && errorFlag == 1 && uart == old(uart) + message
    {
      CheckedStep(history, condition);
      history := history + [Checked(condition)];
      if !condition {
        uart := uart + message;
        errorCount := errorCount + 1;
        errorFlag := 1;
      }
    }

    /**
     * `assert_eq`: unequal bytes write the message and the first byte only
     * (never the second), count an error and set the flag.
     */
    method AssertEq(val1: u8, val2: u8, message: string)
      requires Valid()
      modifies this`errorCount, this`errorFlag, this`uart, this`history
      ensures Valid() && history == old(history) + [Checked(val1 == val2)]
      ensures val1 == val2 ==> errorCount == old(errorCount) && errorFlag == old(errorFlag) && uart == old(uart)
      ensures val1 != val2 ==> errorCount == old(errorCount) + 1 && errorFlag == 1
      ensures val1 != val2 ==> uart == old(uart) + message + ReceivedByteText(val1)
    {
      CheckedStep(history, val1 == val2);
      history := history + [Checked(val1 == val2)];
      if val1 != val2 {
        uart := uart + message;
        PrintByte(val1);
        errorCount := errorCount + 1;
        errorFlag := 1;
      }
    }

    /** `print_byte` */
    method PrintByte(readData: u8)
      modifies this`uart
      ensures uart == old(uart) + ReceivedByteText(readData)
    {
      var strVal := FillByteBuffer(readData);
      uart := uart + RECEIVED_LABEL;
      uart := uart + strVal[..];
      uart := uart + "\n";
    }

    /** `finish_test`: "Passed." exactly when no assertion failed since the last clear; the flag ends cleared. */
    method FinishTest()
      requires Valid()
      modifies this`errorFlag, this`uart, this`history
      ensures Valid() && history == old(history) + [Cleared]
      ensures uart == old(uart) + (if FailedSinceStart(old(history)) then [] else PASSED)
      ensures errorFlag == 0 && errorCount == old(errorCount)
    {
      LocalFlagMeaning(history);
      if errorFlag == 0 {
        uart := uart + PASSED;
      }
      errorFlag := 0;
      history := history + [Cleared];
    }

    /** One `received_byte = rvx_spi_transfer(spi, send)` (which returned `reply`) and its `ASSERT_EQ`. */
    method TransferStep(send: u8, reply: u8, expected: u8)
      requires Valid()
      modifies this
      ensures Valid() && history == old(history) + [Checked(reply == expected)]
      ensures spi == old(spi) + [Transfer(send)]
      ensures uart == old(uart) + StepReport(reply, expected)
      ensures errorCount == old(errorCount) + (if reply == expected then 0 else 1)
    {
      spi := spi + [Transfer(send)];
      AssertEq(reply, expected, EqMessage(expected));
      if reply == expected {
        assert uart == old(uart) + StepReport(reply, expected) by { assert old(uart) + [] == old(uart); }
      }
    }

    ghost function Snapshot(): Track
      reads this
    {
      Track(spi, uart, errorCount, history)
    }

    /** Step `k` of the transfer test, carrying its tracked state from `k` to `k + 1` steps. */
    method TrackedTransferStep(replies: seq<u8>, sent: seq<u8>, expected: seq<u8>, k: nat, ghost start: Track)
      requires k < |replies| == |expected| && |sent| == |expected| + 1
      requires Valid() && Tracked(start, Snapshot(), replies, sent, expected, k)
      modifies this
      ensures Valid() && Tracked(start, Snapshot(), replies, sent, expected, k + 1)
    {
      ghost var prev := Snapshot();
      TransferStep(sent[k + 1], replies[k], expected[k]);
      TrackStep(start, prev, Snapshot(), replies, sent, expected, k);
    }

    /**
     * `transfer_test`, given the six bytes the transfers returned: every
     * reply that is not the echo of the byte sent before it writes its
     * report and counts one error.
     */
    method TransferTest(replies: seq<u8>)
      requires Valid() && |replies| == 6
      modifies this
      ensures Valid() && history == old(history) + Checks(replies, TRANSFER_EXPECTED, 6)
      ensures spi == old(spi) + TRANSFER_OPS
      ensures uart == old(uart) + Reports(replies, TRANSFER_EXPECTED, 6)
      ensures errorCount == old(errorCount) + Mismatches(replies, TRANSFER_EXPECTED, 6)
    {
      var sent, expected := TRANSFER_SENT, TRANSFER_EXPECTED;
      TransferOpsListed();
      AppendAssoc(spi, [Write(sent[0])], TransferOps(sent, 6));
      spi := spi + [Write(sent[0])];
      ghost var start := Snapshot();
      assert Tracked(start, start, replies, sent, expected, 0);
      TrackedTransferStep(replies, sent, expected, 0, start);
      TrackedTransferStep(replies, sent, expected, 1, start);
      TrackedTransferStep(replies, sent, expected, 2, start);
      TrackedTransferStep(replies, sent, expected, 3, start);
      TrackedTransferStep(replies, sent, expected, 4, start);
      TrackedTransferStep(replies, sent, expected, 5, start);
    }
  }
}
