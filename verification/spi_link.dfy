/**
 * The SPI manager HAL calls the SPI programs make, as a log of operations,
 * and the subordinate the unit test expects: one that answers each transfer
 * with the byte shifted in by the operation before it.
 *
 * The HAL driver itself (`rvx_spi_write`, `rvx_spi_transfer`, the chip
 * select calls) is not part of this model; the byte a transfer returns is an
 * input of the model.
 */
module SpiLink {
  import opened HexFormat
  import opened HalTestUtils

  datatype SpiOp = ChipSelectAssert | ChipSelectDeassert | Write(data: u8) | Transfer(data: u8)

  predicate IsTransfer(op: SpiOp)
  {
    op.Transfer?
  }

  /** How many transfers `ops` holds: how many replies the manager reads. */
  function TransferCount(ops: seq<SpiOp>): nat
  {
    if ops == [] then 0 else TransferCount(ops[..|ops| - 1]) + (if IsTransfer(ops[|ops| - 1]) then 1 else 0)
  }

  /** The byte the subordinate holds after `ops`: the data of the last write or transfer, else `held`. */
  function LastShifted(ops: seq<SpiOp>, held: u8): u8
  {
    if ops == [] then held
    else
      match ops[|ops| - 1]
      case Write(d) => d
      case Transfer(d) => d
      case _ => LastShifted(ops[..|ops| - 1], held)
  }

  /**
   * The replies of a subordinate that echoes with a one-byte delay and
   * initially holds `held`: each transfer returns the byte of the write or
   * transfer before it.
   */
  function EchoReplies(ops: seq<SpiOp>, held: u8): (r: seq<u8>)
    ensures |r| == TransferCount(ops)
  {
    if ops == [] then []
    else
      var p := ops[..|ops| - 1];
      if IsTransfer(ops[|ops| - 1]) then EchoReplies(p, held) + [LastShifted(p, held)] else EchoReplies(p, held)
  }

  /**
   * The text of the `print_byte` of both SPI programs: a label, the byte as
   * `0x` and two lower-case digits, then a newline.
   */
  function ReceivedByteText(b: u8): (s: string)
    ensures |s| == 21
  {
    RECEIVED_LABEL + ByteHex(b) + "\n"
  }

  /** The byte reads back from a fixed position of its text. */
  lemma ReceivedByteTextReadBack(b: u8)
    ensures var s := ReceivedByteText(b);
      s[..16] == RECEIVED_LABEL && s[16..20] == ByteHex(b) && ParseHex(s[18..20]) == Some(b as nat) && s[20] == '\n'
  {
    var h := ByteHex(b);
    var s := ReceivedByteText(b);
    ByteHexRoundTrip(b);
    assert s[16..20] == h && s[18..20] == h[2..];
  }
}
