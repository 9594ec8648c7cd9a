/**
 * The SPI manager example program: on each UART interrupt it reads the
 * manufacturer ID of the SPI flash (command 0x9F, one dummy transfer) and,
 * when the byte the UART received is a newline, reports the ID and the
 * manufacturer's name on the UART.
 *
 * The interrupt wiring, `main`'s initialisation and the UART and SPI HAL
 * drivers are not part of this model: the byte the SPI transfer returns and
 * the byte `rvx_uart_read` returns are inputs of the handler.
 */
module SpiExample {
  import opened HexFormat
  import opened SpiLink
  import opened HalTestUtils

  /** "Read Manufacturer ID", the command written before the ID is read. */
  const READ_ID_COMMAND: u8 := 0x9F
  /** The byte sent while the ID is shifted in. */
  const DUMMY_BYTE: u8 := 0x00
  /** `'\n'`: the Enter key. */
  const NEWLINE: u8 := 10

  const INFINEON_ID: u8 := 0x01
  const MACRONIX_ID: u8 := 0xC2
  const MICRON_ID: u8 := 0x20

  const INFINEON: string := "Infineon\n"
  const MACRONIX: string := "Macronix\n"
  const MICRON: string := "Micron\n"
  const UNKNOWN: string := "Unknown\n"
  const MANUFACTURER_LABEL: string := "Manufacturer: "

  /** The SPI calls of one interrupt: select, command, one transfer, deselect. */
  const READ_ID_OPS: seq<SpiOp> := [ChipSelectAssert, Write(READ_ID_COMMAND), Transfer(DUMMY_BYTE), ChipSelectDeassert]

  /** The IDs the handler names. */
  predicate KnownId(id: u8)
  {
    id == INFINEON_ID || id == MACRONIX_ID || id == MICRON_ID
  }

  /** The name the handler writes for a manufacturer ID: one per known ID, "Unknown" for every other. */
  function ManufacturerName(id: u8): (name: string)
    ensures name == INFINEON <==> id == INFINEON_ID
    ensures name == MACRONIX <==> id == MACRONIX_ID
    ensures name == MICRON <==> id == MICRON_ID
    ensures name == UNKNOWN <==> !KnownId(id)
  {
    assert INFINEON[0] != MACRONIX[0] && INFINEON[0] != MICRON[0] && INFINEON[0] != UNKNOWN[0];
    assert MACRONIX[1] != MICRON[1] && MACRONIX[0] != UNKNOWN[0] && MICRON[0] != UNKNOWN[0];
    if id == INFINEON_ID then INFINEON
    else if id == MACRONIX_ID then MACRONIX
    else if id == MICRON_ID then MICRON
    else UNKNOWN
  }

  /** The ID a name stands for, as a reader of the report would look it up; `None` for any other text. */
  function ManufacturerId(name: string): Option<u8>
  {
    if name == INFINEON then Some(INFINEON_ID)
    else if name == MACRONIX then Some(MACRONIX_ID)
    else if name == MICRON then Some(MICRON_ID)
    else None
  }

  /** A known ID is recovered from its name; an unknown one's name identifies nothing. */
  lemma ManufacturerNameRoundTrip(id: u8)
    ensures KnownId(id) <==> ManufacturerId(ManufacturerName(id)) == Some(id)
    ensures !KnownId(id) ==> ManufacturerId(ManufacturerName(id)) == None
  {
  }

  /** A name that identifies an ID is the one the handler writes for it. */
  lemma ManufacturerIdSound(name: string, id: u8)
    requires ManufacturerId(name) == Some(id)
    ensures KnownId(id) && ManufacturerName(id) == name
  {
  }

  /** One interrupt reads exactly one byte, inside a single chip-select frame. */
  lemma ReadIdOpsFrame()
    ensures TransferCount(READ_ID_OPS) == 1
    ensures READ_ID_OPS[0] == ChipSelectAssert && READ_ID_OPS[|READ_ID_OPS| - 1] == ChipSelectDeassert
    ensures forall i :: 0 < i < |READ_ID_OPS| - 1 ==> !READ_ID_OPS[i].ChipSelectAssert? && !READ_ID_OPS[i].ChipSelectDeassert?
  {
    var ops := READ_ID_OPS;
    assert ops[..3][..2] == ops[..2] && ops[..2][..1] == ops[..1] && ops[..1][..0] == [];
    assert ops[..4][..3] == ops[..3] && ops[..4] == ops;
    assert TransferCount(ops[..1]) == 0;
    assert TransferCount(ops[..2]) == 0;
    assert TransferCount(ops[..3]) == 1;
  }

  /** What the handler writes after Enter: the byte read, then the manufacturer's name. */
  function Report(id: u8): string
  {
    ReceivedByteText(id) + MANUFACTURER_LABEL + ManufacturerName(id)
  }

  /** The report gives back the ID read, in hexadecimal, and a name that identifies it exactly when it is known. */
  lemma ReportReadBack(id: u8)
    ensures var r := Report(id);
      && |r| > 35
      && r[..16] == RECEIVED_LABEL && ParseHex(r[18..20]) == Some(id as nat)
      && r[21..35] == MANUFACTURER_LABEL
      && r[35..] == ManufacturerName(id)
      && (KnownId(id) <==> ManufacturerId(r[35..]) == Some(id))
  {
    var t := ReceivedByteText(id);
    var r := Report(id);
    ReceivedByteTextReadBack(id);
    assert r[..16] == t[..16] && r[18..20] == t[18..20];
    assert r[21..35] == MANUFACTURER_LABEL;
    assert r[35..] == ManufacturerName(id);
    ManufacturerNameRoundTrip(id);
  }

  /** The example's UART output and the SPI calls it has made. */
  class SpiExampleProgram {
    var uart: seq<char>
    var spi: seq<SpiOp>

    constructor ()
      ensures uart == [] && spi == []
    {
      uart, spi := [], [];
    }

    /**
     * `fast0_irq_handler`, for the transfer returning `readVal` and the UART
     * returning `received`: the ID is read on every interrupt, reported only
     * after Enter.
     */
    method IrqHandler(readVal: u8, received: u8)
      modifies this
      ensures spi == old(spi) + READ_ID_OPS
      ensures received == NEWLINE ==> uart == old(uart) + Report(readVal)
      ensures received != NEWLINE ==> uart == old(uart)
    {
      ReadId();
      if received == NEWLINE {
        ghost var u0 := uart;
        PrintByte(readVal);
        uart := uart + MANUFACTURER_LABEL;
        PrintName(readVal);
        AppendAssoc(u0, ReceivedByteText(readVal) + MANUFACTURER_LABEL, ManufacturerName(readVal));
        AppendAssoc(u0, ReceivedByteText(readVal), MANUFACTURER_LABEL);
      }
    }

    /** The SPI calls of the handler: the ID is read whatever the UART received. */
    method ReadId()
      modifies this`spi
      ensures spi == old(spi) + READ_ID_OPS
    {
      spi := spi + [ChipSelectAssert];
      spi := spi + [Write(READ_ID_COMMAND)];
      spi := spi + [Transfer(DUMMY_BYTE)];
      spi := spi + [ChipSelectDeassert];
    }

    /** The name branch of `fast0_irq_handler`. */
    method PrintName(readVal: u8)
      modifies this`uart
      ensures uart == old(uart) + ManufacturerName(readVal)
    {
      if readVal == INFINEON_ID {
        uart := uart + INFINEON;
      } else if readVal == MACRONIX_ID {
        uart := uart + MACRONIX;
      } else if readVal == MICRON_ID {
        uart := uart + MICRON;
      } else {
        uart := uart + UNKNOWN;
      }
    }

    /** `print_byte`: the label, `0x` and two lower-case digits, a newline. */
    method PrintByte(readData: u8)
      modifies this`uart
      ensures uart == old(uart) + ReceivedByteText(readData)
    {
      var strVal := FillByteBuffer(readData);
      uart := uart + RECEIVED_LABEL;
      uart := uart + strVal[..];
      uart := uart + "\n";
    }
  }
}
