/**
 * The Verilator harness of `simulator/rvx_simulator.cpp`: clock and reset
 * sequencing, loading the program image, the per-edge bus monitors
 * (completion, host output, UART pacing), the signature dump and the
 * waveform trace's lifecycle.
 *
 * The hardware model is opaque. The harness drives its `clock` and `reset_n`
 * pins (each `eval()` is recorded in `evals`), and after each `eval()` of the
 * run loop it observes one bus snapshot, which also carries the words the
 * core stored to its memory during that `eval()`; a run is given as the
 * finite sequence of snapshots the model produces, and a run that uses them
 * all without exiting ends in `Running`.
 */
module Simulator {
  import opened HexFormat

  /** A word the core stored to its tightly coupled memory: word `index` takes `value`. */
  datatype Store = Store(index: nat, value: u32)

  /**
   * What the harness reads of the model after an `eval()`: the manager bus,
   * the UART transmitter's bit counter, and the memory stores that `eval()`
   * made, in order.
   */
  datatype Bus = Bus(rwAddress: u32, writeRequest: bool, writeData: u32, txBitCounter: nat, stores: seq<Store>)

  /** The model's input pins at one `eval()`. */
  datatype Pins = Pins(clock: bool, resetN: bool)

  /** `--ram-dump-h32`: absent, or a path whose opening succeeds or fails. */
  datatype DumpTarget = NoDump | DumpTo(opens: bool)

  /** The command-line options the run loop uses; 0 for `maxCycles` or `hostOut` means "not given". */
  datatype Config = Config(
    wave: bool,
    maxCycles: u64,
    wrAddr: u32,
    hostOut: u32,
    dump: DumpTarget)

  /** Why the process exited. */
  datatype ExitReason =
    | EndCycles
    | WrAddr(signature: Option<seq<string>>)
    | DumpOpenFailed

  /**
   * How a run ends: an exit, a read of the signature past the end of memory
   * after the dump file has opened (undefined behaviour in the source, where
   * the model stops), or still running when the model's snapshots are used up.
   */
  datatype Outcome = Running | Exited(reason: ExitReason) | OutOfRangeRead

  datatype DumpResult = DumpFailed | Dumped(lines: seq<string>)

  const EXIT_SUCCESS: int := 0
  const EXIT_FAILURE: int := 1

  /** Clock toggles with reset asserted. */
  const RESET_TOGGLES: nat := 10
  /** `timeInc` before each reset toggle and before the release. */
  const RESET_STEP: nat := 10
  /** Time of the release of reset, counted from the start of the sequence. */
  const RESET_DURATION: nat := 110
  /** The UART data register. */
  const UART_DATA_ADDRESS: u32 := 0x8000_0000
  /** One UART frame: 20 time units for each of 5208 cycles per baud. */
  const UART_FRAME_DELAY: nat := 20 * 5208

  function ExitStatus(reason: ExitReason): int
  {
    match reason
    case DumpOpenFailed => EXIT_FAILURE
    case _ => EXIT_SUCCESS
  }

  /** `(char)write_data`: the low byte of the bus data. */
  function ByteChar(w: u32): char
  {
    (w % 0x100) as char
  }

  // ---------------------------------------------------------------------------
  // Bus event monitors

  /**
   * `is_finished(addr)`: a write of 1 to `addr`; level-triggered. Such a
   * write to a nonzero address also qualifies as host output on a clear
   * latch, so the loop's order of checks decides which one is taken.
   */
  predicate IsFinished(b: Bus, addr: u32)
    ensures IsFinished(b, addr) && addr != 0 ==> HostOut(false, b, addr).0
  {
    b.rwAddress == addr && b.writeRequest && b.writeData == 1
  }

  /**
   * One call of `is_host_out(addr)` with latch `latch` (its `static bool
   * is_pos_edg`): whether it fires, and the new latch, which is always the
   * current write request.
   */
  function HostOut(latch: bool, b: Bus, addr: u32): (r: (bool, bool))
    ensures r.1 == b.writeRequest
    ensures r.0 ==> !latch && b.writeRequest && b.rwAddress == addr
    ensures addr == 0 ==> !r.0
  {
    var isWrite := addr != 0 && (!latch && b.writeRequest) && b.rwAddress == addr
      && b.writeRequest && b.writeData != 0;
    (isWrite, b.writeRequest)
  }

  /** The latch after the calls on `bs`, starting from `latch`. */
  function LatchAfter(latch: bool, bs: seq<Bus>): bool
  {
    if bs == [] then latch else bs[|bs| - 1].writeRequest
  }

  /** Which of the calls on `bs` fire, starting from `latch`. */
  function HostOutFires(latch: bool, bs: seq<Bus>, addr: u32): (fires: seq<bool>)
    ensures |fires| == |bs|
  {
    if bs == [] then []
    else
      var p := bs[..|bs| - 1];
      HostOutFires(latch, p, addr) + [HostOut(LatchAfter(latch, p), bs[|bs| - 1], addr).0]
  }

  /** The written characters of the snapshots in `bs` whose flag in `marks` is set, in order. */
  function Selected(marks: seq<bool>, bs: seq<Bus>): seq<char>
    requires |marks| == |bs|
  {
    if bs == [] then []
    else
      var n := |bs| - 1;
      Selected(marks[..n], bs[..n]) + (if marks[n] then [ByteChar(bs[n].writeData)] else [])
  }

  /**
   * The characters `Log::host_out` prints for the calls on `bs`: the
   * written character of exactly the calls that fire, in order.
   */
  function HostOutLog(latch: bool, bs: seq<Bus>, addr: u32): (log: seq<char>)
    ensures log == Selected(HostOutFires(latch, bs, addr), bs)
    ensures |log| <= |bs|
  {
    if bs == [] then []
    else
      var p := bs[..|bs| - 1];
      var b := bs[|bs| - 1];
      assert HostOutFires(latch, bs, addr)[..|p|] == HostOutFires(latch, p, addr);
      HostOutLog(latch, p, addr) + (if HostOut(LatchAfter(latch, p), b, addr).0 then [ByteChar(b.writeData)] else [])
  }

  /**
   * The host-out detector fires at call `k` exactly on a rising edge of the
   * write request (against the latch for the first call) with the address
   * matching, a nonzero address and nonzero data.
   */
  lemma {:induction false} HostOutFiresAt(latch: bool, bs: seq<Bus>, addr: u32, k: nat)
    requires k < |bs|
    ensures HostOutFires(latch, bs, addr)[k] <==>
      (if k == 0 then !latch else !bs[k - 1].writeRequest)
      && bs[k].writeRequest && addr != 0 && bs[k].rwAddress == addr && bs[k].writeData != 0
  {
    var p := bs[..|bs| - 1];
    if k < |bs| - 1 {
      HostOutFiresAt(latch, p, addr, k);
      assert p[k] == bs[k];
      if k > 0 {
        assert p[k - 1] == bs[k - 1];
      }
    } else if k > 0 {
      assert LatchAfter(latch, p) == bs[k - 1].writeRequest;
    }
  }

  /**
   * A write request held asserted over consecutive calls fires at most once:
   * never after the first call, and on the first call only if the latch was
   * clear and the address and data qualify.
   */
  lemma HeldWriteFiresAtMostOnce(latch: bool, bs: seq<Bus>, addr: u32)
    requires forall k :: 0 <= k < |bs| ==> bs[k].writeRequest
    ensures forall k :: 0 < k < |bs| ==> !HostOutFires(latch, bs, addr)[k]
    ensures |bs| > 0 ==> (HostOutFires(latch, bs, addr)[0] <==>
      !latch && addr != 0 && bs[0].rwAddress == addr && bs[0].writeData != 0)
  {
  }

  /**
   * A write request held over consecutive calls puts at most one character
   * in the log: that of the first call, when it fires.
   */
  lemma {:induction false} HeldWriteLogsAtMostOnce(latch: bool, bs: seq<Bus>, addr: u32)
    requires |bs| > 0
    requires forall k :: 0 <= k < |bs| ==> bs[k].writeRequest
    ensures HostOutLog(latch, bs, addr) ==
      if !latch && addr != 0 && bs[0].rwAddress == addr && bs[0].writeData != 0
      then [ByteChar(bs[0].writeData)] else []
  {
    var p := bs[..|bs| - 1];
    if |bs| > 1 {
      HeldWriteLogsAtMostOnce(latch, p, addr);
      assert p[0] == bs[0];
      assert LatchAfter(latch, p) == p[|p| - 1].writeRequest;
    } else {
      assert p == [];
    }
  }

  /** The UART pacing condition: clock high and a write to the UART data register with the transmitter idle. */
  predicate PacesUart(clock: bool, b: Bus)
    ensures PacesUart(clock, b) ==> clock && b.writeRequest && b.rwAddress == UART_DATA_ADDRESS
  {
    clock && b.rwAddress == UART_DATA_ADDRESS && b.writeRequest && b.txBitCounter == 0
  }

  /** The time one run-loop iteration adds: a UART frame or 20, then 10. */
  function Advance(clock: bool, b: Bus): (d: nat)
    ensures d >= 30
    ensures PacesUart(clock, b) <==> d == UART_FRAME_DELAY + 10
  {
    (if PacesUart(clock, b) then UART_FRAME_DELAY else 20) + 10
  }

  /** The clock after the toggle of run-loop iteration `j` (reset leaves it high). */
  function LoopClock(j: nat): bool
  {
    j % 2 == 1
  }

  /** Time added by the run-loop iterations that saw the snapshots `bs`. */
  function Elapsed(bs: seq<Bus>): nat
  {
    if bs == [] then 0
    else Elapsed(bs[..|bs| - 1]) + Advance(LoopClock(|bs| - 1), bs[|bs| - 1])
  }

  /**
   * The characters written to standard output by UART pacing over `bs`:
   * pacing needs the clock high, so at most one character per two iterations.
   */
  function UartChars(bs: seq<Bus>): (chars: seq<char>)
    ensures |chars| <= |bs| / 2
  {
    if bs == [] then []
    else
      var b := bs[|bs| - 1];
      UartChars(bs[..|bs| - 1]) + (if PacesUart(LoopClock(|bs| - 1), b) then [ByteChar(b.writeData)] else [])
  }

  /** Every iteration advances time by at least 30, and a later iteration ends strictly later. */
  lemma {:induction false} ElapsedGrows(bs: seq<Bus>, i: nat, j: nat)
    requires i < j <= |bs|
    ensures Elapsed(bs[..i]) + 30 * (j - i) <= Elapsed(bs[..j])
  {
    var q := bs[..j];
    assert q[..|q| - 1] == bs[..j - 1];
    if i < j - 1 {
      ElapsedGrows(bs, i, j - 1);
    }
  }

  // ---------------------------------------------------------------------------
  // Clock and reset

  /** Pins of the reset sequence: assert reset with the clock low, `n` toggles, then release with the clock high. */
  function ResetPins(n: nat): seq<Pins>
  {
    [Pins(false, false)] + TogglePins(n) + [Pins(true, true)]
  }

  /** Pins of the first `n` toggles of the reset sequence, reset held. */
  function TogglePins(n: nat): seq<Pins>
  {
    seq(n, j => Pins(j % 2 == 0, false))
  }

  /** Pins of `m` run-loop iterations. */
  function LoopPins(m: nat): seq<Pins>
  {
    seq(m, j requires 0 <= j < m => Pins(LoopClock(j), true))
  }

  /** One more run-loop iteration adds the pins of its `eval()`. */
  lemma LoopPinsStep(m: nat)
    ensures LoopPins(m + 1) == LoopPins(m) + [Pins(LoopClock(m), true)]
  {
    assert LoopPins(m + 1)[..m] == LoopPins(m);
  }

  /** Trace sample times of the reset sequence started at `t0`. */
  function ResetSamples(t0: nat, n: nat): seq<nat>
  {
    seq(n + 1, i => t0 + RESET_STEP * (i + 1))
  }

  /** Trace sample times of the run-loop iterations over `bs`, the loop starting at `t0`. */
  function LoopSamples(t0: nat, bs: seq<Bus>): (s: seq<nat>)
    ensures |s| == |bs|
  {
    if bs == [] then [] else LoopSamples(t0, bs[..|bs| - 1]) + [t0 + Elapsed(bs)]
  }

  predicate StrictlyIncreasing(s: seq<nat>)
  {
    forall i, j :: 0 <= i < j < |s| ==> s[i] < s[j]
  }

  /**
   * With an even number of reset toggles the clock alternates on every
   * `eval()` of the whole run, reset held for exactly the first `n + 1`.
   */
  lemma ClockAlternates(n: nat, m: nat)
    requires n % 2 == 0
    ensures var e := ResetPins(n) + LoopPins(m);
      && |e| == n + 2 + m
      && (forall k :: 0 <= k < |e| ==> e[k].clock == (k % 2 == 1))
      && (forall k :: 0 <= k < |e| ==> (e[k].resetN <==> k > n))
  {
  }

  /** Trace samples from reset to the last run-loop iteration are strictly increasing, all after `t0`. */
  lemma {:induction false} SamplesIncrease(t0: nat, bs: seq<Bus>)
    ensures var s := ResetSamples(t0, RESET_TOGGLES) + LoopSamples(t0 + RESET_DURATION, bs);
      StrictlyIncreasing(s) && forall i :: 0 <= i < |s| ==> t0 < s[i] <= t0 + RESET_DURATION + Elapsed(bs)
  {
    var r := ResetSamples(t0, RESET_TOGGLES);
    var s := r + LoopSamples(t0 + RESET_DURATION, bs);
    if bs == [] {
      assert s == r;
    } else {
      var p := bs[..|bs| - 1];
      SamplesIncrease(t0, p);
      var sp := r + LoopSamples(t0 + RESET_DURATION, p);
      assert s == sp + [t0 + RESET_DURATION + Elapsed(bs)];
      assert Elapsed(p) < Elapsed(bs);
    }
  }

  // ---------------------------------------------------------------------------
  // Signature

  /** `uint32_t size = stop_addr - start_addr`: wraps when `stop < start`. */
  function SignatureSize(start: u32, stop: u32): (size: u32)
    ensures (start + size) % U32_MODULUS == stop
  {
    (stop - start) % U32_MODULUS
  }

  /** No ordering check: the size is the difference, or the difference plus 2^32 when the bounds are reversed. */
  lemma SignatureSizeWraps(start: u32, stop: u32)
    ensures start <= stop ==> SignatureSize(start, stop) == stop - start
    ensures stop < start ==> SignatureSize(start, stop) == stop - start + U32_MODULUS
    ensures SignatureSize(start, stop) == 0 <==> start == stop
  {
  }

  /** `ram_dump_h32`'s file: word `first + i` of memory as `%08x` and a newline, for `i` below `count`. */
  function DumpLines(mem: seq<u32>, first: nat, count: nat): (lines: seq<string>)
    requires first + count <= |mem|
    ensures |lines| == count
    ensures forall i :: 0 <= i < count ==> |lines[i]| == 9
  {
    var lines := seq(count, i requires 0 <= i < count => WordHexLower(mem[first + i]) + "\n");
    assert forall i :: 0 <= i < count ==> lines[i] == WordHexLower(mem[first + i]) + "\n";
    lines
  }

  /** Every dumped line is nine characters, and its eight digits read back as the memory word. */
  lemma DumpLinesReadBack(mem: seq<u32>, first: nat, count: nat, i: nat)
    requires first + count <= |mem| && i < count
    ensures var line := DumpLines(mem, first, count)[i];
      |line| == 9 && line[8] == '\n' && ParseHex(line[..8]) == Some(mem[first + i] as nat)
  {
    var w := WordHexLower(mem[first + i]);
    assert DumpLines(mem, first, count)[i][..8] == w;
  }

  // ---------------------------------------------------------------------------
  // The run as a function of the snapshots

  /** The cycle-limit test of the loop: `max_cycles` given and `clk_cur_cycles >= max_cycles`. */
  predicate CycleExit(cfg: Config, cycles: nat)
  {
    cfg.maxCycles != 0 && cycles >= cfg.maxCycles
  }

  /** Whether the run loop exits in the iteration that sees snapshot `b`. */
  predicate ExitsOn(cfg: Config, cycles: nat, b: Bus)
  {
    CycleExit(cfg, cycles) || IsFinished(b, cfg.wrAddr)
  }

  /** Index of the iteration that exits, or `|bs|` when none does. */
  function FirstExit(cfg: Config, cycles: nat, bs: seq<Bus>): (k: nat)
    ensures k <= |bs|
    ensures k < |bs| ==> ExitsOn(cfg, cycles, bs[k])
    ensures forall j :: 0 <= j < k ==> !ExitsOn(cfg, cycles, bs[j])
  {
    if bs == [] then 0
    else if ExitsOn(cfg, cycles, bs[0]) then 0
    else 1 + FirstExit(cfg, cycles, bs[1..])
  }

  /** The first exit is the one at `k` when no earlier iteration exits and `k` does (or is the end). */
  lemma FirstExitIs(cfg: Config, cycles: nat, bs: seq<Bus>, k: nat)
    requires k <= |bs|
    requires forall j :: 0 <= j < k ==> !ExitsOn(cfg, cycles, bs[j])
    requires k < |bs| ==> ExitsOn(cfg, cycles, bs[k])
    ensures FirstExit(cfg, cycles, bs) == k
  {
  }

  /** What the completion branch does with memory `mem`: signature bounds, optional dump, exit. */
  function FinishOutcome(dump: DumpTarget, mem: seq<u32>): (r: Outcome)
    requires |mem| >= 3
    ensures r != Running && r != Exited(EndCycles)
    ensures r == Exited(DumpOpenFailed) <==> dump == DumpTo(false) && SignatureSize(mem[1], mem[2]) >= 4
    ensures r == OutOfRangeRead ==>
      dump == DumpTo(true) && mem[1] / 4 + SignatureSize(mem[1], mem[2]) / 4 > |mem|
    ensures r == Exited(WrAddr(None)) <==> !dump.DumpTo? || SignatureSize(mem[1], mem[2]) < 4
  {
    var start := mem[1];
    var stop := mem[2];
    var size := SignatureSize(start, stop);
    if dump.DumpTo? && size >= 4 then
      if !dump.opens then Exited(DumpOpenFailed)
      else if start / 4 + size / 4 > |mem| then OutOfRangeRead
      else Exited(WrAddr(Some(DumpLines(mem, start / 4, size / 4))))
    else Exited(WrAddr(None))
  }

  /**
   * The outcome of a run over snapshots `bs` with cycle counter `cycles`,
   * the memory holding `mem` when the loop starts: the completion branch
   * reads the memory as the stores of the iterations executed left it.
   */
  function RunOutcome(cfg: Config, cycles: nat, mem: seq<u32>, bs: seq<Bus>): Outcome
    requires |mem| >= 3
  {
    var k := FirstExit(cfg, cycles, bs);
    if k == |bs| then Running
    else if CycleExit(cfg, cycles) then Exited(EndCycles)
    else FinishOutcome(cfg.dump, ExitMemory(cfg, cycles, mem, bs))
  }

  /** Run-loop iterations executed. */
  function Iterations(cfg: Config, cycles: nat, bs: seq<Bus>): nat
  {
    var k := FirstExit(cfg, cycles, bs);
    if k == |bs| then k else k + 1
  }

  /** Iterations that reached the host-out check (the exiting one does not). */
  function HostOutCalls(cfg: Config, cycles: nat, bs: seq<Bus>): nat
  {
    FirstExit(cfg, cycles, bs)
  }

  /** Memory after the stores `ss`, applied in order; a store past the end of memory changes nothing. */
  function Stored(mem: seq<u32>, ss: seq<Store>): (r: seq<u32>)
    ensures |r| == |mem|
  {
    if ss == [] then mem
    else
      var m := Stored(mem, ss[..|ss| - 1]);
      var st := ss[|ss| - 1];
      if st.index < |m| then m[st.index := st.value] else m
  }

  /**
   * After the stores `ss`, a word no store names keeps its value, and a
   * word named by a store takes the value of the last store naming it.
   */
  lemma {:induction false} StoredMeaning(mem: seq<u32>, ss: seq<Store>)
    ensures forall i :: 0 <= i < |mem| && (forall j :: 0 <= j < |ss| ==> ss[j].index != i) ==>
      Stored(mem, ss)[i] == mem[i]
    ensures forall j :: 0 <= j < |ss| && ss[j].index < |mem| && (forall l :: j < l < |ss| ==> ss[l].index != ss[j].index) ==>
      Stored(mem, ss)[ss[j].index] == ss[j].value
  {
    if ss != [] {
      var p := ss[..|ss| - 1];
      StoredMeaning(mem, p);
      assert forall j :: 0 <= j < |p| ==> p[j] == ss[j];
    }
  }

  /** Memory after the `eval()`s that showed the snapshots `bs`. */
  function MemAfter(mem: seq<u32>, bs: seq<Bus>): (r: seq<u32>)
    ensures |r| == |mem|
  {
    if bs == [] then mem else Stored(MemAfter(mem, bs[..|bs| - 1]), bs[|bs| - 1].stores)
  }

  /** A program that stores nothing leaves the memory as loaded. */
  lemma {:induction false} NoStoresKeepMemory(mem: seq<u32>, bs: seq<Bus>)
    requires forall j :: 0 <= j < |bs| ==> bs[j].stores == []
    ensures MemAfter(mem, bs) == mem
  {
    if bs != [] {
      var p := bs[..|bs| - 1];
      assert forall j :: 0 <= j < |p| ==> p[j] == bs[j];
      NoStoresKeepMemory(mem, p);
    }
  }

  /** The memory when the loop exits (or runs out of snapshots): after the iterations executed. */
  function ExitMemory(cfg: Config, cycles: nat, mem: seq<u32>, bs: seq<Bus>): seq<u32>
  {
    MemAfter(mem, bs[..Iterations(cfg, cycles, bs)])
  }

  /** Memory after `ram_init`: the loader's words from index 0, the rest as before. */
  function Loaded(mem: seq<u32>, image: Option<seq<u32>>): (r: seq<u32>)
    requires image.Some? ==> |image.value| <= |mem|
    ensures |r| == |mem|
  {
    if image.None? then mem else image.value + mem[|image.value|..]
  }

  /**
   * `clk_cur_cycles` starts at 0 and is never assigned, so from the
   * process's initial state the `--cycles` exit never happens, whatever the
   * limit and the snapshots.
   */
  lemma CycleLimitUnreachable(cfg: Config, mem: seq<u32>, bs: seq<Bus>)
    requires |mem| >= 3
    ensures RunOutcome(cfg, 0, mem, bs) != Exited(EndCycles)
    ensures RunOutcome(cfg, 0, mem, bs) == Running <==> forall j :: 0 <= j < |bs| ==> !IsFinished(bs[j], cfg.wrAddr)
  {
  }

  /**
   * Completion is acted on at its first occurrence: if the finish pattern is
   * on the bus at iteration `k`, the run has exited by iteration `k`, and not
   * by the cycle limit when the counter is 0; the signature is read from the
   * memory as the program's stores up to the exiting iteration left it.
   */
  lemma FinishStopsAtFirstOccurrence(cfg: Config, mem: seq<u32>, bs: seq<Bus>, k: nat)
    requires |mem| >= 3 && k < |bs| && IsFinished(bs[k], cfg.wrAddr)
    ensures Iterations(cfg, 0, bs) <= k + 1
    ensures RunOutcome(cfg, 0, mem, bs) ==
      FinishOutcome(cfg.dump, MemAfter(mem, bs[..Iterations(cfg, 0, bs)]))
  {
  }

  /**
   * The signature bounds are read after the program's stores: when the
   * exiting iteration last stores the same value to words 1 and 2, the size
   * is 0 and the run exits with success and no dump, whatever the image held.
   */
  lemma StoredEqualBoundsNoDump(cfg: Config, mem: seq<u32>, bs: seq<Bus>, k: nat, x: u32)
    requires |mem| >= 3 && k < |bs| && IsFinished(bs[k], cfg.wrAddr)
    requires forall j :: 0 <= j < k ==> !IsFinished(bs[j], cfg.wrAddr)
    requires var ss := bs[k].stores; |ss| >= 2 && ss[|ss| - 2] == Store(1, x) && ss[|ss| - 1] == Store(2, x)
    ensures RunOutcome(cfg, 0, mem, bs) == Exited(WrAddr(None))
  {
    FirstExitIs(cfg, 0, bs, k);
    var q := bs[..k + 1];
    assert q[..k] == bs[..k] && q[k] == bs[k];
    var m := ExitMemory(cfg, 0, mem, bs);
    StoredMeaning(MemAfter(mem, bs[..k]), bs[k].stores);
    assert m[1] == x && m[2] == x;
  }

  /**
   * A signature is dumped only when a dump path is given and the size is at
   * least 4; it then has `size / 4` lines, line `i` holding memory word
   * `start / 4 + i`. Equal bounds never dump.
   */
  lemma DumpOnlyFromFourBytes(dump: DumpTarget, mem: seq<u32>)
    requires |mem| >= 3
    ensures var size := SignatureSize(mem[1], mem[2]);
      match FinishOutcome(dump, mem)
      case Exited(WrAddr(Some(lines))) =>
        dump.DumpTo? && dump.opens && size >= 4 && |lines| == size / 4
        && forall i :: 0 <= i < |lines| ==>
          (|lines[i]| == 9 && ParseHex(lines[i][..8]) == Some(mem[mem[1] / 4 + i] as nat))
      case _ => true
    ensures mem[1] == mem[2] ==> FinishOutcome(dump, mem) == Exited(WrAddr(None))
    ensures dump == DumpTo(false) && SignatureSize(mem[1], mem[2]) >= 4 ==>
      FinishOutcome(dump, mem) == Exited(DumpOpenFailed)
  {
    var start, stop := mem[1], mem[2];
    var size := SignatureSize(start, stop);
    if dump.DumpTo? && size >= 4 && start / 4 + size / 4 <= |mem| && dump.opens {
      forall i | 0 <= i < size / 4
        ensures ParseHex(DumpLines(mem, start / 4, size / 4)[i][..8]) == Some(mem[start / 4 + i] as nat)
      {
        DumpLinesReadBack(mem, start / 4, size / 4, i);
      }
    }
  }

  // ---------------------------------------------------------------------------
  // What the harness shows from outside, step by step

  /**
   * The harness's observable state: its clock and reset pins, the pins of
   * every `eval()`, the simulation time, standard output, the host-out latch
   * and log, and the trace file (open or not, and its sample times).
   */
  datatype View = View(
    clock: bool, resetN: bool, evals: seq<Pins>, time: nat,
    stdout: seq<char>, latch: bool, hostLog: seq<char>,
    traceOpen: bool, samples: seq<nat>)

  /** The process's initial state, before the trace is opened. */
  const INITIAL_VIEW := View(false, false, [], 0, [], false, [], false, [])

  /** The first half of a run-loop iteration on snapshot `b`: toggle, eval, pace the UART, advance time, sample. */
  function TickView(v: View, b: Bus): View
  {
    var clock := !v.clock;
    var time := v.time + Advance(clock, b);
    v.(clock := clock, evals := v.evals + [Pins(clock, v.resetN)],
       stdout := v.stdout + (if PacesUart(clock, b) then [ByteChar(b.writeData)] else []),
       time := time, samples := v.samples + (if v.traceOpen then [time] else []))
  }

  /** The host-output check of an iteration that did not exit. */
  function HostOutView(v: View, b: Bus, addr: u32): View
  {
    var r := HostOut(v.latch, b, addr);
    v.(latch := r.1, hostLog := v.hostLog + (if r.0 then [ByteChar(b.writeData)] else []))
  }

  /** `close_trace` at time `t`. */
  function CloseView(v: View, t: nat): View
  {
    v.(traceOpen := false, samples := v.samples + (if v.traceOpen then [t] else []))
  }

  /** The reset sequence. */
  function ResetView(v: View): View
  {
    v.(clock := true, resetN := true, time := v.time + RESET_DURATION,
       evals := v.evals + ResetPins(RESET_TOGGLES),
       samples := v.samples + (if v.traceOpen then ResetSamples(v.time, RESET_TOGGLES) else []))
  }

  /** Run-loop iterations that do not exit, one per snapshot of `bs`. */
  function Replay(v: View, bs: seq<Bus>, addr: u32): View
  {
    if bs == [] then v
    else
      var b := bs[|bs| - 1];
      HostOutView(TickView(Replay(v, bs[..|bs| - 1], addr), b), b, addr)
  }

  /** Whether an outcome closes the trace on its way out (a dump file that cannot be opened exits without). */
  predicate Closes(outcome: Outcome)
  {
    outcome.Exited? && outcome.reason != DumpOpenFailed
  }

  /** The view after the run loop over `bs`: the iterations before the exit, the exiting one's tick, the close. */
  function LoopView(cfg: Config, cycles: nat, mem: seq<u32>, traceTime: nat, v: View, bs: seq<Bus>): View
    requires |mem| >= 3
  {
    var k := FirstExit(cfg, cycles, bs);
    if k == |bs| then Replay(v, bs, cfg.hostOut)
    else
      var w := TickView(Replay(v, bs[..k], cfg.hostOut), bs[k]);
      if Closes(RunOutcome(cfg, cycles, mem, bs)) then CloseView(w, traceTime) else w
  }

  /** The view after the whole program from its initial state: trace opened if asked, reset, load, run loop. */
  function RunView(cfg: Config, memory: seq<u32>, image: Option<seq<u32>>, bs: seq<Bus>): View
    requires |memory| >= 3
    requires image.Some? ==> |image.value| <= |memory|
  {
    LoopView(cfg, 0, Loaded(memory, image), 0, ResetView(INITIAL_VIEW.(traceOpen := cfg.wave)), bs)
  }

  /**
   * Iterations that do not exit, from a released reset with the clock high:
   * the clock alternates, time grows by `Elapsed`, and the trace stays as it
   * was, with one sample per iteration while open.
   */
  lemma {:induction false} ReplayTiming(v: View, bs: seq<Bus>, addr: u32)
    requires v.clock && v.resetN
    ensures var w := Replay(v, bs, addr);
      && w.clock == (|bs| % 2 == 0) && w.resetN
      && w.time == v.time + Elapsed(bs)
      && w.traceOpen == v.traceOpen
      && w.samples == v.samples + (if v.traceOpen then LoopSamples(v.time, bs) else [])
  {
    if bs != [] {
      ReplayTiming(v, bs[..|bs| - 1], addr);
    }
  }

  /** The pins of every `eval()` and the UART characters of iterations that do not exit. */
  lemma {:induction false} ReplayOutput(v: View, bs: seq<Bus>, addr: u32)
    requires v.clock && v.resetN
    ensures var w := Replay(v, bs, addr);
      && w.evals == v.evals + LoopPins(|bs|)
      && w.stdout == v.stdout + UartChars(bs)
  {
    if bs != [] {
      var p := bs[..|bs| - 1];
      ReplayTiming(v, p, addr);
      ReplayOutput(v, p, addr);
      LoopPinsStep(|p|);
    }
  }

  /** Host output of iterations that do not exit: the log grows by `HostOutLog`, the latch holds the last write request. */
  lemma {:induction false} ReplayHostOut(v: View, bs: seq<Bus>, addr: u32)
    ensures var w := Replay(v, bs, addr);
      && w.hostLog == v.hostLog + HostOutLog(v.latch, bs, addr)
      && w.latch == LatchAfter(v.latch, bs)
  {
    if bs != [] {
      ReplayHostOut(v, bs[..|bs| - 1], addr);
    }
  }

  /**
   * The run loop agrees with the replay of the `n` iterations it executed,
   * except that the exiting iteration skips the host-out check and may
   * close the trace.
   */
  lemma LoopViewReplays(cfg: Config, cycles: nat, mem: seq<u32>, traceTime: nat, v: View, bs: seq<Bus>)
    requires |mem| >= 3
    ensures var w := LoopView(cfg, cycles, mem, traceTime, v, bs);
      var n := Iterations(cfg, cycles, bs);
      var u := Replay(v, bs[..n], cfg.hostOut);
      var closes := Closes(RunOutcome(cfg, cycles, mem, bs));
      && n <= |bs|
      && w.time == u.time && w.evals == u.evals && w.stdout == u.stdout
      && w.traceOpen == (u.traceOpen && !closes)
      && w.samples == u.samples + (if u.traceOpen && closes then [traceTime] else [])
  {
    var k := FirstExit(cfg, cycles, bs);
    if k == |bs| {
      assert bs[..k] == bs;
    } else {
      var q := bs[..k + 1];
      assert q[..k] == bs[..k] && q[k] == bs[k];
    }
  }

  /** The run loop field by field, `n` iterations executed: time, pins and UART characters. */
  lemma LoopViewOutput(cfg: Config, cycles: nat, mem: seq<u32>, traceTime: nat, v: View, bs: seq<Bus>)
    requires |mem| >= 3 && v.clock && v.resetN
    ensures var w := LoopView(cfg, cycles, mem, traceTime, v, bs);
      var n := Iterations(cfg, cycles, bs);
      && n <= |bs|
      && w.time == v.time + Elapsed(bs[..n])
      && w.evals == v.evals + LoopPins(n)
      && w.stdout == v.stdout + UartChars(bs[..n])
  {
    var n := Iterations(cfg, cycles, bs);
    LoopViewReplays(cfg, cycles, mem, traceTime, v, bs);
    ReplayTiming(v, bs[..n], cfg.hostOut);
    ReplayOutput(v, bs[..n], cfg.hostOut);
  }

  /**
   * The run loop's trace: closed, with one more sample at `traceTime`,
   * exactly when the outcome is an exit other than a failed dump open; one
   * sample per iteration executed before that.
   */
  lemma LoopViewTrace(cfg: Config, cycles: nat, mem: seq<u32>, traceTime: nat, v: View, bs: seq<Bus>)
    requires |mem| >= 3 && v.clock && v.resetN
    ensures var w := LoopView(cfg, cycles, mem, traceTime, v, bs);
      var n := Iterations(cfg, cycles, bs);
      var closes := Closes(RunOutcome(cfg, cycles, mem, bs));
      && n <= |bs|
      && w.traceOpen == (v.traceOpen && !closes)
      && w.samples == v.samples +
        (if v.traceOpen then LoopSamples(v.time, bs[..n]) + (if closes then [traceTime] else []) else [])
  {
    var n := Iterations(cfg, cycles, bs);
    LoopViewReplays(cfg, cycles, mem, traceTime, v, bs);
    ReplayTiming(v, bs[..n], cfg.hostOut);
  }

  /** The run loop's host output: the calls of the iterations before the exiting one. */
  lemma LoopViewHostOut(cfg: Config, cycles: nat, mem: seq<u32>, traceTime: nat, v: View, bs: seq<Bus>)
    requires |mem| >= 3
    ensures var w := LoopView(cfg, cycles, mem, traceTime, v, bs);
      var h := HostOutCalls(cfg, cycles, bs);
      && h <= Iterations(cfg, cycles, bs)
      && w.hostLog == v.hostLog + HostOutLog(v.latch, bs[..h], cfg.hostOut)
  {
    var k := FirstExit(cfg, cycles, bs);
    if k == |bs| {
      assert bs[..k] == bs;
    }
    ReplayHostOut(v, bs[..k], cfg.hostOut);
  }

  /**
   * The pins of the whole program: the clock alternates on every `eval()`,
   * reset held for exactly the first 11.
   */
  lemma RunViewPins(cfg: Config, memory: seq<u32>, image: Option<seq<u32>>, bs: seq<Bus>)
    requires |memory| >= 3
    requires image.Some? ==> |image.value| <= |memory|
    ensures var e := RunView(cfg, memory, image, bs).evals;
      && e == ResetPins(RESET_TOGGLES) + LoopPins(Iterations(cfg, 0, bs))
      && (forall k :: 0 <= k < |e| ==> e[k].clock == (k % 2 == 1))
      && (forall k :: 0 <= k < |e| ==> (e[k].resetN <==> k > RESET_TOGGLES))
  {
    var v := ResetView(INITIAL_VIEW.(traceOpen := cfg.wave));
    LoopViewOutput(cfg, 0, Loaded(memory, image), 0, v, bs);
    ClockAlternates(RESET_TOGGLES, Iterations(cfg, 0, bs));
  }

  /**
   * Time and output of the whole program: the reset's 110 time units plus
   * the iterations', and the characters of the iterations on standard
   * output and in the host-out log.
   */
  lemma RunViewOutput(cfg: Config, memory: seq<u32>, image: Option<seq<u32>>, bs: seq<Bus>)
    requires |memory| >= 3
    requires image.Some? ==> |image.value| <= |memory|
    ensures var v := RunView(cfg, memory, image, bs);
      var n := Iterations(cfg, 0, bs);
      && n <= |bs|
      && v.time == RESET_DURATION + Elapsed(bs[..n])
      && v.stdout == UartChars(bs[..n])
      && v.hostLog == HostOutLog(false, bs[..HostOutCalls(cfg, 0, bs)], cfg.hostOut)
  {
    var v := ResetView(INITIAL_VIEW.(traceOpen := cfg.wave));
    LoopViewOutput(cfg, 0, Loaded(memory, image), 0, v, bs);
    LoopViewHostOut(cfg, 0, Loaded(memory, image), 0, v, bs);
  }

  /**
   * The trace of the whole program, when asked for: the reset's samples,
   * one per iteration and, when the exit closes it, a last one at
   * `trace_time`, which is 0.
   */
  lemma RunViewTrace(cfg: Config, memory: seq<u32>, image: Option<seq<u32>>, bs: seq<Bus>)
    requires |memory| >= 3
    requires image.Some? ==> |image.value| <= |memory|
    ensures var v := RunView(cfg, memory, image, bs);
      var n := Iterations(cfg, 0, bs);
      var closes := Closes(RunOutcome(cfg, 0, Loaded(memory, image), bs));
      && n <= |bs|
      && v.traceOpen == (cfg.wave && !closes)
      && v.samples ==
        (if cfg.wave then ResetSamples(0, RESET_TOGGLES) + LoopSamples(RESET_DURATION, bs[..n]) + (if closes then [0] else [])
         else [])
  {
    var v := ResetView(INITIAL_VIEW.(traceOpen := cfg.wave));
    LoopViewTrace(cfg, 0, Loaded(memory, image), 0, v, bs);
  }

  /**
   * With a trace, its sample times rise strictly, all after time 0, until
   * the exit closes it; the closing sample is taken at `trace_time`, which
   * is never advanced, so it goes back to 0.
   */
  lemma RunTraceGoesBack(cfg: Config, memory: seq<u32>, image: Option<seq<u32>>, bs: seq<Bus>)
    requires |memory| >= 3
    requires image.Some? ==> |image.value| <= |memory|
    requires cfg.wave
    ensures var s := RunView(cfg, memory, image, bs).samples;
      var m := RESET_TOGGLES + 1 + Iterations(cfg, 0, bs);
      var closes := Closes(RunOutcome(cfg, 0, Loaded(memory, image), bs));
      && |s| == m + (if closes then 1 else 0)
      && StrictlyIncreasing(s[..m])
      && (forall i :: 0 <= i < m ==> s[i] > 0)
      && (closes ==> s[m] == 0)
  {
    var n := Iterations(cfg, 0, bs);
    var closes := Closes(RunOutcome(cfg, 0, Loaded(memory, image), bs));
    RunViewTrace(cfg, memory, image, bs);
    var r := ResetSamples(0, RESET_TOGGLES) + LoopSamples(RESET_DURATION, bs[..n]);
    RunSamplesIncrease(bs[..n]);
    ClosingSample(r, closes);
  }

  /** The reset and loop samples of a run started at time 0: one per `eval()` pair, all after 0, increasing. */
  lemma RunSamplesIncrease(bs: seq<Bus>)
    ensures var r := ResetSamples(0, RESET_TOGGLES) + LoopSamples(RESET_DURATION, bs);
      && |r| == RESET_TOGGLES + 1 + |bs|
      && StrictlyIncreasing(r)
      && forall i :: 0 <= i < |r| ==> r[i] > 0
  {
    SamplesIncrease(0, bs);
  }

  /** Appending the closing sample at time 0 leaves the earlier samples as they were. */
  lemma ClosingSample(r: seq<nat>, closes: bool)
    ensures var s := r + (if closes then [0] else []);
      && |s| == |r| + (if closes then 1 else 0)
      && s[..|r|] == r
      && (closes ==> s[|r|] == 0)
  {
    var s := r + (if closes then [0] else []);
    assert s[..|r|] == r;
  }

  // ---------------------------------------------------------------------------
  // Trace sink and harness state

  /** The waveform file: open or closed, and the times of the samples dumped to it. */
  class TraceSink {
    var isOpen: bool
    var samples: seq<nat>

    constructor ()
      ensures !isOpen && samples == []
    {
      isOpen := false;
      samples := [];
    }

    method Open()
      modifies this
      ensures isOpen && samples == old(samples)
    {
      isOpen := true;
    }

    /** A dump records a sample only while the file is open. */
    method Dump(t: nat)
      modifies this`samples
      ensures samples == old(samples) + (if isOpen then [t] else [])
    {
      if isOpen {
        samples := samples + [t];
      }
    }

    method Close()
      modifies this`isOpen
      ensures !isOpen
    {
      isOpen := false;
    }
  }

  /** The globals of the harness, the model's pins and bus, and its tightly coupled memory. */
  class Harness {
    var clock: bool
    var resetN: bool
    var bus: Bus
    var evals: seq<Pins>
    const tcm: array<u32>
    /** `contextp->time()` */
    var time: nat
    /** `trace_time`: initialised to 0 and never assigned. */
    var traceTime: nat
    /** `clk_cur_cycles`: initialised to 0 and never assigned. */
    var curCycles: nat
    /** `is_host_out`'s `static bool is_pos_edg`. */
    var latch: bool
    const trace: TraceSink
    /** `std::cout` */
    var stdout: seq<char>
    /** `Log::host_out` */
    var hostLog: seq<char>

    ghost predicate Valid()
      reads this
    {
      tcm.Length >= 3
    }

    /** The harness as seen from outside. */
    function Observe(): View
      reads this, trace
    {
      View(clock, resetN, evals, time, stdout, latch, hostLog, trace.isOpen, trace.samples)
    }

    /** The process's initial state, with the model's memory holding `memory`. */
    constructor (memory: seq<u32>)
      requires |memory| >= 3
      ensures Valid() && fresh(tcm) && fresh(trace)
      ensures tcm[..] == memory && !trace.isOpen && trace.samples == []
      ensures time == 0 && traceTime == 0 && curCycles == 0 && !latch
      ensures evals == [] && stdout == [] && hostLog == []
      ensures !clock && !resetN
    {
      tcm := new u32[|memory|](i requires 0 <= i < |memory| => memory[i]);
      trace := new TraceSink();
      clock, resetN := false, false;
      bus := Bus(0, false, 0, 0, []);
      evals := [];
      time, traceTime, curCycles := 0, 0, 0;
      latch := false;
      stdout, hostLog := [], [];
    }

    /** `dut->eval()`, as seen from the harness: the pins it was evaluated with. */
    method Eval()
      modifies this`evals
      ensures evals == old(evals) + [Pins(clock, resetN)]
    {
      evals := evals + [Pins(clock, resetN)];
    }

    /** `close_trace`: while open, one last sample at `trace_time`, then close; otherwise nothing. */
    method CloseTrace()
      modifies trace
      ensures Observe() == CloseView(old(Observe()), traceTime)
    {
      if trace.isOpen {
        trace.Dump(traceTime);
        trace.Close();
      }
    }

    /** `exit_app`: the interrupt path; closes the trace and exits with success. */
    method ExitApp() returns (status: int)
      modifies trace
      ensures status == EXIT_SUCCESS
      ensures Observe() == CloseView(old(Observe()), traceTime)
    {
      CloseTrace();
      status := EXIT_SUCCESS;
    }

    /** An interrupt after a normal exit path: the second close does nothing. */
    method ExitAppAfterClose() returns (status: int)
      modifies trace
      ensures status == EXIT_SUCCESS
      ensures Observe() == CloseView(old(Observe()), traceTime)
    {
      CloseTrace();
      status := ExitApp();
    }

    /** `get_signature(i)`: memory word `i`. */
    function GetSignature(i: nat): (w: u32)
      reads this, tcm
      requires i < tcm.Length
      ensures w == tcm[..][i]
    {
      tcm[i]
    }

    /** `is_host_out(addr)`: edge-triggered; the latch always takes the current write request. */
    method IsHostOut(addr: u32) returns (fired: bool)
      modifies this`latch
      ensures (fired, latch) == HostOut(old(latch), bus, addr)
    {
      fired := addr != 0 && (!latch && bus.writeRequest) && bus.rwAddress == addr
        && bus.writeRequest && bus.writeData != 0;
      latch := bus.writeRequest;
    }

    /** The host-output check of an iteration: `Log::host_out` prints the byte when `is_host_out` fires. */
    method HostOutStep(addr: u32)
      modifies this`latch, this`hostLog
      ensures Observe() == HostOutView(old(Observe()), bus, addr)
    {
      var fired := IsHostOut(addr);
      if fired {
        hostLog := hostLog + [ByteChar(bus.writeData)];
      }
    }

    /**
     * `ram_init`: the loader (not part of this model) calls `write(i, v)` for
     * its words in ascending `i`, each `i` below the memory size in words.
     * Runs only after reset has been released.
     */
    method RamInit(image: Option<seq<u32>>)
      requires Valid() && resetN
      requires image.Some? ==> |image.value| <= tcm.Length
      modifies tcm
      ensures tcm[..] == Loaded(old(tcm[..]), image)
    {
      if image.None? {
        return;
      }
      var words := image.value;
      ghost var m0 := tcm[..];
      for i := 0 to |words|
        invariant forall j :: 0 <= j < tcm.Length ==> tcm[j] == if j < i then words[j] else m0[j]
      {
        tcm[i] := words[i];
      }
      assert tcm[..] == words + m0[|words|..];
    }

    /**
     * `ram_dump_h32(path, offset, size)`: if the file cannot be opened the
     * process exits with failure before writing; otherwise `size / 4` lines,
     * line `i` being word `offset / 4 + i` as `%08x` and a newline.
     */
    method RamDumpH32(opens: bool, offset: u32, size: u32) returns (r: DumpResult)
      requires opens ==> offset / 4 + size / 4 <= tcm.Length
      ensures r.DumpFailed? <==> !opens
      ensures r.Dumped? ==> r.lines == DumpLines(tcm[..], offset / 4, size / 4)
    {
      if !opens {
        return DumpFailed;
      }
      var first := offset / 4;
      var count := size / 4;
      var lines: seq<string> := [];
      for i := 0 to count
        invariant lines == DumpLines(tcm[..], first, i)
      {
        lines := lines + [WordHexLower(tcm[first + i]) + "\n"];
      }
      r := Dumped(lines);
    }

    /**
     * The reset sequence: reset asserted with the clock low, `RESET_TOGGLES`
     * toggles each after 10 time units, then after 10 more reset released
     * with the clock high. The trace is sampled after each step.
     */
    method Reset()
      modifies this`clock, this`resetN, this`time, this`evals, trace`samples
      ensures Observe() == ResetView(old(Observe()))
    {
      ghost var t0, e0, s0 := time, evals, trace.samples;
      ghost var samples := ResetSamples(t0, RESET_TOGGLES);
      resetN := false;
      clock := false;
      Eval();
      for i := 0 to RESET_TOGGLES
        invariant clock == (i % 2 == 1) && !resetN
        invariant time == t0 + RESET_STEP * i
        invariant evals == e0 + [Pins(false, false)] + TogglePins(i)
        invariant trace.samples == s0 + (if trace.isOpen then samples[..i] else [])
      {
        time := time + RESET_STEP;
        clock := !clock;
        Eval();
        trace.Dump(time);
        assert TogglePins(i + 1) == TogglePins(i) + [Pins(i % 2 == 0, false)];
        assert samples[..i + 1] == samples[..i] + [time];
      }
      time := time + RESET_STEP;
      resetN := true;
      clock := true;
      Eval();
      trace.Dump(time);
      assert samples == samples[..RESET_TOGGLES] + [time];
      assert evals == e0 + ResetPins(RESET_TOGGLES);
    }

    /** The core's stores during an `eval()`, applied to its memory in order. */
    method EvalStores(ss: seq<Store>)
      modifies tcm
      ensures tcm[..] == Stored(old(tcm[..]), ss)
    {
      ghost var m0 := tcm[..];
      for i := 0 to |ss|
        invariant tcm[..] == Stored(m0, ss[..i])
      {
        assert ss[..i + 1][..i] == ss[..i];
        var st := ss[i];
        if st.index < tcm.Length {
          tcm[st.index] := st.value;
        }
      }
      assert ss[..|ss|] == ss;
    }

    /**
     * The first half of a run-loop iteration: toggle the clock, evaluate (the
     * model then shows snapshot `b` and its memory takes the stores of `b`),
     * print the byte and advance time by a UART frame when pacing applies or
     * else by 20, then by 10, and sample the trace.
     */
    method Tick(b: Bus)
      modifies this`clock, this`evals, this`bus, this`stdout, this`time, trace`samples, tcm
      ensures bus == b
      ensures tcm[..] == Stored(old(tcm[..]), b.stores)
      ensures Observe() == TickView(old(Observe()), b)
    {
      ghost var v0 := Observe();
      ghost var v1 := TickView(v0, b);
      clock := !clock;
      Eval();
      EvalStores(b.stores);
      bus := b;
      Pace();
      assert time == v1.time && stdout == v1.stdout && evals == v1.evals;
      trace.Dump(time);
    }

    /**
     * UART pacing after the `eval()` of a run-loop iteration: print the byte
     * and wait a UART frame when pacing applies, else 20; then 10 more.
     */
    method Pace()
      modifies this`stdout, this`time
      ensures stdout == old(stdout) + (if PacesUart(clock, bus) then [ByteChar(bus.writeData)] else [])
      ensures time == old(time) + Advance(clock, bus)
    {
      if PacesUart(clock, bus) {
        stdout := stdout + [ByteChar(bus.writeData)];
        time := time + UART_FRAME_DELAY;
      } else {
        time := time + 20;
      }
      time := time + 10;
    }

    /**
     * The completion branch: the signature bounds are words 1 and 2, the
     * dump runs only when a path is given and the size is at least 4, then
     * the trace is closed and the process exits with success. A dump file
     * that cannot be opened exits with failure without closing the trace.
     */
    method OnFinished(dump: DumpTarget) returns (outcome: Outcome)
      requires Valid()
      modifies trace
      ensures outcome == FinishOutcome(dump, tcm[..])
      ensures Observe() == if Closes(outcome) then CloseView(old(Observe()), traceTime) else old(Observe())
    {
      var startAddr := GetSignature(1);
      var stopAddr := GetSignature(2);
      var size := SignatureSize(startAddr, stopAddr);
      var signature: Option<seq<string>> := None;
      if dump.DumpTo? && size >= 4 {
        if dump.opens && startAddr / 4 + size / 4 > tcm.Length {
          return OutOfRangeRead;
        }
        var r := RamDumpH32(dump.opens, startAddr, size);
        if r.DumpFailed? {
          return Exited(DumpOpenFailed);
        }
        signature := Some(r.lines);
      }
      CloseTrace();
      outcome := Exited(WrAddr(signature));
    }

    /**
     * One run-loop iteration on snapshot `b`: tick, then check in order the
     * cycle limit (close the trace, exit), completion (`OnFinished`) and host
     * output (print the byte, continue). `exits` tells whether it exited.
     */
    method Iterate(cfg: Config, b: Bus) returns (exits: bool, outcome: Outcome)
      requires Valid()
      modifies this`clock, this`evals, this`bus, this`stdout, this`time, this`latch, this`hostLog, trace, tcm
      ensures tcm[..] == Stored(old(tcm[..]), b.stores)
      ensures exits == ExitsOn(cfg, curCycles, b)
      ensures exits ==> outcome == if CycleExit(cfg, curCycles) then Exited(EndCycles) else FinishOutcome(cfg.dump, tcm[..])
      ensures Observe() ==
        if !exits then HostOutView(TickView(old(Observe()), b), b, cfg.hostOut)
        else if Closes(outcome) then CloseView(TickView(old(Observe()), b), traceTime)
        else TickView(old(Observe()), b)
    {
      Tick(b);
      exits := true;
      if cfg.maxCycles != 0 {
        if curCycles >= cfg.maxCycles {
          CloseTrace();
          outcome := Exited(EndCycles);
          return;
        }
      }
      if IsFinished(bus, cfg.wrAddr) {
        outcome := OnFinished(cfg.dump);
        return;
      }
      exits, outcome := false, Running;
      HostOutStep(cfg.hostOut);
    }

    /** The run loop over the model's snapshots `bs`, until an iteration exits or the snapshots run out. */
    method Loop(cfg: Config, bs: seq<Bus>) returns (outcome: Outcome)
      requires Valid()
      modifies this`clock, this`evals, this`bus, this`stdout, this`time, this`latch, this`hostLog, trace, tcm
      ensures tcm[..] == ExitMemory(cfg, curCycles, old(tcm[..]), bs)
      ensures outcome == RunOutcome(cfg, curCycles, old(tcm[..]), bs)
      ensures Observe() == LoopView(cfg, curCycles, old(tcm[..]), traceTime, old(Observe()), bs)
    {
      var k := 0;
      while k < |bs|
        invariant 0 <= k <= |bs|
        invariant forall j :: 0 <= j < k ==> !ExitsOn(cfg, curCycles, bs[j])
        invariant tcm[..] == MemAfter(old(tcm[..]), bs[..k])
        invariant Observe() == Replay(old(Observe()), bs[..k], cfg.hostOut)
      {
        var q := bs[..k + 1];
        assert q[..k] == bs[..k] && q[k] == bs[k];
        var exits;
        exits, outcome := Iterate(cfg, bs[k]);
        if exits {
          FirstExitIs(cfg, curCycles, bs, k);
          return;
        }
        k := k + 1;
      }
      assert bs[..k] == bs;
      FirstExitIs(cfg, curCycles, bs, k);
      outcome := Running;
    }

    /**
     * `main` after argument parsing: open the trace if asked, run the reset
     * sequence, load the image, then the run loop.
     */
    method Run(cfg: Config, image: Option<seq<u32>>, bs: seq<Bus>) returns (outcome: Outcome)
      requires Valid()
      requires image.Some? ==> |image.value| <= tcm.Length
      modifies this, trace, tcm
      ensures tcm[..] == ExitMemory(cfg, curCycles, Loaded(old(tcm[..]), image), bs)
      ensures curCycles == old(curCycles) && traceTime == old(traceTime)
      ensures outcome == RunOutcome(cfg, curCycles, Loaded(old(tcm[..]), image), bs)
      ensures Observe() == LoopView(cfg, curCycles, Loaded(old(tcm[..]), image), traceTime,
        ResetView(old(Observe()).(traceOpen := old(trace.isOpen) || cfg.wave)), bs)
    {
      if cfg.wave {
        trace.Open();
      }
      Reset();
      RamInit(image);
      outcome := Loop(cfg, bs);
    }
  }

  /**
   * The whole program from its initial state: whatever the cycle limit, the
   * run ends by completion or is still running, never by the cycle limit, and
   * a signature is only written when a dump file opened and the size
   * computed from the memory at the exit is at least 4.
   */
  method Simulate(memory: seq<u32>, cfg: Config, image: Option<seq<u32>>, bs: seq<Bus>) returns (outcome: Outcome, view: View)
    requires |memory| >= 3
    requires image.Some? ==> |image.value| <= |memory|
    ensures outcome == RunOutcome(cfg, 0, Loaded(memory, image), bs)
    ensures view == RunView(cfg, memory, image, bs)
    ensures outcome != Exited(EndCycles)
    ensures outcome == Running <==> forall j :: 0 <= j < |bs| ==> !IsFinished(bs[j], cfg.wrAddr)
    ensures var m := ExitMemory(cfg, 0, Loaded(memory, image), bs);
      outcome.Exited? && outcome.reason.WrAddr? && outcome.reason.signature.Some? ==>
        cfg.dump == DumpTo(true) && SignatureSize(m[1], m[2]) >= 4
  {
    var h := new Harness(memory);
    outcome := h.Run(cfg, image, bs);
    view := h.Observe();
    CycleLimitUnreachable(cfg, Loaded(memory, image), bs);
  }
}
