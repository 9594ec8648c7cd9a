/**
 * The RISC-V Architectural Test runner: the signature comparison
 * (`compare_dump`) and the pass/skip/fail tally of `main`.
 *
 * Files are given as their lines, each as `readline` returns it (with its
 * newline, if it has one); a file that does not exist is a boolean; the
 * simulator run only decides whether a dump file exists and what it holds.
 */
module Compliance {
  import opened HexFormat
  import Simulator

  // ---------------------------------------------------------------------------
  // Signature comparison

  /** `int(line, 16)` on a line of a signature file: `None` where Python raises `ValueError`. */
  function LineValue(line: string): (r: Option<nat>)
    ensures r.Some? ==> line != [] && line != "\n"
  {
    var text := if |line| > 0 && line[|line| - 1] == '\n' then line[..|line| - 1] else line;
    if text == [] then None else ParseHex(text)
  }

  /** What `compare_dump` returns, or `NotHex` where `int(line, 16)` raises at 1-based line `line`. */
  datatype CompareResult =
    | Compared(ok: bool, line: nat, refValue: nat, dutValue: nat)
    | NotHex(line: nat)

  function Min(a: nat, b: nat): nat
  {
    if a <= b then a else b
  }

  /**
   * The comparison from 0-based line `i` on, the earlier lines having
   * matched: a match reports the line after the shorter file (or after `i`)
   * with values 0; anything else reports a line between `i` and the end of
   * the shorter file.
   */
  function CompareFrom(ref: seq<string>, dut: seq<string>, i: nat): (r: CompareResult)
    ensures r.Compared? && r.ok ==>
      r.line == (if i <= Min(|ref|, |dut|) then Min(|ref|, |dut|) else i) + 1 && r.refValue == 0 && r.dutValue == 0
    ensures !(r.Compared? && r.ok) ==> i < r.line <= Min(|ref|, |dut|)
    decreases |ref| - i
  {
    if i >= |ref| || i >= |dut| then Compared(true, i + 1, 0, 0)
    else
      match (LineValue(ref[i]), LineValue(dut[i]))
      case (Some(a), Some(b)) =>
        if a != b then Compared(false, i + 1, a, b) else CompareFrom(ref, dut, i + 1)
      case _ => NotHex(i + 1)
  }

  /** `compare_dump(ref, dut)` on the lines of the two files: a match, or a 1-based line of the shorter file. */
  function Compare(ref: seq<string>, dut: seq<string>): (r: CompareResult)
    ensures r.Compared? && r.ok ==> r.line == Min(|ref|, |dut|) + 1 && r.refValue == 0 && r.dutValue == 0
    ensures !(r.Compared? && r.ok) ==> 1 <= r.line <= Min(|ref|, |dut|)
  {
    CompareFrom(ref, dut, 0)
  }

  /** Lines `from` to `to` (0-based, exclusive) of both files are hexadecimal and have equal values. */
  predicate LinesAgree(ref: seq<string>, dut: seq<string>, from: nat, to: nat)
    requires to <= |ref| && to <= |dut|
  {
    forall k :: from <= k < to ==> LineValue(ref[k]).Some? && LineValue(ref[k]) == LineValue(dut[k])
  }

  /**
   * The comparison from line `i` on: a match reports the line after the
   * shorter file with values 0; a mismatch reports the first 1-based line
   * whose values differ, with both values, every earlier line agreeing; a
   * line that is not hexadecimal stops the comparison the same way.
   */
  lemma {:induction false} CompareFromMeaning(ref: seq<string>, dut: seq<string>, i: nat)
    requires i <= Min(|ref|, |dut|)
    ensures var n := Min(|ref|, |dut|);
      match CompareFrom(ref, dut, i)
      case Compared(ok, line, a, b) =>
        if ok then line == n + 1 && a == 0 && b == 0 && LinesAgree(ref, dut, i, n)
        else
          && i < line <= n && LinesAgree(ref, dut, i, line - 1)
          && LineValue(ref[line - 1]) == Some(a) && LineValue(dut[line - 1]) == Some(b) && a != b
      case NotHex(line) =>
        && i < line <= n && LinesAgree(ref, dut, i, line - 1)
        && (LineValue(ref[line - 1]).None? || LineValue(dut[line - 1]).None?)
    decreases |ref| - i
  {
    var n := Min(|ref|, |dut|);
    if i < n {
      var a, b := LineValue(ref[i]), LineValue(dut[i]);
      if a.Some? && b.Some? && a.value == b.value {
        CompareFromMeaning(ref, dut, i + 1);
      }
    }
  }

  /**
   * `compare_dump` reports a match exactly when every line the two files
   * have in common holds equal hexadecimal values; lines past the end of the
   * shorter file are never read, so a truncated or empty dump matches.
   */
  lemma CompareOkIff(ref: seq<string>, dut: seq<string>)
    ensures var r := Compare(ref, dut);
      r.Compared? && r.ok <==> LinesAgree(ref, dut, 0, Min(|ref|, |dut|))
    ensures var r := Compare(ref, dut);
      r.Compared? && r.ok ==> r == Compared(true, Min(|ref|, |dut|) + 1, 0, 0)
  {
    CompareFromMeaning(ref, dut, 0);
  }

  /**
   * Lines are compared by value: replacing the reference's lines with
   * lines of the same values (other letter case, other zero padding) does
   * not change the result.
   */
  lemma {:induction false} CompareByValue(ref: seq<string>, ref': seq<string>, dut: seq<string>, i: nat)
    requires |ref| == |ref'|
    requires forall k :: 0 <= k < |ref| ==> LineValue(ref[k]) == LineValue(ref'[k])
    ensures CompareFrom(ref, dut, i) == CompareFrom(ref', dut, i)
    decreases |ref| - i
  {
    if i < |ref| && i < |dut| {
      CompareByValue(ref, ref', dut, i + 1);
    }
  }

  /** Digit strings of a value read back as that value in either letter case, with or without newline. */
  lemma LineValueOfDigits(v: nat, n: nat, upper: bool, newline: bool)
    requires 0 < n && v < Pow16(n)
    ensures LineValue(HexDigits(v, n, upper) + (if newline then "\n" else "")) == Some(v)
  {
    var d := HexDigits(v, n, upper);
    var line := d + (if newline then "\n" else "");
    HexDigitsRoundTrip(v, n, upper);
    if newline {
      assert line[..|line| - 1] == d;
    } else {
      assert line == d;
      assert d[n - 1] == Digit(v % 16, upper);
    }
  }

  /**
   * A simulator dump compared against a reference holding the same words
   * (in any letter case or padding, one per line, as many as dumped)
   * matches.
   */
  lemma DumpMatchesItsReference(ref: seq<string>, mem: seq<u32>, first: nat, count: nat)
    requires first + count <= |mem| && |ref| == count
    requires forall i :: 0 <= i < count ==> LineValue(ref[i]) == Some(mem[first + i] as nat)
    ensures Compare(ref, Simulator.DumpLines(mem, first, count)) == Compared(true, count + 1, 0, 0)
  {
    var dut := Simulator.DumpLines(mem, first, count);
    forall i | 0 <= i < count ensures LineValue(dut[i]) == Some(mem[first + i] as nat) {
      Simulator.DumpLinesReadBack(mem, first, count, i);
      var line := dut[i];
      assert line[..|line| - 1] == line[..8];
    }
    assert LinesAgree(ref, dut, 0, count);
    CompareOkIff(ref, dut);
  }

  /**
   * `compare_dump`: read both files a line at a time; stop with a match at
   * the end of either, with a mismatch at the first differing value.
   */
  method CompareDump(ref: seq<string>, dut: seq<string>) returns (r: CompareResult)
    ensures r == Compare(ref, dut)
  {
    var line := 0;
    while true
      invariant line <= Min(|ref|, |dut|)
      invariant CompareFrom(ref, dut, line) == Compare(ref, dut)
      decreases Min(|ref|, |dut|) - line
    {
      line := line + 1;
      if line > |ref| || line > |dut| {
        return Compared(true, line, 0, 0);
      }
      var intRef := LineValue(ref[line - 1]);
      var intDut := LineValue(dut[line - 1]);
      if intRef.None? || intDut.None? {
        return NotHex(line);
      }
      if intRef.value != intDut.value {
        return Compared(false, line, intRef.value, intDut.value);
      }
    }
  }

  // ---------------------------------------------------------------------------
  // The tally of `main`

  /** One row of `unit_test`: program path, reference path, whether to run it. */
  datatype Entry = Entry(program: string, reference: string, isRun: bool)

  /**
   * What the file system shows for one entry: whether the program and the
   * reference exist, the reference's lines, and the dump file the simulator
   * run left behind, if any.
   */
  datatype Files = Files(programExists: bool, referenceExists: bool, reference: seq<string>, dump: Option<seq<string>>)

  datatype Case = Case(entry: Entry, files: Files)

  /** What the loop body does with one entry; `Crash` where `compare_dump` raises. */
  datatype Verdict = Pass | Skip | Fail | NoFile | Crash

  /**
   * The loop body of `main` for one entry, `xfail` being `expected_to_fail`:
   * an entry is skipped exactly when its program exists and it is not run;
   * a missing program or reference counts nowhere; a run entry with both
   * files and a dump crashes exactly when the comparison meets a line that
   * is not hexadecimal.
   */
  function Classify(c: Case, xfail: seq<string>): (v: Verdict)
    ensures v == Skip <==> c.files.programExists && !c.entry.isRun
    ensures v == NoFile <==> !c.files.programExists || (c.entry.isRun && !c.files.referenceExists)
    ensures v == Crash <==>
      && c.files.programExists && c.entry.isRun && c.files.referenceExists && c.files.dump.Some?
      && Compare(c.files.reference, c.files.dump.value).NotHex?
    ensures v != Crash && v != NoFile && v != Skip ==> c.files.referenceExists && c.entry.isRun
  {
    var e, f := c.entry, c.files;
    if !f.programExists then NoFile
    else if !e.isRun then Skip
    else if !f.referenceExists then NoFile
    else if f.dump.None? then Fail
    else
      match Compare(f.reference, f.dump.value)
      case NotHex(_) => Crash
      case Compared(ok, _, _, _) => if !ok && e.program !in xfail then Fail else Pass
  }

  /** The verdict of each entry. */
  function Verdicts(cases: seq<Case>, xfail: seq<string>): seq<Verdict>
  {
    seq(|cases|, i requires 0 <= i < |cases| => Classify(cases[i], xfail))
  }

  /** How many of `vs` are `v`. */
  function Count(vs: seq<Verdict>, v: Verdict): nat
  {
    if vs == [] then 0 else Count(vs[..|vs| - 1], v) + (if vs[|vs| - 1] == v then 1 else 0)
  }

  /** Index of the first `Crash`, or `|vs|`. */
  function FirstCrash(vs: seq<Verdict>): (k: nat)
    ensures k <= |vs|
    ensures k < |vs| ==> vs[k] == Crash
    ensures forall j :: 0 <= j < k ==> vs[j] != Crash
  {
    if vs == [] then 0 else if vs[0] == Crash then 0 else 1 + FirstCrash(vs[1..])
  }

  /**
   * What `main` ends with: no simulator (nothing counted), an exception out
   * of `compare_dump` at entry `entry` (counters as they were), or the
   * totals line and whether the full-pass banner follows it.
   */
  datatype Summary =
    | NoSimulator
    | Aborted(entry: nat, passed: nat, skipped: nat, failed: nat)
    | Totals(passed: nat, skipped: nat, failed: nat, banner: bool)

  /** `main` as a function of the simulator's presence, the entries with their files, and `expected_to_fail`. */
  function MainSummary(simulatorExists: bool, cases: seq<Case>, xfail: seq<string>): (s: Summary)
    ensures s.NoSimulator? <==> !simulatorExists
    ensures s.Totals? <==> simulatorExists && forall i :: 0 <= i < |cases| ==> Classify(cases[i], xfail) != Crash
  {
    if !simulatorExists then NoSimulator
    else
      var vs := Verdicts(cases, xfail);
      assert forall i :: 0 <= i < |cases| ==> vs[i] == Classify(cases[i], xfail);
      var k := FirstCrash(vs);
      var done := vs[..k];
      if k < |vs| then Aborted(k, Count(done, Pass), Count(done, Skip), Count(done, Fail))
      else Totals(Count(vs, Pass), Count(vs, Skip), Count(vs, Fail), Count(vs, Pass) == |cases|)
  }

  /** Each entry adds to at most one counter, so the three counters never sum to more than the entries. */
  lemma {:induction false} CountsBounded(vs: seq<Verdict>)
    ensures Count(vs, Pass) + Count(vs, Skip) + Count(vs, Fail) <= |vs|
  {
    if vs != [] {
      CountsBounded(vs[..|vs| - 1]);
    }
  }

  /** All of `vs` are `v` exactly when `v` is counted `|vs|` times. */
  lemma {:induction false} CountAll(vs: seq<Verdict>, v: Verdict)
    ensures Count(vs, v) <= |vs|
    ensures Count(vs, v) == |vs| <==> forall i :: 0 <= i < |vs| ==> vs[i] == v
  {
    if vs != [] {
      var p := vs[..|vs| - 1];
      CountAll(p, v);
      assert forall i :: 0 <= i < |p| ==> vs[i] == p[i];
    }
  }

  /** A passing entry ran with both files present, and its dump matched or the program is expected to fail. */
  lemma PassMeans(c: Case, xfail: seq<string>)
    requires Classify(c, xfail) == Pass
    ensures c.files.programExists && c.entry.isRun && c.files.referenceExists && c.files.dump.Some?
    ensures var r := Compare(c.files.reference, c.files.dump.value);
      r.Compared? && (r.ok || c.entry.program in xfail)
  {
  }

  /**
   * The totals never exceed the number of entries, and the full-pass banner
   * is printed exactly when every entry passed: each program and reference
   * present, each run, each dump matching or expected to fail.
   */
  lemma TotalsMeaning(simulatorExists: bool, cases: seq<Case>, xfail: seq<string>)
    ensures match MainSummary(simulatorExists, cases, xfail)
      case Totals(p, s, f, banner) =>
        && p + s + f <= |cases|
        && (banner <==> forall i :: 0 <= i < |cases| ==> Classify(cases[i], xfail) == Pass)
      case Aborted(k, p, s, f) =>
        && k < |cases| && p + s + f <= k && Classify(cases[k], xfail) == Crash
        && forall j :: 0 <= j < k ==> Classify(cases[j], xfail) != Crash
      case NoSimulator => !simulatorExists
  {
    if simulatorExists {
      var vs := Verdicts(cases, xfail);
      assert forall i :: 0 <= i < |cases| ==> vs[i] == Classify(cases[i], xfail);
      var k := FirstCrash(vs);
      CountsBounded(vs[..k]);
      CountsBounded(vs);
      CountAll(vs, Pass);
    }
  }

  /**
   * A mismatching dump of a program listed in `expected_to_fail` counts as
   * passed; one not listed counts as failed; a missing dump counts as failed
   * whatever the list says.
   */
  lemma MismatchVerdicts(c: Case, xfail: seq<string>)
    requires c.files.programExists && c.entry.isRun && c.files.referenceExists
    ensures c.files.dump.None? ==> Classify(c, xfail) == Fail
    ensures c.files.dump.Some? && Compare(c.files.reference, c.files.dump.value).Compared? ==>
      (Classify(c, xfail) == Fail <==>
        !Compare(c.files.reference, c.files.dump.value).ok && c.entry.program !in xfail)
  {
  }

  /** Adding one more entry's verdict to the counters. */
  lemma CountStep(vs: seq<Verdict>, i: nat, v: Verdict)
    requires i < |vs|
    ensures Count(vs[..i + 1], v) == Count(vs[..i], v) + (if vs[i] == v then 1 else 0)
  {
    assert vs[..i + 1][..i] == vs[..i];
  }

  /**
   * The tally loop of `main`: for each entry check the program file, the
   * run flag, run the simulator (its dump is given), check the reference
   * and the dump, then compare, counting passed, skipped and failed.
   */
  method Tally(simulatorExists: bool, cases: seq<Case>, xfail: seq<string>) returns (summary: Summary)
    ensures summary == MainSummary(simulatorExists, cases, xfail)
  {
    if !simulatorExists {
      return NoSimulator;
    }
    ghost var vs := Verdicts(cases, xfail);
    var passed, skipped, failed := 0, 0, 0;
    for i := 0 to |cases|
      invariant forall j :: 0 <= j < i ==> vs[j] != Crash
      invariant passed == Count(vs[..i], Pass)
      invariant skipped == Count(vs[..i], Skip)
      invariant failed == Count(vs[..i], Fail)
    {
      CountStep(vs, i, Pass);
      CountStep(vs, i, Skip);
      CountStep(vs, i, Fail);
      var e, f := cases[i].entry, cases[i].files;
      if !f.programExists {
        continue;
      }
      if !e.isRun {
        skipped := skipped + 1;
        continue;
      }
      if !f.referenceExists {
        continue;
      }
      if f.dump.None? {
        failed := failed + 1;
        continue;
      }
      var r := CompareDump(f.reference, f.dump.value);
      if r.NotHex? {
        return Aborted(i, passed, skipped, failed);
      }
      if !r.ok && e.program !in xfail {
        failed := failed + 1;
      } else {
        passed := passed + 1;
      }
    }
    assert vs[..|cases|] == vs;
    summary := Totals(passed, skipped, failed, passed == |cases|);
  }

  // ---------------------------------------------------------------------------
  // The shipped tables

  const PROGRAM_DIR: string := "riscv_test_suite/test_programs/"
  const SIGNATURE_DIR: string := "riscv_test_suite/signatures/"

  /** The row of `unit_test` for test `name`: all rows run. */
  function TestEntry(name: string): Entry
  {
    Entry(PROGRAM_DIR + name + ".mem", SIGNATURE_DIR + name + ".signature", true)
  }

  const TEST_NAMES: seq<string> := [
    "add-01", "addi-01", "and-01", "andi-01", "auipc-01", "beq-01", "bge-01", "bgeu-01",
    "blt-01", "bltu-01", "bne-01", "ebreak", "ecall", "fence-01", "jal-01", "jalr-01",
    "lb-align-01", "lbu-align-01", "lh-align-01", "lhu-align-01", "lui-01", "lw-align-01",
    "misalign-beq-01", "misalign-bge-01", "misalign-bgeu-01", "misalign-blt-01",
    "misalign-bltu-01", "misalign-bne-01", "misalign-jal-01", "misalign-lh-01",
    "misalign-lhu-01", "misalign-lw-01", "misalign-sh-01", "misalign-sw-01",
    "misalign1-jalr-01", "misalign2-jalr-01", "mul-01", "mulh-01", "mulhu-01", "mulhsu-01",
    "or-01", "ori-01", "sb-align-01", "sh-align-01", "sll-01", "slli-01", "slt-01",
    "slti-01", "sltiu-01", "sltu-01", "sra-01", "srai-01", "srl-01", "srli-01", "sub-01",
    "sw-align-01", "xor-01", "xori-01"]

  /** `unit_test` */
  function UnitTests(): (t: seq<Entry>)
    ensures |t| == 58
    ensures forall i :: 0 <= i < |t| ==> t[i].isRun
  {
    seq(|TEST_NAMES|, i requires 0 <= i < |TEST_NAMES| => TestEntry(TEST_NAMES[i]))
  }

  /** Positions in `unit_test` of the programs listed in `expected_to_fail`. */
  const EXPECTED_TO_FAIL_ROWS: seq<nat> := [22, 23, 24, 25, 26, 27, 28, 35]

  /** `expected_to_fail` */
  function ExpectedToFail(): (x: seq<string>)
    ensures |x| == 8
    ensures forall j :: 0 <= j < 8 ==> x[j] == UnitTests()[EXPECTED_TO_FAIL_ROWS[j]].program
  {
    seq(8, j requires 0 <= j < 8 => PROGRAM_DIR + TEST_NAMES[EXPECTED_TO_FAIL_ROWS[j]] + ".mem")
  }

  /**
   * With the shipped table no entry is ever skipped: every row runs, so the
   * skipped counter stays 0 whatever the files.
   */
  lemma ShippedTableNeverSkips(simulatorExists: bool, files: seq<Files>)
    requires |files| == |UnitTests()|
    ensures var cases := seq(|files|, i requires 0 <= i < |files| => Case(UnitTests()[i], files[i]));
      match MainSummary(simulatorExists, cases, ExpectedToFail())
      case Totals(_, s, _, _) => s == 0
      case Aborted(_, _, s, _) => s == 0
      case NoSimulator => true
  {
    var cases := seq(|files|, i requires 0 <= i < |files| => Case(UnitTests()[i], files[i]));
    var vs := Verdicts(cases, ExpectedToFail());
    assert forall i :: 0 <= i < |vs| ==> cases[i].entry.isRun;
    NoSkips(vs, |vs|);
    assert vs[..|vs|] == vs;
    NoSkips(vs, FirstCrash(vs));
  }

  /** No `Skip` among the first `k` verdicts means none is counted. */
  lemma {:induction false} NoSkips(vs: seq<Verdict>, k: nat)
    requires k <= |vs| && forall i :: 0 <= i < |vs| ==> vs[i] != Skip
    ensures Count(vs[..k], Skip) == 0
  {
    if k > 0 {
      NoSkips(vs, k - 1);
      assert vs[..k][..k - 1] == vs[..k - 1];
    }
  }
}
