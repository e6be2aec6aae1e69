/** The Linux telemetry sampler (internal/agent/telemetry_linux.go): counter sums in 64-bit words, a moving CPU
    baseline, and reports that pass the wire check (internal/protocol/protocol.go). File contents, file system
    numbers, load averages, uptime and clock readings are inputs. */
module Telemetry {
  import opened Helpers
  import opened ProcText

  datatype SampleError =
    | StatError | MemError | LoadError | FsError | NetError | UptimeError | LocalValidation

  datatype Result<T> = Ok(value: T) | Err(error: SampleError)

  // ---------- CPU counters ----------

  /** A field past the end of the line counts zero. */
  function Counter(fields: seq<string>, i: nat): U64 {
    if i < |fields| && ParseUint(fields[i]).Some? then ParseUint(fields[i]).value else 0
  }

  predicate CountersParse(fields: seq<string>) {
    |fields| >= 5 && forall i :: 1 <= i < |fields| && i <= 8 ==> ParseUint(fields[i]).Some?
  }

  /** Exact sums: user, nice, system, irq, softirq and steal; idle and iowait. */
  function Busy(fields: seq<string>): int {
    Counter(fields, 1) + Counter(fields, 2) + Counter(fields, 3)
    + Counter(fields, 6) + Counter(fields, 7) + Counter(fields, 8)
  }

  function Idle(fields: seq<string>): int {
    Counter(fields, 4) + Counter(fields, 5)
  }

  datatype Counters = Counters(total: U64, idle: U64)

  predicate GoodStat(line: Option<string>) {
    && line.Some? && "cpu " <= line.value && CountersParse(Fields(line.value))
    && Idle(Fields(line.value)) + Busy(Fields(line.value)) <= MAX_U64
  }

  function StatReading(line: string): Counters
    requires GoodStat(Some(line))
  {
    Counters(Idle(Fields(line)) + Busy(Fields(line)), Idle(Fields(line)))
  }

  /** Adding in 64-bit words and comparing afterwards detects exactly the sums that do not fit. */
  lemma WrapDetected(a: U64, b: U64)
    ensures Add64(a, b) < b <==> a + b > MAX_U64
    ensures Add64(a, b) < a <==> a + b > MAX_U64
    ensures a + b <= MAX_U64 ==> Add64(a, b) == a + b
  {
  }

  /** The first line of /proc/stat, None when it cannot be read or is too long or empty. */
  method ReadProcStatCPU(line: Option<string>) returns (r: Result<Counters>)
    ensures r.Ok? <==> GoodStat(line)
    ensures r.Ok? ==> r.value == StatReading(line.value)
    ensures r.Err? ==> r.error == StatError
  {
    hide Fields, ParseUint;
    if line == None || !("cpu " <= line.value) {
      return Err(StatError);
    }
    var fields := Fields(line.value);
    if |fields| < 5 {
      return Err(StatError);
    }
    var counters: seq<U64> := [];
    var i := 1;
    while i < |fields| && i <= 8
      invariant 1 <= i <= |fields| && i <= 9 && |counters| == i - 1
      invariant forall k :: 1 <= k < i ==> ParseUint(fields[k]) == Some(counters[k - 1])
    {
      var parsed := ParseUint(fields[i]);
      if parsed == None {
        return Err(StatError);
      }
      counters := counters + [parsed.value];
      i := i + 1;
    }
    ghost var parsed := counters;
    while |counters| < 8
      invariant 4 <= |parsed| <= |counters| <= 8 && counters[..|parsed|] == parsed
      invariant forall k :: |parsed| <= k < |counters| ==> counters[k] == 0
    {
      counters := counters + [0];
    }
    forall k | 0 <= k < 8 ensures counters[k] == Counter(fields, k + 1) {
      if k < |parsed| {
        assert counters[k] == parsed[k];
      }
    }
    r := SumCounters(counters);
  }

  function IdleSum(c: seq<int>): int
    requires |c| == 8
  {
    c[3] + c[4]
  }

  function BusySum(c: seq<int>): int
    requires |c| == 8
  {
    c[0] + c[1] + c[2] + c[5] + c[6] + c[7]
  }

  method SumCounters(c: seq<U64>) returns (r: Result<Counters>)
    requires |c| == 8
    ensures r == if IdleSum(c) + BusySum(c) <= MAX_U64 then Ok(Counters(IdleSum(c) + BusySum(c), IdleSum(c)))
            else Err(StatError)
  {
    hide Add64;
    var idleAll := Add64(c[3], c[4]);
    WrapDetected(c[3], c[4]);
    if idleAll < c[3] {
      return Err(StatError);
    }
    var nonIdle := Add64(c[0], c[1]);
    WrapDetected(c[0], c[1]);
    if nonIdle < c[0] {
      return Err(StatError);
    }
    WrapDetected(nonIdle, c[2]);
    nonIdle := Add64(nonIdle, c[2]);
    if nonIdle < c[2] {
      return Err(StatError);
    }
    WrapDetected(nonIdle, c[5]);
    nonIdle := Add64(nonIdle, c[5]);
    if nonIdle < c[5] {
      return Err(StatError);
    }
    WrapDetected(nonIdle, c[6]);
    nonIdle := Add64(nonIdle, c[6]);
    if nonIdle < c[6] {
      return Err(StatError);
    }
    WrapDetected(nonIdle, c[7]);
    nonIdle := Add64(nonIdle, c[7]);
    if nonIdle < c[7] {
      return Err(StatError);
    }
    WrapDetected(idleAll, nonIdle);
    var totalVal := Add64(idleAll, nonIdle);
    if totalVal < idleAll {
      return Err(StatError);
    }
    r := Ok(Counters(totalVal, idleAll));
  }

  // ---------- memory ----------

  /** A file the scanner splits into lines; None when it cannot be read. A line too long ends the scan with an error. */
  datatype Text = Text(lines: seq<string>, scanFailed: bool)

  datatype Memory = Memory(total: int, used: int, available: int)

  /** The value of a meminfo line, in kilobytes, when it is well formed. */
  function Kilobytes(line: string, key: string, least: int): Option<int> {
    var fields := Fields(line);
    if |fields| != 3 || fields[0] != key || fields[2] != "kB" then None
    else
      match ParseInt(fields[1])
      case Some(kb) => if least <= kb <= MAX_I64 / 1024 then Some(kb) else None
      case None => None
  }

  predicate MemLineOK(line: string) {
    if "MemTotal:" <= line then Kilobytes(line, "MemTotal:", 1).Some?
    else if "MemAvailable:" <= line then Kilobytes(line, "MemAvailable:", 0).Some?
    else true
  }

  /** The last line with this key, in bytes. */
  function LastBytes(lines: seq<string>, key: string, least: int): Option<int> {
    if lines == [] then None
    else if key <= lines[|lines| - 1] && Kilobytes(lines[|lines| - 1], key, least).Some? then
      Some(Kilobytes(lines[|lines| - 1], key, least).value * 1024)
    else LastBytes(lines[..|lines| - 1], key, least)
  }

  predicate GoodMem(file: Option<Text>) {
    && file.Some? && !file.value.scanFailed
    && (forall i :: 0 <= i < |file.value.lines| ==> MemLineOK(file.value.lines[i]))
    && var total, available := LastBytes(file.value.lines, "MemTotal:", 1),
        LastBytes(file.value.lines, "MemAvailable:", 0);
       total.Some? && available.Some? && available.value <= total.value
  }

  lemma {:induction false} LastBytesRange(lines: seq<string>, key: string, least: int)
    requires least >= 0
    ensures LastBytes(lines, key, least).Some? ==> 1024 * least <= LastBytes(lines, key, least).value <= MAX_I64
  {
    hide Kilobytes;
    if lines != [] {
      LastBytesRange(lines[..|lines| - 1], key, least);
      KilobytesRange(lines[|lines| - 1], key, least);
    }
  }

  lemma KilobytesRange(line: string, key: string, least: int)
    ensures Kilobytes(line, key, least).Some? ==> least <= Kilobytes(line, key, least).value <= MAX_I64 / 1024
  {
    hide Fields, ParseInt;
  }

  lemma PrefixesDiffer(line: string)
    ensures !("MemTotal:" <= line && "MemAvailable:" <= line)
  {
    assert "MemTotal:"[3] == 'T' && "MemAvailable:"[3] == 'A';
    if "MemTotal:" <= line {
      assert line[3] == 'T';
    }
  }

  lemma LastBytesNone(key: string, least: int)
    ensures LastBytes([], key, least) == None
  {
  }

  lemma LastBytesStep(lines: seq<string>, i: nat, key: string, least: int)
    requires i < |lines|
    ensures LastBytes(lines[..i + 1], key, least) ==
            if key <= lines[i] && Kilobytes(lines[i], key, least).Some?
                then Some(Kilobytes(lines[i], key, least).value * 1024)
            else LastBytes(lines[..i], key, least)
  {
    hide Kilobytes;
    assert lines[..i + 1][..i] == lines[..i];
  }

  /** What the values mean: the last totals in the file, in bytes, within a signed word. */
  method ReadProcMeminfo(file: Option<Text>) returns (r: Result<Memory>)
    ensures r.Ok? <==> GoodMem(file)
    ensures r.Ok? ==>
              && Some(r.value.total) == LastBytes(file.value.lines, "MemTotal:", 1)
              && Some(r.value.available) == LastBytes(file.value.lines, "MemAvailable:", 0)
              && r.value.used == r.value.total - r.value.available
              && 0 < r.value.total <= MAX_I64 && 0 <= r.value.available <= r.value.total
    ensures r.Err? ==> r.error == MemError
  {
    hide Kilobytes, LastBytes;
    if file == None {
      return Err(MemError);
    }
    var lines := file.value.lines;
    var totalBytes: Option<int>, availBytes: Option<int> := None, None;
    LastBytesNone("MemTotal:", 1);
    LastBytesNone("MemAvailable:", 0);
    for i := 0 to |lines|
      invariant forall k :: 0 <= k < i ==> MemLineOK(lines[k])
      invariant totalBytes == LastBytes(lines[..i], "MemTotal:", 1)
      invariant availBytes == LastBytes(lines[..i], "MemAvailable:", 0)
    {
      var line := lines[i];
      PrefixesDiffer(line);
      LastBytesStep(lines, i, "MemTotal:", 1);
      LastBytesStep(lines, i, "MemAvailable:", 0);
      if "MemTotal:" <= line {
        var kb := Kilobytes(line, "MemTotal:", 1);
        if kb == None {
          return Err(MemError);
        }
        totalBytes := Some(kb.value * 1024);
      } else if "MemAvailable:" <= line {
        var kb := Kilobytes(line, "MemAvailable:", 0);
        if kb == None {
          return Err(MemError);
        }
        availBytes := Some(kb.value * 1024);
      }
    }
    assert lines[..|lines|] == lines;
    LastBytesRange(lines, "MemTotal:", 1);
    LastBytesRange(lines, "MemAvailable:", 0);
    if file.value.scanFailed || totalBytes == None || availBytes == None || availBytes.value > totalBytes.value {
      return Err(MemError);
    }
    r := Ok(Memory(totalBytes.value, totalBytes.value - availBytes.value, availBytes.value));
  }

  // ---------- the root file system ----------

  datatype StatFs = StatFs(blocks: U64, bfree: U64, bavail: U64, bsize: U64)
  datatype Disk = Disk(total: int, used: int, available: int)

  predicate GoodFs(s: Option<StatFs>) {
    && s.Some? && s.value.bsize > 0 && s.value.blocks > 0 && s.value.blocks * s.value.bsize <= MAX_I64
    && s.value.bavail <= s.value.bfree <= s.value.blocks
  }

  lemma QuotientGuard(blocks: U64, bsize: U64)
    requires bsize > 0
    ensures blocks > MAX_I64 / bsize <==> blocks * bsize > MAX_I64
  {
    var q := MAX_I64 / bsize;
    assert q * bsize <= MAX_I64 < (q + 1) * bsize;
    if blocks > q {
      MulMono(q + 1, blocks, bsize);
    } else {
      MulMono(blocks, q, bsize);
    }
  }

  lemma MulMono(a: int, b: int, c: int)
    requires a <= b && c >= 0
    ensures a * c <= b * c
  {
    assert b * c - a * c == (b - a) * c >= 0;
  }

  lemma ExactProduct(a: U64, b: U64)
    requires a * b <= MAX_I64
    ensures ToI64(Mul64(a, b)) == a * b
  {
    MulMono(0, a, b);
  }

  predicate ExactDisk(s: StatFs, d: Disk) {
    && d.total == s.blocks * s.bsize && d.used == (s.blocks - s.bfree) * s.bsize && d.available == s.bavail * s.bsize
    && 0 < d.total <= MAX_I64 && 0 <= d.used <= d.total && 0 <= d.available <= d.total - d.used
  }

  lemma FsExact(s: StatFs)
    requires GoodFs(Some(s))
    ensures var total, free := ToI64(Mul64(s.blocks, s.bsize)), ToI64(Mul64(s.bfree, s.bsize));
            ExactDisk(s, Disk(total, total - free, ToI64(Mul64(s.bavail, s.bsize))))
  {
    hide ToI64, Mul64;
    MulMono(s.bfree, s.blocks, s.bsize);
    MulMono(s.bavail, s.bfree, s.bsize);
    MulMono(0, s.bavail, s.bsize);
    MulMono(1, s.blocks, s.bsize);
    ExactProduct(s.blocks, s.bsize);
    ExactProduct(s.bfree, s.bsize);
    ExactProduct(s.bavail, s.bsize);
    assert s.blocks * s.bsize - s.bfree * s.bsize == (s.blocks - s.bfree) * s.bsize;
  }

  /** The guards leave only products that fit, so the byte counts are exact and the last check never fires. */
  method ReadRootFS(s: Option<StatFs>) returns (r: Result<Disk>)
    ensures r.Ok? <==> GoodFs(s)
    ensures r.Ok? ==> ExactDisk(s.value, r.value)
    ensures r.Err? ==> r.error == FsError
  {
    hide ToI64, Mul64;
    if s == None || s.value.bsize == 0 || s.value.blocks == 0 {
      return Err(FsError);
    }
    var StatFs(blocks, bfree, bavail, bsize) := s.value;
    QuotientGuard(blocks, bsize);
    if blocks > MAX_I64 / bsize || bfree > blocks || bavail > bfree {
      return Err(FsError);
    }
    FsExact(s.value);
    var totalBytes := ToI64(Mul64(blocks, bsize));
    var freeBytes := ToI64(Mul64(bfree, bsize));
    var availableBytes := ToI64(Mul64(bavail, bsize));
    var usedBytes := totalBytes - freeBytes;
    if totalBytes <= 0 || usedBytes < 0 || usedBytes > totalBytes || availableBytes < 0
        || availableBytes > totalBytes - usedBytes {
      return Err(FsError);
    }
    r := Ok(Disk(totalBytes, usedBytes, availableBytes));
  }

  // ---------- the network ----------

  datatype Traffic = Traffic(rx: int, tx: int)

  predicate CountsLine(line: string) {
    ColonIndex(line).Some? && TrimSpace(line[..ColonIndex(line).value]) != "lo"
  }

  function NetFields(line: string): seq<string>
    requires CountsLine(line)
  {
    Fields(line[ColonIndex(line).value + 1..])
  }

  predicate NetLineOK(line: string) {
    CountsLine(line) ==>
      var fields := NetFields(line); |fields| >= 9 && ParseUint(fields[0]).Some? && ParseUint(fields[8]).Some?
  }

  /** A line's bytes: none for headers and the loopback interface. */
  function LineTraffic(line: string): (t: Traffic)
    ensures t.rx >= 0 && t.tx >= 0
  {
    if CountsLine(line) && NetLineOK(line) then
      Traffic(ParseUint(NetFields(line)[0]).value, ParseUint(NetFields(line)[8]).value)
    else Traffic(0, 0)
  }

  function TotalTraffic(lines: seq<string>): (t: Traffic)
    ensures t.rx >= 0 && t.tx >= 0
  {
    if lines == [] then Traffic(0, 0)
    else
      var rest, last := TotalTraffic(lines[..|lines| - 1]), LineTraffic(lines[|lines| - 1]);
      Traffic(rest.rx + last.rx, rest.tx + last.tx)
  }

  lemma {:induction false} TotalGrows(lines: seq<string>, i: nat)
    requires i <= |lines|
    ensures TotalTraffic(lines[..i]).rx <= TotalTraffic(lines).rx
            && TotalTraffic(lines[..i]).tx <= TotalTraffic(lines).tx
    decreases |lines|
  {
    hide LineTraffic;
    if i < |lines| {
      TotalGrows(lines[..|lines| - 1], i);
      assert lines[..|lines| - 1][..i] == lines[..i];
    } else {
      assert lines[..i] == lines;
    }
  }

  lemma TotalNone()
    ensures TotalTraffic([]) == Traffic(0, 0)
  {
  }

  lemma TotalStep(lines: seq<string>, i: nat)
    requires i < |lines|
    ensures var sum, line := TotalTraffic(lines[..i]), LineTraffic(lines[i]);
            TotalTraffic(lines[..i + 1]) == Traffic(sum.rx + line.rx, sum.tx + line.tx)
  {
    hide LineTraffic;
    assert lines[..i + 1][..i] == lines[..i];
  }

  predicate GoodNet(file: Option<Text>) {
    && file.Some? && !file.value.scanFailed
    && (forall i :: 0 <= i < |file.value.lines| ==> NetLineOK(file.value.lines[i]))
    && TotalTraffic(file.value.lines).rx <= MAX_I64 && TotalTraffic(file.value.lines).tx <= MAX_I64
  }

  /** The exact sums over every interface but the loopback, or an error: when a line is malformed or a sum does not
      fit. No partial sum can overflow unnoticed. */
  method ReadProcNetDev(file: Option<Text>) returns (r: Result<Traffic>)
    ensures r.Ok? <==> GoodNet(file)
    ensures r.Ok? ==> r.value == TotalTraffic(file.value.lines)
    ensures r.Err? ==> r.error == NetError
  {
    hide NetFields, CountsLine, ParseUint, TotalTraffic, Add64;
    if file == None {
      return Err(NetError);
    }
    var lines := file.value.lines;
    var rxTotal: U64, txTotal: U64 := 0, 0;
    TotalNone();
    for i := 0 to |lines|
      invariant forall k :: 0 <= k < i ==> NetLineOK(lines[k])
      invariant Traffic(rxTotal, txTotal) == TotalTraffic(lines[..i])
      invariant rxTotal <= MAX_I64 && txTotal <= MAX_I64
    {
      var line := lines[i];
      TotalStep(lines, i);
      TotalGrows(lines, i + 1);
      if CountsLine(line) {
        var fields := NetFields(line);
        if |fields| < 9 {
          return Err(NetError);
        }
        var rx, tx := ParseUint(fields[0]), ParseUint(fields[8]);
        if rx == None || tx == None {
          return Err(NetError);
        }
        if rx.value > MAX_I64 - rxTotal || tx.value > MAX_I64 - txTotal {
          return Err(NetError);
        }
        WrapDetected(rxTotal, rx.value);
        WrapDetected(txTotal, tx.value);
        rxTotal, txTotal := Add64(rxTotal, rx.value), Add64(txTotal, tx.value);
      }
    }
    assert lines[..|lines|] == lines;
    if file.value.scanFailed {
      return Err(NetError);
    }
    r := Ok(Traffic(ToI64(rxTotal), ToI64(txTotal)));
  }
}
