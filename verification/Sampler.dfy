/** The sampler's moving baseline and the reports it builds from the readers. Instants are nanoseconds. */
module Sampler {
  import opened Helpers
  import opened ProcText
  import opened Telemetry
  import Wire

  const NS_PER_MS: int := 1_000_000
  const MAX_WINDOW_MS: int := 300_000

  /** The difference of two instants saturates at the signed word's ends. */
  function Sub(now: int, last: int): int {
    var d := now - last;
    if d > MAX_I64 then MAX_I64 else if d < -MAX_I64 - 1 then -MAX_I64 - 1 else d
  }

  /** Whole milliseconds, truncated toward zero. */
  function Milliseconds(d: int): int {
    if d >= 0 then d / NS_PER_MS else -(-d / NS_PER_MS)
  }

  datatype Load = Load(one: nat, five: nat, fifteen: nat)

  /** What the files and system calls yield at one instant; None is a failed or unparsable read. */
  datatype Readings = Readings(
    stat: Option<string>, meminfo: Option<Text>, load: Option<Load>, fs: Option<StatFs>, net: Option<Text>,
        uptime: Option<nat>)

  datatype Baseline = Baseline(total: U64, idle: U64, time: int)

  datatype Report = Report(
    version: int, cpu: int, memory: Memory, load1: int, load5: int, load15: int, disk: Disk, traffic: Traffic,
        uptime: int, window: int)

  predicate ValidateTelemetryRequest(r: Report) {
    && r.version > 0
    && 0 <= r.cpu <= 10000
    && r.memory.total > 0 && 0 <= r.memory.available <= r.memory.total
    && r.memory.used >= 0 && r.memory.used == r.memory.total - r.memory.available
    && r.load1 >= 0 && r.load5 >= 0 && r.load15 >= 0
    && r.disk.total > 0 && 0 <= r.disk.used <= r.disk.total && 0 <= r.disk.available <= r.disk.total - r.disk.used
    && r.traffic.rx >= 0 && r.traffic.tx >= 0
    && r.uptime >= 0
    && 1 <= r.window <= 300_000
  }

  datatype Outcome = Sent(report: Report) | Silent | Broken(error: SampleError)

  // ---------- what a sample must yield ----------

  function Reading(r: Readings, now: int): Option<Baseline> {
    if GoodStat(r.stat) then Some(Baseline(StatReading(r.stat.value).total, StatReading(r.stat.value).idle, now))
        else None
  }

  /** Two readings that make a measurement: 1 to 300000 whole milliseconds apart, counters running forward, and no
      more idle time than time. */
  predicate Measures(last: Baseline, cur: Baseline) {
    && 1_000_000 <= cur.time - last.time < 300_001_000_000
    && cur.total > last.total && cur.idle >= last.idle
    && cur.idle - last.idle <= cur.total - last.total
  }

  function Share(busy: int, total: int): int
    requires total > 0
  {
    10000 * busy / total
  }

  predicate OthersGood(r: Readings) {
    GoodMem(r.meminfo) && r.load.Some? && GoodFs(r.fs) && GoodNet(r.net) && r.uptime.Some?
  }

  /** Every field is the exact quantity it names. */
  predicate Reports(last: Baseline, cur: Baseline, r: Readings, rep: Report)
    requires Measures(last, cur) && OthersGood(r)
  {
    && rep.version == Wire.CURRENT_VERSION
    && rep.cpu == Share((cur.total - last.total) - (cur.idle - last.idle), cur.total - last.total)
    && Some(rep.memory.total) == LastBytes(r.meminfo.value.lines, "MemTotal:", 1)
    && Some(rep.memory.available) == LastBytes(r.meminfo.value.lines, "MemAvailable:", 0)
    && rep.memory.used == rep.memory.total - rep.memory.available
    && rep.load1 == r.load.value.one && rep.load5 == r.load.value.five && rep.load15 == r.load.value.fifteen
    && ExactDisk(r.fs.value, rep.disk)
    && rep.traffic == TotalTraffic(r.net.value.lines)
    && rep.uptime == r.uptime.value
    && rep.window == (cur.time - last.time) / 1_000_000
  }

  /** A sample, from the baseline it found to the baseline it leaves: once the CPU line is read that reading is the
      baseline, whatever else fails; a report is built exactly when the two readings make a measurement and the
      other reads succeed, and it passes the wire check. The local validation error does not occur. */
  predicate IsSample(before: Option<Baseline>, r: Readings, now: int, after: Option<Baseline>, o: Outcome) {
    match Reading(r, now)
    case None => after == before && o == Broken(StatError)
    case Some(cur) =>
      && after == Some(cur)
      && if before == None || !Measures(before.value, cur) then o == Silent
         else if !OthersGood(r) then o.Broken? && o.error != LocalValidation && o.error != StatError
         else o.Sent? && Reports(before.value, cur, r, o.report) && ValidateTelemetryRequest(o.report)
  }

  // ---------- the arithmetic ----------

  /** Saturation and truncation do not blur the window's bounds. */
  lemma WindowExact(now: int, last: int)
    ensures var ms := Milliseconds(Sub(now, last));
            && (1 <= ms <= MAX_WINDOW_MS <==> 1_000_000 <= now - last < 300_001_000_000)
            && (1 <= ms <= MAX_WINDOW_MS ==> ms == (now - last) / 1_000_000)
  {
  }

  /** The machine-word branch multiplies without wrapping, so both branches are the exact share, and it is at most
      10000. */
  lemma ShareExact(busy: U64, total: U64)
    requires busy <= total && total > 0
    ensures busy <= MAX_U64 / 10000 ==> Mul64(busy, 10000) / total == Share(busy, total)
    ensures 0 <= Share(busy, total) <= 10000
  {
    hide Mul64;
    NoWrap(busy);
    QuotientBounds(10000 * busy, total, 10000);
  }

  lemma NoWrap(busy: U64)
    ensures busy <= MAX_U64 / 10000 ==> Mul64(busy, 10000) == 10000 * busy
  {
  }

  lemma QuotientBounds(a: int, b: int, k: int)
    requires b > 0 && 0 <= a <= k * b
    ensures 0 <= a / b <= k
  {
    var q := a / b;
    assert q * b <= a;
    if q > k {
      MulMono(k + 1, q, b);
    }
  }

  // ---------- the sampler ----------

  class LinuxSampler {
    var hasCPUBaseline: bool
    var lastCPUTotal: U64
    var lastCPUIdle: U64
    var lastCPUTime: int

    ghost function View(): Option<Baseline>
      reads this
    {
      if hasCPUBaseline then Some(Baseline(lastCPUTotal, lastCPUIdle, lastCPUTime)) else None
    }

    constructor ()
      ensures View() == None
    {
      hasCPUBaseline, lastCPUTotal, lastCPUIdle, lastCPUTime := false, 0, 0, 0;
    }

    method Sample(r: Readings, now: int) returns (o: Outcome)
      modifies this
      ensures IsSample(old(View()), r, now, View(), o)
    {
      hide GoodStat, StatReading, GoodMem, GoodFs, GoodNet, LastBytes, TotalTraffic, Share, Mul64, Sub, Milliseconds;
      var cpu := ReadProcStatCPU(r.stat);
      if cpu.Err? {
        return Broken(cpu.error);
      }
      var Counters(curTotal, curIdle) := cpu.value;
      if !hasCPUBaseline {
        hasCPUBaseline, lastCPUTotal, lastCPUIdle, lastCPUTime := true, curTotal, curIdle, now;
        return Silent;
      }
      ghost var last := Baseline(lastCPUTotal, lastCPUIdle, lastCPUTime);
      ghost var cur := Baseline(curTotal, curIdle, now);
      var sampleWindowMS := Milliseconds(Sub(now, lastCPUTime));
      WindowExact(now, lastCPUTime);
      if sampleWindowMS < 1 || sampleWindowMS > MAX_WINDOW_MS || curTotal < lastCPUTotal || curIdle < lastCPUIdle
          || curTotal == lastCPUTotal {
        lastCPUTotal, lastCPUIdle, lastCPUTime := curTotal, curIdle, now;
        return Silent;
      }
      var totalDelta: U64 := curTotal - lastCPUTotal;
      var idleDelta: U64 := curIdle - lastCPUIdle;
      if idleDelta > totalDelta {
        lastCPUTotal, lastCPUIdle, lastCPUTime := curTotal, curIdle, now;
        return Silent;
      }
      var busyDelta: U64 := totalDelta - idleDelta;
      var cpuBasisPoints: int;
      ShareExact(busyDelta, totalDelta);
      if busyDelta > MAX_U64 / 10000 {
        cpuBasisPoints := Share(busyDelta, totalDelta);
      } else {
        cpuBasisPoints := Mul64(busyDelta, 10000) / totalDelta;
      }
      if cpuBasisPoints < 0 {
        cpuBasisPoints := 0;
      }
      if cpuBasisPoints > 10000 {
        cpuBasisPoints := 10000;
      }
      lastCPUTotal, lastCPUIdle, lastCPUTime := curTotal, curIdle, now;
      var mem := ReadProcMeminfo(r.meminfo);
      if mem.Err? {
        return Broken(mem.error);
      }
      if r.load == None {
        return Broken(LoadError);
      }
      var fs := ReadRootFS(r.fs);
      if fs.Err? {
        return Broken(fs.error);
      }
      var net := ReadProcNetDev(r.net);
      if net.Err? {
        return Broken(net.error);
      }
      if r.uptime == None {
        return Broken(UptimeError);
      }
      var req := Report(Wire.CURRENT_VERSION, cpuBasisPoints, mem.value, r.load.value.one, r.load.value.five,
                        r.load.value.fifteen,
                        fs.value, net.value, r.uptime.value, sampleWindowMS);
      if !ValidateTelemetryRequest(req) {
        return Broken(LocalValidation);
      }
      o := Sent(req);
    }
  }

  // ---------- runs of samples ----------

  datatype Call = Call(readings: Readings, now: int, outcome: Outcome)

  /** `bases` lists the baseline before each call and after the last. */
  predicate Samples(bases: seq<Option<Baseline>>, calls: seq<Call>) {
    && |bases| == |calls| + 1
    && forall i :: 0 <= i < |calls| ==>
        IsSample(bases[i], calls[i].readings, calls[i].now, bases[i + 1], calls[i].outcome)
  }

  /** The latest CPU reading that succeeded. */
  function LastReading(first: Option<Baseline>, calls: seq<Call>): Option<Baseline> {
    if calls == [] then first
    else
      var c := calls[|calls| - 1];
      if Reading(c.readings, c.now).Some? then Reading(c.readings, c.now) else LastReading(first, calls[..|calls| - 1])
  }

  /** Through any failures, the baseline is always the latest successful reading, so every report measures from
      there. */
  lemma {:induction false} BaselineIsLastReading(bases: seq<Option<Baseline>>, calls: seq<Call>, i: nat)
    requires Samples(bases, calls) && i < |bases|
    ensures bases[i] == LastReading(bases[0], calls[..i])
  {
    hide Reading, Reports, Measures, OthersGood;
    if i > 0 {
      BaselineIsLastReading(bases, calls, i - 1);
      assert calls[..i][..i - 1] == calls[..i - 1];
      assert IsSample(bases[i - 1], calls[i - 1].readings, calls[i - 1].now, bases[i], calls[i - 1].outcome);
    }
  }

  function Window(o: Outcome): int {
    if o.Sent? then o.report.window else 0
  }

  function TotalWindow(calls: seq<Call>): int {
    if calls == [] then 0 else TotalWindow(calls[..|calls| - 1]) + Window(calls[|calls| - 1].outcome)
  }

  lemma SampleAdvances(before: Option<Baseline>, c: Call, after: Option<Baseline>)
    requires IsSample(before, c.readings, c.now, after, c.outcome) && (before.Some? ==> before.value.time <= c.now)
    ensures after.None? ==> before.None? && Window(c.outcome) == 0
    ensures after.Some? ==>
              && after.value.time <= c.now && (before.None? ==> Window(c.outcome) == 0 && after.value.time == c.now)
              && (before.Some? ==>
                   && before.value.time <= after.value.time
                   && NS_PER_MS * Window(c.outcome) <= after.value.time - before.value.time)
  {
    hide GoodStat, OthersGood, StatReading, ValidateTelemetryRequest, Share, LastBytes, TotalTraffic, ExactDisk;
  }

  /** With a clock that does not run backward, no time is reported twice: the windows of all reports of a run fit
      between its start and its latest reading. */
  lemma {:induction false} WindowsNeverOverlap(bases: seq<Option<Baseline>>, calls: seq<Call>, start: int, i: nat)
    requires Samples(bases, calls) && bases[0] == None && i < |bases|
    requires forall k :: 0 <= k < |calls| ==> start <= calls[k].now
    requires forall k, l :: 0 <= k < l < |calls| ==> calls[k].now <= calls[l].now
    ensures bases[i].Some? ==> i > 0 && start <= bases[i].value.time <= calls[i - 1].now
    ensures NS_PER_MS * TotalWindow(calls[..i]) <= if bases[i].Some? then bases[i].value.time - start else 0
  {
    hide IsSample;
    if i > 0 {
      WindowsNeverOverlap(bases, calls, start, i - 1);
      assert calls[..i][..i - 1] == calls[..i - 1];
      assert IsSample(bases[i - 1], calls[i - 1].readings, calls[i - 1].now, bases[i], calls[i - 1].outcome);
      SampleAdvances(bases[i - 1], calls[i - 1], bases[i]);
    }
  }
}
