/** What the /proc readers read from lines as the kernel writes them: decimal counters set apart by white space. */
module ProcLines {
  import opened Helpers
  import opened ProcText
  import opened Telemetry

  // ---------- decimal numbers ----------

  function Digit(d: nat): char
    requires d < 10
  {
    '0' + d as char
  }

  function Render(n: nat): string {
    if n < 10 then [Digit(n)] else Render(n / 10) + [Digit(n % 10)]
  }

  predicate AllDigits(s: string) {
    forall i :: 0 <= i < |s| ==> '0' <= s[i] <= '9'
  }

  lemma {:induction false} DecimalOfRender(n: nat)
    ensures Render(n) != "" && AllDigits(Render(n)) && Decimal(Render(n)) == Some(n)
  {
    if n < 10 {
      assert [Digit(n)][..0] == "";
    } else {
      DecimalOfRender(n / 10);
      var s := Render(n);
      assert s[..|s| - 1] == Render(n / 10);
    }
  }

  /** Every unsigned 64-bit number is read back from its decimal text, and so is every signed one that is not
      negative. */
  lemma NumbersReadBack(n: nat)
    ensures n <= MAX_U64 ==> ParseUint(Render(n)) == Some(n)
    ensures ParseInt(Render(n)) == if n <= MAX_I64 then Some(n) else None
  {
    DecimalOfRender(n);
  }

  // ---------- words set apart by white space ----------

  predicate Blank(s: string) {
    forall i :: 0 <= i < |s| ==> IsSpace(s[i])
  }

  predicate Word(s: string) {
    s != "" && forall i :: 0 <= i < |s| ==> !IsSpace(s[i])
  }

  lemma RenderIsWord(n: nat)
    ensures Word(Render(n))
  {
    DecimalOfRender(n);
  }

  lemma {:induction false} FieldsSkip(pad: string, rest: string)
    requires Blank(pad)
    ensures Fields(pad + rest) == Fields(rest)
    decreases |pad|
  {
    if pad == "" {
      assert pad + rest == rest;
    } else {
      FieldsSkip(pad[1..], rest);
      assert (pad + rest)[1..] == pad[1..] + rest;
    }
  }

  lemma {:induction false} WordLengthIs(w: string, rest: string)
    requires forall i :: 0 <= i < |w| ==> !IsSpace(w[i])
    requires rest == "" || IsSpace(rest[0])
    ensures WordLength(w + rest) == |w|
    decreases |w|
  {
    if w == "" {
      assert w + rest == rest;
    } else {
      WordLengthIs(w[1..], rest);
      assert (w + rest)[1..] == w[1..] + rest;
    }
  }

  lemma FieldsTake(w: string, rest: string)
    requires Word(w) && (rest == "" || IsSpace(rest[0]))
    ensures Fields(w + rest) == [w] + Fields(rest)
  {
    WordLengthIs(w, rest);
    var s := w + rest;
    assert s[..|w|] == w && s[|w|..] == rest;
  }

  /** The words, each followed by its gap. */
  function Laid(words: seq<string>, gaps: seq<string>): string
    requires |gaps| == |words|
  {
    if words == [] then "" else words[0] + gaps[0] + Laid(words[1..], gaps[1..])
  }

  /** White space between any two words, and none or some after the last. */
  predicate Apart(words: seq<string>, gaps: seq<string>) {
    && |gaps| == |words| && (forall i :: 0 <= i < |words| ==> Word(words[i]) && Blank(gaps[i]))
    && (forall i :: 0 <= i < |words| - 1 ==> gaps[i] != "")
  }

  /** However the words are laid out, they are the fields of the line. */
  lemma {:induction false} FieldsOfLaid(words: seq<string>, gaps: seq<string>)
    requires Apart(words, gaps)
    ensures Fields(Laid(words, gaps)) == words
    decreases |words|
  {
    if words != [] {
      var w, gap, rest := words[0], gaps[0], Laid(words[1..], gaps[1..]);
      FieldsOfLaid(words[1..], gaps[1..]);
      if |words| == 1 {
        assert rest == "";
      }
      FieldsTake(w, gap + rest);
      assert w + gap + rest == w + (gap + rest);
      FieldsSkip(gap, rest);
      assert words == [w] + words[1..];
    }
  }

  function Rendered(c: seq<U64>): (words: seq<string>)
    ensures |words| == |c|
  {
    seq(|c|, i requires 0 <= i < |c| => Render(c[i]))
  }

  lemma RenderedWords(c: seq<U64>)
    ensures forall i :: 0 <= i < |c| ==> Word(Rendered(c)[i]) && ParseUint(Rendered(c)[i]) == Some(c[i])
  {
    forall i | 0 <= i < |c| ensures Word(Rendered(c)[i]) && ParseUint(Rendered(c)[i]) == Some(c[i]) {
      RenderIsWord(c[i]);
      NumbersReadBack(c[i]);
    }
  }

  // ---------- /proc/stat ----------

  function At(c: seq<int>, i: nat): int {
    if i < |c| then c[i] else 0
  }

  /** From `cpu` and at least four counters (user, nice, system, idle, iowait, irq, softirq, steal, and whatever
      follows) the reader takes idle plus iowait as idle and the sum of the first eight as total, and fails exactly
      when that exceeds 2^64 - 1. */
  lemma StatLineRead(c: seq<U64>, gaps: seq<string>)
    requires |c| >= 4 && Apart(["cpu"] + Rendered(c), gaps) && gaps[0] != "" && gaps[0][0] == ' '
    ensures var line := Laid(["cpu"] + Rendered(c), gaps);
            var idle := At(c, 3) + At(c, 4);
            var total := At(c, 0) + At(c, 1) + At(c, 2) + idle + At(c, 5) + At(c, 6) + At(c, 7);
            && (GoodStat(Some(line)) <==> total <= 18_446_744_073_709_551_615)
            && (GoodStat(Some(line)) ==> StatReading(line).total == total && StatReading(line).idle == idle)
  {
    hide Fields, ParseUint, Laid, Rendered;
    var words := ["cpu"] + Rendered(c);
    var line := Laid(words, gaps);
    FieldsOfLaid(words, gaps);
    RenderedWords(c);
    StartsWithCpu(words, gaps);
    forall i: nat ensures Counter(words, i + 1) == At(c, i) {
      if i < |c| {
        assert words[i + 1] == Rendered(c)[i];
      }
    }
    forall i | 1 <= i < |words| && i <= 8 ensures ParseUint(words[i]).Some? {
      assert words[i] == Rendered(c)[i - 1];
    }
    assert Counter(words, 1) == At(c, 0) && Counter(words, 2) == At(c, 1) && Counter(words, 3) == At(c, 2);
    assert Counter(words, 4) == At(c, 3) && Counter(words, 5) == At(c, 4) && Counter(words, 6) == At(c, 5);
    assert Counter(words, 7) == At(c, 6) && Counter(words, 8) == At(c, 7);
  }

  lemma StartsWithCpu(words: seq<string>, gaps: seq<string>)
    requires words != [] && words[0] == "cpu" && |gaps| == |words| && gaps[0] != "" && gaps[0][0] == ' '
    ensures "cpu " <= Laid(words, gaps)
  {
    var line := Laid(words, gaps);
    assert line == words[0] + gaps[0] + Laid(words[1..], gaps[1..]);
    assert line[..3] == "cpu" && line[3] == ' ';
    assert "cpu " == "cpu" + [' '];
    assert line[..4] == line[..3] + [line[3]];
  }

  // ---------- /proc/net/dev ----------

  /** An interface as its line gives it: white space, name, colon, white space, counters. */
  datatype Iface = Iface(pad: string, name: string, gap: string, gaps: seq<string>, counters: seq<U64>)

  predicate GoodIface(i: Iface) {
    && Blank(i.pad) && Word(i.name) && ':' !in i.name && Blank(i.gap)
    && |i.counters| >= 9 && Apart(Rendered(i.counters), i.gaps)
  }

  function IfaceLine(i: Iface): string
    requires GoodIface(i)
  {
    i.pad + i.name + ":" + i.gap + Laid(Rendered(i.counters), i.gaps)
  }

  lemma {:induction false} ColonAfter(s: string, rest: string)
    requires ':' !in s
    ensures ColonIndex(s + ":" + rest) == Some(|s|)
    decreases |s|
  {
    var line := s + ":" + rest;
    if s == "" {
      assert line[0] == ':';
    } else {
      assert s[0] in s && forall x :: x in s[1..] ==> x in s;
      ColonAfter(s[1..], rest);
      assert line[1..] == s[1..] + ":" + rest;
    }
  }

  lemma {:induction false} TrimsLeft(pad: string, name: string)
    requires Blank(pad) && Word(name)
    ensures TrimLeft(pad + name) == name
    decreases |pad|
  {
    if pad == "" {
      assert pad + name == name;
    } else {
      TrimsLeft(pad[1..], name);
      assert (pad + name)[1..] == pad[1..] + name;
    }
  }

  lemma TrimsName(pad: string, name: string)
    requires Blank(pad) && Word(name)
    ensures TrimSpace(pad + name) == name
  {
    TrimsLeft(pad, name);
    assert (pad + name)[|pad + name| - 1] == name[|name| - 1];
  }

  /** From an interface's line the reader takes the first counter as received and the ninth as transmitted bytes, and
      nothing from the loopback's. */
  lemma NetLineRead(i: Iface)
    requires GoodIface(i)
    ensures NetLineOK(IfaceLine(i))
    ensures LineTraffic(IfaceLine(i)) == if i.name == "lo" then Traffic(0, 0) else Traffic(i.counters[0], i.counters[8])
  {
    hide Fields, ParseUint, Laid, Rendered, TrimSpace, ColonIndex;
    var head, words := i.pad + i.name, Rendered(i.counters);
    var tail := i.gap + Laid(words, i.gaps);
    var line := IfaceLine(i);
    assert line == head + ":" + tail;
    forall k | 0 <= k < |head| ensures head[k] != ':' {
    }
    ColonAfter(head, tail);
    TrimsName(i.pad, i.name);
    assert line[..|head|] == head && line[|head| + 1..] == tail;
    FieldsSkip(i.gap, Laid(words, i.gaps));
    FieldsOfLaid(words, i.gaps);
    RenderedWords(i.counters);
  }

  /** The bytes of all interfaces but the loopback. */
  function Received(ifs: seq<Iface>): int
    requires forall i :: 0 <= i < |ifs| ==> GoodIface(ifs[i])
  {
    if ifs == [] then 0
    else
      var last := ifs[|ifs| - 1];
      assert GoodIface(last);
      Received(ifs[..|ifs| - 1]) + (if last.name == "lo" then 0 else last.counters[0])
  }

  function Transmitted(ifs: seq<Iface>): int
    requires forall i :: 0 <= i < |ifs| ==> GoodIface(ifs[i])
  {
    if ifs == [] then 0
    else
      var last := ifs[|ifs| - 1];
      assert GoodIface(last);
      Transmitted(ifs[..|ifs| - 1]) + (if last.name == "lo" then 0 else last.counters[8])
  }

  function IfaceLines(ifs: seq<Iface>): (lines: seq<string>)
    requires forall i :: 0 <= i < |ifs| ==> GoodIface(ifs[i])
    ensures |lines| == |ifs|
  {
    seq(|ifs|, i requires 0 <= i < |ifs| => IfaceLine(ifs[i]))
  }

  lemma HeaderCountsNothing(line: string)
    requires ColonIndex(line) == None
    ensures NetLineOK(line) && LineTraffic(line) == Traffic(0, 0)
  {
  }

  lemma {:induction false} HeadersCountNothing(headers: seq<string>)
    requires forall i :: 0 <= i < |headers| ==> ColonIndex(headers[i]) == None
    ensures TotalTraffic(headers) == Traffic(0, 0)
  {
    hide ColonIndex, LineTraffic;
    if headers != [] {
      HeadersCountNothing(headers[..|headers| - 1]);
      HeaderCountsNothing(headers[|headers| - 1]);
    }
  }

  lemma {:induction false} TrafficOfIfaces(headers: seq<string>, ifs: seq<Iface>)
    requires forall i :: 0 <= i < |headers| ==> ColonIndex(headers[i]) == None
    requires forall i :: 0 <= i < |ifs| ==> GoodIface(ifs[i])
    ensures TotalTraffic(headers + IfaceLines(ifs)) == Traffic(Received(ifs), Transmitted(ifs))
    decreases |ifs|
  {
    hide ColonIndex, LineTraffic, GoodIface, IfaceLine;
    var lines := headers + IfaceLines(ifs);
    if ifs == [] {
      HeadersCountNothing(headers);
      assert lines == headers;
    } else {
      var front := ifs[..|ifs| - 1];
      TrafficOfIfaces(headers, front);
      NetLineRead(ifs[|ifs| - 1]);
      GoodCounters(ifs[|ifs| - 1]);
      assert lines[..|lines| - 1] == headers + IfaceLines(front);
    }
  }

  lemma GoodCounters(i: Iface)
    requires GoodIface(i)
    ensures |i.counters| >= 9
  {
  }

  /** A file of header lines without a colon and interface lines is read as the received and transmitted bytes of all
      interfaces but the loopback, unless one of the sums exceeds 2^63 - 1. */
  lemma NetFileRead(headers: seq<string>, ifs: seq<Iface>)
    requires forall i :: 0 <= i < |headers| ==> ColonIndex(headers[i]) == None
    requires forall i :: 0 <= i < |ifs| ==> GoodIface(ifs[i])
    ensures var file := Some(Text(headers + IfaceLines(ifs), false));
            && (GoodNet(file) <==>
                 Received(ifs) <= 9_223_372_036_854_775_807 && Transmitted(ifs) <= 9_223_372_036_854_775_807)
            && TotalTraffic(file.value.lines) == Traffic(Received(ifs), Transmitted(ifs))
  {
    hide ColonIndex, LineTraffic, GoodIface, IfaceLine, NetLineOK, TotalTraffic;
    TrafficOfIfaces(headers, ifs);
    var lines := headers + IfaceLines(ifs);
    forall i | 0 <= i < |lines| ensures NetLineOK(lines[i]) {
      if i < |headers| {
        HeaderCountsNothing(headers[i]);
      } else {
        NetLineRead(ifs[i - |headers|]);
      }
    }
  }

  // ---------- /proc/meminfo ----------

  /** A line with this key and this many kilobytes. */
  function MemLine(key: string, kb: nat, gaps: seq<string>): string
    requires |gaps| == 3
  {
    Laid([key, Render(kb), "kB"], gaps)
  }

  lemma MemLineRead(key: string, kb: nat, gaps: seq<string>, least: int)
    requires |gaps| == 3 && Apart([key, Render(kb), "kB"], gaps)
    ensures key <= MemLine(key, kb, gaps)
    ensures Kilobytes(MemLine(key, kb, gaps), key, least) ==
            if least <= kb <= 9_007_199_254_740_991 then Some(kb) else None
  {
    hide Fields, ParseInt;
    var words := [key, Render(kb), "kB"];
    FieldsOfLaid(words, gaps);
    NumbersReadBack(kb);
    var rest := gaps[0] + Laid(words[1..], gaps[1..]);
    assert Laid(words, gaps) == key + gaps[0] + Laid(words[1..], gaps[1..]);
    assert Laid(words, gaps)[..|key|] == key;
  }

  lemma {:induction false} LastBytesAt(lines: seq<string>, i: nat, key: string, least: int)
    requires i < |lines| && key <= lines[i] && Kilobytes(lines[i], key, least).Some?
    requires forall k :: i < k < |lines| ==> !(key <= lines[k])
    ensures LastBytes(lines, key, least) == Some(Kilobytes(lines[i], key, least).value * 1024)
    decreases |lines|
  {
    hide Kilobytes;
    if i < |lines| - 1 {
      LastBytesAt(lines[..|lines| - 1], i, key, least);
    }
  }

  predicate MentionsMemory(line: string) {
    "MemTotal:" <= line || "MemAvailable:" <= line
  }

  /** A file with one total line and one available line, among any others, is read as these many kilobytes times 1024.
      */
  lemma MemFileRead(lines: seq<string>, i: nat, j: nat, total: nat, available: nat, g: seq<string>, h: seq<string>)
    requires i < |lines| && j < |lines| && i != j && |g| == 3 && |h| == 3
    requires Apart(["MemTotal:", Render(total), "kB"], g) && Apart(["MemAvailable:", Render(available), "kB"], h)
    requires lines[i] == MemLine("MemTotal:", total, g) && lines[j] == MemLine("MemAvailable:", available, h)
    requires forall k :: 0 <= k < |lines| && k != i && k != j ==> !MentionsMemory(lines[k])
    requires 1 <= total <= 9_007_199_254_740_991 && available <= total
    ensures GoodMem(Some(Text(lines, false)))
    ensures LastBytes(lines, "MemTotal:", 1) == Some(total * 1024)
    ensures LastBytes(lines, "MemAvailable:", 0) == Some(available * 1024)
  {
    hide Kilobytes, MemLine, Apart, LastBytes;
    MemLineRead("MemTotal:", total, g, 1);
    MemLineRead("MemAvailable:", available, h, 0);
    PrefixesDiffer(lines[i]);
    PrefixesDiffer(lines[j]);
    LastBytesAt(lines, i, "MemTotal:", 1);
    LastBytesAt(lines, j, "MemAvailable:", 0);
  }

  // ---------- nothing else is a number ----------

  lemma {:induction false} DecimalExactly(s: string)
    ensures Decimal(s).Some? <==> AllDigits(s)
  {
    if s != "" {
      DecimalExactly(s[..|s| - 1]);
      if AllDigits(s) {
        assert AllDigits(s[..|s| - 1]);
      }
      if AllDigits(s[..|s| - 1]) && '0' <= s[|s| - 1] <= '9' {
        assert forall i :: 0 <= i < |s| - 1 ==> s[i] == s[..|s| - 1][i];
      }
    }
  }

  /** A text is an unsigned counter exactly if it is one or more digits whose value fits 64 bits. */
  lemma CountersExactly(s: string)
    ensures Decimal(s).Some? <==> AllDigits(s)
    ensures ParseUint(s).Some? <==> s != "" && Decimal(s).Some? && Decimal(s).value <= 18_446_744_073_709_551_615
  {
    DecimalExactly(s);
  }

  // ---------- which lines and files are refused ----------

  predicate IsCounter(s: string) {
    ParseUint(s).Some?
  }

  /** Of a line of `cpu` and any words, the reader refuses exactly those with fewer than four words after it, one among
      the first eight that is no counter, or too large a sum. */
  lemma StatLineExactly(words: seq<string>, gaps: seq<string>)
    requires Apart(["cpu"] + words, gaps) && gaps[0] != "" && gaps[0][0] == ' '
    ensures var line := Laid(["cpu"] + words, gaps);
            GoodStat(Some(line)) <==>
              && |words| >= 4 && (forall i :: 0 <= i < |words| && i < 8 ==> IsCounter(words[i]))
              && Idle(["cpu"] + words) + Busy(["cpu"] + words) <= 18_446_744_073_709_551_615
  {
    hide Fields, ParseUint, Laid, Idle, Busy, CountersParse, IsCounter;
    var all := ["cpu"] + words;
    FieldsOfLaid(all, gaps);
    StartsWithCpu(all, gaps);
    ParseExactly(words);
  }

  lemma ParseExactly(words: seq<string>)
    ensures CountersParse(["cpu"] + words) <==>
              |words| >= 4 && forall i :: 0 <= i < |words| && i < 8 ==> IsCounter(words[i])
  {
    hide ParseUint;
    var all := ["cpu"] + words;
    if CountersParse(all) {
      forall i | 0 <= i < |words| && i < 8 ensures IsCounter(words[i]) {
        assert all[i + 1] == words[i];
      }
    } else if |words| >= 4 {
      var i :| 1 <= i < |all| && i <= 8 && ParseUint(all[i]).None?;
      assert all[i] == words[i - 1];
      assert !IsCounter(words[i - 1]);
    }
  }

  /** Of the lines of an interface that is not the loopback, exactly those with fewer than nine words, or a first or
      ninth that is no counter, are refused; of the loopback's none is. */
  lemma NetLineExactly(pad: string, name: string, gap: string, words: seq<string>, gaps: seq<string>)
    requires Blank(pad) && Word(name) && ':' !in name && Blank(gap) && Apart(words, gaps)
    ensures NetLineOK(pad + name + ":" + gap + Laid(words, gaps)) <==>
              name == "lo" || (|words| >= 9 && IsCounter(words[0]) && IsCounter(words[8]))
  {
    hide Fields, ParseUint, Laid, TrimSpace, ColonIndex;
    var head, tail := pad + name, gap + Laid(words, gaps);
    var line := pad + name + ":" + gap + Laid(words, gaps);
    assert line == head + ":" + tail;
    forall k | 0 <= k < |head| ensures head[k] != ':' {
    }
    ColonAfter(head, tail);
    TrimsName(pad, name);
    assert line[..|head|] == head && line[|head| + 1..] == tail;
    FieldsSkip(gap, Laid(words, gaps));
    FieldsOfLaid(words, gaps);
  }

  /** A line with a memory key is good exactly if it is the key, a number in range, and kB. */
  lemma MemLineExactly(key: string, words: seq<string>, gaps: seq<string>, least: int)
    requires Apart(words, gaps) && words != [] && least >= 0
    ensures Kilobytes(Laid(words, gaps), key, least).Some? <==>
              && |words| == 3 && words[0] == key && words[2] == "kB"
              && ParseInt(words[1]).Some? && least <= ParseInt(words[1]).value <= 9_007_199_254_740_991
  {
    hide Fields, ParseInt, Laid;
    FieldsOfLaid(words, gaps);
  }

  /** A file that cannot be read, or whose scan fails, is refused, and so is a file with a bad line anywhere. */
  lemma BadFilesAreRefused(lines: seq<string>, i: nat)
    ensures !GoodStat(None) && !GoodMem(None) && !GoodNet(None)
    ensures !GoodMem(Some(Text(lines, true))) && !GoodNet(Some(Text(lines, true)))
    ensures i < |lines| && "MemTotal:" <= lines[i] && Kilobytes(lines[i], "MemTotal:", 1) == None ==>
              !GoodMem(Some(Text(lines, false)))
    ensures i < |lines| && "MemAvailable:" <= lines[i] && Kilobytes(lines[i], "MemAvailable:", 0) == None ==>
              !GoodMem(Some(Text(lines, false)))
    ensures i < |lines| && !NetLineOK(lines[i]) ==> !GoodNet(Some(Text(lines, false)))
  {
    hide Kilobytes, NetLineOK, LastBytes, TotalTraffic;
    if i < |lines| {
      PrefixesDiffer(lines[i]);
    }
  }
}
