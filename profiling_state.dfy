/**
 * The profiler's aggregation state (ProfilingState): per "Class#method" key, the total
 * time spent, the space-separated ids of the threads it ran on, and the number of calls;
 * and the report that lists the three maps, each sorted by key.
 *
 * Durations are whole nanoseconds. A Writer is modelled as the sequence of strings
 * written to it.
 */
module Profiler {
  import opened Wrappers
  import opened Strings

  const NanosPerMilli: nat := 1_000_000
  const NanosPerSecond: nat := 1_000_000_000

  /** The line separator every report entry ends with. */
  const LineSeparator: string := "\n"

  /** formatMethodCall: the class name and the method name joined by '#'. */
  function FormatMethodCall(className: string, methodName: string): (key: string)
    ensures |key| == |className| + 1 + |methodName|
    ensures key[..|className|] == className && key[|className|] == '#' && key[|className| + 1..] == methodName
  {
    className + "#" + methodName
  }

  /**
   * Java class names contain no '#', so distinct (class, method) pairs get distinct keys
   * and each key aggregates the calls of exactly one method.
   */
  lemma MethodCallKeyInjective(c1: string, m1: string, c2: string, m2: string)
    requires '#' !in c1 && '#' !in c2
    requires FormatMethodCall(c1, m1) == FormatMethodCall(c2, m2)
    ensures c1 == c2 && m1 == m2
  {
    var key := FormatMethodCall(c1, m1);
    assert forall i :: 0 <= i < |c1| ==> key[i] == c1[i] != '#';
    assert forall i :: 0 <= i < |c2| ==> key[i] == c2[i] != '#';
    assert |c1| == |c2|;
  }

  /** Duration.toMinutes(), toSecondsPart() and toMillisPart() of a duration. */
  datatype DurationParts = DurationParts(minutes: nat, seconds: nat, millis: nat)

  function Parts(nanos: nat): (p: DurationParts)
    ensures p.seconds < 60 && p.millis < 1000
    ensures nanos / NanosPerMilli == (p.minutes * 60 + p.seconds) * 1000 + p.millis
  {
    var totalSeconds := nanos / NanosPerSecond;
    var p := DurationParts(totalSeconds / 60, totalSeconds % 60, (nanos % NanosPerSecond) / NanosPerMilli);
    PartsRecompose(nanos);
    p
  }

  lemma PartsRecompose(nanos: nat)
    ensures var totalSeconds := nanos / NanosPerSecond;
      nanos / NanosPerMilli == ((totalSeconds / 60) * 60 + totalSeconds % 60) * 1000 + (nanos % NanosPerSecond) / NanosPerMilli
  {
    var totalSeconds := nanos / NanosPerSecond;
    var rest := nanos % NanosPerSecond;
    var millis := rest / NanosPerMilli;
    assert nanos == totalSeconds * 1_000_000_000 + rest && 0 <= rest < 1_000_000_000;
    assert rest == millis * 1_000_000 + rest % NanosPerMilli;
    assert nanos == (totalSeconds * 1000 + millis) * 1_000_000 + rest % NanosPerMilli;
    assert nanos / NanosPerMilli == totalSeconds * 1000 + millis;
    assert totalSeconds == (totalSeconds / 60) * 60 + totalSeconds % 60;
  }

  predicate StartsWith(s: string, prefix: string)
  {
    |prefix| <= |s| && s[..|prefix|] == prefix
  }

  /**
   * Reads a numeral as `%s` prints it (no leading zero) followed by `unit`, giving its
   * value and what follows.
   */
  function ParseField(s: string, unit: string): Option<(nat, string)>
  {
    var k := DigitSpan(s);
    if k == 0 || (k > 1 && s[0] == '0') || !StartsWith(s[k..], unit) then None
    else Some((DecimalValue(s[..k]), s[k + |unit|..]))
  }

  lemma ParseFieldOf(digits: string, unit: string, rest: string)
    requires Canonical(digits)
    requires unit != [] && !IsDigit(unit[0])
    ensures ParseField(digits + unit + rest, unit) == Some((DecimalValue(digits), rest))
  {
    var s := digits + unit + rest;
    assert s == digits + (unit + rest);
    DigitSpanOfNumeral(digits, unit + rest);
    assert s[..|digits|] == digits;
    assert s[|digits|..] == unit + rest;
    assert s[|digits|..][..|unit|] == unit;
    assert s[|digits| + |unit|..] == rest;
  }

  /** Only the canonical numeral of the value, then `unit`, parses to that value. */
  lemma ParseFieldExact(s: string, unit: string, v: nat, rest: string)
    requires ParseField(s, unit) == Some((v, rest))
    ensures s == DecimalString(v) + unit + rest
  {
    var k := DigitSpan(s);
    CanonicalNumeral(s[..k]);
    assert s == s[..k] + s[k..];
    assert s[k..] == unit + rest;
  }

  /** Reads "<digits>m <digits>s <digits>ms" back into its three numbers. */
  function ParseDuration(s: string): Option<DurationParts>
  {
    match ParseField(s, "m ")
    case None => None
    case Some((minutes, afterMinutes)) =>
      match ParseField(afterMinutes, "s ")
      case None => None
      case Some((seconds, afterSeconds)) =>
        match ParseField(afterSeconds, "ms")
        case None => None
        case Some((millis, tail)) => if tail == [] then Some(DurationParts(minutes, seconds, millis)) else None
  }

  /** The text "<minutes>m <seconds>s <millis>ms" of three duration parts. */
  function DurationText(p: DurationParts): string
  {
    DecimalString(p.minutes) + "m " + DecimalString(p.seconds) + "s " + DecimalString(p.millis) + "ms"
  }

  lemma DurationTextRoundTrip(p: DurationParts)
    ensures ParseDuration(DurationText(p)) == Some(p)
  {
    var a, b, c := DecimalString(p.minutes), DecimalString(p.seconds), DecimalString(p.millis);
    var afterSeconds := c + "ms";
    var afterMinutes := b + "s " + afterSeconds;
    var text := DurationText(p);
    assert text == a + "m " + afterMinutes by {
      assert text == a + "m " + b + "s " + c + "ms";
    }
    assert ParseField(text, "m ") == Some((p.minutes, afterMinutes)) by {
      ParseFieldOf(a, "m ", afterMinutes);
      DecimalRoundTrip(p.minutes);
    }
    assert ParseField(afterMinutes, "s ") == Some((p.seconds, afterSeconds)) by {
      ParseFieldOf(b, "s ", afterSeconds);
      DecimalRoundTrip(p.seconds);
    }
    assert ParseField(afterSeconds, "ms") == Some((p.millis, [])) by {
      assert afterSeconds == c + "ms" + [];
      ParseFieldOf(c, "ms", []);
      DecimalRoundTrip(p.millis);
    }
    ParseDurationOf(text, p, afterMinutes, afterSeconds);
  }

  /** The only text that reads back as the parts p is DurationText(p). */
  lemma ParseDurationExact(s: string, p: DurationParts)
    requires ParseDuration(s) == Some(p)
    ensures s == DurationText(p)
  {
    var (minutes, afterMinutes) := ParseField(s, "m ").value;
    var (seconds, afterSeconds) := ParseField(afterMinutes, "s ").value;
    var (millis, tail) := ParseField(afterSeconds, "ms").value;
    ParseFieldExact(s, "m ", minutes, afterMinutes);
    ParseFieldExact(afterMinutes, "s ", seconds, afterSeconds);
    ParseFieldExact(afterSeconds, "ms", millis, tail);
    DurationTextOf(s, p, afterMinutes, afterSeconds);
  }

  lemma DurationTextOf(s: string, p: DurationParts, afterMinutes: string, afterSeconds: string)
    requires s == DecimalString(p.minutes) + "m " + afterMinutes
    requires afterMinutes == DecimalString(p.seconds) + "s " + afterSeconds
    requires afterSeconds == DecimalString(p.millis) + "ms" + []
    ensures s == DurationText(p)
  {
    assert afterSeconds == DecimalString(p.millis) + "ms";
  }

  /** ParseDuration succeeds when its three fields parse one after another and nothing is left. */
  lemma ParseDurationOf(s: string, p: DurationParts, afterMinutes: string, afterSeconds: string)
    requires ParseField(s, "m ") == Some((p.minutes, afterMinutes))
    requires ParseField(afterMinutes, "s ") == Some((p.seconds, afterSeconds))
    requires ParseField(afterSeconds, "ms") == Some((p.millis, []))
    ensures ParseDuration(s) == Some(p)
  {
  }

  /**
   * formatDuration: the duration as "<minutes>m <seconds>s <millis>ms". Reading the text
   * back gives exactly its minutes, seconds part and millis part.
   */
  function FormatDuration(nanos: nat): (s: string)
    ensures ParseDuration(s) == Some(Parts(nanos))
  {
    DurationTextRoundTrip(Parts(nanos));
    DurationText(Parts(nanos))
  }

  // ---------------------------------------------------------------------------
  // The report.
  // ---------------------------------------------------------------------------

  /** A data entry: the key, " took ", the formatted total, the separator. */
  function DataLine(key: string, total: nat): (line: string)
    ensures |line| > |key| + 6
    ensures StartsWith(line, key + " took ") && line[|line| - 1..] == LineSeparator
    ensures ParseDuration(line[|key| + 6..|line| - 1]) == Some(Parts(total))
  {
    var head, d := key + " took ", FormatDuration(total);
    var line := head + d + LineSeparator;
    assert |head| == |key| + 6 && |line| == |head| + |d| + 1;
    assert line[..|head|] == head;
    assert line[|head|..|line| - 1] == d;
    line
  }

  /** A thread entry: the key, " executed on threads ", the thread ids, the separator. */
  function ThreadLine(key: string, threadIds: string): (line: string)
    ensures |line| == |key| + 22 + |threadIds|
    ensures StartsWith(line, key + " executed on threads ") && line[|line| - 1..] == LineSeparator
    ensures line[|key| + 21..|line| - 1] == threadIds
  {
    key + " executed on threads " + threadIds + LineSeparator
  }

  /** A call-count entry: the key, " was executed for ", the count, " times ", the separator. */
  function FreqLine(key: string, calls: nat): (line: string)
    ensures |line| > |key| + 26
    ensures StartsWith(line, key + " was executed for ") && line[|line| - 8..] == " times " + LineSeparator
    ensures var numeral := line[|key| + 18..|line| - 8];
      Canonical(numeral) && DecimalValue(numeral) == calls
  {
    var numeral := DecimalString(calls);
    var line := key + " was executed for " + numeral + " times " + LineSeparator;
    assert line[|key| + 18..|line| - 8] == numeral;
    DecimalRoundTrip(calls);
    line
  }

  /** One line per key of `keys`, in that order, rendering the key's entry of `m`. */
  function Lines<V>(m: map<string, V>, keys: seq<string>, line: (string, V) -> string): (r: seq<string>)
    requires forall k :: k in keys ==> k in m
    decreases |keys|
  {
    if keys == [] then [] else [line(keys[0], m[keys[0]])] + Lines(m, keys[1..], line)
  }

  lemma {:induction false} LinesAt<V>(m: map<string, V>, keys: seq<string>, line: (string, V) -> string, i: nat)
    requires forall k :: k in keys ==> k in m
    requires i < |keys|
    ensures |Lines(m, keys, line)| == |keys| && Lines(m, keys, line)[i] == line(keys[i], m[keys[i]])
    decreases |keys|
  {
    LinesLength(m, keys, line);
    if i > 0 {
      LinesAt(m, keys[1..], line, i - 1);
    }
  }

  lemma {:induction false} LinesLength<V>(m: map<string, V>, keys: seq<string>, line: (string, V) -> string)
    requires forall k :: k in keys ==> k in m
    ensures |Lines(m, keys, line)| == |keys|
    decreases |keys|
  {
    if keys != [] {
      LinesLength(m, keys[1..], line);
    }
  }

  /** Everything write() sends to the writer: data lines, then thread lines, then call-count lines. */
  ghost function Report(data: map<string, nat>, threads: map<string, string>, freq: map<string, nat>): seq<string>
  {
    SortedKeysSorted(data.Keys);
    SortedKeysSorted(threads.Keys);
    SortedKeysSorted(freq.Keys);
    Lines(data, SortedKeys(data.Keys), DataLine)
      + Lines(threads, SortedKeys(threads.Keys), ThreadLine)
      + Lines(freq, SortedKeys(freq.Keys), FreqLine)
  }

  /** The three maps record the same methods. */
  predicate SameKeys(data: map<string, nat>, threads: map<string, string>, freq: map<string, nat>)
  {
    data.Keys == threads.Keys == freq.Keys
  }

  /**
   * The layout of the report when the three maps share their keys: with the keys in
   * ascending order ks and n of them, line i is the total time of ks[i], line n + i the
   * threads of ks[i] and line 2n + i the call count of ks[i].
   */
  ghost predicate ReportLayoutAt(data: map<string, nat>, threads: map<string, string>, freq: map<string, nat>, i: nat)
  {
    var ks := SortedKeys(data.Keys); var n := |data|; var r := Report(data, threads, freq);
    && SameKeys(data, threads, freq) && i < n
    && |r| == 3 * n
    && |ks| == n && (forall k :: k in ks <==> k in data)
    && StrictlySorted(ks)
    && r[i] == DataLine(ks[i], data[ks[i]])
    && r[n + i] == ThreadLine(ks[i], threads[ks[i]])
    && r[2 * n + i] == FreqLine(ks[i], freq[ks[i]])
  }

  lemma ReportLayout(data: map<string, nat>, threads: map<string, string>, freq: map<string, nat>, i: nat)
    requires SameKeys(data, threads, freq)
    requires i < |data|
    ensures ReportLayoutAt(data, threads, freq, i)
  {
    var ks := SortedKeys(data.Keys);
    SortedKeysSorted(data.Keys);
    assert |data.Keys| == |data|;
    LinesAt(data, ks, DataLine, i);
    LinesAt(threads, ks, ThreadLine, i);
    LinesAt(freq, ks, FreqLine, i);
  }

  /** A java.io.Writer, as the sequence of strings written to it. */
  class Writer {
    var written: seq<string>

    constructor ()
      ensures written == []
    {
      written := [];
    }

    method Write(s: string)
      modifies this
      ensures written == old(written) + [s]
    {
      written := written + [s];
    }
  }

  class ProfilingState {
    var data: map<string, nat>
    var threads: map<string, string>
    var freq: map<string, nat>

    /** The three maps always record the same methods. */
    ghost predicate Valid()
      reads this
    {
      SameKeys(data, threads, freq)
    }

    constructor ()
      ensures Valid() && data == map[] && threads == map[] && freq == map[]
    {
      data, threads, freq := map[], map[], map[];
    }

    /**
     * record: a negative elapsed time is refused before anything changes; otherwise the
     * method's key gets the time added, one more call counted and the thread id appended.
     */
    method Record(className: string, methodName: string, elapsed: int, threadId: string)
      returns (outcome: Outcome<string>)
      requires Valid()
      modifies this
      ensures Valid()
      ensures elapsed < 0 ==>
        outcome == Fail("negative elapsed time")
        && data == old(data) && threads == old(threads) && freq == old(freq)
      ensures elapsed >= 0 ==>
        var key := FormatMethodCall(className, methodName);
        && outcome == Pass
        && data == old(data)[key := if key in old(data) then old(data)[key] + elapsed else elapsed]
        && freq == old(freq)[key := if key in old(freq) then old(freq)[key] + 1 else 1]
        && threads == old(threads)[key := if key in old(threads) then old(threads)[key] + " " + threadId else threadId]
    {
      if elapsed < 0 {
        return Fail("negative elapsed time");
      }
      var key := FormatMethodCall(className, methodName);
      data := data[key := if key in data then data[key] + elapsed else elapsed];
      freq := freq[key := if key in freq then freq[key] + 1 else 1];
      threads := threads[key := if key in threads then threads[key] + " " + threadId else threadId];
      return Pass;
    }

    /** write: the three sorted entry lists, written one after another. */
    method Write(writer: Writer)
      modifies writer
      ensures writer.written == old(writer.written) + Report(data, threads, freq)
    {
      SortedKeysSorted(data.Keys);
      SortedKeysSorted(threads.Keys);
      SortedKeysSorted(freq.Keys);
      var dataKeys := SortKeys(data.Keys);
      var entries := Lines(data, dataKeys, DataLine);
      var threadKeys := SortKeys(threads.Keys);
      var threadEntries := Lines(threads, threadKeys, ThreadLine);
      var freqKeys := SortKeys(freq.Keys);
      var freqEntries := Lines(freq, freqKeys, FreqLine);
      assert entries + threadEntries + freqEntries == Report(data, threads, freq);
      WriteSections(writer, entries, threadEntries, freqEntries);
    }

    /**
     * What Valid() buys the report: for a state record() has kept valid, the i-th method in
     * key order has its total at line i, its threads at line n + i and its calls at line 2n + i.
     */
    lemma ValidReportLayout(i: nat)
      requires Valid() && i < |data|
      ensures ReportLayoutAt(data, threads, freq, i)
    {
      var d, t, f := data, threads, freq;
      assert SameKeys(d, t, f);
      ReportLayout(d, t, f, i);
      assert ReportLayoutAt(d, t, f, i);
    }
  }

  /** write()'s three loops, one per entry list. */
  method WriteSections(writer: Writer, entries: seq<string>, threadEntries: seq<string>, freqEntries: seq<string>)
    modifies writer
    ensures writer.written == old(writer.written) + (entries + threadEntries + freqEntries)
  {
    WriteAll(writer, entries);
    WriteAll(writer, threadEntries);
    assert writer.written == old(writer.written) + (entries + threadEntries);
    WriteAll(writer, freqEntries);
  }

  /** One of write()'s loops: every entry, in order. */
  method WriteAll(writer: Writer, entries: seq<string>)
    modifies writer
    ensures writer.written == old(writer.written) + entries
  {
    for i := 0 to |entries|
      invariant writer.written == old(writer.written) + entries[..i]
    {
      writer.Write(entries[i]);
    }
    assert entries[..|entries|] == entries;
  }

  /**
   * Three one-second calls of the same method add up to three seconds, which the report
   * gives as 0 minutes, 3 seconds and 0 milliseconds.
   */
  method ThreeOneSecondCalls() returns (total: nat)
    ensures total == 3 * NanosPerSecond
    ensures Parts(total) == DurationParts(0, 3, 0)
  {
    var state := new ProfilingState();
    var _ := state.Record("Crawler", "crawl", NanosPerSecond, "1");
    var _ := state.Record("Crawler", "crawl", NanosPerSecond, "2");
    var _ := state.Record("Crawler", "crawl", NanosPerSecond, "1");
    total := state.data[FormatMethodCall("Crawler", "crawl")];
  }
}
