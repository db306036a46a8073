/** Collecting the log lines of one invocation from the container's stream. */
module LogCollection {
  import opened Common
  import opened Text

  datatype Stream = Stdout | Stderr

  function StreamName(stream: Stream): string { if stream == Stdout then "stdout" else "stderr" }

  /** A line of the container. The stamp is the time, already formatted. */
  datatype LogLine = LogLine(stream: Stream, stamp: string, message: string, isSentinel: bool)

  function Pad(s: string, width: nat): string
    decreases width - |s|
  {
    if |s| >= width then s else Pad(s + " ", width)
  }

  /** `formatLog`. */
  function FormatLog(stamp: string, stream: Stream, message: string): string {
    Pad(stamp, 30) + " " + StreamName(stream) + ": " + message
  }

  function TruncationNotice(now: string, limit: nat): string {
    FormatLog(now, Stderr, "Logs were truncated because the total bytes size exceeds the limit of " + Decimal(limit) + " bytes.")
  }

  lemma {:induction false} PadFills(s: string, width: nat) returns (spaces: string)
    ensures Pad(s, width) == s + spaces && (forall i :: 0 <= i < |spaces| ==> spaces[i] == ' ')
    ensures |s + spaces| == if |s| < width then width else |s|
    decreases width - |s|
  {
    if |s| >= width {
      spaces := "";
    } else {
      var rest := PadFills(s + " ", width);
      spaces := " " + rest;
      assert s + " " + rest == s + spaces;
    }
  }

  /** A formatted line: the time, filled up to thirty characters, the stream and the message. */
  lemma FormatInFull(stamp: string, stream: Stream, message: string) returns (spaces: string)
    ensures FormatLog(stamp, stream, message) == stamp + spaces + " " + (if stream == Stdout then "stdout" else "stderr") + ": " + message
    ensures (forall i :: 0 <= i < |spaces| ==> spaces[i] == ' ') && |stamp| + |spaces| == if |stamp| < 30 then 30 else |stamp|
  {
    spaces := PadFills(stamp, 30);
  }

  /** The notice that replaces what does not fit. */
  lemma NoticeInFull(now: string, limit: nat)
    ensures TruncationNotice(now, limit)
         == FormatLog(now, Stderr, "Logs were truncated because the total bytes size exceeds the limit of " + Decimal(limit) + " bytes.")
  {
    hide FormatLog, Decimal;
  }

  // ---------------------------------------------------------------- what belongs to an invocation

  predicate HasSentinel(lines: seq<LogLine>, stream: Stream) {
    exists i :: 0 <= i < |lines| && lines[i].isSentinel && lines[i].stream == stream
  }

  predicate Complete(lines: seq<LogLine>) { HasSentinel(lines, Stdout) && HasSentinel(lines, Stderr) }

  /** The lines up to the point where the sentinels of both streams have been seen. */
  predicate IsSegment(lines: seq<LogLine>) {
    Complete(lines) && forall n :: 0 <= n < |lines| ==> !Complete(lines[..n])
  }

  /** The last line of a segment is the sentinel of one stream, the first of it, and the other stream's
      sentinel came before. */
  lemma SegmentInFull(lines: seq<LogLine>)
    ensures IsSegment(lines) <==>
      && lines != [] && lines[|lines| - 1].isSentinel
      && (exists i :: 0 <= i < |lines| - 1 && lines[i].isSentinel && lines[i].stream != lines[|lines| - 1].stream)
      && (forall i :: 0 <= i < |lines| - 1 && lines[i].isSentinel ==> lines[i].stream != lines[|lines| - 1].stream)
  {
    if lines != [] {
      var front, last := lines[..|lines| - 1], lines[|lines| - 1];
      FrontSentinels(lines);
      forall n | 0 <= n < |lines| ensures Complete(lines[..n]) ==> Complete(front) {
        forall stream | HasSentinel(lines[..n], stream) ensures HasSentinel(front, stream) {
          var i :| 0 <= i < n && lines[..n][i].isSentinel && lines[..n][i].stream == stream;
          assert front[i] == lines[i];
        }
      }
      assert lines[..|lines| - 1] == front;
    }
  }

  lemma FrontSentinels(lines: seq<LogLine>)
    requires lines != []
    ensures var front, last := lines[..|lines| - 1], lines[|lines| - 1];
      && (forall stream :: HasSentinel(lines, stream) <==> HasSentinel(front, stream) || (last.isSentinel && last.stream == stream))
      && (forall stream :: HasSentinel(front, stream) <==> exists i :: 0 <= i < |lines| - 1 && lines[i].isSentinel && lines[i].stream == stream)
  {
    var front, last := lines[..|lines| - 1], lines[|lines| - 1];
    assert forall i :: 0 <= i < |front| ==> front[i] == lines[i];
    forall stream ensures HasSentinel(lines, stream) <==> HasSentinel(front, stream) || (last.isSentinel && last.stream == stream) {
      if HasSentinel(front, stream) {
        var i :| 0 <= i < |front| && front[i].isSentinel && front[i].stream == stream;
        assert lines[i].isSentinel;
      }
    }
  }

  /** The formatted lines that are no sentinels. */
  function Formatted(lines: seq<LogLine>): seq<string> {
    if lines == [] then []
    else
      var last := lines[|lines| - 1];
      Formatted(lines[..|lines| - 1]) + if last.isSentinel then [] else [FormatLog(last.stamp, last.stream, last.message)]
  }

  /** Every line that is no sentinel is formatted, in order, and nothing else. */
  lemma {:induction false} FormattedInFull(lines: seq<LogLine>)
    ensures var messages := Filter((x: LogLine) => !x.isSentinel, lines);
      && |Formatted(lines)| == |messages|
      && forall i :: 0 <= i < |messages| ==> Formatted(lines)[i] == FormatLog(messages[i].stamp, messages[i].stream, messages[i].message)
  {
    if lines != [] {
      var before, last := lines[..|lines| - 1], lines[|lines| - 1];
      FormattedInFull(before);
      FilterAppend((x: LogLine) => !x.isSentinel, before, [last]);
      assert lines == before + [last] && [last][1..] == [];
    }
  }

  /** `n` lines fit the limit and no longer prefix does. */
  predicate LongestPrefix(lines: seq<string>, limit: nat, n: nat) {
    n <= |lines| && Bytes(lines[..n]) <= limit && (n < |lines| ==> limit < Bytes(lines[..n + 1]))
  }

  lemma {:induction false} BytesGrow(lines: seq<string>, m: nat, n: nat)
    requires m <= n <= |lines|
    ensures Bytes(lines[..m]) <= Bytes(lines[..n])
    decreases n
  {
    if m < n {
      BytesGrow(lines, m, n - 1);
      assert lines[..n][..n - 1] == lines[..n - 1];
    }
  }

  /** Every prefix that fits is at most as long: the longest one is unique. */
  lemma LongestIsLongest(lines: seq<string>, limit: nat, n: nat, m: nat)
    requires LongestPrefix(lines, limit, n) && m <= |lines|
    ensures Bytes(lines[..m]) <= limit <==> m <= n
  {
    if m <= n { BytesGrow(lines, m, n); } else { BytesGrow(lines, n + 1, m); }
  }

  // ---------------------------------------------------------------- collecting

  /** `collectLogs`. The channel offers `rawLogs`; the context is canceled once `stop` lines were
      received, if the collection is not over by then. Returns what was collected and how many lines
      were taken off the channel. */
  method CollectLogs(rawLogs: seq<LogLine>, stop: nat, limit: nat, now: string)
      returns (logs: seq<string>, consumed: nat, kept: nat, complete: bool)
    requires stop <= |rawLogs|
    ensures consumed <= stop
    ensures complete <==> Complete(rawLogs[..stop])
    ensures if complete then IsSegment(rawLogs[..consumed]) else consumed == stop
    ensures LongestPrefix(Formatted(rawLogs[..consumed]), limit, kept)
    ensures logs == Formatted(rawLogs[..consumed])[..kept]
                  + if kept < |Formatted(rawLogs[..consumed])| then [TruncationNotice(now, limit)] else []
  {
    hide FormatLog, Formatted, Progress, HasSentinel, LongestPrefix, TruncationNotice;
    logs, consumed, kept := [], 0, 0;
    var logsCollected: nat := 0;
    var logsExceeded := false;
    var stdoutSentinelFound, stderrSentinelFound := false, false;
    NoProgress(rawLogs, limit, now);
    while !stdoutSentinelFound || !stderrSentinelFound
      invariant consumed <= stop
      invariant stdoutSentinelFound <==> HasSentinel(rawLogs[..consumed], Stdout)
      invariant stderrSentinelFound <==> HasSentinel(rawLogs[..consumed], Stderr)
      invariant forall n :: 0 <= n < consumed ==> !Complete(rawLogs[..n])
      invariant Progress(Formatted(rawLogs[..consumed]), limit, now, kept, logsCollected, logsExceeded, logs)
      decreases stop - consumed
    {
      if consumed == stop {
        complete := false;
        Finished(Formatted(rawLogs[..consumed]), limit, now, kept, logsCollected, logsExceeded, logs);
        return;
      }
      var line := rawLogs[consumed];
      OneMoreLine(rawLogs, consumed);
      ghost var before := Formatted(rawLogs[..consumed]);
      consumed := consumed + 1;
      if line.isSentinel {
        if line.stream == Stdout {
          stdoutSentinelFound := true;
        } else {
          stderrSentinelFound := true;
        }
        continue;
      }
      var formatted := FormatLog(line.stamp, line.stream, line.message);
      OneMoreFormatted(before, formatted, limit, now, kept, logsCollected, logsExceeded, logs);
      if logsExceeded {
        continue;
      }
      if logsCollected + |formatted| > limit {
        logs := logs + [TruncationNotice(now, limit)];
        logsExceeded := true;
        continue;
      }
      logsCollected := logsCollected + |formatted|;
      logs := logs + [formatted];
      kept := kept + 1;
    }
    complete := true;
    forall n | 0 <= n < consumed ensures !Complete(rawLogs[..consumed][..n]) {
      assert rawLogs[..consumed][..n] == rawLogs[..n];
    }
    StaysComplete(rawLogs, consumed, stop);
    Finished(Formatted(rawLogs[..consumed]), limit, now, kept, logsCollected, logsExceeded, logs);
  }

  /** What the loop has made of the formatted lines so far. */
  ghost predicate Progress(lines: seq<string>, limit: nat, now: string, kept: nat, bytes: nat, exceeded: bool, logs: seq<string>) {
    && LongestPrefix(lines, limit, kept)
    && (exceeded <==> kept < |lines|)
    && bytes == Bytes(lines[..kept])
    && logs == lines[..kept] + if exceeded then [TruncationNotice(now, limit)] else []
  }

  lemma NoProgress(raw: seq<LogLine>, limit: nat, now: string)
    ensures Progress(Formatted(raw[..0]), limit, now, 0, 0, false, [])
    ensures !HasSentinel(raw[..0], Stdout) && !HasSentinel(raw[..0], Stderr)
  {
  }

  lemma Finished(lines: seq<string>, limit: nat, now: string, kept: nat, bytes: nat, exceeded: bool, logs: seq<string>)
    requires Progress(lines, limit, now, kept, bytes, exceeded, logs)
    ensures LongestPrefix(lines, limit, kept)
    ensures logs == lines[..kept] + if kept < |lines| then [TruncationNotice(now, limit)] else []
  {
  }

  lemma OneMoreFormatted(lines: seq<string>, x: string, limit: nat, now: string, kept: nat, bytes: nat, exceeded: bool, logs: seq<string>)
    requires Progress(lines, limit, now, kept, bytes, exceeded, logs)
    ensures exceeded ==> Progress(lines + [x], limit, now, kept, bytes, true, logs)
    ensures !exceeded && bytes + |x| > limit ==>
      Progress(lines + [x], limit, now, kept, bytes, true, logs + [TruncationNotice(now, limit)])
    ensures !exceeded && bytes + |x| <= limit ==> Progress(lines + [x], limit, now, kept + 1, bytes + |x|, false, logs + [x])
  {
    hide TruncationNotice;
    var all := lines + [x];
    assert all[..kept] == lines[..kept];
    if exceeded {
      assert all[..kept + 1] == lines[..kept + 1];
    } else {
      assert all[..kept + 1] == all && lines[..kept] == lines && all[..|all| - 1] == lines;
      assert lines + [] == lines && all + [] == all;
    }
  }

  /** What one more line changes. */
  lemma OneMoreLine(raw: seq<LogLine>, n: nat)
    requires n < |raw|
    ensures raw[..n + 1][..n] == raw[..n]
    ensures forall stream ::
      (HasSentinel(raw[..n + 1], stream) <==> HasSentinel(raw[..n], stream) || (raw[n].isSentinel && raw[n].stream == stream))
    ensures raw[n].isSentinel ==> Formatted(raw[..n + 1]) == Formatted(raw[..n])
    ensures !raw[n].isSentinel ==>
      Formatted(raw[..n + 1]) == Formatted(raw[..n]) + [FormatLog(raw[n].stamp, raw[n].stream, raw[n].message)]
  {
    hide FormatLog;
    forall stream
      ensures HasSentinel(raw[..n + 1], stream)
         <==> HasSentinel(raw[..n], stream) || (raw[n].isSentinel && raw[n].stream == stream)
    {
      if HasSentinel(raw[..n], stream) {
        var i :| 0 <= i < n && raw[..n][i].isSentinel && raw[..n][i].stream == stream;
        assert raw[..n + 1][i] == raw[i];
      }
      if raw[n].isSentinel && raw[n].stream == stream {
        assert raw[..n + 1][n] == raw[n];
      }
    }
    assert raw[..n + 1][..n] == raw[..n];
    assert Formatted(raw[..n]) + [] == Formatted(raw[..n]);
  }

  lemma StaysComplete(raw: seq<LogLine>, n: nat, m: nat)
    requires n <= m <= |raw|
    ensures Complete(raw[..n]) ==> Complete(raw[..m])
  {
    forall stream | HasSentinel(raw[..n], stream) ensures HasSentinel(raw[..m], stream) {
      var i :| 0 <= i < n && raw[..n][i].isSentinel && raw[..n][i].stream == stream;
      assert raw[..m][i] == raw[i];
    }
  }

  // ---------------------------------------------------------------- successive invocations

  /** Whatever follows it, a segment is what one complete collection takes off the channel. */
  lemma SegmentIsUnique(lines: seq<LogLine>, n: nat, m: nat)
    requires n <= |lines| && m <= |lines| && IsSegment(lines[..n]) && IsSegment(lines[..m])
    ensures n == m
  {
    var k := if n < m then n else m;
    assert lines[..n][..k] == lines[..k] && lines[..m][..k] == lines[..k];
  }

  /** Complete collections one after the other on one channel, taking `ns[0]`, `ns[1]`, ... lines. */
  predicate Calls(stream: seq<LogLine>, ns: seq<nat>)
    decreases |ns|
  {
    ns != [] ==> ns[0] <= |stream| && IsSegment(stream[..ns[0]]) && Calls(stream[ns[0]..], ns[1..])
  }

  /** The lines each collection takes. */
  function Taken(stream: seq<LogLine>, ns: seq<nat>): seq<seq<LogLine>>
    requires Calls(stream, ns)
    decreases |ns|
  {
    if ns == [] then [] else [stream[..ns[0]]] + Taken(stream[ns[0]..], ns[1..])
  }

  /** If every invocation writes one segment, every collection gets exactly the lines of its own
      invocation, whatever the lines are. */
  lemma {:induction false} CollectionsSplitAtSegments(segments: seq<seq<LogLine>>, ns: seq<nat>)
    requires forall i :: 0 <= i < |segments| ==> IsSegment(segments[i])
    requires |ns| <= |segments| && Calls(Flatten(segments), ns)
    ensures Taken(Flatten(segments), ns) == segments[..|ns|]
    decreases |ns|
  {
    hide IsSegment;
    if ns != [] {
      var stream := Flatten(segments);
      var first, rest := segments[0], Flatten(segments[1..]);
      assert stream == first + rest;
      assert stream[..|first|] == first && stream[|first|..] == rest;
      SegmentIsUnique(stream, ns[0], |first|);
      CollectionsSplitAtSegments(segments[1..], ns[1..]);
      assert segments[..|ns|] == [first] + segments[1..][..|ns| - 1];
    }
  }
}
