/**
 * The request log (`RequestLog.kt`): an immutable seven-field record with two rendering helpers,
 * and the bounded list of them the HTTP server keeps (`OcrHttpServer.logRequest`).
 */
module RequestLogs {
  import opened Text

  /** One served request. Equality is structural over all seven fields, as for a Kotlin data class. */
  datatype RequestLog = RequestLog(
    timestamp: int,
    httpMethod: string,
    path: string,
    statusCode: int,
    processingTimeMs: int,
    clientIp: string,
    responseSize: int)

  /** The constructor call without `responseSize`, which then takes its default 0. */
  function NewRequestLog(timestamp: int, httpMethod: string, path: string, statusCode: int,
                         processingTimeMs: int, clientIp: string): (r: RequestLog)
    ensures r.responseSize == 0
    ensures r.timestamp == timestamp && r.httpMethod == httpMethod && r.path == path
    ensures r.statusCode == statusCode && r.processingTimeMs == processingTimeMs && r.clientIp == clientIp
  {
    RequestLog(timestamp, httpMethod, path, statusCode, processingTimeMs, clientIp, 0)
  }

  const MsPerSecond: int := 1000
  const SecondsPerDay: int := 86400

  /** A number below 100 written with exactly two decimal digits. */
  function TwoDigits(n: nat): (r: string)
    requires n < 100
    ensures |r| == 2 && AllDigits(r) && DigitsValue(r) == n
  {
    var r := [DigitChar(n / 10), DigitChar(n % 10)];
    assert r[..1] == [DigitChar(n / 10)];
    assert r[..1][..0] == [];
    assert DigitsValue(r[..1]) == n / 10;
    r
  }

  /** The local second of the day of an instant; Java's calendar fields round towards the past. */
  function SecondOfDay(timestamp: int, zoneOffsetMs: int): (r: int)
    ensures 0 <= r < SecondsPerDay
  {
    ((timestamp + zoneOffsetMs) / MsPerSecond) % SecondsPerDay
  }

  /**
   * `getFormattedTimestamp`: the instant rendered with pattern `HH:mm:ss` in the default time zone,
   * whose offset from UTC at that instant is `zoneOffsetMs`.
   */
  function FormattedTimestamp(timestamp: int, zoneOffsetMs: int): (r: string)
    ensures |r| == 8 && r[2] == ':' && r[5] == ':'
    ensures AllDigits(r[..2]) && AllDigits(r[3..5]) && AllDigits(r[6..])
  {
    var t := SecondOfDay(timestamp, zoneOffsetMs);
    var r := TwoDigits(t / 3600) + ":" + TwoDigits(t / 60 % 60) + ":" + TwoDigits(t % 60);
    assert r[..2] == TwoDigits(t / 3600);
    assert r[3..5] == TwoDigits(t / 60 % 60);
    assert r[6..] == TwoDigits(t % 60);
    r
  }

  /** The three fields read back as hours 00..23, minutes and seconds 00..59 that add up to the second of the day. */
  lemma FormattedTimestampReadsBack(timestamp: int, zoneOffsetMs: int)
    ensures var r := FormattedTimestamp(timestamp, zoneOffsetMs);
            var hh, mm, ss := DigitsValue(r[..2]), DigitsValue(r[3..5]), DigitsValue(r[6..]);
            && hh < 24 && mm < 60 && ss < 60
            && hh * 3600 + mm * 60 + ss == SecondOfDay(timestamp, zoneOffsetMs)
  {
    var t := SecondOfDay(timestamp, zoneOffsetMs);
    var r := FormattedTimestamp(timestamp, zoneOffsetMs);
    assert r[..2] == TwoDigits(t / 3600);
    assert r[3..5] == TwoDigits(t / 60 % 60);
    assert r[6..] == TwoDigits(t % 60);
  }

  /** Concatenation of a list of pieces, left to right. */
  function Join(parts: seq<string>): (r: string)
  {
    if parts == [] then [] else Join(parts[..|parts| - 1]) + parts[|parts| - 1]
  }

  lemma {:induction false} JoinPrefix(parts: seq<string>, k: nat)
    requires k <= |parts|
    ensures |Join(parts[..k])| <= |Join(parts)|
    ensures Join(parts)[..|Join(parts[..k])|] == Join(parts[..k])
    decreases |parts|
  {
    if k < |parts| {
      var init := parts[..|parts| - 1];
      assert parts[..k] == init[..k];
      JoinPrefix(init, k);
      assert Join(parts) == Join(init) + parts[|parts| - 1];
    } else {
      assert parts[..k] == parts;
    }
  }

  /** The offset at which piece `k` of `parts` begins in `Join(parts)`. */
  function PieceStart(parts: seq<string>, k: nat): (r: nat)
    requires k <= |parts|
    ensures r == |Join(parts[..k])| <= |Join(parts)|
  {
    JoinPrefix(parts, k);
    |Join(parts[..k])|
  }

  /** Piece `k` sits in the joined string right after the pieces before it. */
  lemma JoinPiece(parts: seq<string>, k: nat)
    requires k < |parts|
    ensures PieceStart(parts, k) + |parts[k]| == PieceStart(parts, k + 1)
    ensures Join(parts)[PieceStart(parts, k)..PieceStart(parts, k + 1)] == parts[k]
  {
    var pre := parts[..k + 1];
    assert pre[..|pre| - 1] == parts[..k];
    assert Join(pre) == Join(parts[..k]) + parts[k];
    JoinPrefix(parts, k + 1);
    var j := Join(parts);
    assert j[..|Join(pre)|] == Join(pre);
    assert j[|Join(parts[..k])|..|Join(pre)|] == j[..|Join(pre)|][|Join(parts[..k])|..];
  }

  /** The pieces of `getFormattedLog`'s line, in order. */
  function LogLineParts(log: RequestLog, zoneOffsetMs: int): (r: seq<string>)
    ensures |r| == 10
  {
    [FormattedTimestamp(log.timestamp, zoneOffsetMs), " - ", log.httpMethod, " ", log.path, " - ",
     IntToString(log.statusCode), " (", IntToString(log.processingTimeMs), "ms)"]
  }

  /** `getFormattedLog`: `"<HH:mm:ss> - <method> <path> - <status> (<ms>ms)"`. */
  function FormattedLog(log: RequestLog, zoneOffsetMs: int): (r: string)
    ensures |r| >= 3 && r[|r| - 3..] == "ms)"
  {
    var parts := LogLineParts(log, zoneOffsetMs);
    assert Join(parts) == Join(parts[..9]) + "ms)";
    Join(parts)
  }

  /**
   * Each piece is found back, in order, at its offset in the rendered line: the timestamp, `" - "`,
   * the method, `" "`, the path, `" - "`, the status, `" ("`, the milliseconds, `"ms)"`.
   */
  lemma FormattedLogFields(log: RequestLog, zoneOffsetMs: int, k: nat)
    requires k < 10
    ensures var parts := LogLineParts(log, zoneOffsetMs);
            && PieceStart(parts, k) <= PieceStart(parts, k + 1)
            && FormattedLog(log, zoneOffsetMs)[PieceStart(parts, k)..PieceStart(parts, k + 1)] == parts[k]
  {
    JoinPiece(LogLineParts(log, zoneOffsetMs), k);
  }

  /** The line starts with the eight-character timestamp followed by `" - "`. */
  lemma FormattedLogStartsWithTimestamp(log: RequestLog, zoneOffsetMs: int)
    ensures |FormattedLog(log, zoneOffsetMs)| >= 11
    ensures FormattedLog(log, zoneOffsetMs)[..8] == FormattedTimestamp(log.timestamp, zoneOffsetMs)
    ensures FormattedLog(log, zoneOffsetMs)[8..11] == " - "
  {
    var parts := LogLineParts(log, zoneOffsetMs);
    JoinPiece(parts, 0);
    JoinPiece(parts, 1);
    assert parts[..0] == [];
    assert parts[..1] == [parts[0]];
    assert [parts[0]][..0] == [];
    assert parts[..2][..1] == parts[..1];
    assert PieceStart(parts, 1) == 8;
    assert PieceStart(parts, 2) == 11;
  }

  /** The most entries the HTTP server keeps. */
  const MaxLogs: nat := 100

  /** `logRequest`'s list update: append, then drop the oldest entry when the list has grown past the bound. */
  function Appended(logs: seq<RequestLog>, entry: RequestLog): (r: seq<RequestLog>)
    ensures |logs| <= MaxLogs ==> |r| <= MaxLogs
    ensures |r| >= 1 && r[|r| - 1] == entry
    ensures |logs| < MaxLogs ==> r == logs + [entry]
  {
    var grown := logs + [entry];
    if |grown| > MaxLogs then grown[1..] else grown
  }

  /** The list after a series of `logRequest` calls, in call order. */
  function AppendAll(logs: seq<RequestLog>, entries: seq<RequestLog>): seq<RequestLog>
    decreases |entries|
  {
    if entries == [] then logs else AppendAll(Appended(logs, entries[0]), entries[1..])
  }

  /** The last `n` elements of `s` (all of `s` when it is shorter). */
  function LastN(s: seq<RequestLog>, n: nat): (r: seq<RequestLog>)
    ensures |r| == if |s| <= n then |s| else n
  {
    if |s| <= n then s else s[|s| - n..]
  }

  lemma LastNOfLastN(x: seq<RequestLog>, y: seq<RequestLog>, n: nat)
    ensures LastN(LastN(x, n) + y, n) == LastN(x + y, n)
  {
    if |x| > n {
      var z := x[|x| - n..] + y;
      assert z == (x + y)[|x| - n..];
      if |z| > n {
        assert z[|z| - n..] == (x + y)[|x| + |y| - n..];
      }
    }
  }

  lemma AppendedIsLastN(logs: seq<RequestLog>, entry: RequestLog)
    requires |logs| <= MaxLogs
    ensures Appended(logs, entry) == LastN(logs + [entry], MaxLogs)
  {
  }

  /** One `logRequest` followed by more leaves the same window as appending everything at once. */
  lemma AppendedThen(logs: seq<RequestLog>, entry: RequestLog, rest: seq<RequestLog>)
    requires |logs| <= MaxLogs
    ensures LastN(Appended(logs, entry) + rest, MaxLogs) == LastN(logs + ([entry] + rest), MaxLogs)
  {
    AppendedIsLastN(logs, entry);
    LastNOfLastN(logs + [entry], rest, MaxLogs);
    assert logs + [entry] + rest == logs + ([entry] + rest);
  }

  /** Starting from at most 100 entries, the list always holds the last (at most) 100 entries in order. */
  lemma {:induction false} AppendAllKeepsLast(logs: seq<RequestLog>, entries: seq<RequestLog>)
    requires |logs| <= MaxLogs
    ensures AppendAll(logs, entries) == LastN(logs + entries, MaxLogs)
    decreases |entries|
  {
    if entries == [] {
      assert logs + entries == logs;
    } else {
      var next := Appended(logs, entries[0]);
      AppendAllKeepsLast(next, entries[1..]);
      AppendedThen(logs, entries[0], entries[1..]);
      assert [entries[0]] + entries[1..] == entries;
    }
  }

  /** From an empty log, `n` requests leave the last `min(n, 100)` of them, oldest first. */
  lemma FreshLogKeepsLast(entries: seq<RequestLog>)
    ensures |AppendAll([], entries)| == if |entries| <= MaxLogs then |entries| else MaxLogs
    ensures |entries| <= MaxLogs ==> AppendAll([], entries) == entries
    ensures |entries| > MaxLogs ==> AppendAll([], entries) == entries[|entries| - MaxLogs..]
  {
    AppendAllKeepsLast([], entries);
    assert [] + entries == entries;
  }
}
