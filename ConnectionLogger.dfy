/**
 * ConnectionLogger.cs: how one connection outcome becomes one line of the log file.
 * The file is the `contents` field of `ConnectionLogger`; the lock around the append is not modelled.
 */
module Logging {
  import opened Wrappers
  import opened Models
  import opened Strings

  /** `entry.Success ? "Success" : "Error"`. */
  function StatusWord(success: bool): (w: string)
    ensures w == "Success" <==> success
    ensures w == "Error" <==> !success
  {
    if success then "Success" else "Error"
  }

  /** `string.IsNullOrEmpty(s)` */
  predicate IsNullOrEmpty(s: Option<string>) {
    s == None || s == Some("")
  }

  /** The exception part: nothing for a null or empty exception text, otherwise ` | Exception: ` and the text, uncleaned. */
  function ExceptionSuffix(exception: Option<string>): (r: string)
    ensures r == "" <==> IsNullOrEmpty(exception)
    ensures !IsNullOrEmpty(exception) ==> r == " | Exception: " + exception.value
  {
    if IsNullOrEmpty(exception) then "" else " | Exception: " + exception.value
  }

  /** The message part: `Replace("\n", " ").Replace("\r", " ")`, or `""` for a null message. */
  function CleanMessage(message: Option<string>): (r: string)
    ensures IsNullOrEmpty(message) ==> r == ""
    ensures message.Some? ==> |r| == |message.value|
    ensures message.Some? ==> forall i :: 0 <= i < |r| ==>
      r[i] == if message.value[i] == '\n' || message.value[i] == '\r' then ' ' else message.value[i]
    ensures '\n' !in r && '\r' !in r
  {
    if IsNullOrEmpty(message) then "" else ReplaceChar(ReplaceChar(message.value, '\n', ' '), '\r', ' ')
  }

  /** `[ts] ip:port - status - message` followed by the exception part, without the line break. */
  function LogLine(entry: ConnectionLogEntry): string {
    "[" + entry.timestamp + "] " + entry.ipAddress + ":" + IntToString(entry.port) + " - " +
    StatusWord(entry.success) + " - " + CleanMessage(entry.message) + ExceptionSuffix(entry.exception)
  }

  /**
   * The line's layout: the bracketed timestamp, the address, the port, the status word and the
   * cleaned message, in that order, with the exception part last.
   */
  lemma LogLineLayout(entry: ConnectionLogEntry)
    ensures var line := LogLine(entry);
      var head := "[" + entry.timestamp + "] " + entry.ipAddress + ":" + IntToString(entry.port) + " - ";
      var status := StatusWord(entry.success);
      var tail := ExceptionSuffix(entry.exception);
      |line| == |head| + |status| + 3 + |CleanMessage(entry.message)| + |tail| &&
      StartsWith(line, "[" + entry.timestamp + "] ") &&
      line[..|head|] == head &&
      line[|head|..|head| + |status|] == (if entry.success then "Success" else "Error") &&
      line[|head| + |status|..|head| + |status| + 3] == " - " &&
      line[|head| + |status| + 3..|line| - |tail|] == CleanMessage(entry.message) &&
      line[|line| - |tail|..] == tail
  {
    var line := LogLine(entry);
    var head := "[" + entry.timestamp + "] " + entry.ipAddress + ":" + IntToString(entry.port) + " - ";
    var status := StatusWord(entry.success);
    var message := CleanMessage(entry.message);
    var tail := ExceptionSuffix(entry.exception);
    assert line == head + status + " - " + message + tail;
    assert line == head + (status + (" - " + (message + tail)));
    assert line[|head|..] == status + (" - " + (message + tail));
    assert line[..|"[" + entry.timestamp + "] "|] == "[" + entry.timestamp + "] ";
    assert line[..|head|] == head;
  }

  /**
   * Only the message is cleaned: when the timestamp, the address and the exception text carry
   * no line break, neither does the log line, so the appended text is exactly one line.
   */
  lemma LogLineIsOneLine(entry: ConnectionLogEntry)
    requires '\n' !in entry.timestamp && '\n' !in entry.ipAddress
    requires entry.exception.Some? ==> '\n' !in entry.exception.value
    ensures '\n' !in LogLine(entry)
    ensures var text := LogLine(entry) + "\n"; text[|text| - 1] == '\n' && '\n' !in text[..|text| - 1]
  {
    var port := IntToString(entry.port);
    assert '\n' !in port by {
      forall k | 0 <= k < |port| ensures port[k] != '\n' {
        assert IsDigit(port[k]) || port[k] == '-';
      }
    }
    var front := "[" + entry.timestamp + "] " + entry.ipAddress + ":" + port + " - ";
    assert '\n' !in front;
    var back := StatusWord(entry.success) + " - " + CleanMessage(entry.message) + ExceptionSuffix(entry.exception);
    assert '\n' !in back;
    assert LogLine(entry) == front + back;
    var text := LogLine(entry) + "\n";
    assert text[..|text| - 1] == LogLine(entry);
  }

  /**
   * The exception text is not cleaned: a non-empty exception text ends the line verbatim, so a
   * line break in it reaches the log file.
   */
  lemma ExceptionTextKeepsLineBreaks(entry: ConnectionLogEntry, x: string)
    requires entry.exception == Some(x) && x != ""
    ensures var line := LogLine(entry); |x| <= |line| && line[|line| - |x|..] == x
    ensures '\n' in x ==> '\n' in LogLine(entry)
  {
    var line := LogLine(entry);
    var tail := ExceptionSuffix(entry.exception);
    var front := "[" + entry.timestamp + "] " + entry.ipAddress + ":" + IntToString(entry.port) + " - " +
      StatusWord(entry.success) + " - " + CleanMessage(entry.message) + " | Exception: ";
    assert line == front + x;
    assert line[|line| - |x|..] == x;
    if '\n' in x {
      var k :| 0 <= k < |x| && x[k] == '\n';
      assert line[|front| + k] == '\n';
    }
  }

  /** The logger; `contents` is the text of `connection_log.log`. */
  class ConnectionLogger {
    var contents: string

    constructor (existing: string)
      ensures contents == existing
    {
      contents := existing;
    }

    /** `LogAsync`: append the entry's line and a line break to the file. */
    method LogAsync(entry: ConnectionLogEntry)
      modifies this
      ensures contents == old(contents) + LogLine(entry) + "\n"
    {
      contents := contents + LogLine(entry) + "\n";
    }

    /** `Log`: the older name, with exactly the effect of `LogAsync`. */
    method Log(entry: ConnectionLogEntry)
      modifies this
      ensures contents == old(contents) + LogLine(entry) + "\n"
    {
      LogAsync(entry);
    }
  }
}
