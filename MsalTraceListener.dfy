// The trace listener the MSAL token cache writes to, forwarding to an
// ILogger. TraceEvent maps the TraceEventType bit mask through a fixed
// table to log levels; Write/WriteLine either buffer until end of line
// (the Extensions variant) or log each call at once (the MsExt variant).

module MsalTraceListener {
  import opened Common
  import opened Logging

  /** TraceEventType, a 32-bit flags enum. */
  type TraceEventType = bv32

  const CriticalEvent: TraceEventType := 1
  const ErrorEvent: TraceEventType := 2
  const WarningEvent: TraceEventType := 4
  const InformationEvent: TraceEventType := 8
  const VerboseEvent: TraceEventType := 16
  const KnownEvents: TraceEventType := VerboseEvent | InformationEvent | WarningEvent | ErrorEvent | CriticalEvent

  datatype Mapping = Mapping(mask: TraceEventType, level: LogLevel)

  /** The table both variants walk: one row per level, and the complement
    * of the five named bits (Start, Stop, Suspend, ...) to Trace. */
  const LogLevelMappings: seq<Mapping> := [
    Mapping(VerboseEvent, LevelDebug),
    Mapping(InformationEvent, LevelInformation),
    Mapping(WarningEvent, LevelWarning),
    Mapping(ErrorEvent, LevelError),
    Mapping(CriticalEvent, LevelCritical),
    Mapping(!KnownEvents, LevelTrace)
  ]

  /** A row logs when its mask meets the event type and its level is
    * enabled. */
  predicate Fires(row: Mapping, eventType: TraceEventType, isEnabled: LogLevel -> bool)
  {
    eventType & row.mask != 0 && isEnabled(row.level)
  }

  function RowEntry(row: Mapping, id: int, message: Option<string>): LogEntry
  {
    LogEntry(row.level, EventId(id, None), message)
  }

  /** The entries TraceEvent logs: one per firing row, in table order. */
  function MappedEntries(rows: seq<Mapping>, eventType: TraceEventType, isEnabled: LogLevel -> bool, id: int, message: Option<string>): seq<LogEntry>
    decreases |rows|
  {
    if rows == [] then []
    else
      var last := rows[|rows| - 1];
      MappedEntries(rows[..|rows| - 1], eventType, isEnabled, id, message)
        + (if Fires(last, eventType, isEnabled) then [RowEntry(last, id, message)] else [])
  }

  /** TraceEvent: both overloads of the Extensions variant and the format
    * overload of the MsExt variant; the message handed on is the format
    * string or the message itself. */
  method TraceEvent(logger: Logger, eventType: TraceEventType, id: int, message: Option<string>)
    modifies logger
    ensures logger.entries == old(logger.entries) + MappedEntries(LogLevelMappings, eventType, logger.isEnabled, id, message)
  {
    LogThroughTable(logger, LogLevelMappings, eventType, id, message);
  }

  /** The loop of TraceEvent over a table of mappings. */
  method LogThroughTable(logger: Logger, rows: seq<Mapping>, eventType: TraceEventType, id: int, message: Option<string>)
    modifies logger
    ensures logger.entries == old(logger.entries) + MappedEntries(rows, eventType, logger.isEnabled, id, message)
  {
    for i := 0 to |rows|
      invariant logger.entries == old(logger.entries) + MappedEntries(rows[..i], eventType, logger.isEnabled, id, message)
    {
      MappedEntriesSnoc(rows, i, eventType, logger.isEnabled, id, message);
      var row := rows[i];
      if Fires(row, eventType, logger.isEnabled) {
        logger.Log(RowEntry(row, id, message));
      }
    }
    assert rows[..|rows|] == rows;
  }

  /** One more row of the table adds that row's entry, if it fires. */
  lemma MappedEntriesSnoc(rows: seq<Mapping>, i: nat, eventType: TraceEventType, isEnabled: LogLevel -> bool, id: int, message: Option<string>)
    requires i < |rows|
    ensures MappedEntries(rows[..i + 1], eventType, isEnabled, id, message)
      == MappedEntries(rows[..i], eventType, isEnabled, id, message)
        + (if Fires(rows[i], eventType, isEnabled) then [RowEntry(rows[i], id, message)] else [])
  {
    assert rows[..i + 1][..i] == rows[..i];
  }

  // ---------------------------------------------------------------------
  // Properties of the mapping.

  /** An entry is logged exactly when some firing row produces it. */
  lemma {:induction false} MappedEntriesMembership(rows: seq<Mapping>, eventType: TraceEventType, isEnabled: LogLevel -> bool, id: int, message: Option<string>, e: LogEntry)
    ensures e in MappedEntries(rows, eventType, isEnabled, id, message)
      <==> exists k :: 0 <= k < |rows| && Fires(rows[k], eventType, isEnabled) && e == RowEntry(rows[k], id, message)
    decreases |rows|
  {
    if rows != [] {
      var init := rows[..|rows| - 1];
      MappedEntriesMembership(init, eventType, isEnabled, id, message, e);
      if exists k :: 0 <= k < |rows| && Fires(rows[k], eventType, isEnabled) && e == RowEntry(rows[k], id, message) {
        var k :| 0 <= k < |rows| && Fires(rows[k], eventType, isEnabled) && e == RowEntry(rows[k], id, message);
        if k < |init| {
          assert init[k] == rows[k];
        }
      }
      if exists k :: 0 <= k < |init| && Fires(init[k], eventType, isEnabled) && e == RowEntry(init[k], id, message) {
        var k :| 0 <= k < |init| && Fires(init[k], eventType, isEnabled) && e == RowEntry(init[k], id, message);
        assert rows[k] == init[k];
      }
    }
  }

  /** When exactly one row fires, exactly its entry is logged. */
  lemma {:induction false} OnlyRowFires(rows: seq<Mapping>, k: nat, eventType: TraceEventType, isEnabled: LogLevel -> bool, id: int, message: Option<string>)
    requires k < |rows| && Fires(rows[k], eventType, isEnabled)
    requires forall j :: 0 <= j < |rows| && j != k ==> !Fires(rows[j], eventType, isEnabled)
    ensures MappedEntries(rows, eventType, isEnabled, id, message) == [RowEntry(rows[k], id, message)]
    decreases |rows|
  {
    var init := rows[..|rows| - 1];
    if k == |rows| - 1 {
      NoRowFires(init, eventType, isEnabled, id, message);
    } else {
      OnlyRowFires(init, k, eventType, isEnabled, id, message);
    }
  }

  /** When no row fires, nothing is logged. */
  lemma {:induction false} NoRowFires(rows: seq<Mapping>, eventType: TraceEventType, isEnabled: LogLevel -> bool, id: int, message: Option<string>)
    requires forall j :: 0 <= j < |rows| ==> !Fires(rows[j], eventType, isEnabled)
    ensures MappedEntries(rows, eventType, isEnabled, id, message) == []
    decreases |rows|
  {
    if rows != [] {
      NoRowFires(rows[..|rows| - 1], eventType, isEnabled, id, message);
    }
  }

  /** Each of the five named event types logs once, at its own level:
    * Verbose at Debug, Information, Warning, Error and Critical alike. */
  lemma KnownEventLogsItsLevel(i: nat, isEnabled: LogLevel -> bool, id: int, message: Option<string>)
    requires i < 5 && isEnabled(LogLevelMappings[i].level)
    ensures MappedEntries(LogLevelMappings, LogLevelMappings[i].mask, isEnabled, id, message)
      == [LogEntry(LogLevelMappings[i].level, EventId(id, None), message)]
  {
    var rows := LogLevelMappings;
    forall j | 0 <= j < |rows| && j != i
      ensures !Fires(rows[j], rows[i].mask, isEnabled)
    {
      assert rows[i].mask & rows[j].mask == 0;
    }
    OnlyRowFires(rows, i, rows[i].mask, isEnabled, id, message);
  }

  /** The table rows, one fact per row. */
  lemma RowMasks()
    ensures |LogLevelMappings| == 6
    ensures LogLevelMappings[0] == Mapping(VerboseEvent, LevelDebug)
    ensures LogLevelMappings[1] == Mapping(InformationEvent, LevelInformation)
    ensures LogLevelMappings[2] == Mapping(WarningEvent, LevelWarning)
    ensures LogLevelMappings[3] == Mapping(ErrorEvent, LevelError)
    ensures LogLevelMappings[4] == Mapping(CriticalEvent, LevelCritical)
    ensures LogLevelMappings[5] == Mapping(!KnownEvents, LevelTrace)
  {
  }

  /** Bits outside the five named ones meet only the complement mask; a
    * non-zero value meets at least one of the six masks. */
  lemma MaskFacts(e: TraceEventType)
    ensures e & KnownEvents == 0 ==> e & !KnownEvents == e
    ensures e & KnownEvents == 0 ==>
      e & VerboseEvent == 0 && e & InformationEvent == 0 && e & WarningEvent == 0 && e & ErrorEvent == 0 && e & CriticalEvent == 0
    ensures e & KnownEvents != 0 ==>
      e & VerboseEvent != 0 || e & InformationEvent != 0 || e & WarningEvent != 0 || e & ErrorEvent != 0 || e & CriticalEvent != 0
  {
  }

  /** An event type with none of the five named bits (Start, Stop,
    * Transfer, ...) logs once, at Trace. */
  lemma OtherEventLogsAtTrace(eventType: TraceEventType, isEnabled: LogLevel -> bool, id: int, message: Option<string>)
    requires eventType != 0 && eventType & KnownEvents == 0 && isEnabled(LevelTrace)
    ensures MappedEntries(LogLevelMappings, eventType, isEnabled, id, message)
      == [LogEntry(LevelTrace, EventId(id, None), message)]
  {
    var rows := LogLevelMappings;
    MaskFacts(eventType);
    assert rows[5].mask == !KnownEvents;
    assert Fires(rows[5], eventType, isEnabled);
    forall j | 0 <= j < |rows| && j != 5
      ensures !Fires(rows[j], eventType, isEnabled)
    {
      NamedRowMisses(eventType, isEnabled, j);
    }
    OnlyRowFires(rows, 5, eventType, isEnabled, id, message);
  }

  /** Without any of the five named bits, none of the five named rows
    * fires. */
  lemma NamedRowMisses(eventType: TraceEventType, isEnabled: LogLevel -> bool, k: nat)
    requires k < 5 && eventType & KnownEvents == 0
    ensures k < |LogLevelMappings| && !Fires(LogLevelMappings[k], eventType, isEnabled)
  {
    MaskFacts(eventType);
    RowMasks();
  }

  /** The table covers every bit: with every level enabled, any non-zero
    * event type logs at least once, and a combination of bits logs once
    * per matching row (Warning|Error logs at Warning and at Error). */
  lemma NonZeroEventIsLogged(eventType: TraceEventType, isEnabled: LogLevel -> bool, id: int, message: Option<string>)
    requires eventType != 0 && forall level :: isEnabled(level)
    ensures |MappedEntries(LogLevelMappings, eventType, isEnabled, id, message)| >= 1
    ensures eventType & WarningEvent != 0 ==> LogEntry(LevelWarning, EventId(id, None), message) in MappedEntries(LogLevelMappings, eventType, isEnabled, id, message)
    ensures eventType & ErrorEvent != 0 ==> LogEntry(LevelError, EventId(id, None), message) in MappedEntries(LogLevelMappings, eventType, isEnabled, id, message)
  {
    var rows := LogLevelMappings;
    var k := SomeRowMeets(eventType);
    assert Fires(rows[k], eventType, isEnabled);
    MappedEntriesMembership(rows, eventType, isEnabled, id, message, RowEntry(rows[k], id, message));
    RowMasks();
    if eventType & WarningEvent != 0 {
      assert Fires(rows[2], eventType, isEnabled);
      MappedEntriesMembership(rows, eventType, isEnabled, id, message, RowEntry(rows[2], id, message));
    }
    if eventType & ErrorEvent != 0 {
      assert Fires(rows[3], eventType, isEnabled);
      MappedEntriesMembership(rows, eventType, isEnabled, id, message, RowEntry(rows[3], id, message));
    }
  }

  /** A row whose mask meets a non-zero event type. */
  lemma SomeRowMeets(eventType: TraceEventType) returns (k: nat)
    requires eventType != 0
    ensures k < |LogLevelMappings| && eventType & LogLevelMappings[k].mask != 0
  {
    RowMasks();
    MaskFacts(eventType);
    k := if eventType & KnownEvents == 0 then 5
      else if eventType & VerboseEvent != 0 then 0
      else if eventType & InformationEvent != 0 then 1
      else if eventType & WarningEvent != 0 then 2
      else if eventType & ErrorEvent != 0 then 3
      else 4;
  }

  // ---------------------------------------------------------------------
  // Write and WriteLine.

  datatype TraceCall = Write(message: Option<string>) | WriteLine(message: Option<string>)

  /** The buffered listener on one call: the new buffer and the line it
    * logs, if any. A null message changes nothing. */
  function BufferedStep(buffer: string, call: TraceCall): (string, Option<string>)
  {
    match call
    case Write(m) => (if m.None? then buffer else buffer + m.value, None)
    case WriteLine(m) => if m.None? then (buffer, None) else ("", Some(buffer + m.value))
  }

  /** The buffered listener on a run of calls: the lines logged, oldest
    * first, and what is left in the buffer. */
  function BufferedRun(buffer: string, calls: seq<TraceCall>): (seq<string>, string)
    decreases |calls|
  {
    if calls == [] then ([], buffer)
    else
      var step := BufferedStep(buffer, calls[0]);
      var tail := BufferedRun(step.0, calls[1..]);
      (if step.1.Some? then [step.1.value] + tail.0 else tail.0, tail.1)
  }

  function Concat(xs: seq<string>): string
    decreases |xs|
  {
    if xs == [] then "" else xs[0] + Concat(xs[1..])
  }

  /** All the text a run of calls carries, null messages skipped. */
  function Text(calls: seq<TraceCall>): string
    decreases |calls|
  {
    if calls == [] then ""
    else (if calls[0].message.Some? then calls[0].message.value else "") + Text(calls[1..])
  }

  /** Buffering loses and repeats nothing: the logged lines followed by
    * the buffer hold exactly the old buffer followed by every message. */
  lemma {:induction false} BufferedRunKeepsText(buffer: string, calls: seq<TraceCall>)
    ensures Concat(BufferedRun(buffer, calls).0) + BufferedRun(buffer, calls).1 == buffer + Text(calls)
    decreases |calls|
  {
    if calls == [] {
      assert buffer + Text(calls) == buffer;
    } else {
      var step := BufferedStep(buffer, calls[0]);
      var tail := BufferedRun(step.0, calls[1..]);
      BufferedRunKeepsText(step.0, calls[1..]);
      var m := if calls[0].message.Some? then calls[0].message.value else "";
      var rest := Text(calls[1..]);
      assert Text(calls) == m + rest;
      if step.1.Some? {
        var line := step.1.value;
        assert step.0 == "" && line == buffer + m;
        ConcatCons(line, tail.0);
        assert Concat(tail.0) + tail.1 == rest;
        assert BufferedRun(buffer, calls) == ([line] + tail.0, tail.1);
        ConcatAssoc(line, Concat(tail.0), tail.1);
        ConcatAssoc(buffer, m, rest);
      } else {
        assert step.0 == buffer + m;
        assert BufferedRun(buffer, calls) == tail;
        ConcatAssoc(buffer, m, rest);
      }
    }
  }

  lemma ConcatAssoc(a: string, b: string, c: string)
    ensures (a + b) + c == a + (b + c)
  {
  }

  lemma ConcatCons(x: string, xs: seq<string>)
    ensures Concat([x] + xs) == x + Concat(xs)
  {
    assert ([x] + xs)[0] == x;
    assert ([x] + xs)[1..] == xs;
  }

  /** How many calls carry a message, and how many of them are
    * WriteLine calls. */
  function CountMessages(calls: seq<TraceCall>, onlyLines: bool): nat
    decreases |calls|
  {
    if calls == [] then 0
    else (if calls[0].message.Some? && (calls[0].WriteLine? || !onlyLines) then 1 else 0) + CountMessages(calls[1..], onlyLines)
  }

  /** Each WriteLine with a message logs one line; Write logs none. */
  lemma {:induction false} BufferedRunLogsPerWriteLine(buffer: string, calls: seq<TraceCall>)
    ensures |BufferedRun(buffer, calls).0| == CountMessages(calls, true)
    decreases |calls|
  {
    if calls != [] {
      BufferedRunLogsPerWriteLine(BufferedStep(buffer, calls[0]).0, calls[1..]);
    }
  }

  /** MsalCacheLoggerTraceListener, Extensions variant: Write buffers the
    * text, WriteLine logs the buffer and the message as one line at Trace
    * under event 1 ("Write") and empties the buffer. */
  class BufferedTraceListener {
    const logger: Logger
    var buffer: string

    constructor (logger: Logger)
      ensures this.logger == logger && buffer == ""
    {
      this.logger := logger;
      buffer := "";
    }

    method Write(message: Option<string>)
      modifies this
      ensures (buffer, None) == BufferedStep(old(buffer), TraceCall.Write(message))
    {
      if message.None? {
        return;
      }
      buffer := buffer + message.value;
    }

    method WriteLine(message: Option<string>)
      modifies this, logger
      ensures buffer == BufferedStep(old(buffer), TraceCall.WriteLine(message)).0
      ensures var line := BufferedStep(old(buffer), TraceCall.WriteLine(message)).1;
        logger.entries == old(logger.entries)
          + if line.Some? && logger.isEnabled(LevelTrace) then [LogEntry(LevelTrace, EventId(1, Some("Write")), line)] else []
    {
      if message.None? {
        return;
      }
      var m := message.value;
      if |buffer| > 0 {
        m := buffer + m;
        buffer := "";
      } else {
        assert buffer + m == m;
      }
      if logger.isEnabled(LevelTrace) {
        logger.Log(LogEntry(LevelTrace, EventId(1, Some("Write")), Some(m)));
      }
    }

    method Trace(eventType: TraceEventType, id: int, message: Option<string>)
      modifies logger
      ensures logger.entries == old(logger.entries) + MappedEntries(LogLevelMappings, eventType, logger.isEnabled, id, message)
    {
      TraceEvent(logger, eventType, id, message);
    }
  }

  /** The entry the unbuffered listener logs for one call, if any. */
  function UnbufferedEntry(call: TraceCall, traceEnabled: bool): seq<LogEntry>
  {
    if call.message.None? || !traceEnabled then []
    else if call.Write? then [LogEntry(LevelTrace, EventId(1, Some("Write")), call.message)]
    else [LogEntry(LevelTrace, EventId(2, Some("WriteLine")), call.message)]
  }

  function UnbufferedRun(calls: seq<TraceCall>, traceEnabled: bool): seq<LogEntry>
    decreases |calls|
  {
    if calls == [] then [] else UnbufferedEntry(calls[0], traceEnabled) + UnbufferedRun(calls[1..], traceEnabled)
  }

  function Messages(entries: seq<LogEntry>): string
    decreases |entries|
  {
    if entries == [] then ""
    else (if entries[0].message.Some? then entries[0].message.value else "") + Messages(entries[1..])
  }

  lemma {:induction false} MessagesAppend(a: seq<LogEntry>, b: seq<LogEntry>)
    ensures Messages(a + b) == Messages(a) + Messages(b)
    decreases |a|
  {
    if a == [] {
      assert a + b == b;
    } else {
      assert (a + b)[0] == a[0];
      assert (a + b)[1..] == a[1..] + b;
      MessagesAppend(a[1..], b);
    }
  }

  /** The unbuffered listener logs every non-null message as it comes, so
    * its entries carry the same text the buffered one delivers, one entry
    * per call instead of one per line. */
  lemma {:induction false} UnbufferedRunKeepsText(calls: seq<TraceCall>)
    ensures Messages(UnbufferedRun(calls, true)) == Text(calls)
    ensures |UnbufferedRun(calls, true)| == CountMessages(calls, false)
    decreases |calls|
  {
    if calls != [] {
      UnbufferedRunKeepsText(calls[1..]);
      MessagesAppend(UnbufferedEntry(calls[0], true), UnbufferedRun(calls[1..], true));
    }
  }

  /** MsalCacheLoggerTraceListener, MsExt variant: no buffer; Write logs
    * at Trace under event 1 ("Write"), WriteLine under event 2
    * ("WriteLine"). */
  class UnbufferedTraceListener {
    const logger: Logger

    constructor (logger: Logger)
      ensures this.logger == logger
    {
      this.logger := logger;
    }

    method Write(message: Option<string>)
      modifies logger
      ensures logger.entries == old(logger.entries) + UnbufferedEntry(TraceCall.Write(message), logger.isEnabled(LevelTrace))
    {
      if message.None? {
        return;
      }
      if logger.isEnabled(LevelTrace) {
        logger.Log(LogEntry(LevelTrace, EventId(1, Some("Write")), message));
      }
    }

    method WriteLine(message: Option<string>)
      modifies logger
      ensures logger.entries == old(logger.entries) + UnbufferedEntry(TraceCall.WriteLine(message), logger.isEnabled(LevelTrace))
    {
      if message.None? {
        return;
      }
      if logger.isEnabled(LevelTrace) {
        logger.Log(LogEntry(LevelTrace, EventId(2, Some("WriteLine")), message));
      }
    }

    method Trace(eventType: TraceEventType, id: int, message: Option<string>)
      modifies logger
      ensures logger.entries == old(logger.entries) + MappedEntries(LogLevelMappings, eventType, logger.isEnabled, id, message)
    {
      TraceEvent(logger, eventType, id, message);
    }
  }
}
