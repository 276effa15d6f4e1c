// Shared logging vocabulary: Microsoft.Extensions.Logging levels, event ids
// and a logger whose output is an append-only trace of what it was given.

module Logging {
  import opened Common

  /** LogLevel by its underlying value; a cast from an int can yield any
    * value, so the type is int and the named levels are constants. */
  type LogLevel = int

  const LevelTrace: LogLevel := 0
  const LevelDebug: LogLevel := 1
  const LevelInformation: LogLevel := 2
  const LevelWarning: LogLevel := 3
  const LevelError: LogLevel := 4
  const LevelCritical: LogLevel := 5
  const LevelNone: LogLevel := 6

  /** EventId: a number and an optional name; an int converts to an id
    * without a name. */
  datatype EventId = EventId(id: int, name: Option<string>)

  /** EventId.ToString(): the name when there is one, else the number. */
  function EventIdText(e: EventId): (r: string)
    ensures e.name.Some? ==> r == e.name.value
    ensures e.name.None? ==> |r| >= 1 && AllDigits(if r[0] == '-' then r[1..] else r)
    ensures |r| == 0 <==> e.name == Some("")
  {
    if e.name.Some? then e.name.value else FormatInt(e.id)
  }

  /** What one ILogger.Log call hands over: level, event id and the
    * formatted message (null when there is no formatter). */
  datatype LogEntry = LogEntry(level: LogLevel, eventId: EventId, message: Option<string>)

  /** An ILogger seen from outside: the levels it accepts and the entries
    * it has been given, oldest first. */
  class Logger {
    const isEnabled: LogLevel -> bool
    var entries: seq<LogEntry>

    constructor (isEnabled: LogLevel -> bool)
      ensures this.isEnabled == isEnabled && entries == []
    {
      this.isEnabled := isEnabled;
      entries := [];
    }

    method Log(entry: LogEntry)
      modifies this
      ensures entries == old(entries) + [entry]
    {
      entries := entries + [entry];
    }
  }
}
