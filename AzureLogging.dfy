// Forwarding of Azure SDK event-source events to Microsoft.Extensions
// logging: event levels map to log levels by reflection around None, and
// one logger per event-source name (ignoring case) is created on first use
// from a logger factory that is itself resolved on first use.

module AzureLogging {
  import opened Common
  import opened Logging

  /** EventLevel by value. */
  type EventLevel = int

  const EventLogAlways: EventLevel := 0
  const EventCritical: EventLevel := 1
  const EventError: EventLevel := 2
  const EventWarning: EventLevel := 3
  const EventInformational: EventLevel := 4
  const EventVerbose: EventLevel := 5

  /** ToLogLevel: None minus the event level. */
  function ToLogLevel(eventLevel: EventLevel): (r: LogLevel)
    ensures eventLevel == EventLogAlways ==> r == LevelNone
    ensures eventLevel == EventCritical ==> r == LevelCritical
    ensures eventLevel == EventError ==> r == LevelError
    ensures eventLevel == EventWarning ==> r == LevelWarning
    ensures eventLevel == EventInformational ==> r == LevelInformation
    ensures eventLevel == EventVerbose ==> r == LevelDebug
  {
    LevelNone - eventLevel
  }

  /** The mapping reverses the order of levels: a more verbose event gets
    * a lower log level, no two event levels share a log level, and every
    * defined event level lands on a defined log level. */
  lemma ToLogLevelReverses(a: EventLevel, b: EventLevel)
    ensures a < b <==> ToLogLevel(a) > ToLogLevel(b)
    ensures a != b ==> ToLogLevel(a) != ToLogLevel(b)
    ensures EventLogAlways <= a <= EventVerbose ==> LevelDebug <= ToLogLevel(a) <= LevelNone
  {
  }

  /** What the service provider yields for ILoggerFactory, or the
    * NullLoggerFactory whose loggers accept nothing. */
  datatype LoggerFactory =
    | ServiceLoggerFactory(isEnabled: (string, LogLevel) -> bool)
    | NullLoggerFactory

  /** A logger: the category it was created for and the factory that made
    * it. */
  datatype CachedLogger = CachedLogger(category: string, factory: LoggerFactory)

  predicate LoggerEnabled(logger: CachedLogger, level: LogLevel)
  {
    match logger.factory
    case NullLoggerFactory => false
    case ServiceLoggerFactory(isEnabled) => isEnabled(logger.category, level)
  }

  /** The factory CreateLogger settles on: the one already resolved, else
    * the service, else NullLoggerFactory. */
  function ResolveFactory(current: Option<LoggerFactory>, service: Option<LoggerFactory>): (r: LoggerFactory)
    ensures current.Some? ==> r == current.value
    ensures current.None? && service.None? ==> r.NullLoggerFactory?
    ensures current.None? && service.Some? ==> r == service.value
  {
    if current.Some? then current.value
    else if service.Some? then service.value
    else NullLoggerFactory
  }

  /** The logger cache keys names by their case-folded form. */
  function CacheKey(name: string): string
  {
    ToUpper(name)
  }

  /** ConcurrentDictionary.GetOrAdd with the ignore-case comparer: the
    * cached logger for the name, or a new one for this spelling. */
  function GetOrAdd(cache: map<string, CachedLogger>, name: string, factory: LoggerFactory): (r: (map<string, CachedLogger>, CachedLogger))
    ensures CacheKey(name) in r.0 && r.0[CacheKey(name)] == r.1
    ensures r.0.Keys == cache.Keys + {CacheKey(name)}
    ensures forall key :: key in cache ==> r.0[key] == cache[key]
    ensures CacheKey(name) !in cache ==> r.1 == CachedLogger(name, factory)
  {
    var key := CacheKey(name);
    if key in cache then (cache, cache[key])
    else (cache[key := CachedLogger(name, factory)], CachedLogger(name, factory))
  }

  /** Names that differ only in case share one logger: the second lookup
    * finds the first one's logger, with the first spelling as category,
    * and adds nothing. */
  lemma GetOrAddIgnoresCase(cache: map<string, CachedLogger>, a: string, b: string, factory: LoggerFactory, factory': LoggerFactory)
    requires EqualsIgnoreCase(a, b)
    ensures var (cache1, logger1) := GetOrAdd(cache, a, factory);
      GetOrAdd(cache1, b, factory') == (cache1, logger1)
    ensures CacheKey(a) !in cache ==> GetOrAdd(cache, a, factory).1.category == a
  {
  }

  /** One forwarded log call: the logger's category and the entry. */
  datatype Forwarded = Forwarded(category: string, entry: LogEntry)

  /** What OnEventWritten forwards through a logger: nothing when the
    * mapped level is disabled, else one entry with the event's id and
    * name and the message. */
  function ForwardedEntries(logger: CachedLogger, eventLevel: EventLevel, eventId: int, eventName: Option<string>, message: string): (r: seq<Forwarded>)
    ensures |r| <= 1
    ensures r != [] <==> LoggerEnabled(logger, ToLogLevel(eventLevel))
    ensures r != [] ==> r[0].category == logger.category && r[0].entry.level == ToLogLevel(eventLevel)
    ensures r != [] ==> r[0].entry.eventId == EventId(eventId, eventName) && r[0].entry.message == Some(message)
  {
    var level := ToLogLevel(eventLevel);
    if LoggerEnabled(logger, level) then [Forwarded(logger.category, LogEntry(level, EventId(eventId, eventName), Some(message)))] else []
  }

  /** ILoggerProvider.CreateLogger: the NullLogger, whatever the name. */
  function ProviderCreateLogger(name: string): (r: CachedLogger)
    ensures forall level :: !LoggerEnabled(r, level)
  {
    CachedLogger(name, NullLoggerFactory)
  }

  /** Without a logger factory service nothing is ever forwarded. */
  lemma NoFactoryForwardsNothing(cache: map<string, CachedLogger>, name: string, eventLevel: EventLevel, eventId: int, eventName: Option<string>, message: string)
    requires forall key :: key in cache ==> cache[key].factory == ResolveFactory(None, None)
    ensures ForwardedEntries(GetOrAdd(cache, name, ResolveFactory(None, None)).1, eventLevel, eventId, eventName, message) == []
  {
    var logger := GetOrAdd(cache, name, ResolveFactory(None, None)).1;
    assert logger.factory.NullLoggerFactory?;
  }

  class AzureEventSourceLoggingForwarder {
    /** GetService<ILoggerFactory>() on the captured service provider. */
    const serviceLoggerFactory: Option<LoggerFactory>
    var loggerFactory: Option<LoggerFactory>
    var loggerCache: map<string, CachedLogger>
    var forwarded: seq<Forwarded>

    /** Every cached logger sits under its own name's key and came from the
      * one resolved factory. */
    ghost predicate Valid()
      reads this
    {
      forall key :: key in loggerCache ==>
        && CacheKey(loggerCache[key].category) == key
        && loggerFactory.Some?
        && loggerCache[key].factory == loggerFactory.value
    }

    constructor (serviceLoggerFactory: Option<LoggerFactory>)
      ensures Valid()
      ensures this.serviceLoggerFactory == serviceLoggerFactory
      ensures loggerFactory == None && loggerCache == map[] && forwarded == []
    {
      this.serviceLoggerFactory := serviceLoggerFactory;
      loggerFactory := None;
      loggerCache := map[];
      forwarded := [];
    }

    /** The private CreateLogger: resolve the factory once, then create a
      * logger for the name. */
    method CreateLogger(eventSourceName: string) returns (logger: CachedLogger)
      modifies this
      ensures loggerFactory == Some(ResolveFactory(old(loggerFactory), serviceLoggerFactory))
      ensures logger == CachedLogger(eventSourceName, loggerFactory.value)
      ensures loggerCache == old(loggerCache) && forwarded == old(forwarded)
    {
      if loggerFactory.None? {
        loggerFactory := Some(if serviceLoggerFactory.Some? then serviceLoggerFactory.value else NullLoggerFactory);
      }
      logger := CachedLogger(eventSourceName, loggerFactory.value);
    }

    /** OnEventWritten: look up or create the source's logger, map the
      * level, and log through it if that level is enabled. */
    method OnEventWritten(eventSourceName: string, eventLevel: EventLevel, eventId: int, eventName: Option<string>, message: string)
      requires Valid()
      modifies this
      ensures Valid()
      ensures CacheKey(eventSourceName) in loggerCache
      ensures CacheKey(eventSourceName) in old(loggerCache) ==> loggerCache == old(loggerCache) && loggerFactory == old(loggerFactory)
      ensures CacheKey(eventSourceName) !in old(loggerCache) ==>
        && loggerFactory == Some(ResolveFactory(old(loggerFactory), serviceLoggerFactory))
        && (loggerCache, loggerCache[CacheKey(eventSourceName)]) == GetOrAdd(old(loggerCache), eventSourceName, loggerFactory.value)
      ensures forwarded == old(forwarded) + ForwardedEntries(loggerCache[CacheKey(eventSourceName)], eventLevel, eventId, eventName, message)
    {
      var key := CacheKey(eventSourceName);
      var logger: CachedLogger;
      if key in loggerCache {
        logger := loggerCache[key];
      } else {
        logger := CreateLogger(eventSourceName);
        loggerCache := loggerCache[key := logger];
      }
      var logLevel := ToLogLevel(eventLevel);
      if !LoggerEnabled(logger, logLevel) {
        return;
      }
      forwarded := forwarded + [Forwarded(logger.category, LogEntry(logLevel, EventId(eventId, eventName), Some(message)))];
    }

    /** Dispose: the cache is emptied (the listener's own disposal is not
      * modelled). */
    method Dispose()
      requires Valid()
      modifies this
      ensures Valid()
      ensures loggerCache == map[] && loggerFactory == old(loggerFactory) && forwarded == old(forwarded)
    {
      loggerCache := map[];
    }
  }
}
