/** The part of Python's `logging` library that the utility configures: a
    logger with a level and an ordered list of handlers, the documented rule
    for which handlers see a record (the logger's level, then each handler's
    level, then the handler's filters), and the (sink, record) pairs that the
    handlers receive. Writing the formatted line to a file or stream is not
    modelled; a delivery stands for it. */
module Logging {
  import opened Wrappers
  import opened Levels

  /** What `logger.log(level, msg)` hands to the engine. */
  datatype Record = Record(level: int, message: string)

  /** The four outputs the utility attaches, in the order it attaches them. */
  datatype Sink = LogFile | ErrorFile | Stdout | Stderr

  /** A handler as far as routing sees it: where it writes, its own level
      (`setLevel`), and an optional ceiling standing for a filter of the form
      `record.levelno <= ceiling`. */
  datatype Handler = Handler(sink: Sink, threshold: int, ceiling: Option<int>)

  /** `record.levelno >= handler.level`, then the handler's filters. */
  predicate Handles(h: Handler, level: int) {
    h.threshold <= level && (h.ceiling.Some? ==> level <= h.ceiling.value)
  }

  /** The sinks, in handler order, that a record at `level` reaches through a
      logger whose own level is `loggerLevel`. */
  function Route(loggerLevel: int, handlers: seq<Handler>, level: int): seq<Sink> {
    if level < loggerLevel || handlers == [] then []
    else
      var rest := Route(loggerLevel, handlers[1..], level);
      if Handles(handlers[0], level) then [handlers[0].sink] + rest else rest
  }

  /** A record reaches a sink exactly when it passes the logger's level and
      some handler writing to that sink handles it; no handler yields more
      than one delivery. */
  lemma {:induction false} RouteMembers(loggerLevel: int, handlers: seq<Handler>, level: int)
    ensures |Route(loggerLevel, handlers, level)| <= |handlers|
    ensures forall s :: s in Route(loggerLevel, handlers, level) <==>
      loggerLevel <= level && exists h :: h in handlers && h.sink == s && Handles(h, level)
    decreases |handlers|
  {
    if level >= loggerLevel && handlers != [] {
      RouteMembers(loggerLevel, handlers[1..], level);
      assert forall h :: h in handlers <==> h == handlers[0] || h in handlers[1..];
    }
  }

  datatype Delivery = Delivery(sink: Sink, record: Record)

  /** One record handed to each of `sinks`, in order. */
  function Deliver(sinks: seq<Sink>, r: Record): seq<Delivery> {
    seq(|sinks|, k requires 0 <= k < |sinks| => Delivery(sinks[k], r))
  }

  /** What `sinks` receive when `records` are logged one after another. */
  function DeliverEach(sinks: seq<Sink>, records: seq<Record>): seq<Delivery> {
    if records == [] then []
    else DeliverEach(sinks, records[..|records| - 1]) + Deliver(sinks, records[|records| - 1])
  }

  /** The process-wide root logger (`logging.getLogger()`). `submitted` is
      every record asked for through `Log`, in order; `deliveries` is what its
      handlers received, in order. */
  class RootLogger {
    var level: int
    var handlers: seq<Handler>
    var submitted: seq<Record>
    var deliveries: seq<Delivery>

    /** A root logger as the library creates it: level WARNING, no handlers. */
    constructor ()
      ensures level == WARNING && handlers == [] && submitted == [] && deliveries == []
    {
      level := WARNING;
      handlers := [];
      submitted := [];
      deliveries := [];
    }

    method SetLevel(newLevel: int)
      modifies this
      ensures level == newLevel
      ensures handlers == old(handlers) && submitted == old(submitted) && deliveries == old(deliveries)
    {
      level := newLevel;
    }

    /** Each handler the utility adds is a new object, so it is always appended. */
    method AddHandler(h: Handler)
      modifies this
      ensures handlers == old(handlers) + [h]
      ensures level == old(level) && submitted == old(submitted) && deliveries == old(deliveries)
    {
      handlers := handlers + [h];
    }

    /** `logger.log(level, message)`. */
    method Log(recordLevel: int, message: string)
      modifies this
      ensures submitted == old(submitted) + [Record(recordLevel, message)]
      ensures deliveries == old(deliveries)
        + Deliver(Route(level, handlers, recordLevel), Record(recordLevel, message))
      ensures level == old(level) && handlers == old(handlers)
    {
      var r := Record(recordLevel, message);
      submitted := submitted + [r];
      deliveries := deliveries + Deliver(Route(level, handlers, recordLevel), r);
    }
  }
}
