/** `PerformanceBehavior`: times each request, logs exactly one entry about it and passes the
    inner handler's response or exception through unchanged. */
module Behaviors {
  import opened Wrappers
  import opened Common

  datatype LogLevel = Information | Warning | Error

  /** One logger call: its level, the request type's name and the elapsed milliseconds. */
  datatype LogEntry = LogEntry(level: LogLevel, requestName: string, elapsedMs: nat)

  /** Requests running strictly longer than this are reported as long running. */
  const LongRunningThresholdMs: nat := 1000

  /** The level of a completed request: a warning exactly above the threshold. */
  function Classify(elapsedMs: nat): (level: LogLevel)
    ensures level == Warning <==> elapsedMs > LongRunningThresholdMs
    ensures level == Information <==> elapsedMs <= LongRunningThresholdMs
  {
    if elapsedMs > LongRunningThresholdMs then Warning else Information
  }

  /** The entry logged for a request whose handler yielded `outcome`: an error when it threw,
      otherwise the classified level; always tagged with the request name and the time. */
  function EntryFor<R>(requestName: string, elapsedMs: nat, outcome: Result<R, Error>): (e: LogEntry)
    ensures e.requestName == requestName && e.elapsedMs == elapsedMs
    ensures e.level == Error <==> outcome.Failure?
    ensures e.level == Warning <==> outcome.Success? && elapsedMs > LongRunningThresholdMs
  {
    LogEntry(if outcome.Failure? then Error else Classify(elapsedMs), requestName, elapsedMs)
  }

  /** Exactly 1000 ms is not long running; 1001 ms is. */
  lemma ThresholdIsStrict()
    ensures Classify(1000) == Information && Classify(1001) == Warning
  {
  }

  class PerformanceBehavior<TResponse> {
    /** The logger's entries. */
    var log: seq<LogEntry>

    constructor ()
      ensures log == []
    {
      log := [];
    }

    /** `Handle`: `next` has run once, taking `elapsedMs`, and yielded `response` (a value or an
        exception). The result is exactly that response, slow or not; an exception is rethrown. */
    method Handle(requestName: string, elapsedMs: nat, response: Result<TResponse, Error>) returns (r: Result<TResponse, Error>)
      modifies this
      ensures r == response
      ensures log == old(log) + [EntryFor(requestName, elapsedMs, response)]
    {
      if response.Success? {
        if elapsedMs > LongRunningThresholdMs {
          log := log + [LogEntry(Warning, requestName, elapsedMs)];
        } else {
          log := log + [LogEntry(Information, requestName, elapsedMs)];
        }
        return response;
      }
      log := log + [LogEntry(Error, requestName, elapsedMs)];
      return response;
    }
  }
}
