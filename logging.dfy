/**
 * The structured logging sink the service writes its lifecycle events to.
 * An entry keeps the severity, the event id and which message template was
 * used (with the exception message where there is one); the timestamp
 * argument of the templates is not kept.
 */
module Logging {

  datatype Severity = Information | Warning | Error

  /** The message templates of the lifecycle hooks. */
  datatype Message =
    | StartingService                              // "Starting service at: {time}"
    | StartedExecuting                             // "Service started executing at: {time}"
    | FinishedExecuting                            // "Service finished executing at: {time}"
    | ServiceCancelled                             // "Service cancelled at: {time}"
    | StoppingService                              // "Stopping service at: {time}"
    | ExceptionReport(exceptionMessage: string)    // "Exception: {0}" with the exception's message

  datatype LogEntry = LogEntry(severity: Severity, eventId: int, message: Message)

  /** A logger: every call appends one entry to what it has recorded. */
  class Logger {
    var entries: seq<LogEntry>

    constructor ()
      ensures entries == []
    {
      entries := [];
    }

    method LogInformation(eventId: int, message: Message)
      modifies this
      ensures entries == old(entries) + [LogEntry(Information, eventId, message)]
    {
      entries := entries + [LogEntry(Information, eventId, message)];
    }

    method LogWarning(eventId: int, message: Message)
      modifies this
      ensures entries == old(entries) + [LogEntry(Warning, eventId, message)]
    {
      entries := entries + [LogEntry(Warning, eventId, message)];
    }

    method LogError(eventId: int, message: Message)
      modifies this
      ensures entries == old(entries) + [LogEntry(Error, eventId, message)]
    {
      entries := entries + [LogEntry(Error, eventId, message)];
    }
  }

  /** The number of entries of severity `s` in `log`. */
  function CountSeverity(log: seq<LogEntry>, s: Severity): (n: nat)
    ensures n <= |log|
    ensures n == 0 <==> forall i :: 0 <= i < |log| ==> log[i].severity != s
    ensures n == |log| <==> forall i :: 0 <= i < |log| ==> log[i].severity == s
  {
    if log == [] then 0
    else (if log[0].severity == s then 1 else 0) + CountSeverity(log[1..], s)
  }

  lemma {:induction false} CountSeverityAppend(a: seq<LogEntry>, b: seq<LogEntry>, s: Severity)
    ensures CountSeverity(a + b, s) == CountSeverity(a, s) + CountSeverity(b, s)
  {
    if a != [] {
      assert (a + b)[1..] == a[1..] + b;
      CountSeverityAppend(a[1..], b, s);
    } else {
      assert a + b == b;
    }
  }
}
