/**
 * The supervised lifecycle of a hosted service. The abstract unit of work
 * (`Execute`) is represented only by how it ends; the wrapper turns each
 * hook call into a fixed run of log entries and never lets a fault escape.
 */
module Lifecycle {
  import opened Logging

  const StartingEventId: int := 10
  const ExecutingEventId: int := 100
  const StoppingEventId: int := 1000
  /** The event id `OnError` uses when the caller gives none. */
  const DefaultErrorEventId: int := 0

  /** How the implementer's `Execute` ends: normally, by cancellation, or by any other exception. */
  datatype Outcome = Completed | Cancelled | Faulted(exceptionMessage: string)

  const StartingEntry: LogEntry := LogEntry(Information, StartingEventId, StartingService)
  const StartedEntry: LogEntry := LogEntry(Information, ExecutingEventId, StartedExecuting)
  const FinishedEntry: LogEntry := LogEntry(Information, ExecutingEventId, FinishedExecuting)
  const CancelledEntry: LogEntry := LogEntry(Warning, ExecutingEventId, ServiceCancelled)
  const StoppingEntry: LogEntry := LogEntry(Information, StoppingEventId, StoppingService)

  function ErrorEntry(eventId: int, exceptionMessage: string): LogEntry
  {
    LogEntry(Error, eventId, ExceptionReport(exceptionMessage))
  }

  /** The entry the rest of `ExecuteAsync` logs once the awaited `Execute` has ended with `outcome`. */
  function OutcomeEntry(outcome: Outcome): (entry: LogEntry)
    ensures entry == FinishedEntry <==> outcome.Completed?
    ensures entry == CancelledEntry <==> outcome.Cancelled?
    ensures entry.severity == Warning <==> outcome.Cancelled?
    ensures entry.severity == Error <==> outcome.Faulted?
    ensures outcome.Faulted? ==> entry == ErrorEntry(DefaultErrorEventId, outcome.exceptionMessage)
  {
    match outcome
    case Completed => FinishedEntry
    case Cancelled => CancelledEntry
    case Faulted(m) => ErrorEntry(DefaultErrorEventId, m)
  }

  /** What `ExecuteAsync` appends to the log when `Execute` ends with `outcome`. */
  function ExecutionLog(outcome: Outcome): (entries: seq<LogEntry>)
    ensures |entries| == 2 && entries[0] == StartedEntry && entries[1] == OutcomeEntry(outcome)
    ensures CountSeverity(entries, Error) == (if outcome.Faulted? then 1 else 0)
    ensures CountSeverity(entries, Warning) == (if outcome.Cancelled? then 1 else 0)
  {
    [StartedEntry, OutcomeEntry(outcome)]
  }

  /** Distinct outcomes leave distinct logs: cancellation and each fault can be told apart. */
  lemma ExecutionLogDistinguishesOutcomes(a: Outcome, b: Outcome)
    ensures ExecutionLog(a) == ExecutionLog(b) <==> a == b
  {
  }

  /** How the task of an async method ends, as the host that awaits it sees it. */
  datatype TaskEnd = RanToCompletion | TaskCanceled | TaskFaulted(exceptionMessage: string)

  /** One instance of the service, writing to the logger it was constructed with. */
  class Service {
    const logger: Logger

    constructor (logger: Logger)
      ensures this.logger == logger
    {
      this.logger := logger;
    }

    /** The start hook: logs the starting event, then leaves the rest to the host. */
    method StartAsync()
      modifies logger
      ensures logger.entries == old(logger.entries) + [StartingEntry]
    {
      logger.LogInformation(StartingEventId, StartingService);
    }

    /** Reports a caught exception as one Error entry carrying its message. */
    method OnError(exceptionMessage: string, eventId: int := DefaultErrorEventId)
      modifies logger
      ensures logger.entries == old(logger.entries) + [ErrorEntry(eventId, exceptionMessage)]
    {
      logger.LogError(eventId, ExceptionReport(exceptionMessage));
    }

    /** `ExecuteAsync` up to its `await`: logs that execution has started. */
    method BeginExecuteAsync()
      modifies logger
      ensures logger.entries == old(logger.entries) + [StartedEntry]
    {
      logger.LogInformation(ExecutingEventId, StartedExecuting);
    }

    /**
     * `ExecuteAsync` from its `await` on, once `Execute` has ended with
     * `outcome`. A cancellation is logged as a warning, any other exception
     * through `OnError`; neither is raised again, so the task always runs to
     * completion.
     */
    method ResumeExecuteAsync(outcome: Outcome) returns (ended: TaskEnd)
      modifies logger
      ensures logger.entries == old(logger.entries) + [OutcomeEntry(outcome)]
      ensures ended == RanToCompletion
    {
      match outcome {
        case Completed =>
          logger.LogInformation(ExecutingEventId, FinishedExecuting);
        case Cancelled =>
          logger.LogWarning(ExecutingEventId, ServiceCancelled);
        case Faulted(m) =>
          OnError(m);
      }
      ended := RanToCompletion;
    }

    /** The wrapped run loop, when nothing else runs while `Execute` is awaited. */
    method ExecuteAsync(outcome: Outcome) returns (ended: TaskEnd)
      modifies logger
      ensures logger.entries == old(logger.entries) + ExecutionLog(outcome)
      ensures ended == RanToCompletion
    {
      BeginExecuteAsync();
      ended := ResumeExecuteAsync(outcome);
    }

    /** The stop hook: logs the stopping event, then leaves the rest to the host. */
    method StopAsync()
      modifies logger
      ensures logger.entries == old(logger.entries) + [StoppingEntry]
    {
      logger.LogInformation(StoppingEventId, StoppingService);
    }
  }

  /**
   * A step the hosting runtime takes in the service: a hook call, or the
   * point where the awaited `Execute` ends and `ExecuteAsync` resumes.
   * `ExecuteAsync` is entered from the base class's start, not from the
   * service's own code.
   */
  datatype HostCall = StartCall | ExecuteBegins | ExecuteEnds(outcome: Outcome) | StopCall

  /** What one step appends to the log. */
  function HookLog(call: HostCall): seq<LogEntry>
  {
    match call
    case StartCall => [StartingEntry]
    case ExecuteBegins => [StartedEntry]
    case ExecuteEnds(outcome) => [OutcomeEntry(outcome)]
    case StopCall => [StoppingEntry]
  }

  /**
   * The log a sequence of steps leaves. Whatever their order, every Warning
   * is the cancellation entry and every Error is an exception report under
   * the default event id.
   */
  function ScheduleLog(calls: seq<HostCall>): (log: seq<LogEntry>)
    ensures forall i :: 0 <= i < |log| && log[i].severity == Warning ==> log[i] == CancelledEntry
    ensures forall i :: 0 <= i < |log| && log[i].severity == Error ==>
              log[i].eventId == DefaultErrorEventId && log[i].message.ExceptionReport?
    decreases |calls|
  {
    if calls == [] then []
    else ScheduleLog(calls[..|calls| - 1]) + HookLog(calls[|calls| - 1])
  }

  lemma {:induction false} ScheduleLogAppend(a: seq<HostCall>, b: seq<HostCall>)
    ensures ScheduleLog(a + b) == ScheduleLog(a) + ScheduleLog(b)
    decreases |b|
  {
    if b == [] {
      assert a + b == a;
    } else {
      var init := b[..|b| - 1];
      assert (a + b)[..|a + b| - 1] == a + init;
      assert (a + b)[|a + b| - 1] == b[|b| - 1];
      ScheduleLogAppend(a, init);
    }
  }

  /** The number of `Execute` calls in `calls` that ended in a fault. */
  function FaultCount(calls: seq<HostCall>): nat
    decreases |calls|
  {
    if calls == [] then 0
    else FaultCount(calls[..|calls| - 1]) + (if calls[|calls| - 1].ExecuteEnds? && calls[|calls| - 1].outcome.Faulted? then 1 else 0)
  }

  /** The number of `Execute` calls in `calls` that ended in a cancellation. */
  function CancelCount(calls: seq<HostCall>): nat
    decreases |calls|
  {
    if calls == [] then 0
    else CancelCount(calls[..|calls| - 1]) + (if calls[|calls| - 1] == ExecuteEnds(Cancelled) then 1 else 0)
  }

  /** Exactly one Error entry per faulted execution, and no other. */
  lemma {:induction false} ErrorsCountFaults(calls: seq<HostCall>)
    ensures CountSeverity(ScheduleLog(calls), Error) == FaultCount(calls)
    decreases |calls|
  {
    if calls != [] {
      var init, last := calls[..|calls| - 1], calls[|calls| - 1];
      ErrorsCountFaults(init);
      CountSeverityAppend(ScheduleLog(init), HookLog(last), Error);
    }
  }

  /** Exactly one Warning entry per cancelled execution, and no other. */
  lemma {:induction false} WarningsCountCancellations(calls: seq<HostCall>)
    ensures CountSeverity(ScheduleLog(calls), Warning) == CancelCount(calls)
    decreases |calls|
  {
    if calls != [] {
      var init, last := calls[..|calls| - 1], calls[|calls| - 1];
      WarningsCountCancellations(init);
      CountSeverityAppend(ScheduleLog(init), HookLog(last), Warning);
    }
  }

  /** Every exception report in the log carries the message of a fault that happened. */
  lemma {:induction false} ErrorsComeFromFaults(calls: seq<HostCall>, i: nat)
    requires i < |ScheduleLog(calls)| && ScheduleLog(calls)[i].severity == Error
    ensures exists j :: 0 <= j < |calls| &&
              calls[j] == ExecuteEnds(Faulted(ScheduleLog(calls)[i].message.exceptionMessage))
    decreases |calls|
  {
    var init, last := calls[..|calls| - 1], calls[|calls| - 1];
    var log := ScheduleLog(calls);
    if i < |ScheduleLog(init)| {
      assert log[i] == ScheduleLog(init)[i];
      ErrorsComeFromFaults(init, i);
      var j :| 0 <= j < |init| && init[j] == ExecuteEnds(Faulted(log[i].message.exceptionMessage));
      assert calls[j] == init[j];
    } else {
      assert log[i] == HookLog(last)[i - |ScheduleLog(init)|];
      assert calls[|calls| - 1] == ExecuteEnds(Faulted(log[i].message.exceptionMessage));
    }
  }

  /**
   * Performs the steps of `calls` in order on `service`: the hook methods,
   * and for `ExecuteEnds` the resumption of `ExecuteAsync`.
   */
  method DriveHooks(service: Service, calls: seq<HostCall>)
    modifies service.logger
    ensures service.logger.entries == old(service.logger.entries) + ScheduleLog(calls)
  {
    var i := 0;
    while i < |calls|
      invariant 0 <= i <= |calls|
      invariant service.logger.entries == old(service.logger.entries) + ScheduleLog(calls[..i])
    {
      match calls[i] {
        case StartCall => service.StartAsync();
        case ExecuteBegins => service.BeginExecuteAsync();
        case ExecuteEnds(outcome) => var ended := service.ResumeExecuteAsync(outcome);
        case StopCall => service.StopAsync();
      }
      assert calls[..i + 1][..i] == calls[..i];
      i := i + 1;
    }
    assert calls[..|calls|] == calls;
  }

  /**
   * The steps of one lifecycle: start, execution begins, and then either the
   * unit of work ends before the stop, or the stop comes first (the stop is
   * what cancels the token `Execute` waits on) and `Execute` ends after it.
   */
  function LifecycleSchedule(outcome: Outcome, stoppedWhileExecuting: bool): seq<HostCall>
  {
    if stoppedWhileExecuting then [StartCall, ExecuteBegins, StopCall, ExecuteEnds(outcome)]
    else [StartCall, ExecuteBegins, ExecuteEnds(outcome), StopCall]
  }

  /** One lifecycle on a fresh service and logger; returns what was logged. */
  method RunLifecycle(outcome: Outcome, stoppedWhileExecuting: bool) returns (log: seq<LogEntry>)
    ensures log == ScheduleLog(LifecycleSchedule(outcome, stoppedWhileExecuting))
    ensures |log| == 4 && log[0] == StartingEntry && log[1] == StartedEntry
    ensures !stoppedWhileExecuting ==> log[2] == OutcomeEntry(outcome) && log[3] == StoppingEntry
    ensures stoppedWhileExecuting ==> log[2] == StoppingEntry && log[3] == OutcomeEntry(outcome)
    ensures stoppedWhileExecuting && outcome.Cancelled? ==>
              log == [StartingEntry, StartedEntry, StoppingEntry, CancelledEntry]
    ensures CountSeverity(log, Error) == (if outcome.Faulted? then 1 else 0)
  {
    var logger := new Logger();
    var service := new Service(logger);
    DriveHooks(service, LifecycleSchedule(outcome, stoppedWhileExecuting));
    log := logger.entries;
    LifecycleLog(outcome, stoppedWhileExecuting);
  }

  lemma ScheduleLogOfFour(a: HostCall, b: HostCall, c: HostCall, d: HostCall)
    ensures ScheduleLog([a, b, c, d]) == HookLog(a) + HookLog(b) + HookLog(c) + HookLog(d)
  {
    assert [a][..0] == [];
    assert ScheduleLog([a]) == HookLog(a);
    assert [a, b][..1] == [a];
    assert ScheduleLog([a, b]) == HookLog(a) + HookLog(b);
    assert [a, b, c][..2] == [a, b];
    assert ScheduleLog([a, b, c]) == HookLog(a) + HookLog(b) + HookLog(c);
    assert [a, b, c, d][..3] == [a, b, c];
  }

  /** The log of one lifecycle, entry by entry. */
  lemma LifecycleLog(outcome: Outcome, stoppedWhileExecuting: bool)
    ensures ScheduleLog(LifecycleSchedule(outcome, stoppedWhileExecuting)) ==
              if stoppedWhileExecuting then [StartingEntry, StartedEntry, StoppingEntry, OutcomeEntry(outcome)]
              else [StartingEntry, StartedEntry, OutcomeEntry(outcome), StoppingEntry]
    ensures CountSeverity(ScheduleLog(LifecycleSchedule(outcome, stoppedWhileExecuting)), Error) ==
              if outcome.Faulted? then 1 else 0
  {
    var e := OutcomeEntry(outcome);
    if stoppedWhileExecuting {
      ScheduleLogOfFour(StartCall, ExecuteBegins, StopCall, ExecuteEnds(outcome));
      CountSeverityAppend([StartingEntry, StartedEntry, StoppingEntry], [e], Error);
      assert [StartingEntry, StartedEntry, StoppingEntry, e] == [StartingEntry, StartedEntry, StoppingEntry] + [e];
    } else {
      ScheduleLogOfFour(StartCall, ExecuteBegins, ExecuteEnds(outcome), StopCall);
      CountSeverityAppend([StartingEntry, StartedEntry], [e, StoppingEntry], Error);
      assert [StartingEntry, StartedEntry, e, StoppingEntry] == [StartingEntry, StartedEntry] + [e, StoppingEntry];
    }
  }
}
