# Chetch Services: a verified model of the hosted-service base class

`Chetch.Services.Service<T>` is an abstract base for long-running background
services hosted by the .NET generic host, running as a Windows service or as a
plain process. This project models the decisions it makes:

- **Service-name resolution** (`Bootstrap`). The static `ServiceName` starts empty.
  `Run` sets it to the configured `Logging:EventLog:SourceName`, or to `"Chetch"`
  when that setting is missing.
- **Trace gating** (`Tracing`). `CreateTraceSource` returns no source when
  `Tracing:Level` is missing or is exactly `"None"`. Otherwise it returns a new
  source with the requested name, a `SourceSwitch` at that level and one console
  listener.
- **Lifecycle logging** (`Lifecycle`, over the logger of `Logging`).
  - `StartAsync` logs Information event 10.
  - `StopAsync` logs Information event 1000.
  - `ExecuteAsync` is entered from the base class's start. It logs Information
    event 100 and then awaits the abstract `Execute`.
  - When `Execute` ends, it logs one of three things: Information 100
    "finished" when `Execute` returns; Warning 100 "cancelled" on an
    `OperationCanceledException`; or, through `OnError`, one Error entry with
    event 0 that carries the message of any other exception.
  - Its task then runs to completion: no exception is raised again.

How `Execute` ends is the datatype `Outcome = Completed | Cancelled | Faulted(message)`.
How the task of `ExecuteAsync` ends, as the host sees it, is the datatype
`TaskEnd = RanToCompletion | TaskCanceled | TaskFaulted(message)`.
The logger is a `Logger` object that holds a sequence of
`(severity, event id, message)` entries.

`ExecuteAsync` is modelled in two parts that meet at its `await`. Other hooks
can run between them. In the usual shutdown, `StopAsync` logs "stopping"
first. Its base-class call then cancels the token `Execute` waits on, and only
after that does "cancelled" appear.

A host step is a hook call, or the point where `Execute` ends.
`ScheduleLog` describes the log left by any sequence of host steps, and
`DriveHooks` performs such a sequence on the class's methods and is proved to
leave exactly that log. The lemmas about `ScheduleLog` say three things,
whatever the order of the steps:

- every Warning is the cancellation entry;
- there is exactly one Error entry per faulted execution;
- every Error entry carries the message of a fault that actually happened.

`RunLifecycle` runs one lifecycle in both orders: the unit of work ends before
the stop, or the stop comes first. It states the resulting four-entry log.

Only a missing (null) name setting falls back to `"Chetch"`
(Services/Service.cs:44). A configured empty string becomes the service name,
so the name can be empty. `ResolveServiceName` states that an empty name
arises exactly from that input.

## Model

| member | source | states |
|---|---|---|
| `Bootstrap.ResolveServiceName` | Services/Service.cs:42-47 | a missing source name gives "Chetch", a present one is kept verbatim; the name is empty exactly when the configured value is the empty string, and is "Chetch" exactly when the setting is missing or is "Chetch" |
| `Bootstrap.ServiceIdentity.constructor` | Services/Service.cs:15 | `ServiceName` is the empty string before `Run` |
| `Bootstrap.ServiceIdentity.Run` | Services/Service.cs:41-49 | after `Run`, `ServiceName` is the resolved name: "Chetch" for a missing setting, otherwise the configured value; the same configuration always gives the same name |
| `Tracing.TraceSourceFor` | Services/Service.cs:25-33 | no source exactly when the level is missing or equals "None"; otherwise a source with the given name, a switch named "SourceSwitch" at the configured level, and exactly one console listener |
| `Tracing.CreateTraceSource` | Services/Service.cs:22-35 | returns null exactly when tracing is off; otherwise a freshly built source whose name, switch and listeners are those `TraceSourceFor` gives |
| `Lifecycle.OutcomeEntry` | Services/Service.cs:86-98 | once `Execute` has ended, the one entry logged is "finished" iff it completed, the Warning "cancelled" iff it was cancelled (and Warning only then), an Error iff it faulted, that Error with event 0 and the exception's message |
| `Lifecycle.ExecutionLog` | Services/Service.cs:84-98 | an uninterrupted `ExecuteAsync` logs "started" and then the outcome's entry: one Error exactly for a fault, one Warning exactly for a cancellation |
| `Lifecycle.ExecutionLogDistinguishesOutcomes` | Services/Service.cs:91-98 | two outcomes leave the same log only if they are the same outcome, so cancellation is never confused with a fault |
| `Lifecycle.Service.constructor` | Services/Service.cs:13 | the service keeps the logger it was constructed with; every hook writes to that logger |
| `Lifecycle.Service.StartAsync` | Services/Service.cs:67-71 | appends exactly Information(10, starting) to the logger and nothing else |
| `Lifecycle.Service.OnError` | Services/Service.cs:75-78 | appends exactly one Error entry with the given event id (0 by default) and the exception's message |
| `Lifecycle.Service.BeginExecuteAsync` | Services/Service.cs:84-86 | before awaiting `Execute`, appends exactly Information(100, started) |
| `Lifecycle.Service.ResumeExecuteAsync` | Services/Service.cs:86-98 | after `Execute` ends, appends exactly the outcome's entry, and the task ends `RanToCompletion` for every outcome, cancellation and fault included: nothing is raised again |
| `Lifecycle.Service.ExecuteAsync` | Services/Service.cs:80-99 | appends exactly `ExecutionLog(outcome)` and its task ends `RanToCompletion` for every outcome |
| `Lifecycle.Service.StopAsync` | Services/Service.cs:101-105 | appends exactly Information(1000, stopping) to the logger and nothing else |
| `Lifecycle.ScheduleLog` | Services/Service.cs:67-105 | for any sequence of host steps, every Warning in the log is the cancellation entry, and every Error is an exception report with event id 0 |
| `Lifecycle.ScheduleLogAppend` | Services/Service.cs:67-105 | the hooks only append: the log of two step sequences run one after the other is the concatenation of their logs |
| `Lifecycle.ErrorsCountFaults` | Services/Service.cs:75-98 | the number of Error entries equals the number of executions that faulted |
| `Lifecycle.WarningsCountCancellations` | Services/Service.cs:91-94 | the number of Warning entries equals the number of executions that were cancelled |
| `Lifecycle.ErrorsComeFromFaults` | Services/Service.cs:95-98 | every Error entry carries the message of an execution that actually faulted with that message |
| `Lifecycle.DriveHooks` | Services/Service.cs:67-105 | performing any sequence of host steps on the service's methods appends exactly `ScheduleLog` of that sequence to its logger |
| `Lifecycle.LifecycleLog` | Services/Service.cs:67-105 | the log of one lifecycle, entry by entry, in both orders, with one Error exactly when the outcome is a fault |
| `Lifecycle.RunLifecycle` | Services/Service.cs:67-105 | on a fresh logger, one lifecycle logs starting, started, then the outcome's entry and stopping in the order they happen; a stop that cancels the running `Execute` logs starting, started, stopping, cancelled |

## Left out

- `GetAppSettings` and reading `appsettings.json` (Services/Service.cs:17-20): file I/O. The configuration lookups `Logging:EventLog:SourceName` and `Tracing:Level` are given as optional strings. The lookup itself, and the case-insensitive keys of .NET configuration, are not modelled.
- Host building and running: `Host.CreateApplicationBuilder`, `AddWindowsService` with the service name, `AddHostedService<T>`, `Build` and the blocking `host.Run` (Services/Service.cs:39, 50-53, 61-64). These are calls into the hosting library.
- The `OperatingSystem.IsWindows()` probe and event-log provider registration (Services/Service.cs:55-59). This is platform plumbing and has no effect on the modelled state.
- The `{time}` timestamp argument of each log message. It comes from the clock.
- `Task`, `CancellationToken` and async scheduling, and the bodies of `base.StartAsync`, `base.StopAsync` and the host's own `BackgroundService` machinery. These are library internals and concurrency.
- The concrete `Execute` implementations. They belong to subclasses. Only how `Execute` ends is modelled, not any entries it logs itself, including its own calls to `OnError`.
- The cancellation token itself. The stop's cancelling of it is represented only by the order of steps and by the outcome `Execute` ends with; the model does not force a cancelled outcome after a stop.
- Exceptions thrown by the logger itself inside `ExecuteAsync`'s `try` block. Logging failures belong to the sink.
- The exception object that `OnError` passes to `LogError`. Only its message is kept in the entry.
- The library's default listener that a new `TraceSource` may already carry. `TraceSource.listeners` holds only the listeners this code adds.
- Parsing the switch level into `SourceLevels`, and the failure when the name is unknown. The level is kept as the configured string.
- Tracing.CreateTraceSource: when tracing is on and the source name is empty, the .NET `TraceSource` constructor (Services/Service.cs:29) throws `ArgumentException`. The model returns a source with the empty name instead, because the library constructor's argument checks are not modelled.
- `ServiceName` is a static of the generic class, so C# keeps one per closed type `Service<T>`. The model has a single `ServiceIdentity` object for the one service type a process runs.
