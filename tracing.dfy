/**
 * Optional console tracing. A trace source is built only when the
 * `Tracing:Level` setting is present and is not the literal "None"
 * (compared case-sensitively); it then carries a source switch at that level
 * and one console listener.
 */
module Tracing {
  import opened Wrappers

  /** The level value that switches tracing off. */
  const DisabledLevel: string := "None"
  /** The display name given to the switch the source is configured with. */
  const SwitchName: string := "SourceSwitch"

  /** A trace source's switch: the one it is built with, or one set afterwards. */
  datatype Switch = DefaultSwitch | SourceSwitch(displayName: string, level: string)

  datatype Listener = ConsoleTraceListener

  /** The observable state of a trace source. */
  datatype TraceSourceModel = TraceSourceModel(name: string, sourceSwitch: Switch, listeners: seq<Listener>)

  predicate TracingEnabled(level: Option<string>)
  {
    level.Some? && level.value != DisabledLevel
  }

  /** The trace source `CreateTraceSource` is to build, if any. */
  function TraceSourceFor(level: Option<string>, sourceName: string): (r: Option<TraceSourceModel>)
    ensures r == None <==> level == None || level == Some(DisabledLevel)
    ensures r.Some? ==>
              r.value.name == sourceName &&
              r.value.sourceSwitch == SourceSwitch(SwitchName, level.value) &&
              r.value.listeners == [ConsoleTraceListener]
  {
    if TracingEnabled(level) then
      Some(TraceSourceModel(sourceName, SourceSwitch(SwitchName, level.value), [ConsoleTraceListener]))
    else
      None
  }

  class TraceSource {
    const name: string
    var sourceSwitch: Switch
    var listeners: seq<Listener>

    function Model(): TraceSourceModel
      reads this
    {
      TraceSourceModel(name, sourceSwitch, listeners)
    }

    constructor (name: string)
      ensures this.name == name && sourceSwitch == DefaultSwitch && listeners == []
    {
      this.name := name;
      sourceSwitch := DefaultSwitch;
      listeners := [];
    }

    method SetSwitch(s: Switch)
      modifies this
      ensures sourceSwitch == s && listeners == old(listeners)
    {
      sourceSwitch := s;
    }

    method AddListener(l: Listener)
      modifies this
      ensures listeners == old(listeners) + [l] && sourceSwitch == old(sourceSwitch)
    {
      listeners := listeners + [l];
    }
  }

  /**
   * Builds the trace source for the configured level: null when tracing is
   * off, otherwise a new source named `sourceName`.
   */
  method CreateTraceSource(level: Option<string>, sourceName: string) returns (traceSource: TraceSource?)
    ensures traceSource == null <==> TraceSourceFor(level, sourceName) == None
    ensures traceSource != null ==> fresh(traceSource) && TraceSourceFor(level, sourceName) == Some(traceSource.Model())
  {
    traceSource := null;
    if level != None && level.value != DisabledLevel {
      traceSource := new TraceSource(sourceName);
      var sourceSwitch := SourceSwitch(SwitchName, level.value);
      traceSource.SetSwitch(sourceSwitch);
      traceSource.AddListener(ConsoleTraceListener);
      assert traceSource.listeners == [] + [ConsoleTraceListener] == [ConsoleTraceListener];
    }
  }
}
