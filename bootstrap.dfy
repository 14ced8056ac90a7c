/**
 * The bootstrap's one decision: which name the service goes by. The name is
 * taken from the optional `Logging:EventLog:SourceName` setting; only a
 * missing (null) setting falls back to the fixed default.
 */
module Bootstrap {
  import opened Wrappers

  const DefaultServiceName: string := "Chetch"

  /** The service name `Run` settles on for a configured source name. */
  function ResolveServiceName(configuredSourceName: Option<string>): (name: string)
    ensures configuredSourceName.None? ==> name == DefaultServiceName
    ensures configuredSourceName.Some? ==> name == configuredSourceName.value
    ensures name == "" <==> configuredSourceName == Some("")
    ensures name == DefaultServiceName <==>
              configuredSourceName == None || configuredSourceName == Some(DefaultServiceName)
  {
    match configuredSourceName
    case None => DefaultServiceName
    case Some(sourceName) => sourceName
  }

  /**
   * The process-wide static state of the service type: its `ServiceName`,
   * empty until `Run` assigns it.
   */
  class ServiceIdentity {
    var serviceName: string

    constructor ()
      ensures serviceName == ""
    {
      serviceName := "";
    }

    /**
     * The part of `Run` that reads the configuration and assigns the name;
     * the configuration lookup's result is the parameter.
     */
    method Run(configuredSourceName: Option<string>)
      modifies this
      ensures serviceName == ResolveServiceName(configuredSourceName)
      ensures configuredSourceName.None? ==> serviceName == DefaultServiceName
      ensures configuredSourceName.Some? ==> serviceName == configuredSourceName.value
    {
      var sourceName: string;
      if configuredSourceName == None {
        sourceName := DefaultServiceName;
      } else {
        sourceName := configuredSourceName.value;
      }
      serviceName := sourceName;
    }
  }
}
