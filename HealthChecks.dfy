/**
  The three health checks of the service: liveness (always healthy), readiness
  (a mutable flag) and database reachability (a probe whose failure is caught,
  logged once at critical level and reported as unhealthy).

  The framework's HealthCheckContext and the cancellation token become the
  plain value CheckContext; asynchronous calls become synchronous ones.
 */
module HealthChecks {
  import opened Wrappers
  import opened HealthStatus

  /** What the framework hands a check: the registration it runs under and whether cancellation was requested. */
  datatype CheckContext = CheckContext(registrationName: string, cancellationRequested: bool)

  /** LivenessHealthCheck.CheckHealthAsync: healthy whatever the context and the token. */
  function LivenessCheckHealth(ctx: CheckContext): (r: Status)
    ensures r == Healthy
  {
    Healthy
  }

  /** ReadinessHealthCheck: the readiness flag and the check that reads it. */
  class ReadinessHealthCheck {
    /** The backing field of the IsReady property. */
    var isReady: bool

    /** A new readiness check starts out ready. */
    constructor ()
      ensures isReady
    {
      isReady := true;
    }

    /** The IsReady getter: the current value of the flag. */
    function IsReady(): (r: bool)
      reads this
      ensures r == isReady
    {
      isReady
    }

    /** The IsReady setter: it changes the flag and nothing else. */
    method SetIsReady(value: bool)
      modifies this
      ensures isReady == value
    {
      isReady := value;
    }

    /**
      CheckHealthAsync: healthy exactly when the flag is set, unhealthy
      otherwise. Having no modifies clause, evaluation leaves the flag as it was.
     */
    method CheckHealth(ctx: CheckContext) returns (r: Status)
      ensures r == Healthy <==> isReady
      ensures r == Unhealthy <==> !isReady
    {
      if IsReady() {
        r := Healthy;
      } else {
        r := Unhealthy;
      }
    }
  }

  /**
    The readiness lifecycle: a fresh check is healthy, turning the flag off makes
    the next evaluation unhealthy, and turning it back on restores healthy.
   */
  method ReadinessToggle(ctx: CheckContext) returns (first: Status, whileNotReady: Status, restored: Status)
    ensures first == Healthy
    ensures whileNotReady == Unhealthy
    ensures restored == Healthy
  {
    var check := new ReadinessHealthCheck();
    first := check.CheckHealth(ctx);
    check.SetIsReady(false);
    whileNotReady := check.CheckHealth(ctx);
    check.SetIsReady(true);
    restored := check.CheckHealth(ctx);
  }

  /** Severity levels of the logging framework. */
  datatype LogLevel = Trace | Debug | Information | Warning | Error | Critical

  /** An exception raised by the probe: only its message is kept. */
  datatype Exception = Exception(message: string)

  /** One call into the logger. */
  datatype LogRecord = LogRecord(level: LogLevel, message: string, exception: Option<Exception>)

  /** The injected logger, seen as the trace of records written to it. */
  class Logger {
    var records: seq<LogRecord>

    constructor ()
      ensures records == []
    {
      records := [];
    }

    /** LogCritical(ex, message): appends one critical record carrying the exception. */
    method LogCritical(ex: Exception, message: string)
      modifies this
      ensures records == old(records) + [LogRecord(Critical, message, Some(ex))]
    {
      records := records + [LogRecord(Critical, message, Some(ex))];
    }
  }

  /** What the database connectivity probe (CanConnectAsync) does: answer, or throw. */
  datatype ProbeOutcome = Connected(canConnect: bool) | Threw(ex: Exception)

  /** The message logged when the probe throws. */
  const DatabaseUnreachableMessage: string := "Unable to reach database!"

  /** The switch on the probe's answer: true is healthy, anything else unhealthy. */
  function ConnectionStatus(canConnect: bool): (r: Status)
    ensures r == Healthy <==> canConnect
    ensures r == Unhealthy <==> !canConnect
  {
    if canConnect then Healthy else Unhealthy
  }

  /** DbConnectionHealthCheck: a probe of the database and a logger for its failures. */
  class DbConnectionHealthCheck {
    const logger: Logger

    constructor (logger: Logger)
      ensures this.logger == logger
    {
      this.logger := logger;
    }

    /**
      CheckHealthAsync: healthy exactly when the probe answers true. A probe that
      throws is caught here: the check reports unhealthy and appends exactly one
      critical record with the exception; a probe that answers logs nothing.
     */
    method CheckHealth(ctx: CheckContext, probe: ProbeOutcome) returns (r: Status)
      modifies logger
      ensures r == Healthy <==> probe == Connected(true)
      ensures r == Unhealthy <==> probe != Connected(true)
      ensures probe.Connected? ==> logger.records == old(logger.records)
      ensures probe.Threw? ==>
        logger.records == old(logger.records) + [LogRecord(Critical, DatabaseUnreachableMessage, Some(probe.ex))]
    {
      match probe
      case Connected(canConnect) =>
        r := ConnectionStatus(canConnect);
      case Threw(ex) =>
        logger.LogCritical(ex, DatabaseUnreachableMessage);
        r := Unhealthy;
    }
  }

  /**
    The database check run once against a fresh logger: the status it reports and
    the log it leaves behind.
   */
  method DbCheckOnFreshLogger(ctx: CheckContext, probe: ProbeOutcome) returns (r: Status, log: seq<LogRecord>)
    ensures r == Healthy <==> probe == Connected(true)
    ensures r == Unhealthy <==> probe != Connected(true)
    ensures probe.Connected? ==> log == []
    ensures probe.Threw? ==> log == [LogRecord(Critical, DatabaseUnreachableMessage, Some(probe.ex))]
  {
    var logger := new Logger();
    var check := new DbConnectionHealthCheck(logger);
    r := check.CheckHealth(ctx, probe);
    log := logger.records;
  }
}
