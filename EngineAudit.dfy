/**
 * The engine-specific audit step (lambda/engine-parameter-audit.ts): the
 * engine name is resolved from the invoking event, the described instance
 * and the deployment's default, the required-parameter names of that engine
 * are looked up, and a message and a subject are built. No parameter value
 * is read.
 */
module EngineAudit {
  import opened Common

  /** The engine: the first truthy of `event.engine`, `instance.Engine` and the
      ENGINE environment variable, whose own default is "unknown", lower-cased. */
  function ResolveEngine(eventEngine: Option<string>, instanceEngine: Option<string>, envEngine: Option<string>): string {
    ToLower(OrElse(eventEngine, OrElse(instanceEngine, OrElse(envEngine, "unknown"))))
  }

  /** The names of `REQUIRED_PARAMS[engine] || []`. */
  function RequiredParamNames(engine: string): seq<string> {
    if engine == "mysql" then ["require_secure_transport", "tls_version"]
    else if engine == "postgres" then ["rds.force_ssl", "log_min_duration_statement"]
    else if engine == "oracle" then ["local_listener"]
    else if engine == "sqlserver" then ["rds.tls_version"]
    else []
  }

  datatype EngineReport = EngineReport(message: string, subject: string)

  const MessagePrefix := "Engine specific audit executed for "
  const ChecksLead := ". (placeholder checks="

  function ReportFor(engine: string): EngineReport {
    EngineReport(MessagePrefix + engine + ChecksLead + Join(RequiredParamNames(engine), ",") + ")",
                 "RDS Engine (" + engine + ") Parameter Audit")
  }

  /** The handler's result. */
  function EngineAuditReport(eventEngine: Option<string>, instanceEngine: Option<string>, envEngine: Option<string>)
    : EngineReport
  {
    ReportFor(ResolveEngine(eventEngine, instanceEngine, envEngine))
  }

  /** The event's engine wins, then the instance's, then the environment's,
      then "unknown". */
  lemma ResolveEnginePriority(eventEngine: Option<string>, instanceEngine: Option<string>, envEngine: Option<string>)
    ensures Truthy(eventEngine) ==> ResolveEngine(eventEngine, instanceEngine, envEngine) == ToLower(eventEngine.value)
    ensures !Truthy(eventEngine) && Truthy(instanceEngine) ==>
              ResolveEngine(eventEngine, instanceEngine, envEngine) == ToLower(instanceEngine.value)
    ensures !Truthy(eventEngine) && !Truthy(instanceEngine) && Truthy(envEngine) ==>
              ResolveEngine(eventEngine, instanceEngine, envEngine) == ToLower(envEngine.value)
    ensures !Truthy(eventEngine) && !Truthy(instanceEngine) && !Truthy(envEngine) ==>
              ResolveEngine(eventEngine, instanceEngine, envEngine) == "unknown"
  {
    ToLowerOfLowerCase("unknown");
  }

  /** The resolved engine has no upper-case letter, and the resolution is
      insensitive to the case of every source. */
  lemma ResolvedEngineIsLowerCase(eventEngine: Option<string>, instanceEngine: Option<string>, envEngine: Option<string>)
    ensures IsLowerCase(ResolveEngine(eventEngine, instanceEngine, envEngine))
    ensures ToLower(ResolveEngine(eventEngine, instanceEngine, envEngine)) == ResolveEngine(eventEngine, instanceEngine, envEngine)
  {
    ToLowerAt(OrElse(eventEngine, OrElse(instanceEngine, OrElse(envEngine, "unknown"))));
    ToLowerIdempotent(OrElse(eventEngine, OrElse(instanceEngine, OrElse(envEngine, "unknown"))));
  }

  /** A resolved engine outside the table has no checks and its message lists none. */
  lemma UnknownEngineNoChecks(engine: string)
    requires engine != "mysql" && engine != "postgres" && engine != "oracle" && engine != "sqlserver"
    ensures RequiredParamNames(engine) == []
    ensures ReportFor(engine).message == MessagePrefix + engine + ChecksLead + ")"
  {
  }

  /** Every check name appears in the message. */
  lemma MessageListsChecks(engine: string, k: nat)
    requires k < |RequiredParamNames(engine)|
    ensures Contains(ReportFor(engine).message, RequiredParamNames(engine)[k])
  {
    var names := RequiredParamNames(engine);
    var lead := MessagePrefix + engine + ChecksLead;
    var joined := Join(names, ",");
    JoinContainsPart(names, ",", k);
    ContainsPrefixOf(joined, ")", names[k]);
    ContainsSuffixOf(lead, joined + ")", names[k]);
    assert lead + (joined + ")") == ReportFor(engine).message;
  }

  /** The comma-joined list in the message splits back into the check names,
      in table order. */
  lemma CheckListRoundTrip(engine: string)
    requires RequiredParamNames(engine) != []
    ensures Split(Join(RequiredParamNames(engine), ","), ',') == RequiredParamNames(engine)
  {
    var names := RequiredParamNames(engine);
    assert forall k :: 0 <= k < |names| ==> ',' !in names[k];
    SplitJoin(names, ',');
  }

  /** The subject names the resolved engine. */
  lemma SubjectNamesEngine(engine: string)
    ensures Contains(ReportFor(engine).subject, engine)
  {
    ContainsMiddle("RDS Engine (", engine, ") Parameter Audit");
  }

  /** The report depends on the inputs only through the resolved engine. */
  lemma ReportDependsOnlyOnEngine(e1: Option<string>, i1: Option<string>, v1: Option<string>,
                                  e2: Option<string>, i2: Option<string>, v2: Option<string>)
    requires ResolveEngine(e1, i1, v1) == ResolveEngine(e2, i2, v2)
    ensures EngineAuditReport(e1, i1, v1) == EngineAuditReport(e2, i2, v2)
  {
  }

  /** With nothing set anywhere the engine is "unknown" and no check is listed. */
  lemma NothingSetExample()
    ensures EngineAuditReport(None, None, None) == ReportFor("unknown")
    ensures RequiredParamNames(ResolveEngine(None, None, None)) == []
  {
    ResolveEnginePriority(None, None, None);
  }
}
