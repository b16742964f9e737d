/**
 * The event-driven encryption checker
 * (ARCHIVE/CloudWatchAndLambdaVersion/lambda/rds-parameter-audit.ts): an RDS
 * event names an instance or a parameter group; the instance's storage
 * encryption, KMS key and parameter groups, or the group's parameters, are
 * checked against a parameter-name list chosen by substring tests on the
 * engine, and a notification is sent when issues are found. The file also
 * holds the boolean EBS-encryption parameter check.
 */
module EncryptionEventAudit {
  import opened Common

  // ---------------------------------------------------------------------
  // Engine classification (getEncryptionParametersByEngine)

  const RequireSecureTransport := "require_secure_transport"
  const GeneralLog := "general_log"
  const SlowQueryLog := "slow_query_log"
  const ContainedDatabaseAuthentication := "contained database authentication"
  const SharedPreloadLibraries := "shared_preload_libraries"
  const Ssl := "ssl"

  const MysqlNames := [RequireSecureTransport, "sql_mode", GeneralLog, SlowQueryLog]
  const PostgresNames := [SharedPreloadLibraries, Ssl, "log_connections", "log_statement"]
  const SqlServerNames := [ContainedDatabaseAuthentication, "backup compression default", "default trace enabled"]
  const OracleNames := ["audit_trail", "audit_sys_operations"]
  const FallbackNames := [GeneralLog, SlowQueryLog]

  /** The security parameter names for an engine, by substring tests on its
      lower-cased form, in this priority order. */
  function EncryptionParameterNames(engine: string): seq<string> {
    var engineLower := ToLower(engine);
    if Contains(engineLower, "mysql") || Contains(engineLower, "mariadb") then MysqlNames
    else if Contains(engineLower, "postgres") then PostgresNames
    else if Contains(engineLower, "sqlserver") then SqlServerNames
    else if Contains(engineLower, "oracle") then OracleNames
    else FallbackNames
  }

  /** Aurora MySQL is classified as MySQL. */
  lemma AuroraMysqlClassified()
    ensures EncryptionParameterNames("aurora-" + "mysql") == MysqlNames
  {
    ToLowerOfLowerCase("aurora-" + "mysql");
    ContainsAt("mysql", "mysql", 0);
    ContainsSuffixOf("aurora-", "mysql", "mysql");
  }

  /** Aurora PostgreSQL is classified as PostgreSQL. */
  lemma AuroraPostgresqlClassified()
    ensures EncryptionParameterNames("aurora-" + "postgres" + "ql") == PostgresNames
  {
    AuroraPostgresqlIsLowerCase();
    AuroraPostgresqlNames();
  }

  lemma AuroraPostgresqlIsLowerCase()
    ensures ToLower("aurora-" + "postgres" + "ql") == "aurora-" + "postgres" + "ql"
  {
    ToLowerOfLowerCase("aurora-" + "postgres" + "ql");
  }

  lemma AuroraPostgresqlNames()
    ensures var pg := "aurora-" + "postgres" + "ql";
            !Contains(pg, "mysql") && !Contains(pg, "mariadb") && Contains(pg, "postgres")
  {
    var pg := "aurora-" + "postgres" + "ql";
    MissingCharNotContained(pg, "mysql", 'm');
    MissingCharNotContained(pg, "mariadb", 'm');
    ContainsMiddle("aurora-", "postgres", "ql");
  }

  /** "unknown", the value used when no engine is known, gets the fallback list. */
  lemma UnknownEngineClassified()
    ensures EncryptionParameterNames("unknown") == FallbackNames
  {
    UnknownNamesNoEngine();
    ToLowerOfLowerCase("unknown");
    UnmarkedEngineIsFallback("unknown");
  }

  /** A lower-case engine naming none of the engine markers gets the fallback list. */
  lemma UnmarkedEngineIsFallback(engine: string)
    requires ToLower(engine) == engine
    requires !Contains(engine, "mysql") && !Contains(engine, "mariadb") && !Contains(engine, "postgres")
    requires !Contains(engine, "sqlserver") && !Contains(engine, "oracle")
    ensures EncryptionParameterNames(engine) == FallbackNames
  {
  }

  lemma UnknownNamesNoEngine()
    ensures !Contains("unknown", "mysql") && !Contains("unknown", "mariadb") && !Contains("unknown", "postgres")
    ensures !Contains("unknown", "sqlserver") && !Contains("unknown", "oracle")
  {
    UnknownNamesNoMysqlOrPostgres();
    MissingCharNotContained("unknown", "sqlserver", 's');
    MissingCharNotContained("unknown", "oracle", 'a');
  }

  lemma UnknownNamesNoMysqlOrPostgres()
    ensures !Contains("unknown", "mysql") && !Contains("unknown", "mariadb") && !Contains("unknown", "postgres")
  {
    MissingCharNotContained("unknown", "mysql", 'm');
    MissingCharNotContained("unknown", "mariadb", 'm');
    MissingCharNotContained("unknown", "postgres", 'p');
  }

  /** The tests are case-insensitive: an engine and its lower-cased form get
      the same list. */
  lemma ClassificationIgnoresCase(engine: string)
    ensures EncryptionParameterNames(ToLower(engine)) == EncryptionParameterNames(engine)
  {
    ToLowerIdempotent(engine);
  }

  /** MySQL and MariaDB take priority over every later test. */
  lemma MysqlTakesPriority(engine: string)
    requires Contains(ToLower(engine), "mysql") || Contains(ToLower(engine), "mariadb")
    ensures EncryptionParameterNames(engine) == MysqlNames
  {
  }

  // ---------------------------------------------------------------------
  // Parameter-group issues (checkParameterGroupEncryption)

  const MissingSecurityLibrariesIssue := "PostgreSQL shared_preload_libraries should include security monitoring extensions"
  const GeneralLogIssue := "MySQL general logging is disabled - consider enabling for security auditing"
  const SlowQueryLogIssue := "MySQL slow query logging is disabled - consider enabling for performance monitoring"
  const ContainedAuthenticationIssue := "SQL Server contained database authentication is enabled - security risk"
  const SslIssue := "PostgreSQL SSL is disabled"

  function SecureTransportIssue(value: string): string {
    "MySQL secure transport is disabled (" + value + ")"
  }

  /** `param.ParameterValue?.toLowerCase().includes(lib)` for some monitoring
      library; an absent value names none. */
  predicate HasSecurityLibrary(value: Option<string>) {
    value.Some? && (Contains(ToLower(value.value), "pg_stat_statements") || Contains(ToLower(value.value), "auto_explain"))
  }

  /** The issues of one security parameter, in the order of the checks. */
  function SecurityIssues(name: string, value: Option<string>): seq<string> {
    (if name == RequireSecureTransport && value == Some("OFF") then [SecureTransportIssue(value.value)] else [])
    + (if name == GeneralLog && value == Some("0") then [GeneralLogIssue] else [])
    + (if name == SlowQueryLog && value == Some("0") then [SlowQueryLogIssue] else [])
    + (if name == ContainedDatabaseAuthentication && value == Some("1") then [ContainedAuthenticationIssue] else [])
    + (if name == SharedPreloadLibraries && !HasSecurityLibrary(value) then [MissingSecurityLibrariesIssue] else [])
    + (if name == Ssl && value == Some("off") then [SslIssue] else [])
  }

  /** Only a parameter with a truthy name in the engine's list is checked. */
  function ParameterIssues(names: seq<string>, p: Parameter): seq<string> {
    if Truthy(p.name) && p.name.value in names then SecurityIssues(p.name.value, p.value) else []
  }

  /** The issues of all parameters, in parameter order. */
  function IssuesOver(names: seq<string>, ps: seq<Parameter>): seq<string> {
    ConcatMap(p => ParameterIssues(names, p), ps)
  }

  function GroupErrorIssue(f: Fault): string {
    "Error checking parameter group: " + f.Render()
  }

  /** The issues of a group from its DescribeDBParameters outcome; an absent
      engine is classified as "unknown". */
  function GroupEncryptionIssues(fetched: ParamFetch, engine: Option<string>): seq<string> {
    match fetched
    case FetchFailed(f) => [GroupErrorIssue(f)]
    case Fetched(None) => []
    case Fetched(Some(ps)) => IssuesOver(EncryptionParameterNames(OrElse(engine, "unknown")), ps)
  }

  /** The checks of one listed parameter. */
  method CheckSecurityParameter(name: string, value: Option<string>) returns (issues: seq<string>)
    ensures issues == SecurityIssues(name, value)
  {
    issues := [];
    if name == RequireSecureTransport && value == Some("OFF") {
      issues := issues + [SecureTransportIssue(value.value)];
    }
    if name == GeneralLog && value == Some("0") {
      issues := issues + [GeneralLogIssue];
    }
    if name == SlowQueryLog && value == Some("0") {
      issues := issues + [SlowQueryLogIssue];
    }
    if name == ContainedDatabaseAuthentication && value == Some("1") {
      issues := issues + [ContainedAuthenticationIssue];
    }
    if name == SharedPreloadLibraries {
      var hasSecurityLib := HasSecurityLibrary(value);
      if !hasSecurityLib {
        issues := issues + [MissingSecurityLibrariesIssue];
      }
    }
    if name == Ssl && value == Some("off") {
      issues := issues + [SslIssue];
    }
  }

  method CheckParameterGroupEncryption(fetched: ParamFetch, engine: Option<string>) returns (issues: seq<string>)
    ensures issues == GroupEncryptionIssues(fetched, engine)
  {
    issues := [];
    if fetched.FetchFailed? {
      issues := issues + [GroupErrorIssue(fetched.fault)];
      return;
    }
    if fetched.parameters.None? {
      return;
    }
    var parameters := fetched.parameters.value;
    var encryptionParameters := EncryptionParameterNames(OrElse(engine, "unknown"));
    issues := CheckListedParameters(parameters, encryptionParameters);
  }

  /** The loop over the parameters, checking those whose name is listed. */
  method CheckListedParameters(parameters: seq<Parameter>, encryptionParameters: seq<string>)
    returns (issues: seq<string>)
    ensures issues == IssuesOver(encryptionParameters, parameters)
  {
    issues := [];
    var i := 0;
    while i < |parameters|
      invariant 0 <= i <= |parameters|
      invariant issues == IssuesOver(encryptionParameters, parameters[..i])
    {
      assert parameters[..i + 1][..i] == parameters[..i];
      var param := parameters[i];
      if Truthy(param.name) && param.name.value in encryptionParameters {
        var found := CheckSecurityParameter(param.name.value, param.value);
        issues := issues + found;
      }
      i := i + 1;
    }
    assert parameters[..|parameters|] == parameters;
  }

  // Properties of the group check

  lemma IssuesOverAppend(names: seq<string>, a: seq<Parameter>, b: seq<Parameter>)
    ensures IssuesOver(names, a + b) == IssuesOver(names, a) + IssuesOver(names, b)
  {
    ConcatMapAppend(p => ParameterIssues(names, p), a, b);
  }

  /** A parameter whose name is not in the engine's list never adds an issue. */
  lemma UnlistedParameterIgnored(names: seq<string>, ps: seq<Parameter>, p: Parameter)
    requires !Truthy(p.name) || p.name.value !in names
    ensures IssuesOver(names, ps + [p]) == IssuesOver(names, ps)
  {
    assert (ps + [p])[..|ps + [p]| - 1] == ps;
  }

  /** Each flagged setting of a listed parameter yields exactly its issue. */
  lemma FlaggedSettings(names: seq<string>)
    ensures RequireSecureTransport in names ==>
              ParameterIssues(names, Parameter(Some(RequireSecureTransport), Some("OFF"))) == [SecureTransportIssue("OFF")]
    ensures GeneralLog in names ==> ParameterIssues(names, Parameter(Some(GeneralLog), Some("0"))) == [GeneralLogIssue]
    ensures SlowQueryLog in names ==> ParameterIssues(names, Parameter(Some(SlowQueryLog), Some("0"))) == [SlowQueryLogIssue]
    ensures Ssl in names ==> ParameterIssues(names, Parameter(Some(Ssl), Some("off"))) == [SslIssue]
    ensures ContainedDatabaseAuthentication in names ==>
              ParameterIssues(names, Parameter(Some(ContainedDatabaseAuthentication), Some("1"))) == [ContainedAuthenticationIssue]
  {
  }

  /** shared_preload_libraries, when listed, yields its issue exactly when the
      lower-cased value names neither pg_stat_statements nor auto_explain; an
      absent value yields it too. */
  lemma LibraryRule(names: seq<string>, value: Option<string>)
    requires SharedPreloadLibraries in names
    ensures ParameterIssues(names, Parameter(Some(SharedPreloadLibraries), value))
            == (if HasSecurityLibrary(value) then [] else [MissingSecurityLibrariesIssue])
    ensures ParameterIssues(names, Parameter(Some(SharedPreloadLibraries), None)) == [MissingSecurityLibrariesIssue]
  {
  }

  /** A parameter-group event has no engine, so only general_log and
      slow_query_log are consulted: require_secure_transport = OFF in such a
      group goes unreported. */
  lemma GroupEventUsesFallbackList(ps: seq<Parameter>)
    ensures GroupEncryptionIssues(Fetched(Some(ps)), None) == IssuesOver(FallbackNames, ps)
    ensures GroupEncryptionIssues(Fetched(Some([Parameter(Some(RequireSecureTransport), Some("OFF"))])), None) == []
  {
    UnknownEngineClassified();
    FallbackIgnoresSecureTransport();
  }

  lemma FallbackIgnoresSecureTransport()
    ensures IssuesOver(FallbackNames, [Parameter(Some(RequireSecureTransport), Some("OFF"))]) == []
  {
    var p := Parameter(Some(RequireSecureTransport), Some("OFF"));
    ConcatMapOne(p => ParameterIssues(FallbackNames, p), p);
    assert RequireSecureTransport !in FallbackNames;
  }

  // ---------------------------------------------------------------------
  // Instance issues (checkRDSEncryption)

  const StorageIssue := "RDS instance storage encryption is disabled"
  const DefaultKmsIssue := "RDS instance is using default KMS key instead of customer-managed key"

  function InstanceErrorIssue(f: Fault): string {
    "Error checking RDS encryption: " + f.Render()
  }

  /** The issues of the instance's parameter groups with a truthy name, in order. */
  function GroupsIssues(groups: seq<Option<string>>, engine: Option<string>, fetch: string -> ParamFetch): seq<string> {
    ConcatMap(g => GroupIssues(g, engine, fetch), groups)
  }

  /** The issues of one entry of DBParameterGroups; an entry without a name is skipped. */
  function GroupIssues(g: Option<string>, engine: Option<string>, fetch: string -> ParamFetch): seq<string> {
    if Truthy(g) then GroupEncryptionIssues(fetch(g.value), engine) else []
  }

  /** The default-KMS condition: an ARN, no KmsKeyId, and encrypted storage. */
  predicate DefaultKmsCondition(inst: DbInstance) {
    Truthy(inst.arn) && !Truthy(inst.kmsKeyId) && inst.storageEncrypted
  }

  function InstanceGroups(inst: DbInstance): seq<Option<string>> {
    if inst.parameterGroups.Some? then inst.parameterGroups.value else []
  }

  /** The issues of one described instance. */
  function InstanceIssues(inst: DbInstance, fetch: string -> ParamFetch): seq<string> {
    (if !inst.storageEncrypted then [StorageIssue] else [])
    + GroupsIssues(InstanceGroups(inst), inst.engine, fetch)
    + (if DefaultKmsCondition(inst) then [DefaultKmsIssue] else [])
  }

  function RdsEncryptionIssues(q: InstanceQuery, fetch: string -> ParamFetch): seq<string> {
    match q
    case DescribeFailed(f) => [InstanceErrorIssue(f)]
    case Described(_) =>
      match FirstInstance(q)
      case None => []
      case Some(inst) => InstanceIssues(inst, fetch)
  }

  method CheckInstanceGroups(groups: seq<Option<string>>, engine: Option<string>, fetch: string -> ParamFetch)
    returns (issues: seq<string>)
    ensures issues == GroupsIssues(groups, engine, fetch)
  {
    issues := [];
    var i := 0;
    while i < |groups|
      invariant 0 <= i <= |groups|
      invariant issues == GroupsIssues(groups[..i], engine, fetch)
    {
      GroupsIssuesStep(groups, i, engine, fetch);
      var groupIssues := CheckInstanceGroup(groups[i], engine, fetch);
      issues := issues + groupIssues;
      i := i + 1;
    }
    assert groups[..|groups|] == groups;
  }

  /** One entry of the instance's group list: unnamed entries are skipped. */
  method CheckInstanceGroup(g: Option<string>, engine: Option<string>, fetch: string -> ParamFetch)
    returns (issues: seq<string>)
    ensures issues == GroupIssues(g, engine, fetch)
  {
    issues := [];
    if Truthy(g) {
      issues := CheckParameterGroupEncryption(fetch(g.value), engine);
    }
  }

  lemma GroupsIssuesStep(groups: seq<Option<string>>, i: nat, engine: Option<string>, fetch: string -> ParamFetch)
    requires i < |groups|
    ensures GroupsIssues(groups[..i + 1], engine, fetch)
            == GroupsIssues(groups[..i], engine, fetch) + GroupIssues(groups[i], engine, fetch)
  {
    assert groups[..i + 1] == groups[..i] + [groups[i]];
    GroupsIssuesAppend(groups[..i], [groups[i]], engine, fetch);
    ConcatMapOne(g => GroupIssues(g, engine, fetch), groups[i]);
  }

  method CheckRdsEncryption(q: InstanceQuery, fetch: string -> ParamFetch) returns (issues: seq<string>)
    ensures issues == RdsEncryptionIssues(q, fetch)
  {
    if q.DescribeFailed? {
      issues := [InstanceErrorIssue(q.fault)];
      return;
    }
    if q.instances.None? || |q.instances.value| == 0 {
      issues := [];
      return;
    }
    assert FirstInstance(q) == Some(q.instances.value[0]);
    issues := CheckInstance(q.instances.value[0], fetch);
  }

  /** The checks on the first described instance. */
  method CheckInstance(instance: DbInstance, fetch: string -> ParamFetch) returns (issues: seq<string>)
    ensures issues == InstanceIssues(instance, fetch)
  {
    issues := [];
    if !instance.storageEncrypted {
      issues := issues + [StorageIssue];
    }
    var groupIssues := [];
    if instance.parameterGroups.Some? && |instance.parameterGroups.value| > 0 {
      groupIssues := CheckInstanceGroups(instance.parameterGroups.value, instance.engine, fetch);
    } else {
      assert GroupsIssues(InstanceGroups(instance), instance.engine, fetch) == [];
    }
    issues := issues + groupIssues;
    if Truthy(instance.arn) {
      if !Truthy(instance.kmsKeyId) && instance.storageEncrypted {
        issues := issues + [DefaultKmsIssue];
      }
    }
  }

  // Properties of the instance check

  lemma GroupsIssuesAppend(a: seq<Option<string>>, b: seq<Option<string>>,
                           engine: Option<string>, fetch: string -> ParamFetch)
    ensures GroupsIssues(a + b, engine, fetch) == GroupsIssues(a, engine, fetch) + GroupsIssues(b, engine, fetch)
  {
    ConcatMapAppend(g => GroupIssues(g, engine, fetch), a, b);
  }

  /** The issues of a described instance: the storage issue first exactly when
      storage is unencrypted, then every group's issues in group order, then
      the default-KMS issue last exactly when the KMS condition holds. */
  lemma InstanceIssuesLayout(inst: DbInstance, fetch: string -> ParamFetch)
    ensures var r := InstanceIssues(inst, fetch);
            var g := GroupsIssues(InstanceGroups(inst), inst.engine, fetch);
            var s := if inst.storageEncrypted then 0 else 1;
            var k := if DefaultKmsCondition(inst) then 1 else 0;
            && |r| == s + |g| + k
            && (s == 1 ==> r[0] == StorageIssue)
            && r[s..s + |g|] == g
            && (k == 1 ==> r[|r| - 1] == DefaultKmsIssue)
            && (s == 1 ==> k == 0)
  {
  }

  /** The missing-instance and describe-error cases. */
  lemma InstanceLookupCases(q: InstanceQuery, fetch: string -> ParamFetch)
    ensures q.DescribeFailed? ==> RdsEncryptionIssues(q, fetch) == [InstanceErrorIssue(q.fault)]
    ensures q.Described? && FirstInstance(q).None? ==> RdsEncryptionIssues(q, fetch) == []
  {
  }

  // ---------------------------------------------------------------------
  // The event handler

  datatype RdsEventDetail = RdsEventDetail(sourceType: Option<string>, sourceIdentifier: Option<string>)

  /** What sendNotification is called with. */
  datatype Notification = Notification(issues: seq<string>, context: string)

  function InstanceContext(id: string): string {
    "RDS Instance: " + id
  }

  function GroupContext(id: string): string {
    "RDS Parameter Group: " + id
  }

  /** A notification for a non-empty issue list, none otherwise. */
  function NotifyIfIssues(issues: seq<string>, context: string): (r: Option<Notification>)
    ensures r.None? <==> issues == []
    ensures r.Some? ==> r.value.issues == issues && r.value.context == context
  {
    if |issues| > 0 then Some(Notification(issues, context)) else None
  }

  method HandleRdsEvent(detail: Option<RdsEventDetail>, describe: string -> InstanceQuery, fetch: string -> ParamFetch)
    returns (notification: Option<Notification>)
    ensures detail.None? || !Truthy(detail.value.sourceType) || !Truthy(detail.value.sourceIdentifier) ==>
              notification.None?
    ensures detail.Some? && Truthy(detail.value.sourceType) && Truthy(detail.value.sourceIdentifier) ==>
              var t := detail.value.sourceType.value;
              var id := detail.value.sourceIdentifier.value;
              && (t == "DB_INSTANCE" ==>
                    notification == NotifyIfIssues(RdsEncryptionIssues(describe(id), fetch), InstanceContext(id)))
              && (t == "DB_PARAMETER_GROUP" ==>
                    notification == NotifyIfIssues(GroupEncryptionIssues(fetch(id), None), GroupContext(id)))
              && (t != "DB_INSTANCE" && t != "DB_PARAMETER_GROUP" ==> notification.None?)
    ensures notification.Some? ==> notification.value.issues != []
  {
    notification := None;
    if detail.None? {
      return;
    }
    var sourceType := detail.value.sourceType;
    var sourceIdentifier := detail.value.sourceIdentifier;
    if !Truthy(sourceType) || !Truthy(sourceIdentifier) {
      return;
    }
    var id := sourceIdentifier.value;
    if sourceType.value == "DB_INSTANCE" {
      var encryptionIssues := CheckRdsEncryption(describe(id), fetch);
      if |encryptionIssues| > 0 {
        notification := Some(Notification(encryptionIssues, InstanceContext(id)));
      }
    } else if sourceType.value == "DB_PARAMETER_GROUP" {
      var encryptionIssues := CheckParameterGroupEncryption(fetch(id), None);
      if |encryptionIssues| > 0 {
        notification := Some(Notification(encryptionIssues, GroupContext(id)));
      }
    }
  }

  // ---------------------------------------------------------------------
  // The EBS-encryption parameter check (checkEBSEncryptionParameter)

  /** The names the check consults and the values it reads as "disabled". */
  datatype EbsPolicy = EbsPolicy(names: seq<string>, disabledValues: seq<string>)

  const EbsNames := [
    "innodb_encrypt_tables", "innodb_encrypt_log", "tde_enabled", "rds.force_ssl",
    "log_statement_stats", "log_connections", ContainedDatabaseAuthentication
  ]

  /** The list and the values as written: FORCE (innodb_encrypt_tables' strictest
      setting) counts as disabled, and shared_preload_libraries is not listed,
      so the library test below can never run. */
  const EbsAsWritten := EbsPolicy(EbsNames, ["OFF", "0", "false", "FORCE"])

  /** The evidently intended check: FORCE is not a disabled value, and
      shared_preload_libraries is consulted. */
  const EbsCorrected := EbsPolicy(EbsNames + [SharedPreloadLibraries], ["OFF", "0", "false"])

  /** `ParameterValue?.toLowerCase().includes(lib)` for an encryption library. */
  predicate LibraryPresent(value: Option<string>) {
    value.Some? && HasEncryptionLibrary(value.value)
  }

  /** One parameter makes the check return true. */
  predicate EbsFlags(policy: EbsPolicy, p: Parameter) {
    Truthy(p.name) && p.name.value in policy.names &&
    ((p.value.Some? && p.value.value in policy.disabledValues)
     || (p.name.value == ContainedDatabaseAuthentication && p.value == Some("1"))
     || (p.name.value == SharedPreloadLibraries && !LibraryPresent(p.value)))
  }

  /** What the check returns: false on an error or without parameters, else
      whether some parameter is flagged. */
  predicate EbsVerdict(fetched: ParamFetch, policy: EbsPolicy) {
    fetched.Fetched? && fetched.parameters.Some? &&
    exists i :: 0 <= i < |fetched.parameters.value| && EbsFlags(policy, fetched.parameters.value[i])
  }

  /** The loop with an early `return true`. */
  method CheckEbsEncryptionParameter(fetched: ParamFetch, policy: EbsPolicy) returns (disabled: bool)
    ensures disabled == EbsVerdict(fetched, policy)
  {
    if fetched.FetchFailed? || fetched.parameters.None? {
      return false;
    }
    var parameters := fetched.parameters.value;
    var i := 0;
    while i < |parameters|
      invariant 0 <= i <= |parameters|
      invariant forall k :: 0 <= k < i ==> !EbsFlags(policy, parameters[k])
    {
      var param := parameters[i];
      if Truthy(param.name) && param.name.value in policy.names {
        if param.value.Some? && param.value.value in policy.disabledValues {
          return true;
        }
        if param.name.value == ContainedDatabaseAuthentication && param.value == Some("1") {
          return true;
        }
        if param.name.value == SharedPreloadLibraries {
          var hasEncryptionLib := LibraryPresent(param.value);
          if !hasEncryptionLib {
            return true;
          }
        }
      }
      i := i + 1;
    }
    return false;
  }

  const ForcedTableEncryption := Parameter(Some("innodb_encrypt_tables"), Some("FORCE"))

  /** As written, innodb_encrypt_tables = FORCE, which forces encryption of
      every table, is reported as disabled encryption. */
  lemma EbsForceFlaggedAsWritten()
    ensures EbsVerdict(Fetched(Some([ForcedTableEncryption])), EbsAsWritten)
  {
    assert EbsFlags(EbsAsWritten, [ForcedTableEncryption][0]);
  }

  /** With the corrected values, a FORCE setting on any name other than
      shared_preload_libraries is never reported, and apart
      from FORCE and the added shared_preload_libraries the corrected check
      flags exactly what the check as written flags: OFF, 0 and false on every
      consulted name, and contained database authentication = 1. */
  lemma EbsForceAcceptedWhenCorrected(p: Parameter)
    ensures p.value == Some("FORCE") && p.name != Some(SharedPreloadLibraries) ==> !EbsFlags(EbsCorrected, p)
    ensures p.value != Some("FORCE") && p.name != Some(SharedPreloadLibraries) ==>
              (EbsFlags(EbsAsWritten, p) <==> EbsFlags(EbsCorrected, p))
    ensures Truthy(p.name) && p.name.value in EbsNames && p.value.Some? && p.value.value in ["OFF", "0", "false"] ==>
              EbsFlags(EbsCorrected, p)
  {
    assert "FORCE" !in EbsCorrected.disabledValues;
    assert forall v :: v in EbsCorrected.disabledValues <==> v in EbsAsWritten.disabledValues && v != "FORCE";
    if Truthy(p.name) && p.name.value != SharedPreloadLibraries {
      assert p.name.value in EbsCorrected.names <==> p.name.value in EbsAsWritten.names;
    }
  }

  /** A fetched list in which FORCE is the only setting gets no report when
      corrected, while the check as written reports it. */
  lemma EbsForceListExample()
    ensures !EbsVerdict(Fetched(Some([ForcedTableEncryption])), EbsCorrected)
    ensures EbsVerdict(Fetched(Some([ForcedTableEncryption])), EbsAsWritten)
  {
    EbsForceAcceptedWhenCorrected(ForcedTableEncryption);
    EbsForceFlaggedAsWritten();
  }

  /** As written, a shared_preload_libraries parameter is never flagged, so a
      group whose libraries name no encryption extension passes. */
  lemma EbsLibraryCheckUnreachable(value: Option<string>)
    ensures !EbsFlags(EbsAsWritten, Parameter(Some(SharedPreloadLibraries), value))
    ensures !EbsVerdict(Fetched(Some([Parameter(Some(SharedPreloadLibraries), Some("pg_stat_statements"))])), EbsAsWritten)
  {
    assert SharedPreloadLibraries !in EbsAsWritten.names;
    var p := Parameter(Some(SharedPreloadLibraries), Some("pg_stat_statements"));
    assert !EbsFlags(EbsAsWritten, [p][0]);
  }

  /** Corrected, shared_preload_libraries is flagged exactly when its
      lower-cased value names none of pg_tde, pg_crypt and pgcrypto. */
  lemma EbsLibraryCheckWhenCorrected(value: Option<string>)
    ensures EbsFlags(EbsCorrected, Parameter(Some(SharedPreloadLibraries), value)) <==> !LibraryPresent(value)
  {
    assert SharedPreloadLibraries in EbsCorrected.names;
    if value.Some? && value.value in EbsCorrected.disabledValues {
      NoLibraryInDisabledValue(value.value);
    }
  }

  /** None of OFF, 0 and false names an encryption library. */
  lemma NoLibraryInDisabledValue(v: string)
    requires v in EbsCorrected.disabledValues
    ensures !HasEncryptionLibrary(v)
  {
    var lower := ToLower(v);
    ToLowerAt(v);
    assert 'p' !in lower by {
      assert forall i :: 0 <= i < |v| ==> v[i] != 'p' && v[i] != 'P';
      assert forall i :: 0 <= i < |lower| ==> lower[i] == LowerChar(v[i]);
    }
    MissingCharNotContained(lower, "pg_tde", 'p');
    MissingCharNotContained(lower, "pg_crypt", 'p');
    MissingCharNotContained(lower, "pgcrypto", 'p');
  }
}
