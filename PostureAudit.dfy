/**
 * The security-posture audit run when AWS Config reports an RDS resource as
 * non-compliant (lambda/rds-audit-handler.ts): a per-engine table of
 * parameter rules, the rule application to one parameter group, the
 * storage-encryption / KMS-key / deletion-protection checks of one
 * instance, and the dispatch on the compliance event.
 *
 * Every rule of the table is "flag the parameter when its value is exactly
 * X", so a rule is kept as data: the parameter name, the flagged value X
 * and the message. The findings are kept as a datatype whose `Text()` is
 * the exact line the handler pushes.
 */
module PostureAudit {
  import opened Common

  // ---------------------------------------------------------------------
  // Rule catalog (security posture)

  /** A rule flags parameter `name` when its value is exactly `flaggedValue`.
      Every message of the table reads "<description> (<name>=<flaggedValue>)". */
  datatype PostureRule = PostureRule(name: string, flaggedValue: string, description: string) {
    function Message(): string {
      description + " (" + name + "=" + flaggedValue + ")"
    }
  }

  const RequireSecureTransportRule := PostureRule("require_secure_transport", "OFF", "SSL/TLS通信が強制されていません")
  const GeneralLogRule := PostureRule("general_log", "0", "一般ログが無効化されています")
  const SlowQueryLogRule := PostureRule("slow_query_log", "0", "スロークエリログが無効化されています")
  const LogBinTrustFunctionCreatorsRule :=
    PostureRule("log_bin_trust_function_creators", "1", "バイナリログの関数作成者制限が無効化されています")
  const SslRule := PostureRule("ssl", "off", "SSLが無効化されています")
  const LogStatementRule := PostureRule("log_statement", "none", "SQL文のログが無効化されています")
  const LogConnectionsRule := PostureRule("log_connections", "off", "接続ログが無効化されています")
  const LogDisconnectionsRule := PostureRule("log_disconnections", "off", "切断ログが無効化されています")

  const MysqlRules: seq<PostureRule> :=
    [RequireSecureTransportRule, GeneralLogRule, SlowQueryLogRule, LogBinTrustFunctionCreatorsRule]
  const PostgresRules: seq<PostureRule> :=
    [SslRule, LogStatementRule, LogConnectionsRule, LogDisconnectionsRule]
  const AuroraMysqlRules: seq<PostureRule> :=
    [RequireSecureTransportRule, GeneralLogRule, SlowQueryLogRule]
  const AuroraPostgresqlRules: seq<PostureRule> :=
    [SslRule, LogStatementRule, LogConnectionsRule]

  /** The posture table, keyed by the exact (already lower-cased) engine name. */
  function PostureRules(engineType: string): Option<seq<PostureRule>> {
    if engineType == "mysql" then Some(MysqlRules)
    else if engineType == "postgres" then Some(PostgresRules)
    else if engineType == "aurora-mysql" then Some(AuroraMysqlRules)
    else if engineType == "aurora-postgresql" then Some(AuroraPostgresqlRules)
    else None
  }

  /** A rule's predicate: its message when the value is the flagged one. */
  function Check(rule: PostureRule, value: string): Option<string> {
    if value == rule.flaggedValue then Some(rule.Message()) else None
  }

  /** Some rule of the table for `engineType` flags parameter `name` at `value`. */
  predicate Fires(engineType: string, name: string, value: string) {
    var rules := PostureRules(engineType);
    rules.Some? && exists k :: 0 <= k < |rules.value| && rules.value[k].name == name && Check(rules.value[k], value).Some?
  }

  // ---------------------------------------------------------------------
  // Findings

  datatype Finding =
    | GroupWarning(group: string, message: string)
    | GroupConfirmed(group: string, paramName: string, paramValue: string)
    | GroupCheckFailed(group: string, error: string)
    | StorageUnencrypted
    | StorageEncrypted
    | DefaultKmsKey
    | CustomerKmsKey
    | DeletionUnprotected
    | DeletionProtected
    | InstanceCheckFailed(error: string)
  {
    /** The line the handler pushes for this finding. */
    function Text(): string {
      match this
      case GroupWarning(g, m) => "⚠️ " + g + ": " + m
      case GroupConfirmed(g, n, v) => "✅ " + g + ": " + n + " = " + v + " (OK)"
      case GroupCheckFailed(g, e) => "❌ パラメーターグループ " + g + " のチェックに失敗しました: " + e
      case StorageUnencrypted => "❌ ストレージ暗号化が無効化されています"
      case StorageEncrypted => "✅ ストレージ暗号化が有効化されています"
      case DefaultKmsKey => "⚠️ デフォルトのAWS管理キーを使用しています（お客様管理キーの使用を推奨）"
      case CustomerKmsKey => "✅ お客様管理のKMSキーを使用しています"
      case DeletionUnprotected => "⚠️ 削除保護が無効化されています"
      case DeletionProtected => "✅ 削除保護が有効化されています"
      case InstanceCheckFailed(e) => "❌ インスタンス詳細の取得に失敗しました: " + e
    }

    /** Findings about one parameter group (as opposed to the instance itself). */
    predicate IsGroupFinding() {
      GroupWarning? || GroupConfirmed? || GroupCheckFailed?
    }

    predicate IsKmsFinding() {
      DefaultKmsKey? || CustomerKmsKey?
    }
  }

  function Texts(fs: seq<Finding>): (ts: seq<string>)
    ensures |ts| == |fs| && forall k :: 0 <= k < |fs| ==> ts[k] == fs[k].Text()
  {
    seq(|fs|, k requires 0 <= k < |fs| => fs[k].Text())
  }

  // ---------------------------------------------------------------------
  // Rule application to one parameter group

  /** `param?.ParameterValue || 'default'` for the first parameter named `name`. */
  function EffectiveValue(ps: seq<Parameter>, name: string): string {
    match FindParameter(ps, name)
    case None => "default"
    case Some(p) => OrElse(p.value, "default")
  }

  /** The line for one rule. */
  function RuleFinding(group: string, rule: PostureRule, ps: seq<Parameter>): Finding {
    var v := EffectiveValue(ps, rule.name);
    match Check(rule, v)
    case Some(m) => GroupWarning(group, m)
    case None => GroupConfirmed(group, rule.name, v)
  }

  /** One line per rule, in the table's order. */
  function ApplyRules(group: string, rules: seq<PostureRule>, ps: seq<Parameter>): (fs: seq<Finding>)
    ensures |fs| == |rules|
    ensures forall k :: 0 <= k < |rules| ==> fs[k] == RuleFinding(group, rules[k], ps)
    decreases |rules|
  {
    if rules == [] then []
    else [RuleFinding(group, rules[0], ps)] + ApplyRules(group, rules[1..], ps)
  }

  /** What checkParameterGroup returns for `group` of an instance running `engine`. */
  function GroupFindings(group: string, engine: string, fetch: string -> ParamFetch): seq<Finding> {
    match PostureRules(ToLower(engine))
    case None => []
    case Some(rules) =>
      match fetch(group)
      case FetchFailed(f) => [GroupCheckFailed(group, f.MessageOr("Unknown error"))]
      case Fetched(ps) => ApplyRules(group, rules, if ps.Some? then ps.value else [])
  }

  method CheckParameterGroup(group: string, engine: string, fetch: string -> ParamFetch)
    returns (findings: seq<Finding>)
    ensures findings == GroupFindings(group, engine, fetch)
  {
    findings := [];
    var engineType := ToLower(engine);
    var rules := PostureRules(engineType);
    if rules.None? {
      return;
    }
    var response := fetch(group);
    if response.FetchFailed? {
      findings := [GroupCheckFailed(group, response.fault.MessageOr("Unknown error"))];
      return;
    }
    var parameters := if response.parameters.Some? then response.parameters.value else [];
    findings := ApplyRuleTable(group, rules.value, parameters);
  }

  /** The loop over the engine's rules. */
  method ApplyRuleTable(group: string, table: seq<PostureRule>, parameters: seq<Parameter>)
    returns (findings: seq<Finding>)
    ensures findings == ApplyRules(group, table, parameters)
  {
    findings := [];
    var i := 0;
    while i < |table|
      invariant 0 <= i <= |table|
      invariant |findings| == i
      invariant forall k :: 0 <= k < i ==> findings[k] == RuleFinding(group, table[k], parameters)
    {
      var paramValue := EffectiveValue(parameters, table[i].name);
      var issue := Check(table[i], paramValue);
      if issue.Some? {
        findings := findings + [GroupWarning(group, issue.value)];
      } else {
        findings := findings + [GroupConfirmed(group, table[i].name, paramValue)];
      }
      i := i + 1;
    }
    assert findings == ApplyRules(group, table, parameters);
  }

  // ---------------------------------------------------------------------
  // Properties of the rule application

  /** The lookup is case-insensitive: the engine is lower-cased first. */
  lemma LookupIgnoresCase(group: string, engine: string, fetch: string -> ParamFetch)
    ensures GroupFindings(group, engine, fetch) == GroupFindings(group, ToLower(engine), fetch)
  {
    ToLowerIdempotent(engine);
  }

  /** An engine without a table entry yields nothing, and its parameters are
      never consulted: the result is the same whatever the fetch returns. */
  lemma UnknownEngineYieldsNothing(group: string, engine: string, fetch1: string -> ParamFetch, fetch2: string -> ParamFetch)
    requires PostureRules(ToLower(engine)).None?
    ensures GroupFindings(group, engine, fetch1) == [] == GroupFindings(group, engine, fetch2)
  {
  }

  /** For a known engine whose parameters were fetched, the result has exactly
      one line per rule, in table order; a line is a warning carrying the rule's
      message iff the parameter's effective value is the flagged one, and
      otherwise an OK line naming the parameter and its value. */
  lemma OneLinePerRule(group: string, engine: string, fetch: string -> ParamFetch, k: nat)
    requires PostureRules(ToLower(engine)).Some? && fetch(group).Fetched?
    requires k < |PostureRules(ToLower(engine)).value|
    ensures var rules := PostureRules(ToLower(engine)).value;
            var ps := if fetch(group).parameters.Some? then fetch(group).parameters.value else [];
            var fs := GroupFindings(group, engine, fetch);
            var v := EffectiveValue(ps, rules[k].name);
            && |fs| == |rules|
            && (fs[k].GroupWarning? <==> v == rules[k].flaggedValue)
            && (fs[k].GroupWarning? ==> fs[k] == GroupWarning(group, rules[k].Message()))
            && (!fs[k].GroupWarning? ==> fs[k] == GroupConfirmed(group, rules[k].name, v))
  {
  }

  /** No rule of any engine flags the value "default". */
  lemma DefaultNeverFires(engineType: string, name: string)
    ensures !Fires(engineType, name, "default")
  {
  }

  /** A parameter that is absent, or present with an empty or missing value,
      is evaluated as "default" and always gets an OK line. */
  lemma MissingParameterIsDefault(group: string, engine: string, fetch: string -> ParamFetch, k: nat)
    requires PostureRules(ToLower(engine)).Some? && fetch(group).Fetched?
    requires k < |PostureRules(ToLower(engine)).value|
    requires var ps := if fetch(group).parameters.Some? then fetch(group).parameters.value else [];
             var p := FindParameter(ps, PostureRules(ToLower(engine)).value[k].name);
             p.None? || !Truthy(p.value.value)
    ensures var rules := PostureRules(ToLower(engine)).value;
            GroupFindings(group, engine, fetch)[k] == GroupConfirmed(group, rules[k].name, "default")
  {
    var rules := PostureRules(ToLower(engine)).value;
    var ps := if fetch(group).parameters.Some? then fetch(group).parameters.value else [];
    assert rules[k].flaggedValue != "default" by { DefaultNeverFires(ToLower(engine), rules[k].name); }
    assert EffectiveValue(ps, rules[k].name) == "default";
  }

  /** The MySQL predicates. */
  lemma MysqlPredicates(value: string)
    ensures Fires("mysql", "require_secure_transport", value) <==> value == "OFF"
    ensures Fires("mysql", "general_log", value) <==> value == "0"
    ensures Fires("mysql", "slow_query_log", value) <==> value == "0"
    ensures Fires("mysql", "log_bin_trust_function_creators", value) <==> value == "1"
  {
    assert MysqlRules[0].name == "require_secure_transport";
    assert MysqlRules[1].name == "general_log";
    assert MysqlRules[2].name == "slow_query_log";
    assert MysqlRules[3].name == "log_bin_trust_function_creators";
  }

  /** The PostgreSQL predicates. */
  lemma PostgresPredicates(value: string)
    ensures Fires("postgres", "ssl", value) <==> value == "off"
    ensures Fires("postgres", "log_statement", value) <==> value == "none"
    ensures Fires("postgres", "log_connections", value) <==> value == "off"
    ensures Fires("postgres", "log_disconnections", value) <==> value == "off"
  {
    assert PostgresRules[0].name == "ssl";
    assert PostgresRules[1].name == "log_statement";
    assert PostgresRules[2].name == "log_connections";
    assert PostgresRules[3].name == "log_disconnections";
  }

  /** The Aurora tables are sub-tables of their community-engine tables, and
      Aurora PostgreSQL does not check log_disconnections. */
  lemma AuroraTablesAreSubsets(name: string, value: string)
    ensures Fires("aurora-mysql", name, value) ==> Fires("mysql", name, value)
    ensures Fires("aurora-postgresql", name, value) ==> Fires("postgres", name, value)
    ensures !Fires("aurora-postgresql", "log_disconnections", value)
  {
    if Fires("aurora-mysql", name, value) {
      var k :| 0 <= k < |AuroraMysqlRules| && AuroraMysqlRules[k].name == name && Check(AuroraMysqlRules[k], value).Some?;
      assert MysqlRules[k] == AuroraMysqlRules[k];
    }
    if Fires("aurora-postgresql", name, value) {
      var k :| 0 <= k < |AuroraPostgresqlRules| && AuroraPostgresqlRules[k].name == name && Check(AuroraPostgresqlRules[k], value).Some?;
      assert PostgresRules[k] == AuroraPostgresqlRules[k];
    }
  }

  /** A failed fetch for a known engine gives exactly one error line, which
      carries the error message (or "Unknown error" when it has none). */
  lemma FetchFailureGivesOneErrorLine(group: string, engine: string, fetch: string -> ParamFetch)
    requires PostureRules(ToLower(engine)).Some? && fetch(group).FetchFailed?
    ensures var fs := GroupFindings(group, engine, fetch);
            && |fs| == 1
            && fs[0] == GroupCheckFailed(group, fetch(group).fault.MessageOr("Unknown error"))
            && Contains(fs[0].Text(), fetch(group).fault.MessageOr("Unknown error"))
  {
    var e := fetch(group).fault.MessageOr("Unknown error");
    ContainsAt(e, e, 0);
    ContainsSuffixOf("❌ パラメーターグループ " + group + " のチェックに失敗しました: ", e, e);
  }

  /** Every warning line names the offending parameter and its value. */
  lemma WarningNamesParameter(group: string, rule: PostureRule, ps: seq<Parameter>)
    requires RuleFinding(group, rule, ps).GroupWarning?
    ensures Contains(RuleFinding(group, rule, ps).Text(), rule.name)
    ensures Contains(RuleFinding(group, rule, ps).Text(), rule.name + "=" + EffectiveValue(ps, rule.name))
  {
    var m := rule.Message();
    assert RuleFinding(group, rule, ps) == GroupWarning(group, m);
    assert EffectiveValue(ps, rule.name) == rule.flaggedValue;
    MessageMentions(rule);
    ContainsSuffixOf("⚠️ " + group + ": ", m, rule.name);
    ContainsSuffixOf("⚠️ " + group + ": ", m, rule.name + "=" + rule.flaggedValue);
  }

  /** A rule's message names the parameter and the flagged setting. */
  lemma MessageMentions(rule: PostureRule)
    ensures Contains(rule.Message(), rule.name)
    ensures Contains(rule.Message(), rule.name + "=" + rule.flaggedValue)
  {
    var d := rule.description + " (";
    ContainsMiddle(d, rule.name, "=" + rule.flaggedValue + ")");
    assert d + rule.name + ("=" + rule.flaggedValue + ")") == rule.Message();
    ContainsMiddle(d, rule.name + "=" + rule.flaggedValue, ")");
    assert d + (rule.name + "=" + rule.flaggedValue) + ")" == rule.Message();
  }

  /** Example: MySQL with require_secure_transport=OFF gives a warning line that
      names the parameter, followed by OK lines for the three other rules. */
  lemma MysqlInsecureTransportExample(group: string, fetch: string -> ParamFetch)
    requires fetch(group) == Fetched(Some([Parameter(Some("require_secure_transport"), Some("OFF"))]))
    ensures var fs := GroupFindings(group, "mysql", fetch);
            && |fs| == 4
            && fs[0] == GroupWarning(group, RequireSecureTransportRule.Message())
            && Contains(fs[0].Text(), "require_secure_transport")
            && fs[1] == GroupConfirmed(group, "general_log", "default")
            && fs[2] == GroupConfirmed(group, "slow_query_log", "default")
            && fs[3] == GroupConfirmed(group, "log_bin_trust_function_creators", "default")
  {
    var ps := [Parameter(Some("require_secure_transport"), Some("OFF"))];
    MysqlGroupFindings(group, fetch);
    assert EffectiveValue(ps, "require_secure_transport") == "OFF";
    assert EffectiveValue(ps, "general_log") == "default";
    assert EffectiveValue(ps, "slow_query_log") == "default";
    assert EffectiveValue(ps, "log_bin_trust_function_creators") == "default";
    WarningNamesParameter(group, RequireSecureTransportRule, ps);
  }

  lemma MysqlGroupFindings(group: string, fetch: string -> ParamFetch)
    requires fetch(group).Fetched? && fetch(group).parameters.Some?
    ensures GroupFindings(group, "mysql", fetch) == ApplyRules(group, MysqlRules, fetch(group).parameters.value)
  {
    ToLowerOfLowerCase("mysql");
  }

  // ---------------------------------------------------------------------
  // Instance checks

  /** `!instance.KmsKeyId || instance.KmsKeyId.includes('alias/aws/rds')` */
  predicate UsesDefaultKmsKey(inst: DbInstance) {
    !Truthy(inst.kmsKeyId) || Contains(inst.kmsKeyId.value, "alias/aws/rds")
  }

  /** The storage-encryption, KMS-key and deletion-protection lines. */
  function InstanceFlags(inst: DbInstance): seq<Finding> {
    var storage :=
      if !inst.storageEncrypted then [StorageUnencrypted]
      else if UsesDefaultKmsKey(inst) then [StorageEncrypted, DefaultKmsKey]
      else [StorageEncrypted, CustomerKmsKey];
    storage + [if inst.deletionProtection then DeletionProtected else DeletionUnprotected]
  }

  /** The lines of every named parameter group, in the instance's order. */
  function GroupsFindings(groups: seq<Option<string>>, engine: string, fetch: string -> ParamFetch): seq<Finding> {
    ConcatMap(g => NamedGroupFindings(g, engine, fetch), groups)
  }

  /** The lines of one entry of DBParameterGroups; an entry without a name is skipped. */
  function NamedGroupFindings(g: Option<string>, engine: string, fetch: string -> ParamFetch): seq<Finding> {
    if Truthy(g) then GroupFindings(g.value, engine, fetch) else []
  }

  function InstanceNotFoundMessage(resourceId: string): string {
    "インスタンス " + resourceId + " が見つかりません"
  }

  /** What checkRdsInstanceDetails returns for `resourceId`, given the
      DescribeDBInstances outcome `q`. */
  function InstanceFindings(resourceId: string, q: InstanceQuery, fetch: string -> ParamFetch): seq<Finding> {
    match q
    case DescribeFailed(f) => [InstanceCheckFailed(f.MessageOr("Unknown error"))]
    case Described(_) =>
      match FirstInstance(q)
      case None => [InstanceCheckFailed(InstanceNotFoundMessage(resourceId))]
      case Some(inst) =>
        InstanceFlags(inst)
        + (if inst.parameterGroups.Some? && Truthy(inst.engine)
           then GroupsFindings(inst.parameterGroups.value, inst.engine.value, fetch) else [])
  }

  method CheckRdsInstanceDetails(resourceId: string, q: InstanceQuery, fetch: string -> ParamFetch)
    returns (findings: seq<Finding>)
    ensures findings == InstanceFindings(resourceId, q, fetch)
  {
    findings := [];
    if q.DescribeFailed? {
      findings := findings + [InstanceCheckFailed(q.fault.MessageOr("Unknown error"))];
      return;
    }
    var instance := FirstInstance(q);
    if instance.None? {
      var error := Fault("Error", InstanceNotFoundMessage(resourceId));
      findings := findings + [InstanceCheckFailed(error.MessageOr("Unknown error"))];
      return;
    }
    var inst := instance.value;
    if !inst.storageEncrypted {
      findings := findings + [StorageUnencrypted];
    } else {
      findings := findings + [StorageEncrypted];
      if UsesDefaultKmsKey(inst) {
        findings := findings + [DefaultKmsKey];
      } else {
        findings := findings + [CustomerKmsKey];
      }
    }
    if !inst.deletionProtection {
      findings := findings + [DeletionUnprotected];
    } else {
      findings := findings + [DeletionProtected];
    }
    assert findings == InstanceFlags(inst);
    if inst.parameterGroups.Some? && Truthy(inst.engine) {
      var groupFindings := CheckParameterGroups(inst.parameterGroups.value, inst.engine.value, fetch);
      findings := findings + groupFindings;
    }
  }

  method CheckParameterGroups(groups: seq<Option<string>>, engine: string, fetch: string -> ParamFetch)
    returns (findings: seq<Finding>)
    ensures findings == GroupsFindings(groups, engine, fetch)
  {
    findings := [];
    var i := 0;
    while i < |groups|
      invariant 0 <= i <= |groups|
      invariant findings == GroupsFindings(groups[..i], engine, fetch)
    {
      assert groups[..i + 1][..i] == groups[..i];
      if Truthy(groups[i]) {
        var groupFindings := CheckParameterGroup(groups[i].value, engine, fetch);
        findings := findings + groupFindings;
      }
      i := i + 1;
    }
    assert groups[..|groups|] == groups;
  }

  // ---------------------------------------------------------------------
  // Properties of the instance checks

  /** Every line of the group loop is a parameter-group line. */
  lemma GroupsFindingsAreGroupFindings(groups: seq<Option<string>>, engine: string, fetch: string -> ParamFetch)
    ensures forall k :: 0 <= k < |GroupsFindings(groups, engine, fetch)| ==> GroupsFindings(groups, engine, fetch)[k].IsGroupFinding()
  {
    var fs := GroupsFindings(groups, engine, fetch);
    forall k | 0 <= k < |fs|
      ensures fs[k].IsGroupFinding()
    {
      ConcatMapMembership(g => NamedGroupFindings(g, engine, fetch), groups, fs[k]);
      var i :| 0 <= i < |groups| && fs[k] in NamedGroupFindings(groups[i], engine, fetch);
      NamedGroupLinesAreGroupFindings(groups[i], engine, fetch, fs[k]);
    }
  }

  lemma NamedGroupLinesAreGroupFindings(g: Option<string>, engine: string, fetch: string -> ParamFetch, x: Finding)
    requires x in NamedGroupFindings(g, engine, fetch)
    ensures x.IsGroupFinding()
  {
    var fs := NamedGroupFindings(g, engine, fetch);
    var k :| 0 <= k < |fs| && fs[k] == x;
  }

  /** Group lines come group after group: the lines of a concatenation of
      group lists are the concatenation of their lines. */
  lemma GroupsFindingsAppend(gs1: seq<Option<string>>, gs2: seq<Option<string>>, engine: string, fetch: string -> ParamFetch)
    ensures GroupsFindings(gs1 + gs2, engine, fetch) == GroupsFindings(gs1, engine, fetch) + GroupsFindings(gs2, engine, fetch)
  {
    ConcatMapAppend(g => NamedGroupFindings(g, engine, fetch), gs1, gs2);
  }

  /** An unencrypted instance gets the "encryption disabled" line and no KMS
      line at all; an encrypted one gets exactly one KMS line, the default-key
      warning iff KmsKeyId is absent or names alias/aws/rds; the
      deletion-protection line always follows. */
  lemma StorageKmsAndDeletionLines(resourceId: string, q: InstanceQuery, fetch: string -> ParamFetch)
    requires q.Described? && FirstInstance(q).Some?
    ensures var inst := FirstInstance(q).value;
            var fs := InstanceFindings(resourceId, q, fetch);
            var deletion := if inst.deletionProtection then DeletionProtected else DeletionUnprotected;
            && (!inst.storageEncrypted ==>
                  fs[..2] == [StorageUnencrypted, deletion]
                  && forall k :: 0 <= k < |fs| ==> !fs[k].IsKmsFinding())
            && (inst.storageEncrypted ==>
                  fs[..3] == [StorageEncrypted, fs[1], deletion]
                  && fs[1].IsKmsFinding()
                  && (fs[1] == DefaultKmsKey <==> !Truthy(inst.kmsKeyId) || Contains(inst.kmsKeyId.value, "alias/aws/rds"))
                  && forall k :: 0 <= k < |fs| && k != 1 ==> !fs[k].IsKmsFinding())
  {
    var inst := FirstInstance(q).value;
    if inst.parameterGroups.Some? && Truthy(inst.engine) {
      GroupsFindingsAreGroupFindings(inst.parameterGroups.value, inst.engine.value, fetch);
    }
  }

  /** A failed or empty DescribeDBInstances gives exactly one error line. */
  lemma InstanceLookupFailureGivesOneLine(resourceId: string, q: InstanceQuery, fetch: string -> ParamFetch)
    requires q.DescribeFailed? || FirstInstance(q).None?
    ensures |InstanceFindings(resourceId, q, fetch)| == 1
    ensures InstanceFindings(resourceId, q, fetch)[0].InstanceCheckFailed?
  {
  }

  /** The instance check never comes back empty. */
  lemma InstanceFindingsNonEmpty(resourceId: string, q: InstanceQuery, fetch: string -> ParamFetch)
    ensures |InstanceFindings(resourceId, q, fetch)| > 0
  {
  }

  // ---------------------------------------------------------------------
  // Handler

  /** The part of a "Config Rules Compliance Change" event the handler reads. */
  datatype ComplianceChange = ComplianceChange(
    resourceId: string, resourceType: string, configRuleName: string, complianceType: Compliance)

  /** The notification the handler publishes (its formatting is not modelled). */
  datatype Alert = Alert(resourceId: string, configRuleName: string, issues: seq<string>)

  function ClusterIssue(resourceId: string, configRuleName: string): string {
    "RDSクラスター " + resourceId + " がConfig Rule " + configRuleName + " に準拠していません"
  }

  function OtherResourceIssue(resourceId: string, resourceType: string, configRuleName: string): string {
    "リソース " + resourceId + " (" + resourceType + ") がConfig Rule " + configRuleName + " に準拠していません"
  }

  method HandleComplianceChange(event: ComplianceChange, describe: string -> InstanceQuery, fetch: string -> ParamFetch)
    returns (alert: Option<Alert>)
    ensures event.complianceType != NonCompliant ==> alert == None
    ensures event.complianceType == NonCompliant ==>
              alert.Some? && alert.value.resourceId == event.resourceId
              && alert.value.configRuleName == event.configRuleName
    ensures event.complianceType == NonCompliant && event.resourceType == "AWS::RDS::DBInstance" ==>
              alert.value.issues == Texts(InstanceFindings(event.resourceId, describe(event.resourceId), fetch))
    ensures event.complianceType == NonCompliant && event.resourceType == "AWS::RDS::DBCluster" ==>
              alert.value.issues == [ClusterIssue(event.resourceId, event.configRuleName)]
    ensures event.complianceType == NonCompliant && event.resourceType != "AWS::RDS::DBInstance"
            && event.resourceType != "AWS::RDS::DBCluster" ==>
              alert.value.issues == [OtherResourceIssue(event.resourceId, event.resourceType, event.configRuleName)]
  {
    if event.complianceType != NonCompliant {
      return None;
    }
    var issues: seq<string> := [];
    if event.resourceType == "AWS::RDS::DBInstance" {
      var findings := CheckRdsInstanceDetails(event.resourceId, describe(event.resourceId), fetch);
      InstanceFindingsNonEmpty(event.resourceId, describe(event.resourceId), fetch);
      issues := Texts(findings);
    } else if event.resourceType == "AWS::RDS::DBCluster" {
      issues := [ClusterIssue(event.resourceId, event.configRuleName)];
    } else {
      issues := [OtherResourceIssue(event.resourceId, event.resourceType, event.configRuleName)];
    }
    if |issues| > 0 {
      alert := Some(Alert(event.resourceId, event.configRuleName, issues));
    } else {
      alert := None;
    }
  }
}
