# RDS parameter-group and instance compliance evaluation, in Dafny

This project models the decision logic of a set of AWS Lambda handlers. The handlers audit Amazon RDS instances and their parameter groups for settings that weaken encryption in transit, encryption at rest or security auditing, and report what they find. There are five handlers, each a module:

| module | handler | what it decides |
|---|---|---|
| `PostureAudit` | `lambda/rds-audit-handler.ts` | On a NON_COMPLIANT Config event it builds the issue lines:<br>- one warning or OK line per rule of the engine's security-posture table, using `'default'` for absent values;<br>- the storage-encryption, KMS-key and deletion-protection lines of an instance;<br>- the dispatch on resource type. |
| `ExpectedValueAudit` | `lambda/rds-parameter-audit-handler.ts` | The custom Config rule. It classifies the resource type, compares each expected `name → value` entry by string equality, and gives a COMPLIANT / NON_COMPLIANT / NOT_APPLICABLE verdict with an annotation joined by spaces. |
| `ScheduledSweep` | `ARCHIVE/CloudWatchAndLambdaVersion/lambda/scheduled-audit.ts` | The scheduled sweep:<br>- lists the parameter groups page by page, following markers;<br>- finds the instances that use each group;<br>- checks each group against the encryption table keyed by exact engine;<br>- keeps only the groups with issues. |
| `EncryptionEventAudit` | `ARCHIVE/CloudWatchAndLambdaVersion/lambda/rds-parameter-audit.ts` | On an RDS event it checks, with the notify-if-non-empty rule:<br>- an instance's storage, KMS key and parameter groups;<br>- a group's parameters, against name lists chosen by substring tests on the engine.<br>It also holds the boolean EBS-encryption parameter check. |
| `EngineAudit` | `lambda/engine-parameter-audit.ts` | Resolves the engine name by priority fallback and lower-casing, looks up its required-parameter names, and builds the message and subject. |

`Common` holds what the handlers share:
- the SDK records they read: parameters, DB instances and thrown errors;
- the outcomes of SDK calls, which the model takes as inputs;
- the JavaScript operations whose edge cases matter: `||` on optional strings, `String(undefined)`, `toLowerCase`, `includes`, `startsWith`, `find` and `join`.

**How the model is built.**
- Every SDK call is an input.
  - A DescribeDBParameters call is a function from the group name to a `ParamFetch`: the optional `Parameters` list, or the error it threw.
  - A DescribeDBInstances call is an `InstanceQuery`.
  - Pagination is a finite sequence of page responses, each with an optional marker.
- Each handler loop is a Dafny `method` with a `while` loop and invariants. Its postcondition equates the result with a specification function. The properties the handlers promise are lemmas about those functions.
- The posture table and the two encryption tables are separate catalogs. They disagree, for instance on `general_log = 0`.

## Model

| member | source | states |
|---|---|---|
| Common.OrElse | lambda/rds-audit-handler.ts:194 | `o \|\| fallback` is never empty when the fallback is not, so a `\|\| 'default'` or `\|\| 'unknown'` result always has text. It is the present non-empty value when there is one. |
| Common.JsString | lambda/rds-parameter-audit-handler.ts:92 | `String(value)` is the text `undefined` iff the value is absent or is itself the text `undefined`. A present string renders as itself. |
| Common.JsStringEqual | lambda/rds-parameter-audit-handler.ts:92 | Two optional values compare equal under `String` iff they are equal, or one is absent and the other is the text `undefined`. |
| Common.FindParameter | lambda/rds-audit-handler.ts:193 | `find` gives nothing iff no parameter has the name. Otherwise it gives a parameter with that name that no earlier parameter shares: the first match. |
| Common.Fault.MessageOr | lambda/rds-audit-handler.ts:158 | `error?.message \|\| fallback` is never empty when the fallback is not, so the error lines always carry some text. It is the message when that is non-empty. |
| Common.ToLowerAt | lambda/rds-audit-handler.ts:171 | Lower-casing maps every character on its own, and the result has no upper-case letter. |
| Common.JoinContainsPart | lambda/rds-parameter-audit-handler.ts:103 | Every part of a `join` occurs in the joined text. |
| Common.SplitJoin | lambda/engine-parameter-audit.ts:36 | Round trip: splitting a join of non-empty, separator-free parts on that separator gives back the parts. |
| PostureAudit.ApplyRules | lambda/rds-audit-handler.ts:192-202 | Exactly one line per rule, in table order. Line k is rule k's warning or OK line for the group's parameters. |
| PostureAudit.ApplyRuleTable | lambda/rds-audit-handler.ts:192-202 | The loop over the rule table gives one line per rule, in table order, each the rule's warning or OK line for the group's parameters. |
| PostureAudit.CheckParameterGroup | lambda/rds-audit-handler.ts:165-210 | The method returns, in turn:<br>- nothing for an engine with no table entry;<br>- one error line when the fetch fails;<br>- otherwise the rule lines over the fetched parameters (no parameters when the list is absent). |
| PostureAudit.LookupIgnoresCase | lambda/rds-audit-handler.ts:171-172 | The result for an engine equals the result for its lower-cased form. |
| PostureAudit.UnknownEngineYieldsNothing | lambda/rds-audit-handler.ts:171-177 | An engine without a table entry yields no lines. The result is the same whatever the parameter fetch returns. |
| PostureAudit.OneLinePerRule | lambda/rds-audit-handler.ts:192-202 | For a known engine: one line per rule. Line k is a warning carrying rule k's message iff the effective value is the flagged one, and otherwise the OK line naming the parameter and its value. |
| PostureAudit.DefaultNeverFires | lambda/rds-audit-handler.ts:60-97 | No rule of any engine flags the value `'default'`. |
| PostureAudit.MissingParameterIsDefault | lambda/rds-audit-handler.ts:193-196 | An absent parameter, or one with a missing or empty value, always gives the OK line with value `'default'`. |
| PostureAudit.MysqlPredicates | lambda/rds-audit-handler.ts:61-70 | MySQL flags:<br>- require_secure_transport iff the value is exactly `OFF`;<br>- general_log and slow_query_log iff it is `0`;<br>- log_bin_trust_function_creators iff it is `1`. |
| PostureAudit.PostgresPredicates | lambda/rds-audit-handler.ts:71-80 | Postgres flags:<br>- ssl, log_connections and log_disconnections iff the value is exactly `off`;<br>- log_statement iff it is `none`. |
| PostureAudit.AuroraTablesAreSubsets | lambda/rds-audit-handler.ts:81-96 | Whatever an Aurora table flags, its community-engine table flags too. Aurora PostgreSQL never flags log_disconnections. |
| PostureAudit.FetchFailureGivesOneErrorLine | lambda/rds-audit-handler.ts:204-207 | A fetch failure for a known engine gives exactly one error line for the group. The line contains the error's message, or `Unknown error` when there is none. |
| PostureAudit.WarningNamesParameter | lambda/rds-audit-handler.ts:196-198 | A warning line contains the parameter name and `name=value` for the effective value. |
| PostureAudit.MysqlInsecureTransportExample | lambda/rds-audit-handler.ts:192-202 | For MySQL with require_secure_transport=OFF there are four lines. The first is a warning naming the parameter. The other three are OK lines with `'default'`. |
| PostureAudit.CheckRdsInstanceDetails | lambda/rds-audit-handler.ts:100-162 | The method returns the instance's lines:<br>- one error line when the describe call fails or finds no instance;<br>- otherwise the storage, KMS and deletion lines, then the lines of every named group when the instance has groups and an engine. |
| PostureAudit.CheckParameterGroups | lambda/rds-audit-handler.ts:147-154 | The loop over the instance's groups gives the lines of each named group, in group order. |
| PostureAudit.GroupsFindingsAreGroupFindings | lambda/rds-audit-handler.ts:147-154 | Every line produced by the group loop is a parameter-group line. |
| PostureAudit.GroupsFindingsAppend | lambda/rds-audit-handler.ts:148-153 | The group lines of a concatenation of group lists are the concatenation of their lines. |
| PostureAudit.StorageKmsAndDeletionLines | lambda/rds-audit-handler.ts:126-144 | An unencrypted instance gets the "disabled" line, then the deletion line, and no KMS line anywhere. An encrypted instance gets the "enabled" line, then exactly one KMS line, then the deletion line. The KMS line is the default-key warning iff KmsKeyId is absent or contains `alias/aws/rds`. |
| PostureAudit.InstanceLookupFailureGivesOneLine | lambda/rds-audit-handler.ts:112-115 | A failed describe call, or one that finds no instance, gives exactly one line, and it is an instance error line. |
| PostureAudit.InstanceFindingsNonEmpty | lambda/rds-audit-handler.ts:100-162 | The instance check never returns an empty list. |
| PostureAudit.HandleComplianceChange | lambda/rds-audit-handler.ts:266-316 | A non-NON_COMPLIANT event gives no alert. Otherwise the alert carries the resource and rule names, and its issues are:<br>- the instance lines for a DBInstance;<br>- exactly one cluster line for a DBCluster;<br>- exactly one generic line for any other type. |
| ExpectedValueAudit.ParameterGroupKindExact | lambda/rds-parameter-audit-handler.ts:33-41 | The two parameter-group resource types map to their own kinds, and a type maps to a kind iff it is that kind's type. Every other string maps to null. |
| ExpectedValueAudit.CompareParameters | lambda/rds-parameter-audit-handler.ts:82-96 | The flag stays true iff every expected key is present with an equal `String` value. The annotations are the per-key entries in key order. |
| ExpectedValueAudit.CompareKey | lambda/rds-parameter-audit-handler.ts:86-95 | One key yields no annotation entry iff a parameter with that name is present and its `String` value equals the expected one. |
| ExpectedValueAudit.EvaluateParameterGroup | lambda/rds-parameter-audit-handler.ts:70-114 | The verdict is:<br>- NOT_APPLICABLE with the "not an evaluation target" text for an unknown type;<br>- NOT_APPLICABLE with the "no rule parameters" text for an empty map;<br>- NON_COMPLIANT with the error message embedded for a failed or undefined fetch;<br>- otherwise the comparison verdict. |
| ExpectedValueAudit.KeyProblemIff | lambda/rds-parameter-audit-handler.ts:89-95 | A key adds an annotation entry iff it is missing or its value differs. |
| ExpectedValueAudit.ProblemsEmptyIff | lambda/rds-parameter-audit-handler.ts:82-98 | No entry is pushed iff the all-compliant flag stays true. |
| ExpectedValueAudit.ProblemListed | lambda/rds-parameter-audit-handler.ts:85-96 | The entry of every failing key is among the annotations. |
| ExpectedValueAudit.ProblemsAppend | lambda/rds-parameter-audit-handler.ts:85-96 | Entries follow key iteration order: the entries of concatenated expectation lists concatenate. |
| ExpectedValueAudit.VerdictCases | lambda/rds-parameter-audit-handler.ts:98-104 | The verdict is never NOT_APPLICABLE after a comparison. It is COMPLIANT iff every key is compliant, and then carries the fixed success text. Otherwise it is NON_COMPLIANT, and the annotation is the non-empty entry list joined by one space. |
| ExpectedValueAudit.MissingKeyReported | lambda/rds-parameter-audit-handler.ts:89-91 | A missing expected key makes the verdict NON_COMPLIANT, and the annotation contains that key's "not found" entry. |
| ExpectedValueAudit.MismatchReported | lambda/rds-parameter-audit-handler.ts:92-94 | A present key whose `String` value differs makes the verdict NON_COMPLIANT. The annotation contains an entry naming the actual and expected values. |
| ExpectedValueAudit.IdenticalParametersCompliant | lambda/rds-parameter-audit-handler.ts:85-100 | Parameters set exactly to distinct expected entries give COMPLIANT with the success text. |
| ExpectedValueAudit.MissingParameterExample | lambda/rds-parameter-audit-handler.ts:87-91 | Expecting require_secure_transport=ON against no parameters gives NON_COMPLIANT, with exactly the "not found" entry. |
| ExpectedValueAudit.StringNotNumericComparison | lambda/rds-parameter-audit-handler.ts:92 | The comparison is on text: `00` does not match an expected `0`. |
| ExpectedValueAudit.UndefinedValueComparesAsText | lambda/rds-parameter-audit-handler.ts:92 | A parameter listed without a value compares as the text `undefined`. |
| ScheduledSweep.GetAllParameterGroups | ARCHIVE/CloudWatchAndLambdaVersion/lambda/scheduled-audit.ts:57-77 | The do…while loop:<br>- computes the listing of the responses in sequence;<br>- sends no marker first, then each previous response's marker;<br>- keeps reading while markers are truthy, and stops right after the first response without one or at the first error. |
| ScheduledSweep.ListingStopsAtFirstUnmarked | ARCHIVE/CloudWatchAndLambdaVersion/lambda/scheduled-audit.ts:61-74 | When the first response without a marker is number n, the listing is the concatenation of the groups of responses 0..n, in page order. |
| ScheduledSweep.ListingFailsAtFirstError | ARCHIVE/CloudWatchAndLambdaVersion/lambda/scheduled-audit.ts:57-77 | A request that throws after marked pages ends the listing with its error. |
| ScheduledSweep.ListingIgnoresLaterPages | ARCHIVE/CloudWatchAndLambdaVersion/lambda/scheduled-audit.ts:73-74 | Responses after the first one without a marker never affect the listing. |
| ScheduledSweep.ReferencesGroup | ARCHIVE/CloudWatchAndLambdaVersion/lambda/scheduled-audit.ts:131-138 | The inner loop with `break` finds a match iff some listed group has exactly that name. |
| ScheduledSweep.GetAssociatedInstances | ARCHIVE/CloudWatchAndLambdaVersion/lambda/scheduled-audit.ts:121-148 | The nested loop gives the associated ids of the described instances. It gives empty on error or when the list is absent. |
| ScheduledSweep.AssociatedIdsAppend | ARCHIVE/CloudWatchAndLambdaVersion/lambda/scheduled-audit.ts:129-140 | The ids follow inventory order: the ids of concatenated inventories concatenate. |
| ScheduledSweep.AssociatedIdsMembership | ARCHIVE/CloudWatchAndLambdaVersion/lambda/scheduled-audit.ts:128-141 | An id is listed iff some instance with that non-empty identifier references the group. |
| ScheduledSweep.AssociatedIdsBound | ARCHIVE/CloudWatchAndLambdaVersion/lambda/scheduled-audit.ts:131-137 | The id list is never longer than the instance list: the `break` stops the inner loop at the first matching group, so no instance adds more than one id. |
| ScheduledSweep.AssociatedIdsDistinct | ARCHIVE/CloudWatchAndLambdaVersion/lambda/scheduled-audit.ts:129-137 | Distinct instance identifiers give an id list without repetition. |
| ScheduledSweep.ProblematicValues | ARCHIVE/CloudWatchAndLambdaVersion/lambda/scheduled-audit.ts:208-209 | `relevantParameters[paramName]` is absent iff no rule has that name. Otherwise it is the value list of a rule with that name. |
| ScheduledSweep.CheckEncryptionParameters | ARCHIVE/CloudWatchAndLambdaVersion/lambda/scheduled-audit.ts:150-235 | The loop gives the encryption issues of the parameters for the lower-cased engine, in parameter order. It gives none for an engine that is not a key. |
| ScheduledSweep.CheckParameters | ARCHIVE/CloudWatchAndLambdaVersion/lambda/scheduled-audit.ts:202-232 | The loop over the parameters gives each parameter's issues in turn, in parameter order. |
| ScheduledSweep.CheckParameter | ARCHIVE/CloudWatchAndLambdaVersion/lambda/scheduled-audit.ts:203-231 | One parameter gives, in turn, the table's problematic-value issue, the postgres library issue and the SQL Server authentication issue, and nothing when its name or value is missing. |
| ScheduledSweep.IssuesOverAppend | ARCHIVE/CloudWatchAndLambdaVersion/lambda/scheduled-audit.ts:202-232 | The issues of concatenated parameter lists concatenate. |
| ScheduledSweep.EncryptionIssuesAppend | ARCHIVE/CloudWatchAndLambdaVersion/lambda/scheduled-audit.ts:202-232 | For any engine, the issues are those of each parameter in turn. |
| ScheduledSweep.UnknownEngineNoIssues | ARCHIVE/CloudWatchAndLambdaVersion/lambda/scheduled-audit.ts:194-200 | An engine whose lower-cased form is not an exact key yields no issues, whatever the parameters. |
| ScheduledSweep.VersionedFamilyHasNoRules | ARCHIVE/CloudWatchAndLambdaVersion/lambda/scheduled-audit.ts:194-200 | An engine string containing a digit, such as a family like `mysql8.0`, matches no key and yields no issues. |
| ScheduledSweep.KeyHasNoDigit | ARCHIVE/CloudWatchAndLambdaVersion/lambda/scheduled-audit.ts:154-192 | A string with a digit is not a key of the encryption table. |
| ScheduledSweep.MysqlFamilyExample | ARCHIVE/CloudWatchAndLambdaVersion/lambda/scheduled-audit.ts:194-200 | The family `mysql8.0` yields no issues. |
| ScheduledSweep.CorrectedFamilyFindsRules | ARCHIVE/CloudWatchAndLambdaVersion/lambda/scheduled-audit.ts:33-36 | With the corrected engine (the family without its version), the family of any table engine followed by a version, such as `postgres14` or `sqlserver-se-15.0`, names that engine. Its group gets exactly that engine's issues. |
| ScheduledSweep.CorrectedMysqlFamilyExample | ARCHIVE/CloudWatchAndLambdaVersion/lambda/scheduled-audit.ts:33-36 | With the corrected engine, the family `mysql8.0` gets the MySQL issues. |
| ScheduledSweep.SkippedParameterNoIssues | ARCHIVE/CloudWatchAndLambdaVersion/lambda/scheduled-audit.ts:203 | A parameter lacking a name or a value adds nothing. |
| ScheduledSweep.ProblematicValueReported | ARCHIVE/CloudWatchAndLambdaVersion/lambda/scheduled-audit.ts:208-213 | A listed parameter set to one of its problematic values yields the issue naming it and the value. |
| ScheduledSweep.PostgresLibraryRule | ARCHIVE/CloudWatchAndLambdaVersion/lambda/scheduled-audit.ts:217-226 | For postgres, shared_preload_libraries yields exactly the library issue iff its lower-cased value names none of pg_tde, pg_crypt and pgcrypto, and nothing otherwise. |
| ScheduledSweep.SqlServerContainedAuthenticationTwice | ARCHIVE/CloudWatchAndLambdaVersion/lambda/scheduled-audit.ts:229-231 | For every SQL Server edition key, `contained database authentication = 1` yields two issues: the table's issue, then the SQL Server rule's. |
| ScheduledSweep.PostgresExample | ARCHIVE/CloudWatchAndLambdaVersion/lambda/scheduled-audit.ts:167-172 | A postgres group with ssl=on and the libraries `pg_stat_statements,pgcrypto` has no encryption issue. |
| ScheduledSweep.AuditParameterGroup | ARCHIVE/CloudWatchAndLambdaVersion/lambda/scheduled-audit.ts:79-119 | The updates to the result record give the audit of the group. |
| ScheduledSweep.AuditResultCases | ARCHIVE/CloudWatchAndLambdaVersion/lambda/scheduled-audit.ts:100-116 | The audit result:<br>- its flag is set iff its issue list is non-empty;<br>- a failed fetch gives exactly the error issue;<br>- an undefined parameter list gives no issue;<br>- otherwise the issues are the encryption issues;<br>- the name, engine and associated instances are as given. |
| ScheduledSweep.SweepGroups | ARCHIVE/CloudWatchAndLambdaVersion/lambda/scheduled-audit.ts:28-41 | The sweep loop keeps, in listing order, the audits of the named groups that have issues. The engine is the family, or `unknown`. |
| ScheduledSweep.RunSweep | ARCHIVE/CloudWatchAndLambdaVersion/lambda/scheduled-audit.ts:16-55 | The sweep ends in one of three ways:<br>- a report when some group has issues, and nothing to report otherwise;<br>- the listing error, which is notified and rethrown;<br>- no audit when the responses run out with a marker outstanding. |
| ScheduledSweep.SweepResultsAppend | ARCHIVE/CloudWatchAndLambdaVersion/lambda/scheduled-audit.ts:28-41 | The report follows listing order: the results of concatenated listings concatenate. |
| ScheduledSweep.SweepResultsExact | ARCHIVE/CloudWatchAndLambdaVersion/lambda/scheduled-audit.ts:28-41 | A result is reported iff it is the audit of some listed group that has a name and issues. |
| ScheduledSweep.SweepResultsHaveIssues | ARCHIVE/CloudWatchAndLambdaVersion/lambda/scheduled-audit.ts:38-40 | Every reported result has its flag set and a non-empty issue list. |
| ScheduledSweep.FailingGroupReported | ARCHIVE/CloudWatchAndLambdaVersion/lambda/scheduled-audit.ts:112-116 | A named group whose parameters cannot be read is always in the report. |
| EncryptionEventAudit.AuroraMysqlClassified | ARCHIVE/CloudWatchAndLambdaVersion/lambda/rds-parameter-audit.ts:201-212 | `aurora-mysql` gets the MySQL name list. |
| EncryptionEventAudit.AuroraPostgresqlClassified | ARCHIVE/CloudWatchAndLambdaVersion/lambda/rds-parameter-audit.ts:201-221 | `aurora-postgresql` gets the PostgreSQL name list. |
| EncryptionEventAudit.UnknownEngineClassified | ARCHIVE/CloudWatchAndLambdaVersion/lambda/rds-parameter-audit.ts:201-243 | `unknown` matches no substring test and gets the fallback list `[general_log, slow_query_log]`. |
| EncryptionEventAudit.ClassificationIgnoresCase | ARCHIVE/CloudWatchAndLambdaVersion/lambda/rds-parameter-audit.ts:202 | An engine and its lower-cased form get the same list. |
| EncryptionEventAudit.MysqlTakesPriority | ARCHIVE/CloudWatchAndLambdaVersion/lambda/rds-parameter-audit.ts:204-212 | Any engine containing mysql or mariadb gets the MySQL list, whatever else it contains. |
| EncryptionEventAudit.CheckSecurityParameter | ARCHIVE/CloudWatchAndLambdaVersion/lambda/rds-parameter-audit.ts:156-189 | The checks of one listed parameter push its security issues in check order. |
| EncryptionEventAudit.CheckParameterGroupEncryption | ARCHIVE/CloudWatchAndLambdaVersion/lambda/rds-parameter-audit.ts:133-199 | The group's issues are, in turn:<br>- the error issue on failure;<br>- none without parameters;<br>- otherwise the issues of the listed parameters in order, with an absent engine classified as `unknown`. |
| EncryptionEventAudit.CheckListedParameters | ARCHIVE/CloudWatchAndLambdaVersion/lambda/rds-parameter-audit.ts:152-191 | The loop over the parameters adds issues only for those whose name is in the engine's list, in parameter order. |
| EncryptionEventAudit.IssuesOverAppend | ARCHIVE/CloudWatchAndLambdaVersion/lambda/rds-parameter-audit.ts:152-191 | The issues of concatenated parameter lists concatenate. |
| EncryptionEventAudit.UnlistedParameterIgnored | ARCHIVE/CloudWatchAndLambdaVersion/lambda/rds-parameter-audit.ts:153 | A parameter whose name is missing or not in the engine's list adds no issue. |
| EncryptionEventAudit.FlaggedSettings | ARCHIVE/CloudWatchAndLambdaVersion/lambda/rds-parameter-audit.ts:157-189 | Each of these, when listed, yields exactly its issue:<br>- require_secure_transport=OFF;<br>- general_log=0;<br>- slow_query_log=0;<br>- ssl=off;<br>- contained database authentication=1. |
| EncryptionEventAudit.LibraryRule | ARCHIVE/CloudWatchAndLambdaVersion/lambda/rds-parameter-audit.ts:175-184 | A listed shared_preload_libraries yields its issue iff the lower-cased value names neither pg_stat_statements nor auto_explain. An absent value yields it too. |
| EncryptionEventAudit.GroupEventUsesFallbackList | ARCHIVE/CloudWatchAndLambdaVersion/lambda/rds-parameter-audit.ts:150 | A parameter-group event has no engine, so only the fallback list is consulted. require_secure_transport=OFF there yields nothing. |
| EncryptionEventAudit.CheckInstanceGroups | ARCHIVE/CloudWatchAndLambdaVersion/lambda/rds-parameter-audit.ts:107-115 | The loop gives the issues of each named group with the instance's engine, in group order. |
| EncryptionEventAudit.CheckInstanceGroup | ARCHIVE/CloudWatchAndLambdaVersion/lambda/rds-parameter-audit.ts:109-113 | One entry of the instance's group list: an unnamed entry adds nothing, and a named one adds its group's issues, checked with the instance's engine. |
| EncryptionEventAudit.CheckRdsEncryption | ARCHIVE/CloudWatchAndLambdaVersion/lambda/rds-parameter-audit.ts:80-131 | A failed describe call gives exactly the error issue and a missing instance gives none. Otherwise the result is the instance's issues. |
| EncryptionEventAudit.CheckInstance | ARCHIVE/CloudWatchAndLambdaVersion/lambda/rds-parameter-audit.ts:95-122 | The described instance gives the storage issue when unencrypted, then the issues of each named group, then the default-KMS issue when there is an ARN, no KmsKeyId and encrypted storage. |
| EncryptionEventAudit.GroupsIssuesAppend | ARCHIVE/CloudWatchAndLambdaVersion/lambda/rds-parameter-audit.ts:108-114 | Group issues follow group order: the issues of concatenated group lists concatenate. |
| EncryptionEventAudit.InstanceIssuesLayout | ARCHIVE/CloudWatchAndLambdaVersion/lambda/rds-parameter-audit.ts:99-123 | The instance's issues are laid out as:<br>- first, the storage issue, iff storage is unencrypted;<br>- then the issues of every group, in order;<br>- last, the default-KMS issue, iff there is an ARN, no KmsKeyId and encrypted storage.<br>The storage and KMS issues never occur together. |
| EncryptionEventAudit.InstanceLookupCases | ARCHIVE/CloudWatchAndLambdaVersion/lambda/rds-parameter-audit.ts:91-94 | A failed describe call gives exactly the error issue. A missing instance gives an empty list. |
| EncryptionEventAudit.HandleRdsEvent | ARCHIVE/CloudWatchAndLambdaVersion/lambda/rds-parameter-audit.ts:29-78 | The handler:<br>- does nothing when the detail, SourceType or SourceIdentifier is missing;<br>- for DB_INSTANCE, notifies the instance issues iff there are any;<br>- for DB_PARAMETER_GROUP, notifies the group issues with no engine iff there are any;<br>- skips every other type.<br>A notification never carries an empty issue list. |
| EncryptionEventAudit.CheckEbsEncryptionParameter | ARCHIVE/CloudWatchAndLambdaVersion/lambda/rds-parameter-audit.ts:270-337 | The loop with early return gives true iff some parameter is flagged. It gives false on error or without parameters. |
| EncryptionEventAudit.EbsForceFlaggedAsWritten | ARCHIVE/CloudWatchAndLambdaVersion/lambda/rds-parameter-audit.ts:304-308 | As written, innodb_encrypt_tables=FORCE is reported as disabled encryption. |
| EncryptionEventAudit.EbsForceAcceptedWhenCorrected | ARCHIVE/CloudWatchAndLambdaVersion/lambda/rds-parameter-audit.ts:303-308 | Corrected, no parameter other than shared_preload_libraries that is set to FORCE is flagged. For every other value and every name but shared_preload_libraries, the corrected check flags exactly what the check as written flags, so OFF, 0 and false on a consulted name still are. |
| EncryptionEventAudit.EbsForceListExample | ARCHIVE/CloudWatchAndLambdaVersion/lambda/rds-parameter-audit.ts:299-308 | A group whose only setting is innodb_encrypt_tables=FORCE is reported as written and not when corrected. |
| EncryptionEventAudit.EbsLibraryCheckUnreachable | ARCHIVE/CloudWatchAndLambdaVersion/lambda/rds-parameter-audit.ts:318-328 | As written, a shared_preload_libraries parameter is never flagged. A group naming no encryption library passes. |
| EncryptionEventAudit.EbsLibraryCheckWhenCorrected | ARCHIVE/CloudWatchAndLambdaVersion/lambda/rds-parameter-audit.ts:317-328 | Corrected, shared_preload_libraries is flagged iff its lower-cased value names none of pg_tde, pg_crypt and pgcrypto. |
| EngineAudit.ResolveEnginePriority | lambda/engine-parameter-audit.ts:30 | The engine is the lower-cased first truthy of the event's engine, the instance's engine and ENGINE, and otherwise `unknown`. |
| EngineAudit.ResolvedEngineIsLowerCase | lambda/engine-parameter-audit.ts:30 | The resolved engine has no upper-case letter, and lower-casing it again changes nothing. |
| EngineAudit.UnknownEngineNoChecks | lambda/engine-parameter-audit.ts:31-36 | An engine outside the table has no checks. Its message lists none. |
| EngineAudit.MessageListsChecks | lambda/engine-parameter-audit.ts:36 | Every check name of the engine occurs in the message. |
| EngineAudit.CheckListRoundTrip | lambda/engine-parameter-audit.ts:36 | The comma-joined list splits back into the check names, in table order. |
| EngineAudit.SubjectNamesEngine | lambda/engine-parameter-audit.ts:37 | The subject contains the resolved engine. |
| EngineAudit.ReportDependsOnlyOnEngine | lambda/engine-parameter-audit.ts:29-39 | Two invocations that resolve to the same engine give the same message and subject. No parameter value is involved. |
| EngineAudit.NothingSetExample | lambda/engine-parameter-audit.ts:4-31 | With no engine anywhere, the engine is `unknown` and there are no checks. |

## Left out

- **All AWS SDK calls.** DescribeDBInstances, DescribeDBParameters, DescribeDBClusterParameters, DescribeDBParameterGroups, SNS Publish and Config PutEvaluations are not modelled. Their responses are inputs; PutEvaluations and its error handling are not modelled.
- **Notification formatting.** `sendNotification`, `sendAuditReport` and `sendErrorNotification` format text, timestamps and `JSON.stringify`. A notification is modelled as the data passed to them. Publish failures are not modelled.
- **Environment and glue.** `JSON.parse` of the invoking event and of the rule parameters, `new Date()`, logging and `process.env` are left out. The ENGINE variable is a parameter.
- **Rule-parameter order.** The expected-value map is taken as a sequence in key iteration order. JavaScript's ordering of integer-like keys is not modelled.
- `getDBParameterGroup` in the archived event handler is left out: it is never called, and it sorts with `localeCompare`.
- The `expected` RegExp values of `REQUIRED_PARAMS` are never evaluated, so only the parameter names are modelled.
- `customRuleHandler` in `lambda/rds-audit-handler.ts` returns a fixed success body with no decision logic and is left out.
- `lambda/notify.ts`, `lambda/audit-handler-sfn.ts`, `config/*.ts` and the tests are publish glue and deployment configuration, and are not part of this model.
- **Property lookups on plain objects.** An engine or parameter name that is an `Object.prototype` key, such as `constructor`, makes the source's table lookups find a function. That case is not modelled: lookups are on the listed keys only.
- `toLowerCase` is modelled on ASCII letters only. Other characters are kept unchanged.
- **Thrown values.** Only `Error` objects are modelled, rendered by `Error.prototype.toString`. A non-`Error` thrown value, or an `Error` with a non-string message, is not.
- **Values reaching a template.** A non-string expected value in the rule parameters, such as a JSON number, is taken as its `String` form.
- **Engines are strings.** A truthy engine that is not a string, such as a JSON number in `event.engine` or `instance.Engine`, has no `toLowerCase`. `lambda/engine-parameter-audit.ts` then throws a TypeError and builds no message. The model types every engine as a string and does not model that throw.
- **Pagination input bound.** Pagination reads a finite sequence of responses. When the sequence ends while a marker is still outstanding, the model reports an unfinished listing, and `RunSweep` audits nothing. The source would instead issue another request.
- `ScheduledSweep.GetAssociatedInstances` reads the single DescribeDBInstances response the source reads, without pagination, as the source does.
- **async/await.** The handlers await their calls one at a time, so there is no concurrency to model.
- **Corrected family lookup.** The sweep follows the code as written and passes the family as the engine. The corrected engine, `EngineOfFamily`, is proved about but is used by nothing else in the sweep.
- **Corrected EBS check.** The corrected EBS-encryption policy is proved about but used by nothing else, because `checkEBSEncryptionParameter` is never called in the source.
- **Library branch is dead code.** The comment inside `checkEBSEncryptionParameter`, just before its parameter list, names shared_preload_libraries as the PostgreSQL parameter to check. Its parameter list does not contain that name, so the library branch never runs. The model follows the code, and the corrected policy adds the name.

## Findings

| source | as written | input that shows it | evidently intended | confidence | as-written member | corrected member |
|---|---|---|---|---|---|---|
| ARCHIVE/CloudWatchAndLambdaVersion/lambda/rds-parameter-audit.ts:304-307 | `FORCE` is among the values read as "encryption disabled". | innodb_encrypt_tables = FORCE | FORCE, which enforces encryption for every table, is not reported. OFF, 0 and false still are. | not executed | EncryptionEventAudit.EbsForceFlaggedAsWritten | EncryptionEventAudit.EbsForceAcceptedWhenCorrected |
| ARCHIVE/CloudWatchAndLambdaVersion/lambda/rds-parameter-audit.ts:289-328 | shared_preload_libraries is missing from the consulted list, so the library test can never run. | shared_preload_libraries = pg_stat_statements | A group whose libraries name no encryption extension is reported. | not executed | EncryptionEventAudit.EbsLibraryCheckUnreachable | EncryptionEventAudit.EbsLibraryCheckWhenCorrected |
| ARCHIVE/CloudWatchAndLambdaVersion/lambda/scheduled-audit.ts:33-36 | The sweep passes `DBParameterGroupFamily` as the engine. The table lookup at lines 194-195 uses exact engine keys, and every real family carries a version number. | a group of family mysql8.0 with innodb_encrypt_tables = OFF | The group is checked against the rules of the engine its family names, here mysql. As written it gets no encryption issue, and the sweep reports only groups whose fetch fails. | not executed | ScheduledSweep.VersionedFamilyHasNoRules | ScheduledSweep.CorrectedFamilyFindsRules |
