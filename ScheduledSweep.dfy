/**
 * The scheduled parameter-group sweep
 * (ARCHIVE/CloudWatchAndLambdaVersion/lambda/scheduled-audit.ts): every
 * parameter group is listed page by page, each named group is audited
 * against an encryption-specific table keyed by its family, the instances
 * that use the group are looked up, and only the groups with issues are
 * kept for the report.
 */
module ScheduledSweep {
  import opened Common

  // ---------------------------------------------------------------------
  // Pagination (getAllParameterGroups)

  /** A `DBParameterGroup` of a DescribeDBParameterGroups page. */
  datatype GroupInfo = GroupInfo(name: Option<string>, family: Option<string>)

  /** One DescribeDBParameterGroups response, or the error the request threw. */
  datatype PageResponse =
    | Page(groups: Option<seq<GroupInfo>>, marker: Option<string>)
    | PageFailed(fault: Fault)

  /** The result of listing: all groups; the error that ended the listing; or,
      when the given responses run out while a marker is still outstanding,
      the groups listed so far. */
  datatype Listing =
    | Listed(groups: seq<GroupInfo>)
    | ListingFailed(fault: Fault)
    | Unfinished(groups: seq<GroupInfo>)

  /** The groups of one page (`response.DBParameterGroups` when present). */
  function PageGroups(p: PageResponse): seq<GroupInfo>
    requires p.Page?
  {
    if p.groups.Some? then p.groups.value else []
  }

  /** The groups of consecutive successful pages, in page order. */
  function Flatten(pages: seq<PageResponse>): seq<GroupInfo>
    requires forall i :: 0 <= i < |pages| ==> pages[i].Page?
    decreases |pages|
  {
    if pages == [] then [] else PageGroups(pages[0]) + Flatten(pages[1..])
  }

  /** `groups` listed before the rest of the listing. */
  function Prepend(groups: seq<GroupInfo>, rest: Listing): Listing {
    match rest
    case Listed(gs) => Listed(groups + gs)
    case ListingFailed(f) => ListingFailed(f)
    case Unfinished(gs) => Unfinished(groups + gs)
  }

  /** The listing read from the successive responses `pages[0]`, `pages[1]`, …:
      a response with a truthy marker asks for the next one. */
  function ListingOf(pages: seq<PageResponse>): Listing
    decreases |pages|
  {
    if pages == [] then Unfinished([])
    else
      match pages[0]
      case PageFailed(f) => ListingFailed(f)
      case Page(_, marker) =>
        if Truthy(marker) then Prepend(PageGroups(pages[0]), ListingOf(pages[1..]))
        else Listed(PageGroups(pages[0]))
  }

  lemma PrependAssoc(a: seq<GroupInfo>, b: seq<GroupInfo>, rest: Listing)
    ensures Prepend(a, Prepend(b, rest)) == Prepend(a + b, rest)
  {
  }

  /** The do…while loop. `requests` responses are read; `markers[i]` is the
      Marker sent with request `i`. */
  method GetAllParameterGroups(pages: seq<PageResponse>)
    returns (listing: Listing, requests: nat, markers: seq<Option<string>>)
    ensures listing == ListingOf(pages)
    ensures requests <= |pages| && |markers| == requests
    ensures forall i :: 0 <= i < requests - 1 ==> pages[i].Page? && Truthy(pages[i].marker)
    ensures requests > 0 ==> markers[0] == None
    ensures forall i :: 0 < i < requests ==> pages[i - 1].Page? && markers[i] == pages[i - 1].marker
    ensures listing.Listed? ==> 0 < requests && pages[requests - 1].Page? && !Truthy(pages[requests - 1].marker)
    ensures listing.ListingFailed? ==> 0 < requests && pages[requests - 1].PageFailed?
    ensures listing.Unfinished? ==> requests == |pages|
  {
    var parameterGroups: seq<GroupInfo> := [];
    var marker: Option<string> := None;
    requests := 0;
    markers := [];
    while true
      invariant requests <= |pages| && |markers| == requests
      invariant Prepend(parameterGroups, ListingOf(pages[requests..])) == ListingOf(pages)
      invariant forall i :: 0 <= i < requests ==> pages[i].Page? && Truthy(pages[i].marker)
      invariant requests > 0 ==> markers[0] == None
      invariant forall i :: 0 < i < requests ==> markers[i] == pages[i - 1].marker
      invariant marker == (if requests == 0 then None else pages[requests - 1].marker)
      decreases |pages| - requests
    {
      if requests == |pages| {
        listing := Unfinished(parameterGroups);
        return;
      }
      var response := pages[requests];
      ListingStep(pages, requests);
      markers := markers + [marker];
      requests := requests + 1;
      if response.PageFailed? {
        listing := ListingFailed(response.fault);
        return;
      }
      PrependAssoc(parameterGroups, PageGroups(response), ListingOf(pages[requests..]));
      if response.groups.Some? {
        parameterGroups := parameterGroups + response.groups.value;
      } else {
        assert parameterGroups + PageGroups(response) == parameterGroups;
      }
      marker := response.marker;
      if !Truthy(marker) {
        listing := Listed(parameterGroups);
        return;
      }
    }
  }

  /** One response of the listing. */
  lemma ListingStep(pages: seq<PageResponse>, i: nat)
    requires i < |pages|
    ensures pages[i].PageFailed? ==> ListingOf(pages[i..]) == ListingFailed(pages[i].fault)
    ensures pages[i].Page? && Truthy(pages[i].marker) ==>
              ListingOf(pages[i..]) == Prepend(PageGroups(pages[i]), ListingOf(pages[i + 1..]))
    ensures pages[i].Page? && !Truthy(pages[i].marker) ==> ListingOf(pages[i..]) == Listed(PageGroups(pages[i]))
  {
    assert pages[i..][0] == pages[i];
    assert pages[i..][1..] == pages[i + 1..];
  }

  /** Listing stops exactly at the first response without a marker and lists
      the groups of every page read, in page order. */
  lemma {:induction false} ListingStopsAtFirstUnmarked(pages: seq<PageResponse>, n: nat)
    requires n < |pages|
    requires forall i :: 0 <= i < n ==> pages[i].Page? && Truthy(pages[i].marker)
    requires pages[n].Page? && !Truthy(pages[n].marker)
    ensures ListingOf(pages) == Listed(Flatten(pages[..n + 1]))
    decreases n
  {
    if n > 0 {
      ListingStopsAtFirstUnmarked(pages[1..], n - 1);
      assert pages[..n + 1][1..] == pages[1..][..n];
    } else {
      assert Flatten(pages[..1][1..]) == [];
    }
  }

  /** A failing request ends the listing with its error, whatever follows. */
  lemma {:induction false} ListingFailsAtFirstError(pages: seq<PageResponse>, n: nat)
    requires n < |pages|
    requires forall i :: 0 <= i < n ==> pages[i].Page? && Truthy(pages[i].marker)
    requires pages[n].PageFailed?
    ensures ListingOf(pages) == ListingFailed(pages[n].fault)
    decreases n
  {
    if n > 0 {
      ListingFailsAtFirstError(pages[1..], n - 1);
    }
  }

  /** Responses after the first one without a marker are never read. */
  lemma ListingIgnoresLaterPages(pages: seq<PageResponse>, later: seq<PageResponse>, n: nat)
    requires n < |pages|
    requires forall i :: 0 <= i < n ==> pages[i].Page? && Truthy(pages[i].marker)
    requires pages[n].Page? && !Truthy(pages[n].marker)
    ensures ListingOf(pages[..n + 1] + later) == ListingOf(pages)
  {
    var p := pages[..n + 1] + later;
    assert forall i :: 0 <= i <= n ==> p[i] == pages[i];
    ListingStopsAtFirstUnmarked(p, n);
    ListingStopsAtFirstUnmarked(pages, n);
    assert p[..n + 1] == pages[..n + 1];
  }

  // ---------------------------------------------------------------------
  // Associated instances (getAssociatedInstances)

  /** The instance lists a parameter group with exactly this name. */
  predicate References(inst: DbInstance, groupName: string) {
    inst.parameterGroups.Some? &&
    exists j :: 0 <= j < |inst.parameterGroups.value| && inst.parameterGroups.value[j] == Some(groupName)
  }

  /** The one id an instance contributes: its truthy identifier, when it
      references the group. */
  function Contribution(inst: DbInstance, groupName: string): seq<string> {
    if References(inst, groupName) && Truthy(inst.id) then [inst.id.value] else []
  }

  /** The ids of the instances that reference the group, in inventory order. */
  function AssociatedIds(insts: seq<DbInstance>, groupName: string): seq<string>
    decreases |insts|
  {
    if insts == [] then []
    else AssociatedIds(insts[..|insts| - 1], groupName) + Contribution(insts[|insts| - 1], groupName)
  }

  /** What getAssociatedInstances returns for a DescribeDBInstances outcome. */
  function AssociatedInstancesOf(q: InstanceQuery, groupName: string): seq<string> {
    match q
    case DescribeFailed(_) => []
    case Described(None) => []
    case Described(Some(insts)) => AssociatedIds(insts, groupName)
  }

  /** The inner loop with `break`: does the instance reference the group? */
  method ReferencesGroup(groups: seq<Option<string>>, groupName: string) returns (found: bool)
    ensures found <==> exists j :: 0 <= j < |groups| && groups[j] == Some(groupName)
  {
    found := false;
    var j := 0;
    while j < |groups|
      invariant 0 <= j <= |groups|
      invariant !found
      invariant forall k :: 0 <= k < j ==> groups[k] != Some(groupName)
    {
      if groups[j] == Some(groupName) {
        found := true;
        break;
      }
      j := j + 1;
    }
  }

  method GetAssociatedInstances(q: InstanceQuery, groupName: string) returns (associated: seq<string>)
    ensures associated == AssociatedInstancesOf(q, groupName)
  {
    associated := [];
    if q.DescribeFailed? || q.instances.None? {
      return;
    }
    var insts := q.instances.value;
    var i := 0;
    while i < |insts|
      invariant 0 <= i <= |insts|
      invariant associated == AssociatedIds(insts[..i], groupName)
    {
      assert insts[..i + 1][..i] == insts[..i];
      var instance := insts[i];
      if instance.parameterGroups.Some? {
        var found := ReferencesGroup(instance.parameterGroups.value, groupName);
        if found && Truthy(instance.id) {
          associated := associated + [instance.id.value];
        }
      }
      i := i + 1;
    }
    assert insts[..|insts|] == insts;
  }

  lemma {:induction false} AssociatedIdsAppend(a: seq<DbInstance>, b: seq<DbInstance>, groupName: string)
    ensures AssociatedIds(a + b, groupName) == AssociatedIds(a, groupName) + AssociatedIds(b, groupName)
    decreases |b|
  {
    if b == [] {
      assert a + b == a;
    } else {
      assert (a + b)[..|a + b| - 1] == a + b[..|b| - 1];
      AssociatedIdsAppend(a, b[..|b| - 1], groupName);
    }
  }

  /** An id is listed exactly when some instance with that (non-empty)
      identifier references the group. */
  lemma {:induction false} AssociatedIdsMembership(insts: seq<DbInstance>, groupName: string, id: string)
    ensures id in AssociatedIds(insts, groupName) <==>
              exists i :: 0 <= i < |insts| && insts[i].id == Some(id) && id != "" && References(insts[i], groupName)
    decreases |insts|
  {
    if insts != [] {
      var init := insts[..|insts| - 1];
      AssociatedIdsMembership(init, groupName, id);
      assert forall i :: 0 <= i < |init| ==> init[i] == insts[i];
    }
  }

  /** Each instance contributes at most once, however often it names the group. */
  lemma {:induction false} AssociatedIdsBound(insts: seq<DbInstance>, groupName: string)
    ensures |AssociatedIds(insts, groupName)| <= |insts|
    decreases |insts|
  {
    if insts != [] {
      AssociatedIdsBound(insts[..|insts| - 1], groupName);
    }
  }

  /** Distinct instance identifiers give a list without repetitions. */
  lemma {:induction false} AssociatedIdsDistinct(insts: seq<DbInstance>, groupName: string)
    requires forall i, j :: 0 <= i < j < |insts| && insts[i].id.Some? ==> insts[i].id != insts[j].id
    ensures NoDuplicates(AssociatedIds(insts, groupName))
    decreases |insts|
  {
    if insts != [] {
      var init := insts[..|insts| - 1];
      var last := insts[|insts| - 1];
      assert forall i :: 0 <= i < |init| ==> init[i] == insts[i];
      AssociatedIdsDistinct(init, groupName);
      var ids := AssociatedIds(init, groupName);
      if References(last, groupName) && Truthy(last.id) {
        forall i | 0 <= i < |ids|
          ensures ids[i] != last.id.value
        {
          AssociatedIdsMembership(init, groupName, ids[i]);
          var k :| 0 <= k < |init| && init[k].id == Some(ids[i]) && ids[i] != "" && References(init[k], groupName);
          assert insts[k] == init[k];
        }
        NoDuplicatesAppend(ids, last.id.value);
      }
    }
  }

  // ---------------------------------------------------------------------
  // The encryption table (checkEncryptionParameters)

  /** A listed parameter and the values that disable encryption. */
  datatype EncryptionRule = EncryptionRule(name: string, problematic: seq<string>)

  const SharedPreloadLibraries := "shared_preload_libraries"
  const ContainedDatabaseAuthentication := "contained database authentication"
  const SqlServerPrefix := "sqlserver"

  const InnoDbRules := [
    EncryptionRule("innodb_encrypt_tables", ["OFF", "0"]),
    EncryptionRule("innodb_encrypt_log", ["OFF", "0"]),
    EncryptionRule("innodb_encryption_threads", ["0"]),
    EncryptionRule("rds.force_ssl", ["OFF", "0"])
  ]

  const PostgresEncryptionRules := [
    EncryptionRule(SharedPreloadLibraries, []),
    EncryptionRule("rds.force_ssl", ["OFF", "0"]),
    EncryptionRule("log_connections", ["OFF", "0"]),
    EncryptionRule("log_statement_stats", ["OFF", "0"])
  ]

  const OracleEncryptionRules := [EncryptionRule("tde_configuration", ["NONE", "OFF"])]

  const SqlServerEncryptionRules := [
    EncryptionRule(ContainedDatabaseAuthentication, ["1"]),
    EncryptionRule("backup compression default", ["0"])
  ]

  /** `encryptionParametersByEngine[engineLower]`: exact keys only. The four
      SQL Server editions are "sqlserver-se", "sqlserver-ee", "sqlserver-ex" and
      "sqlserver-web". */
  function EncryptionRules(engineLower: string): Option<seq<EncryptionRule>> {
    if engineLower == "mysql" || engineLower == "mariadb" then Some(InnoDbRules)
    else if engineLower == "postgres" then Some(PostgresEncryptionRules)
    else if engineLower == "oracle-ee" then Some(OracleEncryptionRules)
    else if engineLower == SqlServerPrefix + "-se" || engineLower == SqlServerPrefix + "-ee"
         || engineLower == SqlServerPrefix + "-ex" || engineLower == SqlServerPrefix + "-web"
    then Some(SqlServerEncryptionRules)
    else None
  }

  /** `relevantParameters[paramName]`: the problematic values of the first
      rule for that name. */
  function ProblematicValues(rules: seq<EncryptionRule>, name: string): (r: Option<seq<string>>)
    ensures r.None? <==> forall k :: 0 <= k < |rules| ==> rules[k].name != name
    ensures r.Some? ==> exists k :: 0 <= k < |rules| && rules[k].name == name && rules[k].problematic == r.value
    decreases |rules|
  {
    if rules == [] then None
    else if rules[0].name == name then Some(rules[0].problematic)
    else
      assert forall k :: 1 <= k < |rules| ==> rules[k] == rules[1..][k - 1];
      ProblematicValues(rules[1..], name)
  }

  function DisablesEncryptionIssue(name: string, value: string): string {
    "Parameter '" + name + "' is set to '" + value + "' which disables encryption"
  }

  const MissingEncryptionLibrariesIssue :=
    "PostgreSQL shared_preload_libraries does not include encryption extensions (pg_tde, pg_crypt, pgcrypto)"
  const ContainedAuthenticationIssue :=
    "SQL Server contained database authentication is enabled, which may weaken security"

  /** The issues one parameter with a truthy name and value adds. */
  function ParameterIssues(rules: seq<EncryptionRule>, engineLower: string, name: string, value: string): seq<string> {
    var listed := ProblematicValues(rules, name);
    (if listed.Some? && value in listed.value then [DisablesEncryptionIssue(name, value)] else [])
    + (if engineLower == "postgres" && name == SharedPreloadLibraries && !HasEncryptionLibrary(value)
       then [MissingEncryptionLibrariesIssue] else [])
    + (if StartsWith(engineLower, SqlServerPrefix) && name == ContainedDatabaseAuthentication && value == "1"
       then [ContainedAuthenticationIssue] else [])
  }

  /** Parameters lacking a name or a value are skipped. */
  function IssuesOf(rules: seq<EncryptionRule>, engineLower: string, p: Parameter): seq<string> {
    if Truthy(p.name) && Truthy(p.value) then ParameterIssues(rules, engineLower, p.name.value, p.value.value) else []
  }

  /** The issues of all parameters, in parameter order. */
  function IssuesOver(rules: seq<EncryptionRule>, engineLower: string, ps: seq<Parameter>): seq<string> {
    ConcatMap(p => IssuesOf(rules, engineLower, p), ps)
  }

  function EncryptionIssues(ps: seq<Parameter>, engine: string): seq<string> {
    var engineLower := ToLower(engine);
    match EncryptionRules(engineLower)
    case None => []
    case Some(rules) => IssuesOver(rules, engineLower, ps)
  }

  method CheckEncryptionParameters(parameters: seq<Parameter>, engine: string) returns (issues: seq<string>)
    ensures issues == EncryptionIssues(parameters, engine)
  {
    issues := [];
    var engineLower := ToLower(engine);
    var relevantParameters := EncryptionRules(engineLower);
    if relevantParameters.None? {
      return;
    }
    issues := CheckParameters(parameters, relevantParameters.value, engineLower);
  }

  /** The loop over the parameters, for the rules of the lower-cased engine. */
  method CheckParameters(parameters: seq<Parameter>, rules: seq<EncryptionRule>, engineLower: string)
    returns (issues: seq<string>)
    ensures issues == IssuesOver(rules, engineLower, parameters)
  {
    issues := [];
    var i := 0;
    while i < |parameters|
      invariant 0 <= i <= |parameters|
      invariant issues == IssuesOver(rules, engineLower, parameters[..i])
    {
      assert parameters[..i + 1][..i] == parameters[..i];
      var paramIssues := CheckParameter(parameters[i], rules, engineLower);
      issues := issues + paramIssues;
      i := i + 1;
    }
    assert parameters[..|parameters|] == parameters;
  }

  /** One iteration: the checks of one parameter with a truthy name and value. */
  method CheckParameter(param: Parameter, rules: seq<EncryptionRule>, engineLower: string) returns (issues: seq<string>)
    ensures issues == IssuesOf(rules, engineLower, param)
  {
    issues := [];
    if Truthy(param.name) && Truthy(param.value) {
      var paramName := param.name.value;
      var paramValue := param.value.value;
      var problematicValues := ProblematicValues(rules, paramName);
      if problematicValues.Some? && paramValue in problematicValues.value {
        issues := issues + [DisablesEncryptionIssue(paramName, paramValue)];
      }
      if engineLower == "postgres" && paramName == SharedPreloadLibraries && !HasEncryptionLibrary(paramValue) {
        issues := issues + [MissingEncryptionLibrariesIssue];
      }
      if StartsWith(engineLower, SqlServerPrefix) && paramName == ContainedDatabaseAuthentication && paramValue == "1" {
        issues := issues + [ContainedAuthenticationIssue];
      }
    }
  }

  // Properties of the encryption table

  lemma IssuesOverAppend(rules: seq<EncryptionRule>, engineLower: string, a: seq<Parameter>, b: seq<Parameter>)
    ensures IssuesOver(rules, engineLower, a + b) == IssuesOver(rules, engineLower, a) + IssuesOver(rules, engineLower, b)
  {
    ConcatMapAppend(p => IssuesOf(rules, engineLower, p), a, b);
  }

  /** The issues are those of each parameter in turn: the issues of a
      concatenation of parameter lists concatenate. */
  lemma EncryptionIssuesAppend(a: seq<Parameter>, b: seq<Parameter>, engine: string)
    ensures EncryptionIssues(a + b, engine) == EncryptionIssues(a, engine) + EncryptionIssues(b, engine)
  {
    var engineLower := ToLower(engine);
    if EncryptionRules(engineLower).Some? {
      IssuesOverAppend(EncryptionRules(engineLower).value, engineLower, a, b);
    }
  }

  /** An engine whose lower-cased form is not a key yields no issues, whatever
      the parameters. */
  lemma UnknownEngineNoIssues(ps: seq<Parameter>, engine: string)
    requires EncryptionRules(ToLower(engine)).None?
    ensures EncryptionIssues(ps, engine) == []
  {
  }

  /** No key contains a digit, so a family with a version number (for example
      "mysql8.0" or "postgres14") never matches and yields no issues. */
  lemma VersionedFamilyHasNoRules(ps: seq<Parameter>, engine: string, i: nat)
    requires i < |engine| && '0' <= engine[i] <= '9'
    ensures EncryptionRules(ToLower(engine)).None?
    ensures EncryptionIssues(ps, engine) == []
  {
    LowerCasedFamilyHasNoKey(engine, i);
    UnknownEngineNoIssues(ps, engine);
  }

  lemma LowerCasedFamilyHasNoKey(engine: string, i: nat)
    requires i < |engine| && '0' <= engine[i] <= '9'
    ensures EncryptionRules(ToLower(engine)).None?
  {
    ToLowerKeepsNonLetters(engine, i);
    KeyHasNoDigit(ToLower(engine), i);
  }

  lemma KeyHasNoDigit(e: string, i: nat)
    requires i < |e| && '0' <= e[i] <= '9'
    ensures EncryptionRules(e).None?
  {
    var d := e[i];
    assert d in e;
    assert d !in "mysql" && d !in "mariadb" && d !in "postgres" && d !in "oracle-ee";
    assert d !in SqlServerPrefix + "-se" && d !in SqlServerPrefix + "-ee";
    assert d !in SqlServerPrefix + "-ex" && d !in SqlServerPrefix + "-web";
  }

  lemma MysqlFamilyExample(ps: seq<Parameter>)
    ensures EncryptionIssues(ps, "mysql8.0") == []
  {
    VersionedFamilyHasNoRules(ps, "mysql8.0", 5);
  }

  // The evidently intended lookup: the engine is the family without its version

  predicate IsDigit(c: char) {
    '0' <= c <= '9'
  }

  /** The longest prefix of `s` without a digit. */
  function BeforeDigit(s: string): (r: string)
    ensures |r| <= |s| && r == s[..|r|]
    ensures forall i :: 0 <= i < |r| ==> !IsDigit(r[i])
    decreases |s|
  {
    if s == [] || IsDigit(s[0]) then [] else [s[0]] + BeforeDigit(s[1..])
  }

  /** The engine a family names: the part before the version number, without
      a trailing '-' ("sqlserver-se-15.0" names "sqlserver-se"). */
  function EngineOfFamily(family: string): (r: string)
    ensures |r| <= |family| && r == family[..|r|]
  {
    var p := BeforeDigit(family);
    if p != [] && p[|p| - 1] == '-' then p[..|p| - 1] else p
  }

  lemma {:induction false} BeforeDigitAppend(a: string, b: string)
    requires forall i :: 0 <= i < |a| ==> !IsDigit(a[i])
    requires b != [] && IsDigit(b[0])
    ensures BeforeDigit(a + b) == a
    decreases |a|
  {
    if a == [] {
      assert a + b == b;
    } else {
      assert (a + b)[0] == a[0];
      assert (a + b)[1..] == a[1..] + b;
      BeforeDigitAppend(a[1..], b);
    }
  }

  /** The versioned families of the table's engines, such as "mysql8.0",
      "postgres14", "oracle-ee-19" and "sqlserver-se-15.0", name those engines,
      so with the corrected lookup their groups are checked against the
      engine's rules. */
  lemma CorrectedFamilyFindsRules(ps: seq<Parameter>, key: string, version: string)
    requires EncryptionRules(key).Some?
    requires (version != [] && IsDigit(version[0]))
             || (|version| > 1 && version[0] == '-' && IsDigit(version[1]))
    ensures EngineOfFamily(key + version) == key
    ensures EncryptionRules(ToLower(EngineOfFamily(key + version))).Some?
    ensures EncryptionIssues(ps, EngineOfFamily(key + version)) == EncryptionIssues(ps, key)
  {
    KeyShape(key);
    if IsDigit(version[0]) {
      BeforeDigitAppend(key, version);
    } else {
      assert key + version == (key + "-") + version[1..];
      BeforeDigitAppend(key + "-", version[1..]);
      assert (key + "-")[..|key|] == key;
    }
    KeyIsLowerCase(key);
    ToLowerOfLowerCase(key);
  }

  /** Every key of the table is lower-case, has no digit and does not end in '-'. */
  lemma KeyShape(key: string)
    requires EncryptionRules(key).Some?
    ensures forall i :: 0 <= i < |key| ==> !IsDigit(key[i])
    ensures key != [] && key[|key| - 1] != '-'
  {
    forall i | 0 <= i < |key|
      ensures !IsDigit(key[i])
    {
      if IsDigit(key[i]) {
        KeyHasNoDigit(key, i);
        assert false;
      }
    }
  }

  lemma KeyIsLowerCase(key: string)
    requires EncryptionRules(key).Some?
    ensures IsLowerCase(key)
  {
  }

  /** Example: with the corrected lookup, the family "mysql8.0" gets the MySQL rules. */
  lemma CorrectedMysqlFamilyExample(ps: seq<Parameter>)
    ensures EncryptionIssues(ps, EngineOfFamily("mysql8.0")) == EncryptionIssues(ps, "mysql")
  {
    assert "mysql8.0" == "mysql" + "8.0";
    CorrectedFamilyFindsRules(ps, "mysql", "8.0");
  }

  /** A parameter without a name or value never contributes. */
  lemma SkippedParameterNoIssues(ps: seq<Parameter>, p: Parameter, engine: string)
    requires !Truthy(p.name) || !Truthy(p.value)
    ensures EncryptionIssues(ps + [p], engine) == EncryptionIssues(ps, engine)
  {
    assert (ps + [p])[..|ps + [p]| - 1] == ps;
  }

  /** A listed parameter set to one of its problematic values yields the issue
      naming the parameter and the value. */
  lemma ProblematicValueReported(rules: seq<EncryptionRule>, engineLower: string, k: nat, value: string)
    requires k < |rules| && value in rules[k].problematic && value != "" && rules[k].name != ""
    requires forall j :: 0 <= j < |rules| && j != k ==> rules[j].name != rules[k].name
    ensures DisablesEncryptionIssue(rules[k].name, value)
            in IssuesOf(rules, engineLower, Parameter(Some(rules[k].name), Some(value)))
  {
    var r := ProblematicValues(rules, rules[k].name);
    var m :| 0 <= m < |rules| && rules[m].name == rules[k].name && rules[m].problematic == r.value;
    assert m == k;
  }

  /** For postgres, shared_preload_libraries yields the library issue exactly
      when its lower-cased value names none of pg_tde, pg_crypt and pgcrypto
      (its problematic-value list is empty). */
  lemma PostgresLibraryRule(value: string)
    requires value != ""
    ensures EncryptionIssues([Parameter(Some(SharedPreloadLibraries), Some(value))], "postgres")
            == (if HasEncryptionLibrary(value) then [] else [MissingEncryptionLibrariesIssue])
  {
    var p := Parameter(Some(SharedPreloadLibraries), Some(value));
    PostgresIssues([p]);
    ConcatMapOne(p => IssuesOf(PostgresEncryptionRules, "postgres", p), p);
    PostgresLibraryParameterIssues(value);
  }

  /** "postgres" selects the PostgreSQL table. */
  lemma PostgresIssues(ps: seq<Parameter>)
    ensures EncryptionIssues(ps, "postgres") == IssuesOver(PostgresEncryptionRules, "postgres", ps)
  {
    PostgresIsLowerCase();
    assert EncryptionRules("postgres") == Some(PostgresEncryptionRules);
  }

  lemma PostgresIsLowerCase()
    ensures ToLower("postgres") == "postgres"
  {
    ToLowerOfLowerCase("postgres");
  }

  lemma PostgresLibraryParameterIssues(value: string)
    requires value != ""
    ensures IssuesOf(PostgresEncryptionRules, "postgres", Parameter(Some(SharedPreloadLibraries), Some(value)))
            == (if HasEncryptionLibrary(value) then [] else [MissingEncryptionLibrariesIssue])
  {
    assert ProblematicValues(PostgresEncryptionRules, SharedPreloadLibraries) == Some([]);
    assert !StartsWith("postgres", SqlServerPrefix);
  }

  /** For every SQL Server edition, contained database authentication = 1 is
      reported twice: once by the table and once by the SQL Server rule. */
  lemma SqlServerContainedAuthenticationTwice(engine: string)
    requires var e := ToLower(engine);
             e == SqlServerPrefix + "-se" || e == SqlServerPrefix + "-ee"
             || e == SqlServerPrefix + "-ex" || e == SqlServerPrefix + "-web"
    ensures EncryptionIssues([Parameter(Some(ContainedDatabaseAuthentication), Some("1"))], engine)
            == [DisablesEncryptionIssue(ContainedDatabaseAuthentication, "1"), ContainedAuthenticationIssue]
  {
    var e := ToLower(engine);
    assert StartsWith(e, SqlServerPrefix) by {
      assert e[..|SqlServerPrefix|] == SqlServerPrefix;
    }
    assert e != "postgres" by {
      assert |e| != |"postgres"|;
    }
    var p := [Parameter(Some(ContainedDatabaseAuthentication), Some("1"))];
    assert ProblematicValues(SqlServerEncryptionRules, ContainedDatabaseAuthentication) == Some(["1"]);
    assert EncryptionRules(e) == Some(SqlServerEncryptionRules);
    ConcatMapOne(p => IssuesOf(SqlServerEncryptionRules, e, p), p[0]);
  }

  /** Example: a postgres group with ssl = on and libraries
      "pg_stat_statements,pgcrypto" has no encryption issue; pgcrypto is named
      and ssl is not in this table. */
  lemma PostgresExample()
    ensures EncryptionIssues([Parameter(Some("ssl"), Some("on")),
                              Parameter(Some(SharedPreloadLibraries), Some("pg_stat_statements," + "pgcrypto"))],
                             "postgres") == []
  {
    var ssl := Parameter(Some("ssl"), Some("on"));
    var lib := Parameter(Some(SharedPreloadLibraries), Some("pg_stat_statements," + "pgcrypto"));
    PostgresIssues([ssl, lib]);
    UnlistedSslNoIssue();
    NamedLibraryNoIssue();
    var f := p => IssuesOf(PostgresEncryptionRules, "postgres", p);
    ConcatMapOne(f, ssl);
    ConcatMapOne(f, lib);
    ConcatMapAppend(f, [ssl], [lib]);
    assert [ssl] + [lib] == [ssl, lib];
  }

  lemma UnlistedSslNoIssue()
    ensures IssuesOf(PostgresEncryptionRules, "postgres", Parameter(Some("ssl"), Some("on"))) == []
  {
    assert ProblematicValues(PostgresEncryptionRules, "ssl").None?;
    assert !StartsWith("postgres", SqlServerPrefix);
  }

  lemma NamedLibraryNoIssue()
    ensures IssuesOf(PostgresEncryptionRules, "postgres",
                     Parameter(Some(SharedPreloadLibraries), Some("pg_stat_statements," + "pgcrypto"))) == []
  {
    EndsWithPgcryptoIsEncryptionLibrary("pg_stat_statements,");
    assert ProblematicValues(PostgresEncryptionRules, SharedPreloadLibraries) == Some([]);
    assert !StartsWith("postgres", SqlServerPrefix);
  }

  /** A value ending in "pgcrypto" names an encryption library. */
  lemma EndsWithPgcryptoIsEncryptionLibrary(prefix: string)
    ensures HasEncryptionLibrary(prefix + "pgcrypto")
  {
    EndsWithLowerCaseContains(prefix, "pgcrypto");
  }

  // ---------------------------------------------------------------------
  // Auditing one group (auditParameterGroup)

  datatype AuditResult = AuditResult(
    parameterGroupName: string,
    engine: string,
    hasEncryptionIssues: bool,
    issues: seq<string>,
    associatedInstances: seq<string>)

  function AuditErrorIssue(f: Fault): string {
    "Error auditing parameter group: " + f.Render()
  }

  /** The audit of a group from the DescribeDBInstances outcome `q` and the
      DescribeDBParameters outcome `fetched` for it. */
  function AuditOf(name: string, engine: string, q: InstanceQuery, fetched: ParamFetch): AuditResult {
    var base := AuditResult(name, engine, false, [], AssociatedInstancesOf(q, name));
    match fetched
    case FetchFailed(f) => base.(issues := [AuditErrorIssue(f)], hasEncryptionIssues := true)
    case Fetched(None) => base
    case Fetched(Some(ps)) =>
      var found := EncryptionIssues(ps, engine);
      if |found| > 0 then base.(hasEncryptionIssues := true, issues := found) else base
  }

  method AuditParameterGroup(parameterGroupName: string, engine: string, q: InstanceQuery, fetched: ParamFetch)
    returns (result: AuditResult)
    ensures result == AuditOf(parameterGroupName, engine, q, fetched)
  {
    result := AuditResult(parameterGroupName, engine, false, [], []);
    var associated := GetAssociatedInstances(q, parameterGroupName);
    result := result.(associatedInstances := associated);
    if fetched.FetchFailed? {
      result := result.(issues := result.issues + [AuditErrorIssue(fetched.fault)]);
      result := result.(hasEncryptionIssues := true);
      return;
    }
    if fetched.parameters.None? {
      return;
    }
    var encryptionIssues := CheckEncryptionParameters(fetched.parameters.value, engine);
    if |encryptionIssues| > 0 {
      result := result.(hasEncryptionIssues := true);
      result := result.(issues := encryptionIssues);
    }
  }

  /** The flag is set exactly when there are issues; a failed fetch is reported
      as its one error issue; the identity fields and the associated
      instances are as given. */
  lemma AuditResultCases(name: string, engine: string, q: InstanceQuery, fetched: ParamFetch)
    ensures var r := AuditOf(name, engine, q, fetched);
            && (r.hasEncryptionIssues <==> r.issues != [])
            && r.parameterGroupName == name && r.engine == engine
            && r.associatedInstances == AssociatedInstancesOf(q, name)
            && (fetched.FetchFailed? ==> r.issues == [AuditErrorIssue(fetched.fault)])
            && (fetched.Fetched? && fetched.parameters.None? ==> r.issues == [])
            && (fetched.Fetched? && fetched.parameters.Some? ==>
                  r.issues == EncryptionIssues(fetched.parameters.value, engine))
  {
  }

  // ---------------------------------------------------------------------
  // The sweep (handler)

  /** The audit of a named group: its family, or "unknown", is the engine. */
  function GroupAudit(g: GroupInfo, describe: string -> InstanceQuery, fetch: string -> ParamFetch): AuditResult
    requires Truthy(g.name)
  {
    AuditOf(g.name.value, OrElse(g.family, "unknown"), describe(g.name.value), fetch(g.name.value))
  }

  predicate Kept(g: GroupInfo, describe: string -> InstanceQuery, fetch: string -> ParamFetch) {
    Truthy(g.name) && GroupAudit(g, describe, fetch).hasEncryptionIssues
  }

  /** The audit results kept for the report, in listing order. */
  function SweepResults(groups: seq<GroupInfo>, describe: string -> InstanceQuery, fetch: string -> ParamFetch)
    : seq<AuditResult>
  {
    ConcatMap(g => KeptAudit(g, describe, fetch), groups)
  }

  /** What one listed group adds to the report: its audit when it is kept. */
  function KeptAudit(g: GroupInfo, describe: string -> InstanceQuery, fetch: string -> ParamFetch): seq<AuditResult> {
    if Kept(g, describe, fetch) then [GroupAudit(g, describe, fetch)] else []
  }

  /** The outcome of a sweep: the report of the groups with issues, nothing to
      report, the listing error (sent as the error notification and rethrown),
      or, when the given responses end with a marker outstanding, no audit. */
  datatype SweepOutcome =
    | Reported(results: seq<AuditResult>)
    | NothingFound
    | SweepFailed(fault: Fault)
    | ListingIncomplete

  method SweepGroups(parameterGroups: seq<GroupInfo>, describe: string -> InstanceQuery, fetch: string -> ParamFetch)
    returns (auditResults: seq<AuditResult>)
    ensures auditResults == SweepResults(parameterGroups, describe, fetch)
  {
    auditResults := [];
    var i := 0;
    while i < |parameterGroups|
      invariant 0 <= i <= |parameterGroups|
      invariant auditResults == SweepResults(parameterGroups[..i], describe, fetch)
    {
      assert parameterGroups[..i + 1][..i] == parameterGroups[..i];
      var parameterGroup := parameterGroups[i];
      if Truthy(parameterGroup.name) {
        var name := parameterGroup.name.value;
        var auditResult := AuditParameterGroup(name, OrElse(parameterGroup.family, "unknown"), describe(name), fetch(name));
        if auditResult.hasEncryptionIssues {
          auditResults := auditResults + [auditResult];
        }
      }
      i := i + 1;
    }
    assert parameterGroups[..|parameterGroups|] == parameterGroups;
  }

  method RunSweep(pages: seq<PageResponse>, describe: string -> InstanceQuery, fetch: string -> ParamFetch)
    returns (outcome: SweepOutcome)
    ensures match ListingOf(pages)
            case Listed(gs) =>
              outcome == (if SweepResults(gs, describe, fetch) == [] then NothingFound
                          else Reported(SweepResults(gs, describe, fetch)))
            case ListingFailed(f) => outcome == SweepFailed(f)
            case Unfinished(_) => outcome == ListingIncomplete
  {
    var listing, _, _ := GetAllParameterGroups(pages);
    if listing.ListingFailed? {
      outcome := SweepFailed(listing.fault);
      return;
    }
    if listing.Unfinished? {
      outcome := ListingIncomplete;
      return;
    }
    var auditResults := SweepGroups(listing.groups, describe, fetch);
    if |auditResults| > 0 {
      outcome := Reported(auditResults);
    } else {
      outcome := NothingFound;
    }
  }

  lemma SweepResultsAppend(a: seq<GroupInfo>, b: seq<GroupInfo>,
                           describe: string -> InstanceQuery, fetch: string -> ParamFetch)
    ensures SweepResults(a + b, describe, fetch) == SweepResults(a, describe, fetch) + SweepResults(b, describe, fetch)
  {
    ConcatMapAppend(g => KeptAudit(g, describe, fetch), a, b);
  }

  /** The report holds exactly the audits of the named groups with issues. */
  lemma SweepResultsExact(groups: seq<GroupInfo>, describe: string -> InstanceQuery,
                          fetch: string -> ParamFetch, r: AuditResult)
    ensures r in SweepResults(groups, describe, fetch) <==>
              exists i :: 0 <= i < |groups| && Kept(groups[i], describe, fetch) && GroupAudit(groups[i], describe, fetch) == r
  {
    ConcatMapMembership(g => KeptAudit(g, describe, fetch), groups, r);
  }

  /** Every kept result carries issues. */
  lemma SweepResultsHaveIssues(groups: seq<GroupInfo>, describe: string -> InstanceQuery,
                               fetch: string -> ParamFetch, r: AuditResult)
    requires r in SweepResults(groups, describe, fetch)
    ensures r.hasEncryptionIssues && r.issues != []
  {
    SweepResultsExact(groups, describe, fetch, r);
    var i :| 0 <= i < |groups| && Kept(groups[i], describe, fetch) && GroupAudit(groups[i], describe, fetch) == r;
    var g := groups[i];
    AuditResultCases(g.name.value, OrElse(g.family, "unknown"), describe(g.name.value), fetch(g.name.value));
  }

  /** A named group whose parameters cannot be read is always reported. */
  lemma FailingGroupReported(groups: seq<GroupInfo>, describe: string -> InstanceQuery,
                             fetch: string -> ParamFetch, i: nat)
    requires i < |groups| && Truthy(groups[i].name) && fetch(groups[i].name.value).FetchFailed?
    ensures GroupAudit(groups[i], describe, fetch) in SweepResults(groups, describe, fetch)
  {
    SweepResultsExact(groups, describe, fetch, GroupAudit(groups[i], describe, fetch));
  }
}
