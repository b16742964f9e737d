/**
 * The custom AWS Config rule for parameter groups
 * (lambda/rds-parameter-audit-handler.ts): the resource type selects a
 * cluster or an instance parameter group, the rule parameters give an
 * expected value per parameter name, and every expected entry is compared by
 * string equality with the group's current value. The result is a
 * COMPLIANT / NON_COMPLIANT / NOT_APPLICABLE verdict with an annotation.
 */
module ExpectedValueAudit {
  import opened Common

  // ---------------------------------------------------------------------
  // Resource classification

  datatype GroupKind = ClusterGroup | InstanceGroup

  /** getParameterGroupType. */
  function ParameterGroupKind(resourceType: string): Option<GroupKind> {
    if resourceType == "AWS::RDS::DBClusterParameterGroup" then Some(ClusterGroup)
    else if resourceType == "AWS::RDS::DBParameterGroup" then Some(InstanceGroup)
    else None
  }

  /** The one resource type each kind is recognised from. */
  function ResourceTypeOf(kind: GroupKind): string {
    match kind
    case ClusterGroup => "AWS::RDS::DBClusterParameterGroup"
    case InstanceGroup => "AWS::RDS::DBParameterGroup"
  }

  /** The classification recognises exactly the two parameter-group resource
      types, each as its own kind; every other string is null. */
  lemma ParameterGroupKindExact(resourceType: string, kind: GroupKind)
    ensures ParameterGroupKind(ResourceTypeOf(kind)) == Some(kind)
    ensures ParameterGroupKind(resourceType) == Some(kind) <==> resourceType == ResourceTypeOf(kind)
    ensures ParameterGroupKind(resourceType).None? <==>
              resourceType != ResourceTypeOf(ClusterGroup) && resourceType != ResourceTypeOf(InstanceGroup)
  {
  }

  // ---------------------------------------------------------------------
  // Annotations

  const NotEvaluatedAnnotation := "リソースタイプが評価対象外です。"
  const NoRuleParametersAnnotation := "評価するルールパラメータが提供されていません。"
  const AllCompliantAnnotation := "必須パラメータはすべて準拠しています。"
  const ParametersMissingMessage := "パラメータの取得に失敗しました。"

  function NotFoundMessage(key: string): string {
    "パラメータ '" + key + "' が見つかりません。"
  }

  function MismatchMessage(key: string, actual: string, expected: string): string {
    "パラメータ '" + key + "' の値が '" + actual + "' ですが、期待値は '" + expected + "' です。"
  }

  function CheckErrorAnnotation(message: string): string {
    "パラメータチェックエラー: " + message
  }

  datatype Evaluation = Evaluation(compliance: Compliance, annotation: string)

  // ---------------------------------------------------------------------
  // Expected-value comparison

  /** One entry of the rule parameters: `String(expectedValue)` for `key`.
      The entries come in the object's key iteration order. */
  datatype Expected = Expected(key: string, value: string)

  /** The named parameter is present and `String(value)` equals the expected string. */
  predicate KeyCompliant(e: Expected, ps: seq<Parameter>) {
    var p := FindParameter(ps, e.key);
    p.Some? && JsString(p.value.value) == e.value
  }

  predicate AllKeysCompliant(expected: seq<Expected>, ps: seq<Parameter>) {
    forall k :: 0 <= k < |expected| ==> KeyCompliant(expected[k], ps)
  }

  /** The annotation entry pushed for one expected key, if any. */
  function KeyProblem(e: Expected, ps: seq<Parameter>): Option<string> {
    match FindParameter(ps, e.key)
    case None => Some(NotFoundMessage(e.key))
    case Some(p) =>
      if JsString(p.value) != e.value then Some(MismatchMessage(e.key, JsString(p.value), e.value)) else None
  }

  /** The annotation entries of all expected keys, in key order. */
  function Problems(expected: seq<Expected>, ps: seq<Parameter>): seq<string>
    decreases |expected|
  {
    if expected == [] then []
    else
      var last := KeyProblem(expected[|expected| - 1], ps);
      Problems(expected[..|expected| - 1], ps) + (if last.Some? then [last.value] else [])
  }

  /** The verdict for the fetched parameters `ps`. */
  function Verdict(expected: seq<Expected>, ps: seq<Parameter>): Evaluation {
    if AllKeysCompliant(expected, ps) then Evaluation(Compliant, AllCompliantAnnotation)
    else Evaluation(NonCompliant, Join(Problems(expected, ps), " "))
  }

  /** The loop over the expected keys. */
  method CompareParameters(expected: seq<Expected>, ps: seq<Parameter>)
    returns (allParamsCompliant: bool, annotations: seq<string>)
    ensures allParamsCompliant <==> AllKeysCompliant(expected, ps)
    ensures annotations == Problems(expected, ps)
  {
    allParamsCompliant := true;
    annotations := [];
    var i := 0;
    while i < |expected|
      invariant 0 <= i <= |expected|
      invariant allParamsCompliant <==> AllKeysCompliant(expected[..i], ps)
      invariant annotations == Problems(expected[..i], ps)
    {
      var entry := CompareKey(expected[i], ps);
      ProblemsStep(expected, ps, i);
      AllKeysStep(expected, ps, i);
      if entry.Some? {
        allParamsCompliant := false;
        annotations := annotations + [entry.value];
      }
      i := i + 1;
    }
    assert expected[..|expected|] == expected;
  }

  lemma ProblemsStep(expected: seq<Expected>, ps: seq<Parameter>, i: nat)
    requires i < |expected|
    ensures Problems(expected[..i + 1], ps)
            == Problems(expected[..i], ps) + (if KeyProblem(expected[i], ps).Some? then [KeyProblem(expected[i], ps).value] else [])
  {
    assert expected[..i + 1][..i] == expected[..i];
  }

  lemma AllKeysStep(expected: seq<Expected>, ps: seq<Parameter>, i: nat)
    requires i < |expected|
    ensures AllKeysCompliant(expected[..i + 1], ps) <==> AllKeysCompliant(expected[..i], ps) && KeyCompliant(expected[i], ps)
  {
    assert expected[..i + 1][i] == expected[i];
    assert forall k :: 0 <= k < i ==> expected[..i + 1][k] == expected[..i][k];
  }

  /** One iteration: the entry pushed for `key`, none when it is compliant. */
  method CompareKey(e: Expected, ps: seq<Parameter>) returns (entry: Option<string>)
    ensures entry == KeyProblem(e, ps)
    ensures entry.None? <==> KeyCompliant(e, ps)
  {
    var key, expectedValue := e.key, e.value;
    var param := FindParameter(ps, key);
    if param.None? {
      entry := Some(NotFoundMessage(key));
    } else if JsString(param.value.value) != expectedValue {
      entry := Some(MismatchMessage(key, JsString(param.value.value), expectedValue));
    } else {
      entry := None;
    }
  }

  /** The handler, without the PutEvaluations submission. */
  method EvaluateParameterGroup(resourceType: string, resourceId: string, expected: seq<Expected>,
                                fetch: (string, GroupKind) -> ParamFetch)
    returns (e: Evaluation)
    ensures ParameterGroupKind(resourceType).None? ==> e == Evaluation(NotApplicable, NotEvaluatedAnnotation)
    ensures ParameterGroupKind(resourceType).Some? && |expected| == 0 ==>
              e == Evaluation(NotApplicable, NoRuleParametersAnnotation)
    ensures ParameterGroupKind(resourceType).Some? && |expected| > 0 ==>
              match fetch(resourceId, ParameterGroupKind(resourceType).value)
              case FetchFailed(f) => e == Evaluation(NonCompliant, CheckErrorAnnotation(f.message))
              case Fetched(None) => e == Evaluation(NonCompliant, CheckErrorAnnotation(ParametersMissingMessage))
              case Fetched(Some(ps)) => e == Verdict(expected, ps)
  {
    var compliance := NotApplicable;
    var annotation := NotEvaluatedAnnotation;
    var groupType := ParameterGroupKind(resourceType);
    if groupType.Some? && |expected| > 0 {
      var response := fetch(resourceId, groupType.value);
      if response.FetchFailed? {
        compliance := NonCompliant;
        annotation := CheckErrorAnnotation(response.fault.message);
      } else if response.parameters.None? {
        var error := Fault("Error", ParametersMissingMessage);
        compliance := NonCompliant;
        annotation := CheckErrorAnnotation(error.message);
      } else {
        var allParamsCompliant, annotations := CompareParameters(expected, response.parameters.value);
        if allParamsCompliant {
          compliance := Compliant;
          annotation := AllCompliantAnnotation;
        } else {
          compliance := NonCompliant;
          annotation := Join(annotations, " ");
        }
      }
    } else if groupType.Some? {
      compliance := NotApplicable;
      annotation := NoRuleParametersAnnotation;
    }
    e := Evaluation(compliance, annotation);
  }

  // ---------------------------------------------------------------------
  // Properties of the comparison

  lemma KeyProblemIff(e: Expected, ps: seq<Parameter>)
    ensures KeyProblem(e, ps).None? <==> KeyCompliant(e, ps)
  {
  }

  /** An annotation entry is pushed for some key exactly when some key fails. */
  lemma {:induction false} ProblemsEmptyIff(expected: seq<Expected>, ps: seq<Parameter>)
    ensures Problems(expected, ps) == [] <==> AllKeysCompliant(expected, ps)
    decreases |expected|
  {
    if expected != [] {
      var n := |expected| - 1;
      ProblemsEmptyIff(expected[..n], ps);
      KeyProblemIff(expected[n], ps);
      AllKeysStep(expected, ps, n);
      assert expected[..n + 1] == expected;
    }
  }

  /** The entry of every failing key is among the annotation entries. */
  lemma {:induction false} ProblemListed(expected: seq<Expected>, ps: seq<Parameter>, k: nat)
    requires k < |expected| && KeyProblem(expected[k], ps).Some?
    ensures KeyProblem(expected[k], ps).value in Problems(expected, ps)
    decreases |expected|
  {
    if k < |expected| - 1 {
      ProblemListed(expected[..|expected| - 1], ps, k);
    }
  }

  /** Entries come in key order: the entries of a concatenation of expected
      maps are the concatenation of their entries. */
  lemma {:induction false} ProblemsAppend(e1: seq<Expected>, e2: seq<Expected>, ps: seq<Parameter>)
    ensures Problems(e1 + e2, ps) == Problems(e1, ps) + Problems(e2, ps)
    decreases |e2|
  {
    if e2 == [] {
      assert e1 + e2 == e1;
    } else {
      assert (e1 + e2)[..|e1 + e2| - 1] == e1 + e2[..|e2| - 1];
      ProblemsAppend(e1, e2[..|e2| - 1], ps);
    }
  }

  /** The verdict is COMPLIANT, with the fixed success text, iff every expected
      key is present with an equal value; otherwise it is NON_COMPLIANT and the
      annotation is the non-empty list of per-key entries joined by a space. */
  lemma VerdictCases(expected: seq<Expected>, ps: seq<Parameter>)
    ensures Verdict(expected, ps).compliance != NotApplicable
    ensures Verdict(expected, ps).compliance == Compliant <==> AllKeysCompliant(expected, ps)
    ensures Verdict(expected, ps).compliance == Compliant ==> Verdict(expected, ps).annotation == AllCompliantAnnotation
    ensures Verdict(expected, ps).compliance == NonCompliant ==>
              Problems(expected, ps) != [] && Verdict(expected, ps).annotation == Join(Problems(expected, ps), " ")
  {
    ProblemsEmptyIff(expected, ps);
  }

  /** A missing key makes the verdict NON_COMPLIANT, and the annotation says that
      key was not found. */
  lemma MissingKeyReported(expected: seq<Expected>, ps: seq<Parameter>, k: nat)
    requires k < |expected| && FindParameter(ps, expected[k].key).None?
    ensures Verdict(expected, ps).compliance == NonCompliant
    ensures Contains(Verdict(expected, ps).annotation, NotFoundMessage(expected[k].key))
  {
    ProblemListed(expected, ps, k);
    var problems := Problems(expected, ps);
    var j :| 0 <= j < |problems| && problems[j] == NotFoundMessage(expected[k].key);
    JoinContainsPart(problems, " ", j);
  }

  /** A present key whose `String(value)` differs from the expected string makes
      the verdict NON_COMPLIANT, and the annotation names both values. */
  lemma MismatchReported(expected: seq<Expected>, ps: seq<Parameter>, k: nat)
    requires k < |expected| && FindParameter(ps, expected[k].key).Some?
    requires JsString(FindParameter(ps, expected[k].key).value.value) != expected[k].value
    ensures Verdict(expected, ps).compliance == NonCompliant
    ensures Contains(Verdict(expected, ps).annotation,
                     MismatchMessage(expected[k].key, JsString(FindParameter(ps, expected[k].key).value.value), expected[k].value))
  {
    ProblemListed(expected, ps, k);
    var problems := Problems(expected, ps);
    var m := MismatchMessage(expected[k].key, JsString(FindParameter(ps, expected[k].key).value.value), expected[k].value);
    var j :| 0 <= j < |problems| && problems[j] == m;
    JoinContainsPart(problems, " ", j);
  }

  /** The parameters a rule describes: each expected entry set to its value. */
  function AsParameters(expected: seq<Expected>): (ps: seq<Parameter>)
    ensures |ps| == |expected|
    ensures forall k :: 0 <= k < |expected| ==> ps[k] == Parameter(Some(expected[k].key), Some(expected[k].value))
  {
    seq(|expected|, k requires 0 <= k < |expected| => Parameter(Some(expected[k].key), Some(expected[k].value)))
  }

  /** Parameters identical to the expected entries (keys of an object are
      distinct) are COMPLIANT. */
  lemma IdenticalParametersCompliant(expected: seq<Expected>)
    requires forall i, j :: 0 <= i < j < |expected| ==> expected[i].key != expected[j].key
    ensures Verdict(expected, AsParameters(expected)) == Evaluation(Compliant, AllCompliantAnnotation)
  {
    forall k | 0 <= k < |expected|
      ensures KeyCompliant(expected[k], AsParameters(expected))
    {
      IdenticalKeyCompliant(expected, k);
    }
  }

  /** Key k finds its own entry, because no earlier entry has its key. */
  lemma IdenticalKeyCompliant(expected: seq<Expected>, k: nat)
    requires forall i, j :: 0 <= i < j < |expected| ==> expected[i].key != expected[j].key
    requires k < |expected|
    ensures KeyCompliant(expected[k], AsParameters(expected))
  {
    var ps := AsParameters(expected);
    var p := FindParameter(ps, expected[k].key);
    assert ps[k].name == Some(expected[k].key);
    var i :| 0 <= i < |ps| && ps[i] == p.value && ps[i].name == Some(expected[k].key)
             && forall j :: 0 <= j < i ==> ps[j].name != Some(expected[k].key);
    assert i == k;
    assert p.value.value == Some(expected[k].value);
  }

  /** Example: expecting require_secure_transport = ON against a group with no
      user-set parameters gives NON_COMPLIANT with the "not found" entry. */
  lemma MissingParameterExample()
    ensures Verdict([Expected("require_secure_transport", "ON")], [])
            == Evaluation(NonCompliant, NotFoundMessage("require_secure_transport"))
  {
    var expected := [Expected("require_secure_transport", "ON")];
    assert !KeyCompliant(expected[0], []);
    assert Problems(expected, []) == Problems([], []) + [NotFoundMessage("require_secure_transport")] by {
      assert expected[..0] == [];
    }
  }

  /** The comparison is on strings, not numbers: "00" does not match "0". */
  lemma StringNotNumericComparison(key: string)
    ensures Verdict([Expected(key, "0")], [Parameter(Some(key), Some("00"))]).compliance == NonCompliant
  {
    var expected := [Expected(key, "0")];
    assert !KeyCompliant(expected[0], [Parameter(Some(key), Some("00"))]);
  }

  /** A parameter listed without a value compares as the string "undefined". */
  lemma UndefinedValueComparesAsText(key: string)
    ensures Verdict([Expected(key, "undefined")], [Parameter(Some(key), None)]).compliance == Compliant
  {
    var expected := [Expected(key, "undefined")];
    assert KeyCompliant(expected[0], [Parameter(Some(key), None)]);
  }
}
