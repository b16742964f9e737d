/**
 * Shapes shared by every audit handler: the SDK records the handlers read
 * (parameters, database instances, thrown errors), the results of the SDK
 * calls that the model takes as inputs, and the few JavaScript string
 * operations the handlers rely on (`||` on optional strings, `toLowerCase`,
 * `includes`, `startsWith`, `join`).
 */
module Common {

  datatype Option<+T> = None | Some(value: T)

  /** Verdict of an AWS Config evaluation. */
  datatype Compliance = Compliant | NonCompliant | NotApplicable

  // ---------------------------------------------------------------------
  // JavaScript truthiness and `||` on optional strings

  /** An optional SDK string is truthy when it is present and not empty. */
  predicate Truthy(o: Option<string>) {
    o.Some? && o.value != ""
  }

  /** `o || fallback` for an optional string. */
  function OrElse(o: Option<string>, fallback: string): (r: string)
    ensures Truthy(o) ==> r == o.value
    ensures !Truthy(o) ==> r == fallback
    ensures fallback != "" ==> r != ""
  {
    if Truthy(o) then o.value else fallback
  }

  /** `String(o)`: an absent value renders as "undefined". */
  function JsString(o: Option<string>): (r: string)
    ensures o.Some? ==> r == o.value
    ensures r == "undefined" <==> o == None || o == Some("undefined")
  {
    match o
    case Some(s) => s
    case None => "undefined"
  }

  /** Two optional values compare equal under `String` exactly when they are
      equal, or one is absent and the other is the text "undefined". */
  lemma JsStringEqual(a: Option<string>, b: Option<string>)
    ensures JsString(a) == JsString(b) <==>
              a == b || (a == None && b == Some("undefined")) || (a == Some("undefined") && b == None)
  {
  }

  // ---------------------------------------------------------------------
  // Lower-casing (ASCII letters only)

  function LowerChar(c: char): char {
    if 'A' <= c <= 'Z' then (c as int + 32) as char else c
  }

  predicate IsUpper(c: char) {
    'A' <= c <= 'Z'
  }

  /** No character of `s` is an upper-case ASCII letter. */
  predicate IsLowerCase(s: string) {
    forall i :: 0 <= i < |s| ==> !IsUpper(s[i])
  }

  /** `s.toLowerCase()` on the ASCII range. */
  function ToLower(s: string): (r: string)
    ensures |r| == |s|
  {
    if s == [] then [] else [LowerChar(s[0])] + ToLower(s[1..])
  }

  /** Lower-casing works character by character. */
  lemma {:induction false} ToLowerAt(s: string)
    ensures forall i :: 0 <= i < |s| ==> ToLower(s)[i] == LowerChar(s[i])
    ensures IsLowerCase(ToLower(s))
    decreases |s|
  {
    if s != [] {
      ToLowerAt(s[1..]);
      assert forall i :: 1 <= i < |s| ==> ToLower(s)[i] == ToLower(s[1..])[i - 1];
    }
  }

  lemma ToLowerOfLowerCase(s: string)
    requires IsLowerCase(s)
    ensures ToLower(s) == s
  {
    ToLowerAt(s);
  }

  lemma ToLowerIdempotent(s: string)
    ensures ToLower(ToLower(s)) == ToLower(s)
  {
    ToLowerAt(s);
    ToLowerOfLowerCase(ToLower(s));
  }

  lemma {:induction false} ToLowerAppend(a: string, b: string)
    ensures ToLower(a + b) == ToLower(a) + ToLower(b)
    decreases |a|
  {
    if a != [] {
      assert (a + b)[1..] == a[1..] + b;
      ToLowerAppend(a[1..], b);
    } else {
      assert a + b == b;
    }
  }

  /** Lower-casing changes letters only: a character that is not an
      upper-case letter in `s` stays where it is. */
  lemma ToLowerKeepsNonLetters(s: string, i: nat)
    requires i < |s| && !IsUpper(s[i])
    ensures ToLower(s)[i] == s[i]
  {
    ToLowerAt(s);
  }

  // ---------------------------------------------------------------------
  // Substrings

  predicate StartsWith(s: string, prefix: string) {
    |prefix| <= |s| && s[..|prefix|] == prefix
  }

  /** `s.includes(sub)`. */
  predicate Contains(s: string, sub: string)
    decreases |s|
  {
    StartsWith(s, sub) || (|s| > 0 && Contains(s[1..], sub))
  }

  /** `sub` occurs in `s` exactly when it starts at some offset of `s`. */
  lemma {:induction false} ContainsAt(s: string, sub: string, i: nat)
    requires i + |sub| <= |s| && s[i..i + |sub|] == sub
    ensures Contains(s, sub)
    decreases i
  {
    if i > 0 {
      assert s[1..][i - 1..i - 1 + |sub|] == s[i..i + |sub|];
      ContainsAt(s[1..], sub, i - 1);
    }
  }

  /** A text that lacks one of the characters of `sub` does not contain `sub`. */
  lemma {:induction false} MissingCharNotContained(s: string, sub: string, c: char)
    requires c in sub && c !in s
    ensures !Contains(s, sub)
    decreases |s|
  {
    if |sub| <= |s| {
      assert forall k :: 0 <= k < |sub| ==> s[..|sub|][k] == s[k];
    }
    if |s| > 0 {
      assert forall k :: 0 <= k < |s[1..]| ==> s[1..][k] == s[k + 1];
      MissingCharNotContained(s[1..], sub, c);
    }
  }

  lemma {:induction false} ContainsPrefixOf(s: string, t: string, sub: string)
    requires Contains(s, sub)
    ensures Contains(s + t, sub)
    decreases |s|
  {
    if StartsWith(s, sub) {
      assert (s + t)[..|sub|] == s[..|sub|];
    } else {
      assert (s + t)[1..] == s[1..] + t;
      ContainsPrefixOf(s[1..], t, sub);
    }
  }

  lemma {:induction false} ContainsSuffixOf(s: string, t: string, sub: string)
    requires Contains(t, sub)
    ensures Contains(s + t, sub)
    decreases |s|
  {
    if s == [] {
      assert s + t == t;
    } else {
      assert (s + t)[1..] == s[1..] + t;
      ContainsSuffixOf(s[1..], t, sub);
    }
  }

  lemma ContainsMiddle(a: string, b: string, c: string)
    ensures Contains(a + b + c, b)
  {
    assert (a + b + c)[|a|..|a| + |b|] == b;
    ContainsAt(a + b + c, b, |a|);
  }

  /** A text ending in a lower-case `tail` still contains `tail` once lower-cased. */
  lemma EndsWithLowerCaseContains(prefix: string, tail: string)
    requires IsLowerCase(tail)
    ensures Contains(ToLower(prefix + tail), tail)
  {
    ToLowerAppend(prefix, tail);
    ToLowerOfLowerCase(tail);
    assert (ToLower(prefix) + tail)[|ToLower(prefix)|..|ToLower(prefix)| + |tail|] == tail;
    ContainsAt(ToLower(prefix) + tail, tail, |ToLower(prefix)|);
  }

  /** Some PostgreSQL encryption extension (pg_tde, pg_crypt, pgcrypto) is
      named in the lower-cased library list. */
  predicate HasEncryptionLibrary(value: string) {
    var v := ToLower(value);
    Contains(v, "pg_tde") || Contains(v, "pg_crypt") || Contains(v, "pgcrypto")
  }

  // ---------------------------------------------------------------------
  // Array.prototype.join

  /** `parts.join(sep)`. */
  function Join(parts: seq<string>, sep: string): string
    decreases |parts|
  {
    if |parts| == 0 then ""
    else if |parts| == 1 then parts[0]
    else parts[0] + sep + Join(parts[1..], sep)
  }

  /** Every joined part is a substring of the joined text. */
  lemma {:induction false} JoinContainsPart(parts: seq<string>, sep: string, k: nat)
    requires k < |parts|
    ensures Contains(Join(parts, sep), parts[k])
    decreases |parts|
  {
    if |parts| == 1 {
      ContainsAt(parts[0], parts[0], 0);
    } else if k == 0 {
      ContainsAt(parts[0], parts[0], 0);
      ContainsPrefixOf(parts[0], sep + Join(parts[1..], sep), parts[0]);
      assert parts[0] + sep + Join(parts[1..], sep) == parts[0] + (sep + Join(parts[1..], sep));
    } else {
      JoinContainsPart(parts[1..], sep, k - 1);
      ContainsSuffixOf(parts[0] + sep, Join(parts[1..], sep), parts[k]);
    }
  }

  /** With a one-character separator that no part contains, the joined text
      splits back into the parts. */
  function Split(s: string, sep: char): (parts: seq<string>)
    ensures |parts| > 0
    decreases |s|
  {
    if s == [] then [""]
    else
      var rest := Split(s[1..], sep);
      if s[0] == sep then [""] + rest
      else [[s[0]] + rest[0]] + rest[1..]
  }

  lemma {:induction false} SplitNoSep(s: string, sep: char)
    requires sep !in s
    ensures Split(s, sep) == [s]
    decreases |s|
  {
    if s != [] {
      assert sep !in s[1..];
      SplitNoSep(s[1..], sep);
      assert [s[0]] + s[1..] == s;
    }
  }

  lemma {:induction false} SplitAppend(a: string, b: string, sep: char)
    requires sep !in a
    ensures Split(a + [sep] + b, sep) == [a] + Split(b, sep)
    decreases |a|
  {
    if a == [] {
      assert a + [sep] + b == [sep] + b;
      assert ([sep] + b)[1..] == b;
    } else {
      assert (a + [sep] + b)[1..] == a[1..] + [sep] + b;
      assert sep !in a[1..];
      SplitAppend(a[1..], b, sep);
      assert [a[0]] + a[1..] == a;
    }
  }

  /** Round trip: splitting a join recovers the non-empty list of parts. */
  lemma {:induction false} SplitJoin(parts: seq<string>, sep: char)
    requires |parts| > 0
    requires forall k :: 0 <= k < |parts| ==> sep !in parts[k]
    ensures Split(Join(parts, [sep]), sep) == parts
    decreases |parts|
  {
    if |parts| == 1 {
      SplitNoSep(parts[0], sep);
    } else {
      SplitJoin(parts[1..], sep);
      SplitAppend(parts[0], Join(parts[1..], [sep]), sep);
      assert [parts[0]] + parts[1..] == parts;
    }
  }

  // ---------------------------------------------------------------------
  // SDK records and call results

  /** An RDS `Parameter`: both its name and its value may be absent. */
  datatype Parameter = Parameter(name: Option<string>, value: Option<string>)

  /** `parameters.find(p => p.ParameterName === name)`. */
  function FindParameter(ps: seq<Parameter>, name: string): (r: Option<Parameter>)
    ensures r.None? <==> forall i :: 0 <= i < |ps| ==> ps[i].name != Some(name)
    ensures r.Some? ==> exists i :: 0 <= i < |ps| && ps[i] == r.value && ps[i].name == Some(name)
                                    && forall j :: 0 <= j < i ==> ps[j].name != Some(name)
    decreases |ps|
  {
    if ps == [] then None
    else if ps[0].name == Some(name) then Some(ps[0])
    else
      var r := FindParameter(ps[1..], name);
      assert forall i :: 1 <= i < |ps| ==> ps[i] == ps[1..][i - 1];
      r
  }

  /** A thrown JavaScript `Error`. */
  datatype Fault = Fault(name: string, message: string) {
    /** `${error}`: Error.prototype.toString. */
    function Render(): string {
      if name == "" then message
      else if message == "" then name
      else name + ": " + message
    }

    /** `error?.message || fallback`. */
    function MessageOr(fallback: string): (r: string)
      ensures message != "" ==> r == message
      ensures message == "" ==> r == fallback
      ensures fallback != "" ==> r != ""
    {
      if message != "" then message else fallback
    }
  }

  /** Outcome of DescribeDBParameters / DescribeDBClusterParameters: the
      response's optional `Parameters` list, or the error the call threw. */
  datatype ParamFetch = Fetched(parameters: Option<seq<Parameter>>) | FetchFailed(fault: Fault)

  /** An RDS `DBInstance` as far as the handlers read it. A boolean flag the
      SDK leaves undefined is read as false, as `!flag` does. */
  datatype DbInstance = DbInstance(
    id: Option<string>,
    arn: Option<string>,
    engine: Option<string>,
    storageEncrypted: bool,
    kmsKeyId: Option<string>,
    deletionProtection: bool,
    parameterGroups: Option<seq<Option<string>>>)

  /** Outcome of DescribeDBInstances: the response's optional `DBInstances`
      list, or the error the call threw. */
  datatype InstanceQuery = Described(instances: Option<seq<DbInstance>>) | DescribeFailed(fault: Fault)

  /** `response.DBInstances?.[0]`. */
  function FirstInstance(q: InstanceQuery): Option<DbInstance>
    requires q.Described?
  {
    if q.instances.Some? && |q.instances.value| > 0 then Some(q.instances.value[0]) else None
  }

  /** The results of `f` over `s`, concatenated in order. */
  function ConcatMap<T, U>(f: T -> seq<U>, s: seq<T>): seq<U>
    decreases |s|
  {
    if s == [] then [] else ConcatMap(f, s[..|s| - 1]) + f(s[|s| - 1])
  }

  lemma {:induction false} ConcatMapAppend<T, U>(f: T -> seq<U>, a: seq<T>, b: seq<T>)
    ensures ConcatMap(f, a + b) == ConcatMap(f, a) + ConcatMap(f, b)
    decreases |b|
  {
    if b == [] {
      assert a + b == a;
    } else {
      assert (a + b)[..|a + b| - 1] == a + b[..|b| - 1];
      ConcatMapAppend(f, a, b[..|b| - 1]);
    }
  }

  lemma ConcatMapOne<T, U>(f: T -> seq<U>, x: T)
    ensures ConcatMap(f, [x]) == f(x)
  {
    assert [x][..0] == [];
  }

  /** An element is in the concatenation iff it comes from some input element. */
  lemma {:induction false} ConcatMapMembership<T, U>(f: T -> seq<U>, s: seq<T>, x: U)
    ensures x in ConcatMap(f, s) <==> exists i :: 0 <= i < |s| && x in f(s[i])
    decreases |s|
  {
    if s != [] {
      var n := |s| - 1;
      ConcatMapMembership(f, s[..n], x);
      if x in ConcatMap(f, s[..n]) {
        var i :| 0 <= i < n && x in f(s[..n][i]);
        assert s[i] == s[..n][i];
      }
      if exists i :: 0 <= i < |s| && x in f(s[i]) {
        var i :| 0 <= i < |s| && x in f(s[i]);
        if i < n {
          assert s[..n][i] == s[i];
        }
      }
    }
  }

  predicate NoDuplicates<T(==)>(s: seq<T>) {
    forall i, j :: 0 <= i < j < |s| ==> s[i] != s[j]
  }

  lemma NoDuplicatesAppend<T>(s: seq<T>, x: T)
    requires NoDuplicates(s) && x !in s
    ensures NoDuplicates(s + [x])
  {
    var t := s + [x];
    forall i, j | 0 <= i < j < |t|
      ensures t[i] != t[j]
    {
      assert t[i] == s[i];
      if j < |s| {
        assert t[j] == s[j];
      }
    }
  }
}
