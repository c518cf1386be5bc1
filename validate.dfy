// The request-validation middleware: a schema's verdict on the request
// becomes either a call to `next` or a 400 reply, and a schema failure's
// issues are folded into a field -> message map.

module Validate {
  import opened Wrappers

  /** One element of an issue's path: an object key or an array index. */
  datatype PathElem = Key(name: string) | Index(n: nat)

  /** A schema issue: where it is and what it says. */
  datatype Issue = Issue(path: seq<PathElem>, message: string)

  /** The schema's verdict on `{ body, query, params }`. */
  datatype Verdict = Accepted | SchemaFailure(issues: seq<Issue>) | OtherFailure

  /** What the middleware does: call `next`, or answer 400. */
  datatype Outcome = Next | Reject(status: nat, success: bool, message: string, errors: Option<map<string, string>>)

  const VALIDATION_STATUS: nat := 400
  const FALLBACK_KEY: string := "error"

  /** The decimal digits of a natural number (`toString` on an index). */
  function Decimal(n: nat): (r: string)
    ensures r != []
    ensures forall i :: 0 <= i < |r| ==> '0' <= r[i] <= '9'
  {
    var d := [(('0' as int) + n % 10) as char];
    if n < 10 then d else Decimal(n / 10) + d
  }

  /** `if (fieldName)`: an empty key and the index 0 are falsy. */
  predicate Truthy(e: PathElem)
  {
    match e
    case Key(name) => name != ""
    case Index(n) => n != 0
  }

  function ElemString(e: PathElem): string
  {
    match e
    case Key(name) => name
    case Index(n) => Decimal(n)
  }

  /** The key an issue is stored under: the second path element when it is
      present and truthy, else "error". */
  function FieldOf(issue: Issue): string
  {
    if |issue.path| >= 2 && Truthy(issue.path[1]) then ElemString(issue.path[1]) else FALLBACK_KEY
  }

  /** The error map the loop leaves after the given issues: each issue
      written over what came before. */
  function ErrorsOf(issues: seq<Issue>): (r: map<string, string>)
    ensures forall i :: 0 <= i < |issues| ==> FieldOf(issues[i]) in r
  {
    if issues == [] then map[]
    else
      var n := |issues| - 1;
      var prefix := ErrorsOf(issues[..n]);
      assert forall i :: 0 <= i < n ==> issues[..n][i] == issues[i];
      prefix[FieldOf(issues[n]) := issues[n].message]
  }

  /** The last issue with a given key decides that key's message: later
      issues overwrite earlier ones. */
  lemma {:induction false} LastIssueWins(issues: seq<Issue>, i: nat)
    requires i < |issues|
    requires forall j :: i < j < |issues| ==> FieldOf(issues[j]) != FieldOf(issues[i])
    ensures ErrorsOf(issues)[FieldOf(issues[i])] == issues[i].message
  {
    var n := |issues| - 1;
    var prefix := issues[..n];
    assert ErrorsOf(issues) == ErrorsOf(prefix)[FieldOf(issues[n]) := issues[n].message];
    if i < n {
      assert FieldOf(issues[n]) != FieldOf(issues[i]);
      assert prefix[i] == issues[i];
      forall j | i < j < |prefix| ensures FieldOf(prefix[j]) != FieldOf(prefix[i]) {
        assert prefix[j] == issues[j];
      }
      LastIssueWins(prefix, i);
    }
  }

  /** The map's keys are exactly the issues' keys: nothing else is written. */
  lemma {:induction false} ErrorsOfKeys(issues: seq<Issue>)
    ensures ErrorsOf(issues).Keys == set i | 0 <= i < |issues| :: FieldOf(issues[i])
  {
    if issues != [] {
      var n := |issues| - 1;
      var prefix := issues[..n];
      ErrorsOfKeys(prefix);
      var ks := set i | 0 <= i < |issues| :: FieldOf(issues[i]);
      var pks := set i | 0 <= i < n :: FieldOf(prefix[i]);
      assert ErrorsOf(issues).Keys == ErrorsOf(prefix).Keys + {FieldOf(issues[n])};
      forall k | k in ks ensures k in pks + {FieldOf(issues[n])} {
        var i :| 0 <= i < |issues| && FieldOf(issues[i]) == k;
        if i < n {
          assert prefix[i] == issues[i];
        }
      }
      forall k | k in pks ensures k in ks {
        var i :| 0 <= i < n && FieldOf(prefix[i]) == k;
        assert prefix[i] == issues[i];
      }
    }
  }

  /** The `forEach` over the issues writing into `formattedErrors`. */
  method FormatErrors(issues: seq<Issue>) returns (errors: map<string, string>)
    ensures errors == ErrorsOf(issues)
  {
    errors := map[];
    var i := 0;
    while i < |issues|
      invariant 0 <= i <= |issues|
      invariant errors == ErrorsOf(issues[..i])
    {
      assert issues[..i + 1][..i] == issues[..i];
      errors := errors[FieldOf(issues[i]) := issues[i].message];
      i := i + 1;
    }
    assert issues[..i] == issues;
  }

  /** The middleware: `next` when the schema accepts; a schema failure is
      400 "Validation Error" with the formatted map; anything else thrown is
      400 "Invalid Data". No response is written on success. */
  method Validate(verdict: Verdict) returns (outcome: Outcome)
    ensures outcome.Next? <==> verdict.Accepted?
    ensures verdict.SchemaFailure? ==>
      outcome == Reject(VALIDATION_STATUS, false, "Validation Error", Some(ErrorsOf(verdict.issues)))
    ensures verdict.OtherFailure? ==> outcome == Reject(VALIDATION_STATUS, false, "Invalid Data", None)
  {
    match verdict
    case Accepted =>
      outcome := Next;
    case SchemaFailure(issues) =>
      var errors := FormatErrors(issues);
      outcome := Reject(VALIDATION_STATUS, false, "Validation Error", Some(errors));
    case OtherFailure =>
      outcome := Reject(VALIDATION_STATUS, false, "Invalid Data", None);
  }

  /** Two issues on the same body field: the map keeps the second message. */
  lemma SecondMessageOverwrites(field: string, first: string, second: string)
    requires field != ""
    ensures ErrorsOf([Issue([Key("body"), Key(field)], first), Issue([Key("body"), Key(field)], second)])
         == map[field := second]
  {
    var issues := [Issue([Key("body"), Key(field)], first), Issue([Key("body"), Key(field)], second)];
    assert issues[..1] == [issues[0]];
    assert issues[..1][..0] == [];
    assert FieldOf(issues[0]) == field && FieldOf(issues[1]) == field;
    assert ErrorsOf(issues[..1]) == map[field := first];
  }

  /** A root-level issue (a path of one element) lands under "error". */
  lemma RootIssueUnderError(message: string)
    ensures ErrorsOf([Issue([Key("body")], message)]) == map[FALLBACK_KEY := message]
  {
    var issues := [Issue([Key("body")], message)];
    assert issues[..0] == [];
  }

  /** The index 0 is falsy, so an issue on element 0 of a top-level array
      also lands under "error". */
  lemma IndexZeroUnderError(message: string)
    ensures ErrorsOf([Issue([Key("body"), Index(0)], message)]) == map[FALLBACK_KEY := message]
  {
    var issues := [Issue([Key("body"), Index(0)], message)];
    assert issues[..0] == [];
    assert !Truthy(issues[0].path[1]);
  }
}
