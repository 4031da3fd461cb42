/** Opset-conditional expected failures: the `XfailOpset` rule record of the
    ONNX consistency suite, its `should_fail` decision, and the
    `opsets_before` / `opsets_after` predicate builders. */
module OpsetRules {
  import opened Wrappers
  import opened Dtypes

  /** One element of `XfailOpset.opsets`: either a plain opset number, matched
      by equality, or a callable, matched by evaluating it. */
  datatype OpsetSpec = Exact(opset: int) | Callable(compare: int -> bool)

  /** The exception `assertRaises` is given: the rule's declared exception
      class, or the catch-all `Exception` when none is declared. */
  datatype ExceptionKind = AnyException | Named(name: string)

  datatype XfailOpset = XfailOpset(
    opName: string,
    opsets: seq<OpsetSpec>,
    dtypes: Option<seq<Dtype>>,
    exception: Option<string>,
    reason: string)

  /** The constructor's defaults: no dtype filter, no declared exception and
      the reason "unspecified". */
  function MakeXfailOpset(opName: string, opsets: seq<OpsetSpec>): (rule: XfailOpset)
    ensures rule.opName == opName && rule.opsets == opsets
    ensures rule.dtypes.None? && rule.exception.None?
    ensures rule.reason == "unspecified"
  {
    XfailOpset(opName, opsets, None, None, "unspecified")
  }

  /** The operator a rule is keyed by. */
  function RuleName(rule: XfailOpset): string {
    rule.opName
  }

  predicate SpecMatches(spec: OpsetSpec, opset: int) {
    match spec
    case Exact(n) => opset == n
    case Callable(compare) => compare(opset)
  }

  /** `any(...)` over the rule's opset specs. */
  function AnySpecMatches(specs: seq<OpsetSpec>, opset: int): (found: bool)
    ensures found <==> exists i :: 0 <= i < |specs| && SpecMatches(specs[i], opset)
  {
    if specs == [] then false
    else SpecMatches(specs[0], opset) || AnySpecMatches(specs[1..], opset)
  }

  /** `XfailOpset._contains_opset`. */
  function ContainsOpset(rule: XfailOpset, opset: int): (found: bool)
    ensures found <==> exists i :: 0 <= i < |rule.opsets| && SpecMatches(rule.opsets[i], opset)
  {
    AnySpecMatches(rule.opsets, opset)
  }

  /** `XfailOpset._contains_dtype`: a missing dtype list admits every dtype. */
  function ContainsDtype(rule: XfailOpset, dtype: Dtype): (admitted: bool)
    ensures rule.dtypes.None? ==> admitted
    ensures rule.dtypes.Some? ==> (admitted <==> exists i :: 0 <= i < |rule.dtypes.value| && rule.dtypes.value[i] == dtype)
  {
    rule.dtypes.None? || dtype in rule.dtypes.value
  }

  /** `XfailOpset.should_fail`: a sub-test is expected to raise exactly when
      some opset spec matches and the dtype filter admits the dtype. */
  function ShouldFail(rule: XfailOpset, opset: int, dtype: Dtype): (fails: bool)
    ensures fails <==>
      (exists i :: 0 <= i < |rule.opsets| && SpecMatches(rule.opsets[i], opset))
      && (rule.dtypes.None? || dtype in rule.dtypes.value)
  {
    ContainsOpset(rule, opset) && ContainsDtype(rule, dtype)
  }

  /** The exception class handed to `assertRaises`: `fail.exception or Exception`. */
  function ExpectedException(rule: XfailOpset): (kind: ExceptionKind)
    ensures rule.exception.None? ==> kind == AnyException
    ensures rule.exception.Some? ==> kind == Named(rule.exception.value)
  {
    match rule.exception
    case None => AnyException
    case Some(name) => Named(name)
  }

  /** `opsets_before(opset)`: a comparison that holds of strictly earlier opsets. */
  function OpsetsBefore(opset: int): (compare: int -> bool)
    ensures forall other :: compare(other) <==> other < opset
  {
    other => other < opset
  }

  /** `opsets_after(opset)`: a comparison that holds of strictly later opsets. */
  function OpsetsAfter(opset: int): (compare: int -> bool)
    ensures forall other :: compare(other) <==> other > opset
  {
    other => other > opset
  }

  /** Both builders are strict and together with equality split every opset
      into exactly one of "before", "the opset itself" and "after". */
  lemma BeforeAfterTrichotomy(opset: int, other: int)
    ensures !OpsetsBefore(opset)(opset) && !OpsetsAfter(opset)(opset)
    ensures OpsetsBefore(opset)(other) || other == opset || OpsetsAfter(opset)(other)
    ensures !(OpsetsBefore(opset)(other) && OpsetsAfter(opset)(other))
  {
  }

  /** A rule without a dtype list decides on the opset alone. */
  lemma NoDtypesAdmitsEveryDtype(rule: XfailOpset, opset: int, d1: Dtype, d2: Dtype)
    requires rule.dtypes.None?
    ensures ShouldFail(rule, opset, d1) == ShouldFail(rule, opset, d2) == ContainsOpset(rule, opset)
  {
  }

  /** A rule with an empty opset collection never expects a failure, and
      neither does one whose dtype list is empty. */
  lemma EmptyCollectionsNeverFail(rule: XfailOpset, opset: int, dtype: Dtype)
    requires rule.opsets == [] || rule.dtypes == Some([])
    ensures !ShouldFail(rule, opset, dtype)
  {
  }

  /** A rule built from `opsets_before(n)` and a dtype list expects failure at
      exactly the listed dtypes and the opsets below `n`. */
  lemma BeforeRuleDecision(rule: XfailOpset, n: int, dtypes: seq<Dtype>, opset: int, dtype: Dtype)
    requires rule.opsets == [Callable(OpsetsBefore(n))] && rule.dtypes == Some(dtypes)
    ensures ShouldFail(rule, opset, dtype) <==> opset < n && dtype in dtypes
  {
    assert SpecMatches(rule.opsets[0], opset) <==> opset < n;
  }
}
