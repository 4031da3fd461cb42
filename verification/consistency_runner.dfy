/** The decision flow of `TestConsistency.test_output_match`: the device
    assertion, the allowlist gate, the cross product of samples and opsets,
    and for every sub-test whether it must raise and which path it takes
    (export and structural check only, or full verification). The exporter,
    checker, runtime and verifier are external; a sub-test records which of
    them it calls and with what options. */
module ConsistencyRunner {
  import opened Wrappers
  import opened Lookup
  import opened Dtypes
  import opened OpsetRules
  import opened ConsistencyTables

  /** An external sample: the primary input, extra positional arguments and
      the keyword arguments baked into the wrapped model. */
  datatype SampleInput<V> = SampleInput(input: V, args: seq<V>, kwargs: map<string, V>)

  /** `SingleOpModel(op, kwargs)`: calls the operator with the sample's
      positional inputs and fixed keyword arguments. */
  datatype SingleOpModel<V> = SingleOpModel(opName: string, kwargs: map<string, V>)

  /** The context a sub-test runs in: `nullcontext()` or `assertRaises(kind)`. */
  datatype Expectation = ExpectSuccess | ExpectRaise(kind: ExceptionKind)

  /** The keyword arguments `verification.verify` is called with. */
  datatype VerifyOptions = VerifyOptions(
    opsetVersion: int,
    inputKwargsEmpty: bool,
    keepInitializersAsInputs: bool,
    ortProviders: seq<string>,
    checkShape: bool,
    checkDtype: bool,
    flatten: bool)

  /** What a sub-test does with the exported graph. */
  datatype Action =
    | ExportAndCheck(exportOpset: int, fullCheck: bool)
    | Verify(options: VerifyOptions)

  datatype SubTest<V> = SubTest(
    sample: SampleInput<V>,
    opset: int,
    model: SingleOpModel<V>,
    inputs: seq<V>,
    expectation: Expectation,
    action: Action)

  datatype TestPlan<V> =
    | DeviceAssertionFailed
    | Skipped(reason: string)
    | Run(subTests: seq<SubTest<V>>)

  /** `ORT_PROVIDERS`. */
  const OrtProviders: seq<string> := ["CPUExecutionProvider"]

  /** `TESTED_OPSETS = range(MIN_ONNX_OPSET_VERSION, MAX_ONNX_OPSET_VERSION + 1)`. */
  function TestedOpsets(maxOpset: int): (opsets: seq<int>)
    ensures |opsets| == if maxOpset >= MinOnnxOpsetVersion then maxOpset - MinOnnxOpsetVersion + 1 else 0
    ensures forall k :: 0 <= k < |opsets| ==> opsets[k] == MinOnnxOpsetVersion + k
    ensures forall opset :: opset in opsets <==> MinOnnxOpsetVersion <= opset <= maxOpset
  {
    var opsets := seq(if maxOpset >= MinOnnxOpsetVersion then maxOpset - MinOnnxOpsetVersion + 1 else 0,
                      k => MinOnnxOpsetVersion + k);
    forall opset | MinOnnxOpsetVersion <= opset <= maxOpset
      ensures opset in opsets
    {
      assert opsets[opset - MinOnnxOpsetVersion] == opset;
    }
    opsets
  }

  /** The index of the rule `expected_opset_fails_name_mapping[op_name]`
      holds. The mapping is a dict comprehension, so when several rules name
      the same operator only the LAST one takes effect. */
  function OpsetFailIndex(rules: seq<XfailOpset>, opName: string): (found: Option<nat>)
    ensures found.None? <==> forall j :: 0 <= j < |rules| ==> rules[j].opName != opName
    ensures found.Some? ==> found.value < |rules| && rules[found.value].opName == opName
    ensures found.Some? ==> forall j :: found.value < j < |rules| ==> rules[j].opName != opName
  {
    LastWithKey(rules, RuleName, opName)
  }


  /** The opset rule, if any, that governs `opName`: there is one exactly
      when some rule names the operator, and it is a rule that names it and
      is followed by no other rule naming it. */
  function OpsetFailFor(rules: seq<XfailOpset>, opName: string): (rule: Option<XfailOpset>)
    ensures rule.Some? <==> exists j :: 0 <= j < |rules| && rules[j].opName == opName
    ensures rule.Some? ==> rule.value.opName == opName
    ensures rule.Some? ==>
      exists j :: 0 <= j < |rules| && rules[j] == rule.value
        && (forall k :: j < k < |rules| ==> rules[k].opName != opName)
  {
    match OpsetFailIndex(rules, opName)
    case None => None
    case Some(j) => Some(rules[j])
  }

  /** One sub-test of `test_output_match` for a (sample, opset) pair. */
  function PlanSubTest<V>(opName: string, rule: Option<XfailOpset>, dtype: Dtype,
                          sample: SampleInput<V>, opset: int): (sub: SubTest<V>)
    ensures sub.sample == sample && sub.opset == opset
    ensures sub.model == SingleOpModel(opName, sample.kwargs)
    ensures sub.inputs == [sample.input] + sample.args
    ensures sub.expectation.ExpectRaise? <==> rule.Some? && ShouldFail(rule.value, opset, dtype)
    ensures sub.expectation.ExpectRaise? && rule.value.exception.None? ==> sub.expectation.kind == AnyException
    ensures sub.expectation.ExpectRaise? && rule.value.exception.Some? ==>
      sub.expectation.kind == Named(rule.value.exception.value)
    ensures sub.action.ExportAndCheck? <==> dtype == BFloat16
    ensures sub.action.ExportAndCheck? ==> sub.action.exportOpset == opset && sub.action.fullCheck
    ensures sub.action.Verify? ==>
      var o := sub.action.options;
      o.opsetVersion == opset && o.inputKwargsEmpty && o.keepInitializersAsInputs
      && o.ortProviders == ["CPUExecutionProvider"] && o.checkShape && o.checkDtype && o.flatten
  {
    var expectation :=
      match rule
      case None => ExpectSuccess
      case Some(fail) => if ShouldFail(fail, opset, dtype) then ExpectRaise(ExpectedException(fail)) else ExpectSuccess;
    var action :=
      if dtype == BFloat16 then ExportAndCheck(opset, true)
      else Verify(VerifyOptions(opset, true, true, OrtProviders, true, true, true));
    SubTest(sample, opset, SingleOpModel(opName, sample.kwargs), [sample.input] + sample.args, expectation, action)
  }

  /** The position of row `i`, column `j` in a row-major flattening of rows
      of length `width`. */
  function FlatIndex(i: nat, j: nat, width: nat): nat {
    i * width + j
  }

  lemma ProductIndexInRange(i: nat, j: nat, rows: nat, cols: nat)
    requires i < rows && j < cols
    ensures FlatIndex(i, j, cols) < rows * cols
  {
    assert (i + 1) * cols <= rows * cols;
  }

  /** Row `i > 0` of a row of length `n` followed by further rows is row
      `i - 1` of the further rows. */
  lemma LaterRowIndex<T>(row: seq<T>, rest: seq<T>, rows: nat, i: nat, j: nat)
    requires |rest| == (rows - 1) * |row| && 0 < i < rows && j < |row|
    ensures FlatIndex(i - 1, j, |row|) < |rest|
    ensures FlatIndex(i, j, |row|) < |row + rest|
    ensures (row + rest)[FlatIndex(i, j, |row|)] == rest[FlatIndex(i - 1, j, |row|)]
  {
    var n := |row|;
    ProductIndexInRange(i - 1, j, rows - 1, n);
    assert FlatIndex(i, j, n) == n + FlatIndex(i - 1, j, n);
  }

  /** `[f(s, o) for (s, o) in itertools.product(samples, opsets)]`: the
      element for sample `i` and opset `j` sits at index `i * |opsets| + j`. */
  function ProductMap<S, T>(samples: seq<S>, opsets: seq<int>, f: (S, int) -> T): (out: seq<T>)
    ensures |out| == |samples| * |opsets|
    ensures forall i, j :: 0 <= i < |samples| && 0 <= j < |opsets| ==>
      FlatIndex(i, j, |opsets|) < |out| && out[FlatIndex(i, j, |opsets|)] == f(samples[i], opsets[j])
  {
    if samples == [] then []
    else
      var n := |opsets|;
      var row := seq(n, j requires 0 <= j < n => f(samples[0], opsets[j]));
      var rest := ProductMap(samples[1..], opsets, f);
      var out := row + rest;
      assert |out| == |samples| * n by {
        assert |samples| * n == n + (|samples| - 1) * n;
      }
      forall i, j | 0 <= i < |samples| && 0 <= j < n
        ensures FlatIndex(i, j, n) < |out| && out[FlatIndex(i, j, n)] == f(samples[i], opsets[j])
      {
        if i == 0 {
          assert out[j] == row[j];
        } else {
          LaterRowIndex(row, rest, |samples|, i, j);
          assert samples[1..][i - 1] == samples[i];
        }
      }
      out
  }

  /** The sub-tests of an allowlisted operator, one per (sample, opset) pair
      in product order. */
  function PlanSubTests<V>(opName: string, rule: Option<XfailOpset>, dtype: Dtype,
                           samples: seq<SampleInput<V>>, opsets: seq<int>): (subTests: seq<SubTest<V>>)
    ensures |subTests| == |samples| * |opsets|
    ensures forall i, j :: 0 <= i < |samples| && 0 <= j < |opsets| ==>
      FlatIndex(i, j, |opsets|) < |subTests|
      && subTests[FlatIndex(i, j, |opsets|)] == PlanSubTest(opName, rule, dtype, samples[i], opsets[j])
  {
    ProductMap(samples, opsets, (sample, opset) => PlanSubTest(opName, rule, dtype, sample, opset))
  }

  /** `test_output_match(device, dtype, op)` for an operator called `opName`
      whose sample generator yields `samples`, with `maxOpset` standing for
      `ONNX_MAX_OPSET`. */
  function TestOutputMatch<V>(maxOpset: int, device: string, dtype: Dtype, opName: string,
                              samples: seq<SampleInput<V>>): (plan: TestPlan<V>)
    ensures plan.DeviceAssertionFailed? <==> device != "cpu"
    ensures plan.Skipped? <==> device == "cpu" && opName !in AllowlistOp
    ensures plan.Skipped? ==> plan.reason == "'" + opName + "' is not in the allow list for test on ONNX"
    ensures plan.Run? ==>
      plan.subTests == PlanSubTests(opName, OpsetFailFor(ExpectedOpsetFails, opName), dtype, samples, TestedOpsets(maxOpset))
  {
    if device != "cpu" then DeviceAssertionFailed
    else if opName !in AllowlistOp then
      Skipped("'" + opName + "' is not in the allow list for test on ONNX")
    else
      Run(PlanSubTests(opName, OpsetFailFor(ExpectedOpsetFails, opName), dtype, samples, TestedOpsets(maxOpset)))
  }

  /** Only the last opset rule naming an operator takes effect. */
  lemma LastOpsetRuleWins(rules: seq<XfailOpset>, rule: XfailOpset, later: seq<XfailOpset>)
    requires forall k :: 0 <= k < |later| ==> later[k].opName != rule.opName
    ensures OpsetFailIndex(rules + [rule] + later, rule.opName) == Some(|rules|)
  {
    var all := rules + [rule] + later;
    var name := rule.opName;
    assert all[|rules|] == rule;
    forall k | |rules| < k < |all| ensures all[k].opName != name {
      assert all[k] == later[k - |rules| - 1];
    }
  }

  /** sqrt on the CPU: every sample is tested at every opset from 9 to the
      maximum; a raise (of any exception) is expected exactly for bfloat16
      below opset 13; bfloat16 only exports and checks, every other dtype
      runs the full verification. */
  lemma SqrtPlan<V>(maxOpset: int, dtype: Dtype, samples: seq<SampleInput<V>>, i: nat, j: nat)
    requires i < |samples| && j < |TestedOpsets(maxOpset)|
    ensures TestOutputMatch(maxOpset, "cpu", dtype, "sqrt", samples).Run?
    ensures
      var plan := TestOutputMatch(maxOpset, "cpu", dtype, "sqrt", samples);
      var n := |TestedOpsets(maxOpset)|;
      && FlatIndex(i, j, n) < |plan.subTests|
      && plan.subTests[FlatIndex(i, j, n)].opset == MinOnnxOpsetVersion + j
      && plan.subTests[FlatIndex(i, j, n)].expectation
         == (if dtype == BFloat16 && MinOnnxOpsetVersion + j < 13 then ExpectRaise(AnyException) else ExpectSuccess)
      && (dtype == BFloat16 ==> plan.subTests[FlatIndex(i, j, n)].action == ExportAndCheck(MinOnnxOpsetVersion + j, true))
      && (dtype != BFloat16 ==> plan.subTests[FlatIndex(i, j, n)].action.Verify?)
  {
    var opsets := TestedOpsets(maxOpset);
    assert OpsetFailIndex(ExpectedOpsetFails, "sqrt") == Some(0);
    var subTests := PlanSubTests("sqrt", Some(SqrtOpsetRule), dtype, samples, opsets);
    assert subTests[FlatIndex(i, j, |opsets|)] == PlanSubTest("sqrt", Some(SqrtOpsetRule), dtype, samples[i], opsets[j]);
    assert opsets[j] == MinOnnxOpsetVersion + j;
    SqrtRuleDecision(MinOnnxOpsetVersion + j, dtype);
  }

  /** Transpose of booleans on the CPU: no opset rule applies, so every
      sub-test expects success and runs the full verification with shape,
      dtype and flattening checks. */
  lemma TransposeBoolPlan<V>(maxOpset: int, samples: seq<SampleInput<V>>, i: nat, j: nat)
    requires i < |samples| && j < |TestedOpsets(maxOpset)|
    ensures TestOutputMatch(maxOpset, "cpu", Bool, "t", samples).Run?
    ensures
      var plan := TestOutputMatch(maxOpset, "cpu", Bool, "t", samples);
      var n := |TestedOpsets(maxOpset)|;
      && FlatIndex(i, j, n) < |plan.subTests|
      && plan.subTests[FlatIndex(i, j, n)].expectation == ExpectSuccess
      && plan.subTests[FlatIndex(i, j, n)].action
         == Verify(VerifyOptions(MinOnnxOpsetVersion + j, true, true, OrtProviders, true, true, true))
  {
    var opsets := TestedOpsets(maxOpset);
    assert OpsetFailIndex(ExpectedOpsetFails, "t") == None;
    var subTests := PlanSubTests("t", None, Bool, samples, opsets);
    assert subTests[FlatIndex(i, j, |opsets|)] == PlanSubTest("t", None, Bool, samples[i], opsets[j]);
    assert opsets[j] == MinOnnxOpsetVersion + j;
  }

  /** ceil at float64 is expected to fail through its unconditional xfail
      record, not through an opset rule: each of its sub-tests is planned to
      succeed, and the decorator turns the test into an expected failure at
      every opset. */
  lemma CeilFloat64Plan<V>(maxOpset: int, samples: seq<SampleInput<V>>, i: nat, j: nat)
    requires i < |samples| && j < |TestedOpsets(maxOpset)|
    ensures CeilXfail.decorator.ExpectedFailure? && Float64 in CeilXfail.dtypes.value
    ensures OpsetFailFor(ExpectedOpsetFails, "ceil").None?
    ensures
      var plan := TestOutputMatch(maxOpset, "cpu", Float64, "ceil", samples);
      var n := |TestedOpsets(maxOpset)|;
      && plan.Run?
      && FlatIndex(i, j, n) < |plan.subTests|
      && plan.subTests[FlatIndex(i, j, n)].expectation == ExpectSuccess
      && plan.subTests[FlatIndex(i, j, n)].action.Verify?
  {
    var opsets := TestedOpsets(maxOpset);
    assert OpsetFailIndex(ExpectedOpsetFails, "ceil") == None;
    var subTests := PlanSubTests("ceil", None, Float64, samples, opsets);
    assert subTests[FlatIndex(i, j, |opsets|)] == PlanSubTest("ceil", None, Float64, samples[i], opsets[j]);
  }

  /** What the collaborators did inside a sub-test's context. */
  datatype StepOutcome = Completed | Raised(exception: string)

  /** How the sub-test is reported. */
  datatype Verdict = Passed | NotRaised | Errored(exception: string)

  /** The sub-test's context manager applied to what happened inside it. */
  function SubTestVerdict(expectation: Expectation, outcome: StepOutcome): (v: Verdict)
    ensures v.Passed? <==>
      || (expectation.ExpectSuccess? && outcome.Completed?)
      || (expectation.ExpectRaise? && outcome.Raised?
          && (expectation.kind.AnyException? || expectation.kind.name == outcome.exception))
    ensures v.NotRaised? <==> expectation.ExpectRaise? && outcome.Completed?
    ensures v.Errored? ==> outcome.Raised? && v.exception == outcome.exception
  {
    match (expectation, outcome)
    case (ExpectSuccess, Completed) => Passed
    case (ExpectSuccess, Raised(e)) => Errored(e)
    case (ExpectRaise(_), Completed) => NotRaised
    case (ExpectRaise(AnyException), Raised(_)) => Passed
    case (ExpectRaise(Named(n)), Raised(e)) => if n == e then Passed else Errored(e)
  }
}
