# ONNX op-consistency rules and two special-function references, in Dafny

This project models two small pieces of PyTorch.

**The ONNX consistency test harness** (`test/onnx/test_op_consistancy.py`). It
exports single operators to ONNX and compares the results with PyTorch. The model
covers its rule engine:

- the dtype tables;
- the `xfail`/`skip` records (`DecorateMeta`);
- `XfailOpset` and its `_contains_opset`, `_contains_dtype` and `should_fail`;
- the `opsets_before` and `opsets_after` comparison factories;
- `skip_ops`, which attaches decorators to a registry of `OpInfo`s;
- the shipped tables `ALLOWLIST_OP`, `EXPECTED_SKIPS_OR_FAILS` and `EXPECTED_OPSET_FAILS`;
- the planning done by `test_output_match`. For each (sample, opset) pair of the
  Cartesian product, in `itertools.product` order, the model records:
  - whether an exception is expected, and which one;
  - whether the sub-test only exports and checks the model (bfloat16), or runs the
    full verification with fixed options.

The ONNX exporter, checker and runtime are outside the model. A sub-test's outcome
is a parameter: "completed", or "raised exception E". `SubTestVerdict` says how the
sub-test's context manager judges that outcome.

**Two composite references from `torch/_refs/special`**. `logit` clamps its input
to `[eps, 1 - eps]` and takes the log odds. `_xlog1py` checks and aligns its
operands, then layers a NaN override over a zero guard. Both work one element at a
time:

- an element is `Num = NaN | PosInf | NegInf | Val(real)`;
- `log` and `log1p` are uninterpreted and passed in as functions;
- division and multiplication follow IEEE rules for infinities and NaN.

Layout, one module per file:

| file | module | contents |
|---|---|---|
| `wrappers.dfy` | `Wrappers` | `Option` and `Result` |
| `lookup.dfy` | `Lookup` | the "last entry with a key wins" lookup of a dict comprehension |
| `dtypes.dfy` | `Dtypes` | dtype enum, `SUPPORTED_DTYPES` and the category tuples |
| `opset_rules.dfy` | `OpsetRules` | `XfailOpset`, `opsets_before`, `opsets_after` |
| `skip_ops.dfy` | `SkipRules` | `DecorateMeta`, `xfail`, `skip`, `skip_ops` |
| `consistency_tables.dfy` | `ConsistencyTables` | the shipped tables and what they decide |
| `consistency_runner.dfy` | `ConsistencyRunner` | `TESTED_OPSETS` and the `test_output_match` plan |
| `special_refs.dfy` | `SpecialRefs` | `logit` and `_xlog1py` |

Several Python lookups are dictionary comprehensions, and in a dictionary
comprehension the last entry with a given key wins. The model resolves them the
same way, through one generic lookup, `Lookup.LastWithKey`:

- `ops_mapping` uses the last registry entry with a given (name, variant);
- `expected_opset_fails_name_mapping` uses the last rule with a given op name.

The library describes `logit` without `eps` as applying no clamping. The code
instead sets `eps = -1.0` and clamps to `[-1, 2]`. The model follows the code.
`SpecialRefs.LogitDefaultIsUnclamped` proves that the result is still the
unclamped log odds whenever `log` maps NaN and negative numbers to NaN.

## Model

| member | source | states |
|---|---|---|
| Dtypes.CategoriesPartitionSupported | test/onnx/test_op_consistancy.py:48-99 | every supported dtype lies in exactly one of the bool, int, qint, float and complex tuples |
| OpsetRules.MakeXfailOpset | test/onnx/test_op_consistancy.py:155-163 | a rule built from a name and opsets gets no dtype filter, no exception and reason "unspecified" |
| OpsetRules.AnySpecMatches | test/onnx/test_op_consistancy.py:165-169 | true exactly when some spec matches: an int spec by equality, a callable spec by its verdict |
| OpsetRules.ContainsOpset | test/onnx/test_op_consistancy.py:165-169 | a rule covers an opset exactly when one of its opset specs matches it |
| OpsetRules.ContainsDtype | test/onnx/test_op_consistancy.py:171-172 | a missing dtype filter admits every dtype; otherwise a dtype is admitted exactly when it is listed |
| OpsetRules.ShouldFail | test/onnx/test_op_consistancy.py:174-176 | a failure is expected exactly when some opset spec matches and the dtype is admitted |
| OpsetRules.ExpectedException | test/onnx/test_op_consistancy.py:329 | with no exception given, any exception is expected; otherwise the named one is |
| OpsetRules.OpsetsBefore | test/onnx/test_op_consistancy.py:208-214 | the comparison accepts exactly the opsets strictly below the bound |
| OpsetRules.OpsetsAfter | test/onnx/test_op_consistancy.py:217-223 | the comparison accepts exactly the opsets strictly above the bound |
| OpsetRules.BeforeAfterTrichotomy | test/onnx/test_op_consistancy.py:208-223 | each opset other than the bound is accepted by exactly one of the two comparisons; the bound is accepted by neither |
| OpsetRules.NoDtypesAdmitsEveryDtype | test/onnx/test_op_consistancy.py:171-176 | without a dtype filter the decision depends only on the opset |
| OpsetRules.EmptyCollectionsNeverFail | test/onnx/test_op_consistancy.py:165-176 | a rule with no opset specs, or with an empty dtype list, never expects a failure |
| OpsetRules.BeforeRuleDecision | test/onnx/test_op_consistancy.py:208-214 | a rule made of `opsets_before(n)` and a dtype list fails exactly below `n` for a listed dtype |
| SkipRules.Xfail | test/onnx/test_op_consistancy.py:117-133 | the record carries the expected-failure decorator and all the given fields; omitted fields take the defaults variant "", no device, no dtypes, reason "unspecified" |
| SkipRules.SkipMeta | test/onnx/test_op_consistancy.py:136-152 | the record carries a skip decorator with the same reason, and all the given fields, with the same defaults as `xfail` |
| SkipRules.RecordDefaults | test/onnx/test_op_consistancy.py:117-143 | a record built from an operator name alone targets the default variant on every device and dtype, with reason "unspecified" |
| Lookup.LastWithKey | test/onnx/test_op_consistancy.py:186 | for a dict comprehension keyed by `key`: absent exactly when no entry has the key; otherwise an entry with the key that no later entry shares |
| SkipRules.LastIndex | test/onnx/test_op_consistancy.py:186 | the lookup is absent exactly when no entry has the key; otherwise it finds the last entry with the key |
| SkipRules.Attach | test/onnx/test_op_consistancy.py:187-199 | one record fails exactly when its key is unknown; otherwise only the looked-up entry changes, by exactly one appended decorator |
| SkipRules.SkipOps | test/onnx/test_op_consistancy.py:179-199 | fails exactly when some record is unresolved, naming the first such record; otherwise each entry gains, in order, one decorator per record that resolves to it |
| SkipRules.SkipOpsAddsOnePerRecord | test/onnx/test_op_consistancy.py:187-199 | a successful run adds exactly one decorator per record to the whole registry |
| ConsistencyTables.SqrtRuleDecision | test/onnx/test_op_consistancy.py:265-272 | the shipped sqrt rule fails exactly for bfloat16 below opset 13, and expects any exception |
| ConsistencyTables.CeilSkipIsNonFloat | test/onnx/test_op_consistancy.py:246-250 | ceil is skipped exactly for the non-floating dtypes |
| ConsistencyTables.SqrtSkipSparesNumbers | test/onnx/test_op_consistancy.py:251-255 | sqrt is skipped exactly for the dtypes that are neither integer nor floating |
| ConsistencyTables.TransposeOnBoolIsUnconditional | test/onnx/test_op_consistancy.py:256-260 | no skip or xfail record for `t` lists bool, and no opset rule names `t` |
| ConsistencyTables.ShippedTableContributions | test/onnx/test_op_consistancy.py:240-261 | the decorators the shipped table contributes to each registry entry, by lookup result |
| ConsistencyTables.ShippedTableResolves | test/onnx/test_op_consistancy.py:240-261 | every shipped record resolves once ceil, sqrt and t are registered |
| ConsistencyTables.ShippedTableAttaches | test/onnx/test_op_consistancy.py:298-304 | with ceil, sqrt and t registered, decoration succeeds; the last ceil entry gains its xfail then its skip, the last sqrt entry its skip, the last t entry its xfail, and every other entry, earlier duplicates included, is unchanged |
| ConsistencyTables.ShippedTableLeavesOthers | test/onnx/test_op_consistancy.py:240-261 | an entry that none of the shipped keys resolves to gets no decorator from the table |
| ConsistencyRunner.TestedOpsets | test/onnx/test_op_consistancy.py:39-44 | the opsets are 9, 10, ... up to the maximum, in order, each exactly once |
| ConsistencyRunner.OpsetFailIndex | test/onnx/test_op_consistancy.py:311-313 | absent exactly when no rule names the op; otherwise the last rule that names it |
| ConsistencyRunner.OpsetFailFor | test/onnx/test_op_consistancy.py:326-327 | an op has a governing rule exactly when some rule names it; that rule names the op and no later rule names it |
| ConsistencyRunner.LastOpsetRuleWins | test/onnx/test_op_consistancy.py:311-313 | a rule followed only by rules for other ops is the one chosen for its op |
| ConsistencyRunner.PlanSubTest | test/onnx/test_op_consistancy.py:321-361 | a raise is expected exactly when the op's rule says it should fail; bfloat16 exactly selects export-and-check at the sub-test's opset; otherwise the fixed verify options with the CPU provider |
| ConsistencyRunner.ProductMap | test/onnx/test_op_consistancy.py:320 | one result per (sample, opset) pair, with sample-major order |
| ConsistencyRunner.PlanSubTests | test/onnx/test_op_consistancy.py:320-323 | the sub-test for sample i and opset j sits at position i times the opset count plus j |
| ConsistencyRunner.TestOutputMatch | test/onnx/test_op_consistancy.py:305-320 | a non-CPU device fails the assertion; an op not in the allow list is skipped with the source's message; otherwise every sample is planned against every tested opset with the op's rule |
| ConsistencyRunner.SqrtPlan | test/onnx/test_op_consistancy.py:326-331 | for sqrt, each sub-test expects an exception exactly when the dtype is bfloat16 and the opset is below 13 |
| ConsistencyRunner.TransposeBoolPlan | test/onnx/test_op_consistancy.py:326-333 | for `t` on bool, every sub-test expects success and runs the full verification |
| ConsistencyRunner.CeilFloat64Plan | test/onnx/test_op_consistancy.py:326-333 | ceil on float64 is xfailed by its decorator, not by an opset rule; every sub-test expects success and verifies |
| ConsistencyRunner.SubTestVerdict | test/onnx/test_op_consistancy.py:329-337 | an expected raise passes only on a matching exception and reports not-raised on completion; otherwise a raise is an error carrying the exception |
| SpecialRefs.Clamp | torch/_refs/special/__init__.py:61 | NaN stays NaN; with lo <= hi values below lo (and -inf) become lo, values above hi (and +inf) become hi, values in between are unchanged; with lo > hi every value becomes hi |
| SpecialRefs.LogitBounds | torch/_refs/special/__init__.py:57-60 | the default eps is -1, giving [-1, 2]; hi is always 1 - lo; the interval is non-empty exactly when eps <= 1/2 |
| SpecialRefs.Logit | torch/_refs/special/__init__.py:56-62 | inside [lo, hi] the input's own log odds; below it (or -inf) those of lo, above it (or +inf) those of hi; NaN gives log(NaN); with eps > 1/2 every other input gives the log odds of hi |
| SpecialRefs.LogitDefaultEps | torch/_refs/special/__init__.py:57-58 | omitting eps is the same as passing -1.0 |
| SpecialRefs.LogitSeesOnlyClamped | torch/_refs/special/__init__.py:61-62 | for every eps, logit depends on the input only through its clamped value, and is the plain log odds inside the interval |
| SpecialRefs.LogitDefaultIsUnclamped | torch/_refs/special/__init__.py:56-62 | without eps, logit equals the unclamped log odds for every input, provided log maps NaN and negatives to NaN |
| SpecialRefs.CoerceOperands | torch/_refs/special/__init__.py:68-81 | two numbers are rejected; a tensor `a` is kept and `b` aligned to it; otherwise `b` is kept and the number `a` becomes a scalar tensor of b's dtype and device; values are preserved |
| SpecialRefs.NumberTakesTensorDtypeAndDevice | torch/_refs/special/__init__.py:72-81 | with one number and one tensor, both coerced operands share the tensor's dtype and device |
| SpecialRefs.FirstTensorNeverMoved | torch/_refs/special/__init__.py:72-81 | a CPU scalar tensor in the first position stays on the CPU even when the second tensor lives elsewhere |
| SpecialRefs.XLog1pyElement | torch/_refs/special/__init__.py:84-85 | NaN in b gives NaN even when a is 0; otherwise a == 0 gives 0; otherwise a times log1p(b) |
| SpecialRefs.ZeroGuardBeatsInfiniteLog | torch/_refs/special/__init__.py:84 | xlog1py(0, -1) is 0 although the unguarded product 0 * log1p(-1) is NaN |
| SpecialRefs.XLog1py | torch/_refs/special/__init__.py:65-85 | rejected exactly when both arguments are numbers; otherwise the value follows the NaN, zero and product cases on the original operand values |

## Left out

- The ONNX exporter, `onnx.checker`, onnxruntime and `verification.verify` are external. A sub-test's plan names the action and its options, and its outcome is a parameter.
- The unittest and `common_device_type` machinery is not modelled. This covers how `expectedFailure`/`skip` decorators are applied by device and dtype, `subTest` reporting and `instantiate_device_type_tests`. `skip_ops` is modelled up to the decorator list it builds.
- `OPS_DB` (a copy of `op_db`) and `op.sample_inputs` are inputs: a registry sequence and a sample sequence.
- `ONNX_MAX_OPSET` comes from `torch.onnx._constants`, which is not part of this model. It is a parameter of `TestedOpsets` and `TestOutputMatch`.
- `skip_ops` updates the registry before its assertion can fail. A failure is modelled as a result with no registry, so the partial update is not modelled.
- SubTestVerdict: an expected exception matches by name equality, not by subclass as `assertRaises` does.
- OpsetRules.ExpectedException: the exception is a name rather than a class, so subclass matching is not modelled.
- `i1`, `i0e`, `i1e` and `zeta` only wrap primitives, so they are left out. Also left out:
  - the `register_decomposition`, `out_wrapper` and type-promotion wrappers;
  - `_make_elementwise_binary_reference`.
- Each element is an exact real, NaN or an infinity. Rounding, signed zeros, dtype conversion in `scalar_tensor` and broadcasting are not modelled.
- `eps` is a finite real.
- `log` and `log1p` are uninterpreted functions. Properties that need their behaviour take it as a precondition.
- `utils.is_cpu_scalar_tensor` is not part of this model. It is taken to mean a zero-dimensional tensor whose device is `"cpu"`.
- In `_xlog1py` the CPU-scalar branch for `a` (line 80) cannot be reached, because `a` is not a tensor on that path. The model keeps the branch structure, so that case is simply never taken.
