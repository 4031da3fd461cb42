/** The hand-maintained rule tables of the ONNX consistency suite: the ops under
    test, the unconditional skips and expected failures, and the opset-specific
    expected failures. */
module ConsistencyTables {
  import opened Wrappers
  import opened Dtypes
  import opened OpsetRules
  import opened SkipRules

  /** `MIN_ONNX_OPSET_VERSION`; the maximum is a parameter of the runner. */
  const MinOnnxOpsetVersion: int := 9

  /** `ALLOWLIST_OP`. */
  const AllowlistOp: seq<string> := ["ceil", "sqrt", "t"]

  const CeilXfail: DecorateMeta :=
    Xfail("ceil", dtypes := Some([BFloat16, Float64]),
          reason := "Ceil not implemented for f64 and bf64 in onnx runtime")

  const CeilSkip: DecorateMeta :=
    SkipMeta("ceil", dtypes := Some(BoolTypes + IntTypes + QIntTypes + ComplexTypes),
             reason := "Not supported by onnx")

  const SqrtSkip: DecorateMeta :=
    SkipMeta("sqrt", dtypes := Some(BoolTypes + QIntTypes + ComplexTypes),
             reason := "Not supported by onnx")

  const TXfail: DecorateMeta :=
    Xfail("t", dtypes := Some([BFloat16] + ComplexTypes),
          reason := "Transpose not implemented for bf64 in onnx runtime")

  /** `EXPECTED_SKIPS_OR_FAILS`. */
  const ExpectedSkipsOrFails: seq<DecorateMeta> := [CeilXfail, CeilSkip, SqrtSkip, TXfail]

  const SqrtOpsetRule: XfailOpset :=
    XfailOpset("sqrt", [Callable(OpsetsBefore(13))], Some([BFloat16]), None,
               "sqrt not defined for bf16 before opset 13")

  /** `EXPECTED_OPSET_FAILS`. */
  const ExpectedOpsetFails: seq<XfailOpset> := [SqrtOpsetRule]

  /** The shipped sqrt rule expects a raise for bfloat16 below opset 13 and
      for nothing else: within the tested range that is opsets 9 to 12. */
  lemma SqrtRuleDecision(opset: int, dtype: Dtype)
    ensures ShouldFail(SqrtOpsetRule, opset, dtype) <==> dtype == BFloat16 && opset < 13
    ensures MinOnnxOpsetVersion <= opset <= 12 ==> ShouldFail(SqrtOpsetRule, opset, BFloat16)
    ensures opset >= 13 || dtype != BFloat16 ==> !ShouldFail(SqrtOpsetRule, opset, dtype)
    ensures ExpectedException(SqrtOpsetRule) == AnyException
  {
    BeforeRuleDecision(SqrtOpsetRule, 13, [BFloat16], opset, dtype);
  }

  /** The ceil skip lists exactly the dtypes that are not floating point. */
  lemma CeilSkipIsNonFloat(d: Dtype)
    ensures d in CeilSkip.dtypes.value <==> d !in FloatTypes
  {
    CategoriesPartitionSupported(d);
  }

  /** The sqrt skip leaves the integer and floating dtypes to run. */
  lemma SqrtSkipSparesNumbers(d: Dtype)
    ensures d in SqrtSkip.dtypes.value <==> d !in IntTypes && d !in FloatTypes
  {
    CategoriesPartitionSupported(d);
  }

  /** Transpose on booleans is named by no skip or expected failure, and no
      opset rule mentions transpose. */
  lemma TransposeOnBoolIsUnconditional()
    ensures forall j :: 0 <= j < |ExpectedSkipsOrFails| ==>
      (ExpectedSkipsOrFails[j].opName == "t" ==> Bool !in ExpectedSkipsOrFails[j].dtypes.value)
    ensures forall j :: 0 <= j < |ExpectedOpsetFails| ==> ExpectedOpsetFails[j].opName != "t"
  {
  }

  /** The decorators the shipped table contributes to registry entry `i`:
      the two ceil records, the sqrt record and the transpose record each go to
      the entry their key resolves to, in table order. */
  lemma ShippedTableContributions(registry: seq<OpInfo>, testCaseName: string, baseTestName: string, i: nat)
    ensures Attached(registry, testCaseName, baseTestName, ExpectedSkipsOrFails, i)
         == (if LastIndex(registry, OpKey("ceil", "")) == Some(i)
             then [MakeInfo(CeilXfail, testCaseName, baseTestName), MakeInfo(CeilSkip, testCaseName, baseTestName)]
             else [])
          + ((if LastIndex(registry, OpKey("sqrt", "")) == Some(i)
              then [MakeInfo(SqrtSkip, testCaseName, baseTestName)] else [])
          + (if LastIndex(registry, OpKey("t", "")) == Some(i)
             then [MakeInfo(TXfail, testCaseName, baseTestName)] else []))
  {
    var ceil := LastIndex(registry, OpKey("ceil", "")) == Some(i);
    var c1 := if ceil then [MakeInfo(CeilXfail, testCaseName, baseTestName)] else [];
    var c2 := if ceil then [MakeInfo(CeilSkip, testCaseName, baseTestName)] else [];
    var sq := if LastIndex(registry, OpKey("sqrt", "")) == Some(i) then [MakeInfo(SqrtSkip, testCaseName, baseTestName)] else [];
    var tr := if LastIndex(registry, OpKey("t", "")) == Some(i) then [MakeInfo(TXfail, testCaseName, baseTestName)] else [];
    assert MetaKey(CeilXfail) == OpKey("ceil", "") && MetaKey(CeilSkip) == OpKey("ceil", "");
    assert MetaKey(SqrtSkip) == OpKey("sqrt", "") && MetaKey(TXfail) == OpKey("t", "");
    assert Attached(registry, testCaseName, baseTestName, [], i) == [];
    assert Attached(registry, testCaseName, baseTestName, [TXfail], i) == tr by {
      assert [TXfail][1..] == [];
    }
    assert Attached(registry, testCaseName, baseTestName, [SqrtSkip, TXfail], i) == sq + tr by {
      assert [SqrtSkip, TXfail][1..] == [TXfail];
    }
    assert Attached(registry, testCaseName, baseTestName, [CeilSkip, SqrtSkip, TXfail], i) == c2 + (sq + tr) by {
      assert [CeilSkip, SqrtSkip, TXfail][1..] == [SqrtSkip, TXfail];
    }
    assert Attached(registry, testCaseName, baseTestName, ExpectedSkipsOrFails, i) == c1 + (c2 + (sq + tr)) by {
      assert ExpectedSkipsOrFails[1..] == [CeilSkip, SqrtSkip, TXfail];
    }
  }

  /** Every record of the shipped table resolves in a registry that has the
      three allowlisted operators under the default variant. */
  lemma ShippedTableResolves(registry: seq<OpInfo>)
    requires HasKey(registry, OpKey("ceil", "")) && HasKey(registry, OpKey("sqrt", ""))
    requires HasKey(registry, OpKey("t", ""))
    ensures AllResolve(registry, ExpectedSkipsOrFails)
  {
    var table := ExpectedSkipsOrFails;
    forall j | 0 <= j < |table| ensures HasKey(registry, MetaKey(table[j])) {
      assert MetaKey(table[j]) in {OpKey("ceil", ""), OpKey("sqrt", ""), OpKey("t", "")};
    }
  }

  /** Applying the shipped table to a registry that has entries for
      ("ceil", ""), ("sqrt", "") and ("t", "") succeeds: the ceil entry
      accumulates its two records in table order, sqrt and transpose get one
      each, and every other entry, including an earlier duplicate of one of
      those keys, is unchanged. */
  lemma ShippedTableAttaches(registry: seq<OpInfo>, testCaseName: string, baseTestName: string, i: nat)
    requires HasKey(registry, OpKey("ceil", "")) && HasKey(registry, OpKey("sqrt", ""))
    requires HasKey(registry, OpKey("t", ""))
    requires i < |registry|
    ensures SkipOps(registry, testCaseName, baseTestName, ExpectedSkipsOrFails).Success?
    ensures LastIndex(registry, OpKey("ceil", "")) == Some(i) ==>
      SkipOps(registry, testCaseName, baseTestName, ExpectedSkipsOrFails).value[i].decorators
        == registry[i].decorators + [MakeInfo(CeilXfail, testCaseName, baseTestName),
                                     MakeInfo(CeilSkip, testCaseName, baseTestName)]
    ensures LastIndex(registry, OpKey("sqrt", "")) == Some(i) ==>
      SkipOps(registry, testCaseName, baseTestName, ExpectedSkipsOrFails).value[i].decorators
        == registry[i].decorators + [MakeInfo(SqrtSkip, testCaseName, baseTestName)]
    ensures LastIndex(registry, OpKey("t", "")) == Some(i) ==>
      SkipOps(registry, testCaseName, baseTestName, ExpectedSkipsOrFails).value[i].decorators
        == registry[i].decorators + [MakeInfo(TXfail, testCaseName, baseTestName)]
    ensures (&& LastIndex(registry, OpKey("ceil", "")) != Some(i)
             && LastIndex(registry, OpKey("sqrt", "")) != Some(i)
             && LastIndex(registry, OpKey("t", "")) != Some(i)) ==>
      SkipOps(registry, testCaseName, baseTestName, ExpectedSkipsOrFails).value[i] == registry[i]
  {
    ShippedTableResolves(registry);
    var r := SkipOps(registry, testCaseName, baseTestName, ExpectedSkipsOrFails);
    assert r.value[i] == Decorated(registry, testCaseName, baseTestName, ExpectedSkipsOrFails, i);
    var ceil := LastIndex(registry, OpKey("ceil", ""));
    var sqrt := LastIndex(registry, OpKey("sqrt", ""));
    var tr := LastIndex(registry, OpKey("t", ""));
    var attached := Attached(registry, testCaseName, baseTestName, ExpectedSkipsOrFails, i);
    if ceil == Some(i) {
      assert sqrt != Some(i) && tr != Some(i);
      ShippedTableContributions(registry, testCaseName, baseTestName, i);
      assert attached == [MakeInfo(CeilXfail, testCaseName, baseTestName), MakeInfo(CeilSkip, testCaseName, baseTestName)];
    } else if sqrt == Some(i) {
      assert tr != Some(i);
      ShippedTableContributions(registry, testCaseName, baseTestName, i);
      assert attached == [MakeInfo(SqrtSkip, testCaseName, baseTestName)];
    } else if tr == Some(i) {
      ShippedTableContributions(registry, testCaseName, baseTestName, i);
      assert attached == [MakeInfo(TXfail, testCaseName, baseTestName)];
    } else {
      ShippedTableLeavesOthers(registry, testCaseName, baseTestName, i);
    }
  }

  /** An entry that none of the shipped keys resolves to gets no decorator
      from the shipped table, so `skip_ops` leaves it exactly as it was. */
  lemma ShippedTableLeavesOthers(registry: seq<OpInfo>, testCaseName: string, baseTestName: string, i: nat)
    requires i < |registry|
    requires LastIndex(registry, OpKey("ceil", "")) != Some(i)
    requires LastIndex(registry, OpKey("sqrt", "")) != Some(i)
    requires LastIndex(registry, OpKey("t", "")) != Some(i)
    ensures Decorated(registry, testCaseName, baseTestName, ExpectedSkipsOrFails, i) == registry[i]
  {
    ShippedTableContributions(registry, testCaseName, baseTestName, i);
    assert registry[i].decorators + [] == registry[i].decorators;
  }
}
