/** Attaching skip / expected-failure decorators to operator registry entries:
    the `DecorateMeta` records built by `xfail` and `skip`, and `skip_ops`,
    which resolves each record against the registry and appends one
    `DecorateInfo` to the matching entry. */
module SkipRules {
  import opened Wrappers
  import opened Lookup
  import opened Dtypes

  /** The decorator object a record carries: `unittest.expectedFailure`, or
      `unittest.skip(reason)`. */
  datatype Decorator = ExpectedFailure | Skip(reason: string)

  /** `DecorateMeta`: which registry entry to decorate, with what, and for
      which device and dtypes. */
  datatype DecorateMeta = DecorateMeta(
    opName: string,
    variantName: string,
    decorator: Decorator,
    deviceType: Option<string>,
    dtypes: Option<seq<Dtype>>,
    reason: string)

  /** `opinfo_core.DecorateInfo` as `skip_ops` builds it. */
  datatype DecorateInfo = DecorateInfo(
    decorator: Decorator,
    testCaseName: string,
    baseTestName: string,
    deviceType: Option<string>,
    dtypes: Option<seq<Dtype>>)

  /** The part of an `OpInfo` registry entry this layer reads and writes. */
  datatype OpInfo = OpInfo(name: string, variantTestName: string, decorators: seq<DecorateInfo>)

  /** The key `(name, variant_test_name)` registry entries are looked up by. */
  datatype OpKey = OpKey(name: string, variant: string)

  datatype ConfigError = MissingOpInfo(meta: DecorateMeta)

  function KeyOf(info: OpInfo): OpKey {
    OpKey(info.name, info.variantTestName)
  }

  function MetaKey(meta: DecorateMeta): OpKey {
    OpKey(meta.opName, meta.variantName)
  }

  /** `xfail(op_name, variant_name="", *, device_type=None, dtypes=None,
      reason="unspecified")`. */
  function Xfail(opName: string, variantName: string := "", deviceType: Option<string> := None,
                 dtypes: Option<seq<Dtype>> := None, reason: string := "unspecified"): (meta: DecorateMeta)
    ensures MetaKey(meta) == OpKey(opName, variantName)
    ensures meta.decorator == ExpectedFailure
    ensures meta.deviceType == deviceType && meta.dtypes == dtypes && meta.reason == reason
  {
    DecorateMeta(opName, variantName, ExpectedFailure, deviceType, dtypes, reason)
  }

  /** A record built from an operator name alone targets the default variant
      on every device and dtype, with reason "unspecified". */
  lemma RecordDefaults(opName: string)
    ensures Xfail(opName) == DecorateMeta(opName, "", ExpectedFailure, None, None, "unspecified")
    ensures SkipMeta(opName) == DecorateMeta(opName, "", Skip("unspecified"), None, None, "unspecified")
  {
  }

  /** `skip(...)`, with the same defaults as `xfail`; the decorator itself
      carries the reason. */
  function SkipMeta(opName: string, variantName: string := "", deviceType: Option<string> := None,
                    dtypes: Option<seq<Dtype>> := None, reason: string := "unspecified"): (meta: DecorateMeta)
    ensures MetaKey(meta) == OpKey(opName, variantName)
    ensures meta.decorator == Skip(reason)
    ensures meta.deviceType == deviceType && meta.dtypes == dtypes && meta.reason == reason
  {
    DecorateMeta(opName, variantName, Skip(reason), deviceType, dtypes, reason)
  }

  predicate HasKey(registry: seq<OpInfo>, key: OpKey) {
    exists i :: 0 <= i < |registry| && KeyOf(registry[i]) == key
  }

  /** The entry `ops_mapping` holds for `key`. The mapping is built by a dict
      comprehension over the registry, so of several entries with one key the
      LAST one is the one found (and decorated). */
  function LastIndex(registry: seq<OpInfo>, key: OpKey): (found: Option<nat>)
    ensures found.None? <==> !HasKey(registry, key)
    ensures found.Some? ==> found.value < |registry| && KeyOf(registry[found.value]) == key
    ensures found.Some? ==> forall j :: found.value < j < |registry| ==> KeyOf(registry[j]) != key
  {
    LastWithKey(registry, KeyOf, key)
  }


  function MakeInfo(meta: DecorateMeta, testCaseName: string, baseTestName: string): DecorateInfo {
    DecorateInfo(meta.decorator, testCaseName, baseTestName, meta.deviceType, meta.dtypes)
  }

  /** One iteration of the `skip_ops` loop. */
  function Attach(registry: seq<OpInfo>, testCaseName: string, baseTestName: string,
                  meta: DecorateMeta): (r: Result<seq<OpInfo>, ConfigError>)
    ensures r.Failure? <==> !HasKey(registry, MetaKey(meta))
    ensures r.Failure? ==> r.error == MissingOpInfo(meta)
    ensures r.Success? ==> |r.value| == |registry|
    ensures r.Success? ==> forall i :: 0 <= i < |registry| ==>
      r.value[i] == registry[i].(decorators := registry[i].decorators
        + (if LastIndex(registry, MetaKey(meta)) == Some(i) then [MakeInfo(meta, testCaseName, baseTestName)] else []))
  {
    match LastIndex(registry, MetaKey(meta))
    case None => Failure(MissingOpInfo(meta))
    case Some(t) =>
      Success(registry[t := registry[t].(decorators := registry[t].decorators + [MakeInfo(meta, testCaseName, baseTestName)])])
  }

  /** Reference definition: the decorators the records in `metas` contribute,
      in order, to the registry entry at index `i`. */
  function Attached(registry: seq<OpInfo>, testCaseName: string, baseTestName: string,
                    metas: seq<DecorateMeta>, i: nat): seq<DecorateInfo>
  {
    if metas == [] then []
    else
      (if LastIndex(registry, MetaKey(metas[0])) == Some(i) then [MakeInfo(metas[0], testCaseName, baseTestName)] else [])
      + Attached(registry, testCaseName, baseTestName, metas[1..], i)
  }

  predicate SameKeys(a: seq<OpInfo>, b: seq<OpInfo>) {
    |a| == |b| && forall i :: 0 <= i < |a| ==> KeyOf(a[i]) == KeyOf(b[i])
  }

  lemma SameKeysSameLastIndex(a: seq<OpInfo>, b: seq<OpInfo>, key: OpKey)
    requires SameKeys(a, b)
    ensures LastIndex(a, key) == LastIndex(b, key)
  {
    SameKeysSamePosition(a, KeyOf, b, KeyOf, key);
  }


  lemma {:induction false} SameKeysSameAttached(a: seq<OpInfo>, b: seq<OpInfo>, testCaseName: string,
                                               baseTestName: string, metas: seq<DecorateMeta>, i: nat)
    requires SameKeys(a, b)
    ensures Attached(a, testCaseName, baseTestName, metas, i) == Attached(b, testCaseName, baseTestName, metas, i)
    decreases |metas|
  {
    if metas != [] {
      SameKeysSameLastIndex(a, b, MetaKey(metas[0]));
      SameKeysSameAttached(a, b, testCaseName, baseTestName, metas[1..], i);
    }
  }

  /** Every record in `metas` names a key present in the registry. */
  predicate AllResolve(registry: seq<OpInfo>, metas: seq<DecorateMeta>) {
    forall j :: 0 <= j < |metas| ==> HasKey(registry, MetaKey(metas[j]))
  }

  /** `metas[j]` is the first record whose key is missing from the registry. */
  predicate FirstUnresolved(registry: seq<OpInfo>, metas: seq<DecorateMeta>, j: int) {
    && 0 <= j < |metas|
    && !HasKey(registry, MetaKey(metas[j]))
    && forall k :: 0 <= k < j ==> HasKey(registry, MetaKey(metas[k]))
  }

  /** The registry entry `i` after `skip_ops` has applied `metas`. */
  function Decorated(registry: seq<OpInfo>, testCaseName: string, baseTestName: string,
                     metas: seq<DecorateMeta>, i: nat): OpInfo
    requires i < |registry|
  {
    registry[i].(decorators := registry[i].decorators + Attached(registry, testCaseName, baseTestName, metas, i))
  }

  /** After one record is attached, resolution of the remaining records is
      decided against an equally keyed registry. */
  lemma ResolutionAfterAttach(registry: seq<OpInfo>, next: seq<OpInfo>, metas: seq<DecorateMeta>)
    requires SameKeys(registry, next)
    requires metas != [] && HasKey(registry, MetaKey(metas[0]))
    ensures AllResolve(registry, metas) <==> AllResolve(next, metas[1..])
    ensures forall j :: FirstUnresolved(next, metas[1..], j) ==> FirstUnresolved(registry, metas, j + 1)
  {
    forall k | 0 <= k < |metas|
      ensures HasKey(registry, MetaKey(metas[k])) <==> HasKey(next, MetaKey(metas[k]))
    {
      SameKeysSameLastIndex(registry, next, MetaKey(metas[k]));
    }
    forall j | 0 <= j < |metas| - 1
      ensures metas[1..][j] == metas[j + 1]
    {
    }
  }

  /** Attaching a record changes no entry's key. */
  lemma AttachKeepsKeys(registry: seq<OpInfo>, next: seq<OpInfo>, testCaseName: string,
                        baseTestName: string, meta: DecorateMeta)
    requires Attach(registry, testCaseName, baseTestName, meta) == Success(next)
    ensures SameKeys(registry, next)
  {
  }

  /** After one record is attached, the remaining records contribute the same
      decorators and the entry accumulates both. */
  lemma DecoratedAfterAttach(registry: seq<OpInfo>, next: seq<OpInfo>, testCaseName: string,
                             baseTestName: string, metas: seq<DecorateMeta>, i: nat)
    requires metas != [] && i < |registry|
    requires Attach(registry, testCaseName, baseTestName, metas[0]) == Success(next)
    ensures SameKeys(registry, next)
    ensures Decorated(next, testCaseName, baseTestName, metas[1..], i)
         == Decorated(registry, testCaseName, baseTestName, metas, i)
  {
    var own := if LastIndex(registry, MetaKey(metas[0])) == Some(i)
      then [MakeInfo(metas[0], testCaseName, baseTestName)] else [];
    assert next[i] == registry[i].(decorators := registry[i].decorators + own);
    AttachKeepsKeys(registry, next, testCaseName, baseTestName, metas[0]);
    assert Attached(registry, testCaseName, baseTestName, metas, i)
        == own + Attached(registry, testCaseName, baseTestName, metas[1..], i);
    SameKeysSameAttached(next, registry, testCaseName, baseTestName, metas[1..], i);
    assert registry[i].decorators + own + Attached(registry, testCaseName, baseTestName, metas[1..], i)
        == registry[i].decorators + (own + Attached(registry, testCaseName, baseTestName, metas[1..], i));
  }

  /** `skip_ops(all_opinfos, test_case_name, base_test_name, to_skip)`.
      It fails, naming the first record whose key is not in the registry, when
      any record does not resolve; otherwise every entry keeps its key and its
      earlier decorators, in order, followed by exactly the decorators of the
      records that resolve to it, in the order the records are listed. */
  function SkipOps(registry: seq<OpInfo>, testCaseName: string, baseTestName: string,
                   toSkip: seq<DecorateMeta>): (r: Result<seq<OpInfo>, ConfigError>)
    ensures r.Failure? <==> !AllResolve(registry, toSkip)
    ensures r.Failure? ==> exists j :: FirstUnresolved(registry, toSkip, j) && r.error == MissingOpInfo(toSkip[j])
    ensures r.Success? ==> |r.value| == |registry|
    ensures r.Success? ==> forall i :: 0 <= i < |registry| ==>
      r.value[i] == Decorated(registry, testCaseName, baseTestName, toSkip, i)
    decreases |toSkip|
  {
    if toSkip == [] then Success(registry)
    else
      match Attach(registry, testCaseName, baseTestName, toSkip[0])
      case Failure(e) =>
        assert FirstUnresolved(registry, toSkip, 0);
        Failure(e)
      case Success(next) =>
        DecoratedAfterAttach(registry, next, testCaseName, baseTestName, toSkip, 0);
        ResolutionAfterAttach(registry, next, toSkip);
        forall i | 0 <= i < |registry|
          ensures Decorated(next, testCaseName, baseTestName, toSkip[1..], i)
               == Decorated(registry, testCaseName, baseTestName, toSkip, i)
        {
          DecoratedAfterAttach(registry, next, testCaseName, baseTestName, toSkip, i);
        }
        SkipOps(next, testCaseName, baseTestName, toSkip[1..])
  }

  /** Total number of decorators across the registry. */
  function DecoratorCount(registry: seq<OpInfo>): nat {
    if registry == [] then 0 else |registry[0].decorators| + DecoratorCount(registry[1..])
  }

  lemma {:induction false} DecoratorCountAfterAppend(registry: seq<OpInfo>, t: nat, d: DecorateInfo)
    requires t < |registry|
    ensures DecoratorCount(registry[t := registry[t].(decorators := registry[t].decorators + [d])])
         == DecoratorCount(registry) + 1
    decreases t
  {
    var updated := registry[t := registry[t].(decorators := registry[t].decorators + [d])];
    if t == 0 {
      assert updated[1..] == registry[1..];
    } else {
      assert updated[1..] == registry[1..][t - 1 := registry[1..][t - 1].(decorators := registry[1..][t - 1].decorators + [d])];
      DecoratorCountAfterAppend(registry[1..], t - 1, d);
    }
  }

  /** Each record appends exactly one decorator: a successful `skip_ops` adds
      as many decorators to the registry as there are records. */
  lemma {:induction false} SkipOpsAddsOnePerRecord(registry: seq<OpInfo>, testCaseName: string,
                                                  baseTestName: string, toSkip: seq<DecorateMeta>)
    requires SkipOps(registry, testCaseName, baseTestName, toSkip).Success?
    ensures DecoratorCount(SkipOps(registry, testCaseName, baseTestName, toSkip).value)
         == DecoratorCount(registry) + |toSkip|
    decreases |toSkip|
  {
    if toSkip != [] {
      var next := Attach(registry, testCaseName, baseTestName, toSkip[0]).value;
      var t := LastIndex(registry, MetaKey(toSkip[0])).value;
      assert next == registry[t := registry[t].(decorators := registry[t].decorators
        + [MakeInfo(toSkip[0], testCaseName, baseTestName)])];
      DecoratorCountAfterAppend(registry, t, MakeInfo(toSkip[0], testCaseName, baseTestName));
      SkipOpsAddsOnePerRecord(next, testCaseName, baseTestName, toSkip[1..]);
    }
  }
}
