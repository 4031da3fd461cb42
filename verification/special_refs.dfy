/** The case structure of two composite special-function references:
    `logit`, which clamps its input to `[eps, 1 - eps]` before taking the log
    odds, and `_xlog1py`, which checks and aligns its operands and then layers
    a NaN override over a zero guard. Everything is one element at a time;
    `log` and `log1p` are left uninterpreted and passed in as functions. */
module SpecialRefs {
  import opened Wrappers
  import opened Dtypes

  /** One floating-point element: NaN, an infinity, or a finite value.
      Signed zeros and rounding are not distinguished. */
  datatype Num = NaN | PosInf | NegInf | Val(r: real)

  /** `max(x, lo)` with NaN propagated, as the lower half of `torch.clamp`. */
  function ClampBelow(x: Num, lo: real): Num {
    match x
    case NaN => NaN
    case PosInf => PosInf
    case NegInf => Val(lo)
    case Val(r) => Val(if r < lo then lo else r)
  }

  /** `min(x, hi)` with NaN propagated, as the upper half of `torch.clamp`. */
  function ClampAbove(x: Num, hi: real): Num {
    match x
    case NaN => NaN
    case PosInf => Val(hi)
    case NegInf => NegInf
    case Val(r) => Val(if r > hi then hi else r)
  }

  /** `torch.clamp(x, lo, hi)` = `min(max(x, lo), hi)`: NaN stays NaN; with
      `lo <= hi` inputs below `lo` (or -inf) become `lo`, inputs above `hi`
      (or +inf) become `hi`, and inputs in between are unchanged; with
      `lo > hi` every other input becomes `hi`. */
  function Clamp(x: Num, lo: real, hi: real): (c: Num)
    ensures c.NaN? <==> x.NaN?
    ensures !x.NaN? && lo <= hi ==> c.Val? && lo <= c.r <= hi
    ensures x.Val? && lo <= x.r <= hi ==> c == x
    ensures lo <= hi && (x == NegInf || (x.Val? && x.r < lo)) ==> c == Val(lo)
    ensures lo <= hi && (x == PosInf || (x.Val? && x.r > hi)) ==> c == Val(hi)
    ensures !x.NaN? && lo > hi ==> c == Val(hi)
  {
    ClampAbove(ClampBelow(x, lo), hi)
  }

  /** `1 - x`. */
  function OneMinus(x: Num): Num {
    match x
    case NaN => NaN
    case PosInf => NegInf
    case NegInf => PosInf
    case Val(r) => Val(1.0 - r)
  }

  function Sign(r: real): int {
    if r > 0.0 then 1 else if r < 0.0 then -1 else 0
  }

  function Infinity(sign: int): Num {
    if sign > 0 then PosInf else if sign < 0 then NegInf else NaN
  }

  function SignOf(x: Num): int
    requires !x.NaN?
  {
    match x
    case PosInf => 1
    case NegInf => -1
    case Val(r) => Sign(r)
  }

  /** IEEE division, taking every zero as positive. */
  function Div(a: Num, b: Num): Num {
    if a.NaN? || b.NaN? then NaN
    else if !a.Val? && !b.Val? then NaN
    else if !a.Val? then Infinity(SignOf(a) * (if b.r < 0.0 then -1 else 1))
    else if !b.Val? then Val(0.0)
    else if b.r != 0.0 then Val(a.r / b.r)
    else Infinity(Sign(a.r))
  }

  /** IEEE multiplication; an infinity times zero is NaN. */
  function Mul(a: Num, b: Num): Num {
    if a.NaN? || b.NaN? then NaN
    else if a.Val? && b.Val? then Val(a.r * b.r)
    else Infinity(SignOf(a) * SignOf(b))
  }

  /** The clamp interval `logit` uses. */
  datatype ClampBounds = ClampBounds(lo: real, hi: real)

  /** `eps` defaults to -1.0; `lo = eps` and `hi = 1 - eps`, so the interval
      is symmetric about 1/2 and is non-empty exactly when `eps <= 1/2`. */
  function LogitBounds(eps: Option<real>): (b: ClampBounds)
    ensures b.hi == 1.0 - b.lo
    ensures eps.None? ==> b == ClampBounds(-1.0, 2.0)
    ensures eps.Some? ==> b.lo == eps.value
    ensures b.lo <= b.hi <==> b.lo <= 0.5
  {
    var e := if eps.None? then -1.0 else eps.value;
    ClampBounds(e, 1.0 - e)
  }

  /** The log odds `log(p / (1 - p))` of one value. */
  function LogOdds(p: Num, log: Num -> Num): Num {
    log(Div(p, OneMinus(p)))
  }

  /** `logit(self, eps)`: the log odds of the input clamped to
      `[eps, 1 - eps]`. Inside the interval these are the input's own log
      odds; below it (or at -inf) those of `lo`, above it (or at +inf) those
      of `hi`; NaN gives `log(NaN)`; an empty interval (`eps > 1/2`) sends
      every other input to the log odds of `hi`. */
  function Logit(x: Num, eps: Option<real>, log: Num -> Num): (r: Num)
    ensures var b := LogitBounds(eps);
      x.Val? && b.lo <= x.r <= b.hi ==> r == LogOdds(x, log)
    ensures var b := LogitBounds(eps);
      b.lo <= b.hi && (x == NegInf || (x.Val? && x.r < b.lo)) ==> r == LogOdds(Val(b.lo), log)
    ensures var b := LogitBounds(eps);
      b.lo <= b.hi && (x == PosInf || (x.Val? && x.r > b.hi)) ==> r == LogOdds(Val(b.hi), log)
    ensures x.NaN? ==> r == log(NaN)
    ensures var b := LogitBounds(eps);
      b.lo > b.hi && !x.NaN? ==> r == LogOdds(Val(b.hi), log)
  {
    var b := LogitBounds(eps);
    var c := Clamp(x, b.lo, b.hi);
    LogOdds(c, log)
  }

  /** Omitting `eps` is the same as passing -1.0. */
  lemma LogitDefaultEps(x: Num, log: Num -> Num)
    ensures Logit(x, None, log) == Logit(x, Some(-1.0), log)
  {
  }

  /** The raw input reaches the log only through its clamped value: the log
      odds are those of `x` itself when `x` is inside the interval, and
      clamping first changes nothing. */
  lemma LogitSeesOnlyClamped(x: Num, eps: Option<real>, log: Num -> Num)
    ensures var b := LogitBounds(eps);
      Logit(x, eps, log) == Logit(Clamp(x, b.lo, b.hi), eps, log)
    ensures var b := LogitBounds(eps);
      x.Val? && b.lo <= x.r <= b.hi ==> Logit(x, eps, log) == LogOdds(x, log)
  {
  }

  lemma NegativeQuotient(p: real, q: real)
    requires (p > 0.0 && q < 0.0) || (p < 0.0 && q > 0.0)
    ensures p / q < 0.0
  {
    if p > 0.0 {
      assert p / q * q == p;
    } else {
      assert p / q * q == p;
    }
  }

  /** The default clamp to [-1, 2] never changes the result, provided `log`
      maps NaN and negative values to NaN: outside the interval both the
      clamped and the unclamped odds are negative or NaN. */
  lemma LogitDefaultIsUnclamped(x: Num, log: Num -> Num)
    requires log(NaN) == NaN
    requires forall r: real :: r < 0.0 ==> log(Val(r)) == NaN
    ensures Logit(x, None, log) == LogOdds(x, log)
  {
    match x
    case NaN =>
    case PosInf =>
      assert Div(Val(2.0), Val(-1.0)) == Val(-2.0);
    case NegInf =>
      assert Div(Val(-1.0), Val(2.0)) == Val(-0.5);
    case Val(r) =>
      if r > 2.0 {
        assert Div(Val(2.0), Val(-1.0)) == Val(-2.0);
        NegativeQuotient(r, 1.0 - r);
      } else if r < -1.0 {
        assert Div(Val(-1.0), Val(2.0)) == Val(-0.5);
        NegativeQuotient(r, 1.0 - r);
      }
  }

  /** A tensor argument: dtype, device, rank, and the element under study. */
  datatype TensorLike = TensorLike(dtype: Dtype, device: string, ndim: nat, value: Num)

  /** An argument of `_xlog1py`: a plain Python number or a tensor. */
  datatype Operand = Number(number: Num) | Tensor(tensor: TensorLike)

  datatype ArgumentError = BothNumbers

  function ValueOf(x: Operand): Num {
    match x
    case Number(v) => v
    case Tensor(t) => t.value
  }

  /** A zero-dimensional tensor on the CPU. */
  predicate IsCpuScalarTensor(x: Operand) {
    x.Tensor? && x.tensor.ndim == 0 && x.tensor.device == "cpu"
  }

  /** The other operand brought in line with the tensor `anchor`: a number
      becomes a zero-dimensional tensor of the anchor's dtype and device, a CPU
      scalar tensor is moved to the anchor's device, anything else is kept. */
  function AlignTo(x: Operand, anchor: TensorLike): TensorLike {
    match x
    case Number(v) => TensorLike(anchor.dtype, anchor.device, 0, v)
    case Tensor(t) => if IsCpuScalarTensor(x) then t.(device := anchor.device) else t
  }

  /** The argument check and operand coercion of `_xlog1py`. Two numbers are
      rejected; otherwise the first tensor operand, `a` when it is one, is
      kept as it is and the other is aligned to it. */
  function CoerceOperands(a: Operand, b: Operand): (r: Result<(TensorLike, TensorLike), ArgumentError>)
    ensures r.Failure? <==> a.Number? && b.Number?
    ensures r.Success? ==> r.value.0.value == ValueOf(a) && r.value.1.value == ValueOf(b)
    ensures a.Tensor? ==> r == Success((a.tensor, r.value.1))
    ensures a.Number? && b.Tensor? ==> r == Success((r.value.0, b.tensor))
    ensures a.Tensor? && b.Number? ==> r.value.1 == TensorLike(a.tensor.dtype, a.tensor.device, 0, b.number)
    ensures a.Number? && b.Tensor? ==> r.value.0 == TensorLike(b.tensor.dtype, b.tensor.device, 0, a.number)
    ensures a.Tensor? && b.Tensor? ==>
      r.value.1 == if IsCpuScalarTensor(b) then b.tensor.(device := a.tensor.device) else b.tensor
  {
    if a.Tensor? then Success((a.tensor, AlignTo(b, a.tensor)))
    else if b.Tensor? then Success((AlignTo(a, b.tensor), b.tensor))
    else Failure(BothNumbers)
  }

  /** When one operand is a number, both coerced operands share the tensor's
      dtype and device. */
  lemma NumberTakesTensorDtypeAndDevice(a: Operand, b: Operand)
    requires a.Number? != b.Number?
    ensures CoerceOperands(a, b).Success?
    ensures var r := CoerceOperands(a, b).value;
      r.0.dtype == r.1.dtype && r.0.device == r.1.device
  {
  }

  /** Only the second operand is ever moved between devices: a CPU scalar
      tensor in the first position stays on the CPU even when the second
      operand lives elsewhere. */
  lemma FirstTensorNeverMoved(a: Operand, b: Operand)
    requires IsCpuScalarTensor(a) && b.Tensor? && b.tensor.device != "cpu"
    ensures CoerceOperands(a, b).Success?
    ensures CoerceOperands(a, b).value.0.device == "cpu" != CoerceOperands(a, b).value.1.device
  {
  }

  /** `where(cond, x, y)` on one element. */
  function Where(cond: bool, x: Num, y: Num): Num {
    if cond then x else y
  }

  /** The element-wise body of `_xlog1py`: a zero guard on `a`, overridden by
      NaN wherever `b` is NaN. Stated as cases: NaN in `b` wins even over
      `a == 0`; otherwise `a == 0` gives 0, and anything else is
      `a * log1p(b)`. */
  function XLog1pyElement(a: Num, b: Num, log1p: Num -> Num): (r: Num)
    ensures b.NaN? ==> r == NaN
    ensures !b.NaN? && a == Val(0.0) ==> r == Val(0.0)
    ensures !b.NaN? && a != Val(0.0) ==> r == Mul(a, log1p(b))
  {
    var rhs := Where(a == Val(0.0), Val(0.0), Mul(a, log1p(b)));
    Where(b.NaN?, NaN, rhs)
  }

  /** The zero guard is what makes `xlog1py(0, -1)` zero: the plain product
      `0 * log1p(-1)` is `0 * -inf`, which is NaN. */
  lemma ZeroGuardBeatsInfiniteLog(log1p: Num -> Num)
    requires log1p(Val(-1.0)) == NegInf
    ensures Mul(Val(0.0), log1p(Val(-1.0))) == NaN
    ensures XLog1pyElement(Val(0.0), Val(-1.0), log1p) == Val(0.0)
  {
  }

  /** `_xlog1py(a, b)` on one element. */
  function XLog1py(a: Operand, b: Operand, log1p: Num -> Num): (r: Result<Num, ArgumentError>)
    ensures r.Failure? <==> a.Number? && b.Number?
    ensures r.Success? && ValueOf(b).NaN? ==> r.value == NaN
    ensures r.Success? && !ValueOf(b).NaN? && ValueOf(a) == Val(0.0) ==> r.value == Val(0.0)
    ensures r.Success? && !ValueOf(b).NaN? && ValueOf(a) != Val(0.0) ==>
      r.value == Mul(ValueOf(a), log1p(ValueOf(b)))
  {
    var (ta, tb) :- CoerceOperands(a, b);
    Success(XLog1pyElement(ta.value, tb.value, log1p))
  }
}
