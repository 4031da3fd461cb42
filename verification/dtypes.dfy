/** The dtypes the ONNX consistency suite instantiates its tests for, and the
    convenience category tuples used to build skip and xfail dtype lists. */
module Dtypes {

  /** One constructor per `torch.dtype` in `SUPPORTED_DTYPES`. */
  datatype Dtype =
    | Bool
    | UInt8 | Int8 | Int16 | Int32 | Int64
    | Float16 | Float32 | Float64 | BFloat16
    | QInt8 | QUInt8
    | Complex32 | Complex64 | Complex128

  /** `SUPPORTED_DTYPES`, in the order the suite lists it. */
  const SupportedDtypes: seq<Dtype> := [
    Bool,
    UInt8, Int8, Int16, Int32, Int64,
    Float16, Float32, Float64, BFloat16,
    QInt8, QUInt8,
    Complex32, Complex64, Complex128
  ]

  const BoolTypes: seq<Dtype> := [Bool]

  /** `INT_TYPES` lists uint8 last, unlike `SUPPORTED_DTYPES`. */
  const IntTypes: seq<Dtype> := [Int8, Int16, Int32, Int64, UInt8]

  const QIntTypes: seq<Dtype> := [QInt8, QUInt8]

  const FloatTypes: seq<Dtype> := [Float16, Float32, Float64, BFloat16]

  const ComplexTypes: seq<Dtype> := [Complex32, Complex64, Complex128]

  /** How many of the five category tuples list `d`. */
  function CategoryCount(d: Dtype): nat {
    (if d in BoolTypes then 1 else 0)
    + (if d in IntTypes then 1 else 0)
    + (if d in QIntTypes then 1 else 0)
    + (if d in FloatTypes then 1 else 0)
    + (if d in ComplexTypes then 1 else 0)
  }

  /** The category tuples partition `SUPPORTED_DTYPES`: every dtype is
      supported and is listed by exactly one of the five categories. */
  lemma CategoriesPartitionSupported(d: Dtype)
    ensures d in SupportedDtypes
    ensures CategoryCount(d) == 1
  {
  }
}
