/** Option and Result: Go's "value or nil" and "value, error" returns. */
module Wrappers {

  datatype Option<+T> = None | Some(value: T)

  datatype Result<+R, +E> = Success(value: R) | Failure(error: E)
}

/** Values the Go code only stores and passes along, never computes on. */
module Opaque {

  /** An IEEE-754 double, kept as its bit pattern. */
  datatype Float64 = Float64(bits: bv64)

  /** A Go function value (a streaming sink, a callbacks handler): nil or some identity. */
  datatype FuncRef = NilFunc | FuncRef(id: nat)

  /** A Go `any` that the code never inspects: nil or some identity. */
  datatype AnyRef = NilAny | AnyRef(id: nat)
}
