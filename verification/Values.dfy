/** The values, errors and outcomes that promises carry. */
module Values {

  datatype Option<+T> = None | Some(value: T)

  /** What a promise resolves with. `Void` is the value of a void promise; `Absent`,
      `Present` and `Alternative` are the optional and variant wrappers that Catch and Race
      introduce; `Vector` is the result of the container form of All. */
  datatype Value =
    | Void
    | Data(payload: int)
    | Absent
    | Present(inner: Value)
    | Alternative(tag: nat, inner: Value)
    | Vector(items: seq<Value>)

  /** A non-null exception. `End` is the one CVPromise and StatePromise raise themselves. */
  datatype Error = End | Thrown(kind: nat, detail: int)

  datatype Outcome = Resolved(value: Value) | Rejected(error: Error)
}
