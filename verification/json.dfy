/** JSON documents as seen by the projection engine, the engine's single
    error kind, and the plain-or-distributed wrapper that resolver and
    evaluator thread through their results. */
module Json {

  /** A JSON-compatible document. `Absent` stands for both JavaScript
      `undefined` and `null`: the engine treats them alike. */
  datatype Value =
    | Absent
    | Bool(b: bool)
    | Num(n: int)
    | Str(s: string)
    | Arr(items: seq<Value>)
    | Obj(fields: map<string, Value>)

  /** Property read `v[key]` on a value that is present. Objects answer with
      the stored member or `Absent`; every other present value has no own
      properties in this model, so the read yields `Absent`. */
  function Field(v: Value, key: string): (r: Value)
    requires !v.Absent?
    ensures v.Obj? && key in v.fields ==> r == v.fields[key]
    ensures !(v.Obj? && key in v.fields) ==> r.Absent?
  {
    match v
    case Obj(m) => if key in m then m[key] else Absent
    case _ => Absent
  }

  /** The failures that abort a whole transformation. */
  datatype Error =
      /** A required field was read from an absent base. */
    | Deref(field: string)
      /** A `[]` marker met a value that is not an array. */
    | NotArray(field: string)

  /** The host's diagnostic for a dereference error. */
  function Message(e: Error): (msg: string)
    ensures e.Deref? ==> |msg| == 36 + |e.field|
    ensures e.Deref? ==> msg[..22] == "Cannot read property '"
    ensures e.Deref? ==> msg[22..|msg| - 14] == e.field
    ensures e.Deref? ==> msg[|msg| - 14..] == "' of undefined"
  {
    match e
    case Deref(k) => "Cannot read property '" + k + "' of undefined"
    case NotArray(k) => "Cannot flatten '" + k + "': not an array"
  }

  datatype Option<+T> = None | Some(value: T)

  /** Either a result or the error that aborted the computation. */
  datatype Result<+T> = Ok(value: T) | Err(error: Error) {
    predicate IsFailure() {
      Err?
    }

    function PropagateFailure<U>(): Result<U>
      requires Err?
    {
      Err(error)
    }

    function Extract(): T
      requires Ok?
    {
      value
    }
  }

  /** A resolved value, or the per-element results of a broadcast that an
      explicit `[]` marker started. The tag, not the shape of the value,
      decides whether later template stages run per element. */
  datatype Scoped = Plain(value: Value) | Distributed(elements: seq<Value>)

  /** Distribution is internal: at an output key or at the top level a
      broadcast result becomes an ordinary array. */
  function Unwrap(s: Scoped): (v: Value)
    ensures s.Distributed? ==> v.Arr? && v.items == s.elements
    ensures s.Plain? ==> v == s.value
  {
    match s
    case Plain(v) => v
    case Distributed(xs) => Arr(xs)
  }
}
