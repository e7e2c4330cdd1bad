/** The few JavaScript notions the migration scripts rely on: values that keep
    `undefined` and `null` apart, truthiness, and normal-or-throw completion. */
module Js {

  /** A JavaScript value as far as the scripts inspect it. */
  datatype JsVal = Undefined | Null | Num(n: real) | Str(s: string)

  /** JavaScript truthiness: `undefined`, `null`, `0` and `""` are falsy. */
  predicate Truthy(v: JsVal) {
    match v
    case Undefined => false
    case Null => false
    case Num(n) => n != 0.0
    case Str(s) => s != ""
  }

  /** Truthiness of an optional string property (`undefined` when absent). */
  predicate TruthyText(t: Option<string>) {
    t.Some? && t.value != ""
  }

  datatype Option<+T> = None | Some(value: T)

  /** The outcome of evaluating JavaScript code: a value, or an exception
      (a TypeError from a property read on `undefined`). */
  datatype Completion<+T> = Normal(value: T) | Thrown {

    predicate IsFailure() {
      Thrown?
    }

    function PropagateFailure<U>(): Completion<U>
      requires Thrown?
    {
      Thrown
    }

    function Extract(): T
      requires Normal?
    {
      value
    }
  }

  /** Appending to an array (or a string) is associative. */
  lemma ConcatAssoc<T>(a: seq<T>, b: seq<T>, c: seq<T>)
    ensures (a + b) + c == a + (b + c)
  {
  }
}
