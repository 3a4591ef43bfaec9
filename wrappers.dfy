/** Optional values, exceptions-as-values and the failures the Java code can raise. */
module Wrappers {

  /** A Java reference that may be null: None stands for null. */
  datatype Option<+T> = None | Some(value: T) {
    function GetOr(default: T): T {
      match this
      case Some(v) => v
      case None => default
    }
  }

  /** The runtime exceptions the modelled code raises (uncaught ones end the run). */
  datatype Fault =
    | NullPointer         // NullPointerException
    | IllegalState        // IllegalStateException (ambiguous named lookup)
    | IllegalArgument     // IllegalArgumentException (Enum.valueOf of an unknown name)
    | IndexOutOfBounds    // ArrayIndexOutOfBoundsException / IndexOutOfBoundsException
    | EmptyStack          // java.util.EmptyStackException
    | StackOverflow       // unbounded recursion through template or group references
    | NumberFormat        // NumberFormatException (Integer.parseInt / Long.parseLong)
    | ApiError            // ApiException (a REST call answered with an error)

  /** A computation that either yields a value or raises a Fault. */
  datatype Result<+T> = Ok(value: T) | Err(fault: Fault) {
    predicate IsFailure() {
      Err?
    }

    function PropagateFailure<U>(): Result<U>
      requires Err?
    {
      Err(fault)
    }

    function Extract(): T
      requires Ok?
    {
      value
    }
  }

  /** Map lookup with Java's `Map.get` semantics: absent keys give null. */
  function Get<K, V>(m: map<K, V>, k: K): (r: Option<V>)
    ensures r.Some? <==> k in m
    ensures r.Some? ==> r.value == m[k]
  {
    if k in m then Some(m[k]) else None
  }
}
