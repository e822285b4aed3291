/** Option and Result: the model's stand-ins for Python's None and for raised exceptions; map extensionality. */
module Wrappers {

  datatype Option<+T> = None | Some(value: T)

  /** Ok carries the value a Python function returns; Err the exception it raises. */
  datatype Result<+T, +E> = Ok(value: T) | Err(error: E) {
    predicate IsFailure() { Err? }

    function PropagateFailure<U>(): Result<U, E>
      requires Err?
    {
      Err(error)
    }

    function Extract(): T
      requires Ok?
    {
      value
    }
  }

  /** Two maps with the same keys and the same value at every key are equal. */
  lemma SameMap<K, V>(a: map<K, V>, b: map<K, V>)
    requires a.Keys == b.Keys && forall k :: k in a ==> a[k] == b[k]
    ensures a == b
  {
  }
}
