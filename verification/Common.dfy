/** Types and small functions shared by every module, the source's `Option` and `Result` among them. */
module Common {

  datatype Option<+T> = None | Some(value: T)

  /** A computed value, or the reason the source gives for refusing. */
  datatype Result<+T> = Ok(value: T) | Err(reason: string)

  function Min(a: nat, b: nat): nat {
    if a < b then a else b
  }

  function Max(a: nat, b: nat): nat {
    if a < b then b else a
  }

  predicate NoRepeats<T(==)>(s: seq<T>) {
    forall i, j :: 0 <= i < j < |s| ==> s[i] != s[j]
  }
}
