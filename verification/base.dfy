/** Small failure-carrying datatypes shared by every module of the model. */
module Base {

  /** An optional value: a cache hit, a row found by primary key. */
  datatype Option<+T> = None | Some(value: T)

  function Max(a: int, b: int): (m: int)
    ensures m >= a && m >= b
    ensures m == a || m == b
  {
    if a < b then b else a
  }
}
