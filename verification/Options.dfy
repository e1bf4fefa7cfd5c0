/** What every module uses: the carriers for optional values and error unions, and the smaller and
    larger of two numbers. */
module Options {
  datatype Option<+T> = None | Some(value: T)

  datatype Result<+T, +E> = Ok(value: T) | Err(error: E)

  function Max(a: nat, b: nat): nat {
    if a < b then b else a
  }

  function Min(a: int, b: int): (r: int)
    ensures 0 <= a && 0 <= b ==> 0 <= r
  {
    if a < b then a else b
  }

  lemma MinIs(a: nat, b: nat)
    ensures Min(a, b) == if a < b then a else b
  {
  }
}
