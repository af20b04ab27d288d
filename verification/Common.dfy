/** Datatypes shared by the modules of the model. */
module Common {
  datatype Option<+T> = None | Some(value: T)

  /** The outcome of a service call: the error value says which branch of the source returned it. */
  datatype Result<+T, +E> = Ok(value: T) | Err(error: E)

  function Max(a: int, b: int): int { if a < b then b else a }

  function Min(a: int, b: int): int { if a < b then a else b }

  /** The numbers below n. */
  function Below(n: nat): (r: set<nat>)
    ensures |r| == n && forall i: nat :: i in r <==> i < n
  {
    if n == 0 then {} else Below(n - 1) + {n - 1}
  }

  /** A smaller factor makes a product smaller by at least the other factor. */
  lemma MulStrict(c: int, a: int, b: int)
    requires c > 0 && a < b
    ensures c * a + c <= c * b
  {
    var k := b - a - 1;
    assert c * b == c * a + c + c * k;
  }
}
