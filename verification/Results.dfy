/** What the fallible operations return, the bound of their 64-bit arithmetic, and facts about products. */
module Results {
  datatype Option<+T> = None | Some(value: T)

  datatype Result<T> = Ok(value: T) | Err

  const U64_MAX: nat := 0xFFFF_FFFF_FFFF_FFFF

  lemma Divides(x: nat, b: nat)
    requires 0 < b
    ensures (x / b) * b <= x < (x / b) * b + b
  {
    assert x == (x / b) * b + x % b;
  }

  lemma Scale(a: nat, b: nat, m: nat)
    requires a <= b
    ensures a * m <= b * m
  {}
}
