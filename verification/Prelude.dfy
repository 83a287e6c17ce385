/** What several modules share. */
module Prelude {
  datatype Option<+T> = None | Some(value: T)

  lemma Assoc<T>(a: seq<T>, b: seq<T>, c: seq<T>)
    ensures a + b + c == a + (b + c)
  {
  }

  lemma Grows(d: int, n: int)
    requires d >= 0 && n >= 1
    ensures d * n >= d
  {
  }

  /** Quotient and remainder are what they must be. */
  lemma DivUnique(a: int, d: int, q: int, r: int)
    requires d > 0 && a == d * q + r && 0 <= r < d
    ensures a / d == q && a % d == r
  {
    var t := a / d;
    assert d * t == d * q + d * (t - q) && d * q == d * t + d * (q - t);
    if t > q { Grows(d, t - q); }
    if t < q { Grows(d, q - t); }
  }
}
