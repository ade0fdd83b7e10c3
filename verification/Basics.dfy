/** Shared vocabulary. */
module Basics {

  datatype Option<T> = None | Some(value: T)

  function Max(a: int, b: int): int { if a >= b then a else b }

  function Min(a: int, b: int): int { if a <= b then a else b }

  lemma {:induction false} MulBelow(u: nat, w: nat, n: nat)
    requires u < w
    ensures 0 <= u * n && (n > 0 ==> u * n < w * n)
  {
    if n > 1 {
      MulBelow(u, w, n - 1);
      assert u * n == u * (n - 1) + u && w * n == w * (n - 1) + w;
    }
  }
}
