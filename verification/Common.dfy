/** Small vocabulary shared by the engine models. */
module Common {

  datatype Option<+T> = None | Some(value: T)

  /** Map lookup in the style of the original's `Map.get`. */
  function Lookup<K, V>(m: map<K, V>, k: K): Option<V> {
    if k in m then Some(m[k]) else None
  }

  function MinInt(a: int, b: int): int {
    if a <= b then a else b
  }

  function MaxInt(a: int, b: int): int {
    if a >= b then a else b
  }

  function MinReal(a: real, b: real): real {
    if a <= b then a else b
  }

  function MaxReal(a: real, b: real): real {
    if a >= b then a else b
  }

  function AbsReal(a: real): real {
    if a < 0.0 then -a else a
  }

  function Pow2(n: nat): (p: nat)
    ensures p >= 1
  {
    if n == 0 then 1 else 2 * Pow2(n - 1)
  }

  /** `Math.round`: halves go up. */
  function Round(x: real): (r: int)
    ensures x - 0.5 < r as real <= x + 0.5
  {
    (x + 0.5).Floor
  }

  lemma MulMono(p: real, a: real, b: real)
    requires p >= 0.0 && a <= b
    ensures p * a <= p * b
  {
  }

  lemma MulMonoStrict(p: real, a: real, b: real)
    requires p > 0.0 && a < b
    ensures p * a < p * b
  {
  }

  lemma MulNonneg(a: int, b: int)
    requires a >= 0 && b >= 0
    ensures a * b >= 0
  {
  }

  lemma SmallMultiple(d: int, e: int)
    requires d >= 1
    ensures -d < d * e < d ==> e == 0
  {
    if e >= 1 {
      assert d * e >= d;
    } else if e <= -1 {
      assert d * e <= -d;
    }
  }

  lemma DivUnique(a: int, d: int, x: int, r: int)
    requires d >= 1 && a == d * x + r && 0 <= r < d
    ensures a / d == x && a % d == r
  {
    assert a == d * (a / d) + a % d;
    assert d * (a / d - x) == r - a % d;
    SmallMultiple(d, a / d - x);
  }
}
