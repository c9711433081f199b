/** Facts about products, quotients and remainders the solver is not left to find. */
module Arith {

  lemma MulMono(a: int, b: int, c: int)
    requires a <= b && 0 <= c
    ensures a * c <= b * c
  {
  }

  /** Row i of width w ends before row o begins. */
  lemma RowsApart(i: int, o: int, w: int)
    requires i < o && 0 <= w
    ensures i * w + w <= o * w
  {
    MulMono(i + 1, o, w);
    assert (i + 1) * w == i * w + w;
  }

  /** A mixed-radix number has one pair of digits. */
  lemma Digits(q: int, r: int, w: int)
    requires 0 <= r < w
    ensures (q * w + r) / w == q && (q * w + r) % w == r
  {
    var n := q * w + r;
    if n / w < q { RowsApart(n / w, q, w); }
    if n / w > q { RowsApart(q, n / w, w); }
  }

  lemma DigitsInside(q: int, r: int, n: int, w: int)
    requires 0 <= q < n && 0 <= r < w
    ensures 0 <= q * w + r < n * w
  {
    RowsApart(q, n, w);
    MulMono(0, q, w);
  }

  /** Taking a number apart and putting it together. */
  lemma Recompose(n: int, w: int)
    requires 0 < w
    ensures n / w * w + n % w == n && 0 <= n % w < w
  {
  }

  lemma DivBelow(x: int, n: int, w: int)
    requires 0 < w && 0 <= x < n * w
    ensures 0 <= x / w < n
  {
    if x / w >= n { MulMono(n, x / w, w); }
  }

  function Pow2(n: nat): (p: nat)
    ensures 1 <= p
  {
    if n == 0 then 1 else 2 * Pow2(n - 1)
  }

  lemma {:induction false} Pow2Add(a: nat, b: nat)
    ensures Pow2(a + b) == Pow2(a) * Pow2(b)
  {
    if b > 0 {
      Pow2Add(a, b - 1);
      assert Pow2(a) * (2 * Pow2(b - 1)) == 2 * (Pow2(a) * Pow2(b - 1));
    }
  }

  lemma {:induction false} Pow2Mono(a: nat, b: nat)
    requires a <= b
    ensures Pow2(a) <= Pow2(b)
  {
    if a < b { Pow2Mono(a, b - 1); }
  }
}
