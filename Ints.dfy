/** Integer helpers shared by the drawing modules: absolute value, the C++
    unsigned 32-bit wrap, and the monotonicity facts about products that the
    solver does not find on its own. */
module Ints {

  /** One more than the largest `u32`. */
  const U32_LIMIT: int := 0x1_0000_0000

  function Abs(n: int): (r: nat)
    ensures r == n || r == -n
  {
    if n < 0 then -n else n
  }

  function Max(a: int, b: int): (r: int)
    ensures r >= a && r >= b && (r == a || r == b)
  {
    if a >= b then a else b
  }

  function Min(a: int, b: int): (r: int)
    ensures r <= a && r <= b && (r == a || r == b)
  {
    if a <= b then a else b
  }

  /** Conversion of an integer value to `u32` (reduction modulo 2^32). */
  function U32(n: int): (r: int)
    ensures 0 <= r < U32_LIMIT
    ensures 0 <= n < U32_LIMIT ==> r == n
  {
    n % U32_LIMIT
  }

  /** One more than the largest `size_t` (64-bit). */
  const SIZE_LIMIT: int := 0x1_0000_0000_0000_0000

  /** Conversion of an integer value to `size_t`: a negative `i32` becomes
      a value of at least 2^63. */
  function SizeT(n: int): (r: int)
    ensures 0 <= r < SIZE_LIMIT
    ensures 0 <= n < SIZE_LIMIT ==> r == n
    ensures -SIZE_LIMIT / 2 <= n < 0 ==> r >= SIZE_LIMIT / 2
  {
    n % SIZE_LIMIT
  }

  /** `a * b <= a * c` for a non-negative factor `a` and `b <= c`. */
  lemma {:induction false} MulMonotone(a: nat, b: int, c: int)
    requires b <= c
    ensures a * b <= a * c
  {
    if a > 0 {
      MulMonotone(a - 1, b, c);
      assert a * b == (a - 1) * b + b;
      assert a * c == (a - 1) * c + c;
    }
  }

  /** A strictly larger factor gives a product larger by at least `a`. */
  lemma MulStrict(a: nat, b: int, c: int)
    requires b < c
    ensures a * b + a <= a * c
  {
    MulMonotone(a, b + 1, c);
    assert a * (b + 1) == a * b + a;
  }

  /** One more row of width a. */
  lemma MulSucc(a: int, b: int)
    ensures a * (b + 1) == a * b + a
  {
  }

  /** Row-major decomposition: cell x + y * w of a w-wide grid is column x
      of row y. */
  lemma DivMod(x: nat, y: nat, w: nat)
    requires x < w
    ensures (x + y * w) % w == x && (x + y * w) / w == y
  {
    var q, r := (x + y * w) / w, (x + y * w) % w;
    assert q * w + r == x + y * w;
    if q < y {
      MulStrict(w, q, y);
      assert false;
    } else if q > y {
      MulStrict(w, y, q);
      assert false;
    }
  }
}
