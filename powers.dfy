/** Natural-number powers over exact reals, standing in for Python's `x ** n`
    with a non-negative integer exponent. */
module Powers {

  /** `x` raised to the natural power `n`. As in Python, `0.0 ** 0` is one. */
  function Pow(x: real, n: nat): (r: real)
    ensures r == 0.0 <==> x == 0.0 && n > 0
    ensures x >= 0.0 ==> r >= 0.0
  {
    if n == 0 then 1.0 else x * Pow(x, n - 1)
  }

  /** Any power of one is one. */
  lemma {:induction false} PowOne(n: nat)
    ensures Pow(1.0, n) == 1.0
  {
    if n > 0 {
      PowOne(n - 1);
    }
  }
}
