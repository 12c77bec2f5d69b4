/**
 * The DummyToken contract's `multiply(a, b)`: the product of two signed
 * integers. Integers are unbounded here (no 256-bit overflow).
 */
module DummyToken {

  function Abs(a: int): nat
  {
    if a < 0 then -a else a
  }

  /** `multiply(a, b)`: its sign follows the sign rule, its magnitude is the product of magnitudes. */
  function Multiply(a: int, b: int): (r: int)
    ensures r == 0 <==> a == 0 || b == 0
    ensures r > 0 <==> (a > 0 && b > 0) || (a < 0 && b < 0)
    ensures r < 0 <==> (a > 0 && b < 0) || (a < 0 && b > 0)
    ensures Abs(r) == Abs(a) * Abs(b)
  {
    a * b
  }

  /** `a` added to itself `n` times: multiplication from first principles. */
  function RepeatedSum(a: int, n: nat): int
  {
    if n == 0 then 0 else RepeatedSum(a, n - 1) + a
  }

  /** `multiply` agrees with repeated addition, with the sign of `b` applied at the end. */
  lemma {:induction false} MultiplyIsRepeatedSum(a: int, b: int)
    ensures Multiply(a, b) == if b >= 0 then RepeatedSum(a, b) else -RepeatedSum(a, -b)
  {
    var n: nat := Abs(b);
    RepeatedSumIsProduct(a, n);
  }

  lemma {:induction false} RepeatedSumIsProduct(a: int, n: nat)
    ensures RepeatedSum(a, n) == a * n
  {
    if n > 0 {
      RepeatedSumIsProduct(a, n - 1);
      assert a * n == a * (n - 1) + a;
    }
  }

  /** `multiply` does not depend on the order of its arguments. */
  lemma MultiplyCommutes(a: int, b: int)
    ensures Multiply(a, b) == Multiply(b, a)
  {
  }

  /** The values the test suite checks. */
  lemma MultiplyExamples()
    ensures Multiply(5, 10) == 50
    ensures Multiply(5, -10) == -50
    ensures Multiply(5, 0) == 0
    ensures Multiply(1000, 2000) == 2000000
  {
  }
}
