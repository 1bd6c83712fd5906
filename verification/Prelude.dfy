/** Small value types and arithmetic shared by the other modules. */
module Prelude {

  datatype Option<+T> = None | Some(value: T)

  function MinReal(a: real, b: real): real {
    if a <= b then a else b
  }

  function MaxReal(a: real, b: real): real {
    if a >= b then a else b
  }

  function AbsReal(a: real): real {
    if a >= 0.0 then a else -a
  }

  /** An interval of this width cut in half n times over: what n bisection steps leave. */
  function Halved(width: real, n: nat): real
    decreases n
  {
    if n == 0 then width else Halved(width / 2.0, n - 1)
  }

  function Pow2(n: nat): (r: real)
    ensures r >= 1.0
  {
    if n == 0 then 1.0 else 2.0 * Pow2(n - 1)
  }

  lemma {:induction false} HalvedIsDivision(width: real, n: nat)
    ensures Halved(width, n) * Pow2(n) == width
    ensures width > 0.0 ==> Halved(width, n) > 0.0
    decreases n
  {
    if n > 0 {
      HalvedIsDivision(width / 2.0, n - 1);
      var h, p := Halved(width, n), Pow2(n - 1);
      assert h * (2.0 * p) == 2.0 * (h * p);
    }
  }
}
