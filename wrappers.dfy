/** Optional values and results with an error, used for the source's `None`
    returns and for the Python exceptions that abort a decision or a tick. */
module Wrappers {

  datatype Option<+T> = None | Some(value: T)

  /** The Python exceptions the modelled code can raise on ordinary inputs;
      IntegrityError is the database's refusal of a NULL in a NOT NULL column,
      AttributeError a method called on None. */
  datatype Exception = ZeroDivisionError | IndexError | KeyError | TypeError | IntegrityError | AttributeError

  datatype Result<+T> = Ok(value: T) | Raise(error: Exception)
}

/** Python's numeric built-ins that the modelled code relies on. */
module PyNum {

  /** Python's `int()` applied to a float: truncation toward zero. */
  function Trunc(x: real): (r: int)
    ensures x >= 0.0 ==> 0 <= r && r as real <= x < r as real + 1.0
    ensures x < 0.0 ==> r <= 0 && r as real - 1.0 < x <= r as real
  {
    if x >= 0.0 then x.Floor else -((-x).Floor)
  }

  function Abs(x: real): (r: real)
    ensures r >= 0.0 && (r == x || r == -x)
  {
    if x < 0.0 then -x else x
  }

  function Min(a: real, b: real): (r: real)
    ensures r <= a && r <= b && (r == a || r == b)
  {
    if a > b then b else a
  }

  /** `pow(b, k)` for a natural exponent. */
  function Pow(b: real, k: nat): (r: real)
    ensures b > 0.0 ==> r > 0.0
    ensures b >= 0.0 ==> r >= 0.0
    ensures b >= 0.0 && b <= 1.0 ==> r <= 1.0
  {
    if k == 0 then 1.0
    else
      var p := Pow(b, k - 1);
      assert b >= 0.0 && b <= 1.0 ==> b * p <= 1.0 * p;
      b * p
  }
}
