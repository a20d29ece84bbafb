/**
 Dynamically typed cell values of the Python sweep scripts: a parameter
 dictionary and a CSV row map column names to ints, floats or strings.
 */
module Values {

  datatype Value = VInt(i: int) | VReal(x: real) | VStr(s: string)
  {
    /** Python ints and floats compare with each other numerically; strings do not. */
    predicate IsNum() { VInt? || VReal? }

    function Num(): (n: real)
      requires IsNum()
      ensures VInt? ==> n == i as real
      ensures VReal? ==> n == x
    {
      if VInt? then i as real else x
    }
  }

  /** A parameter dictionary or a loaded CSV row. */
  type Row = map<string, Value>

  /** The column exists and holds a number, so Python can compare it. */
  predicate HasNum(r: Row, k: string)
  {
    k in r && r[k].IsNum()
  }

  function Get(r: Row, k: string): real
    requires HasNum(r, k)
  {
    r[k].Num()
  }

  /** Total accessor used inside key functions: the number in the column, or 0 when it is absent or not a number. */
  function NumOr0(r: Row, k: string): (n: real)
    ensures HasNum(r, k) ==> n == Get(r, k)
    ensures k !in r ==> n == 0.0
  {
    if k in r && r[k].IsNum() then r[k].Num() else 0.0
  }

  /** `r.get(k, 0)`: a missing column reads as 0. */
  predicate GetOrZeroOk(r: Row, k: string)
  {
    k !in r || r[k].IsNum()
  }

  function GetOrZero(r: Row, k: string): (n: real)
    requires GetOrZeroOk(r, k)
    ensures k !in r ==> n == 0.0
    ensures k in r ==> n == r[k].Num()
  {
    if k in r then r[k].Num() else 0.0
  }
}
