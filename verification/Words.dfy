/** Shared vocabulary: options, lists, 64-bit words and the operators of the language. */
module Words {

  datatype Option<+T> = None | Some(value: T)

  datatype List<+T> = Nil | Cons(head: T, tail: List<T>)

  function Length<T>(xs: List<T>): nat {
    match xs
    case Nil => 0
    case Cons(_, tail) => 1 + Length(tail)
  }

  // ----- 64-bit words -----

  // A register or a local is a 64-bit union. It is modelled by its signed reading; `.b` is the
  // low byte, which Dafny's (never negative) `%` gives for negative words as well.

  const I64_BOUND: int := 0x8000_0000_0000_0000

  predicate InI64(n: int) {
    -I64_BOUND <= n < I64_BOUND
  }

  type I64 = n: int | InI64(n)

  function LowByte(w: int): nat {
    w % 256
  }

  function BoolByte(b: bool): nat {
    if b then 1 else 0
  }

  /** Assigning to `.b` writes the low byte and leaves the seven others as they were. */
  function SetLowByte(w: int, b: bool): (r: int)
    ensures LowByte(r) == BoolByte(b)
    ensures r / 256 == w / 256
    ensures InI64(w) ==> InI64(r)
  {
    w - w % 256 + BoolByte(b)
  }

  // ----- division as C++ has it -----

  /** Truncation toward zero: the remainder has the sign of the dividend. */
  function TruncDiv(a: int, b: int): (q: int)
    requires b != 0
    ensures a >= 0 ==> 0 <= a - b * q < Abs(b)
    ensures a < 0 ==> -Abs(b) < a - b * q <= 0
  {
    if a >= 0 then a / b else -((-a) / b)
  }

  function Abs(n: int): int {
    if n < 0 then -n else n
  }

  function TruncMod(a: int, b: int): int
    requires b != 0
  {
    a - b * TruncDiv(a, b)
  }

  // ----- operators -----

  datatype Oper =
    | Add | Sub | Mul | Div | Mod | Pow
    | Ge | Lt | Le | Gt | Eq | Ne
    | And | Or

  predicate IsArith(op: Oper) {
    op.Add? || op.Sub? || op.Mul? || op.Div? || op.Mod? || op.Pow?
  }

  predicate IsCompare(op: Oper) {
    op.Ge? || op.Lt? || op.Le? || op.Gt? || op.Eq? || op.Ne?
  }

  /** Signed 64-bit arithmetic; None where C++ leaves the result undefined (overflow, division by
      zero). POW works on the floating-point reading of a register and is not modelled. */
  function Arith(op: Oper, a: int, b: int): (r: Option<int>)
    requires IsArith(op)
    ensures r.Some? ==> InI64(r.value)
  {
    match op
    case Add => Checked(a + b)
    case Sub => Checked(a - b)
    case Mul => Checked(a * b)
    case Div => if b == 0 then None else Checked(TruncDiv(a, b))
    case Mod => if b == 0 || !InI64(TruncDiv(a, b)) then None else Checked(TruncMod(a, b))
    case Pow => None
  }

  function Checked(n: int): Option<int> {
    if InI64(n) then Some(n) else None
  }

  predicate Compare(op: Oper, a: int, b: int)
    requires IsCompare(op)
  {
    match op
    case Ge => a >= b
    case Lt => a < b
    case Le => a <= b
    case Gt => a > b
    case Eq => a == b
    case Ne => a != b
  }
}
