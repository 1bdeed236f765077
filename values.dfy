/** The values the calculator component works with: JavaScript numbers, the
    four operators, keypad digits, and the three number primitives its
    handlers rely on (parseFloat, Number-to-string conversion and the
    arithmetic operators), which the model leaves uninterpreted. */
module Values {

  datatype Option<+T> = None | Some(value: T)

  /** The operators of the four operator buttons. */
  datatype Op = Plus | Minus | Times | Divide

  /** The symbol an operator is stored as and shown with. */
  function Symbol(op: Op): (r: string)
    ensures |r| == 1
  {
    match op
    case Plus => "+"
    case Minus => "-"
    case Times => "\U{00D7}"
    case Divide => "\U{00F7}"
  }

  /** Distinct operators are shown with distinct symbols, so a stored or
      displayed symbol names its operator. */
  lemma SymbolInjective(a: Op, b: Op)
    ensures Symbol(a) == Symbol(b) ==> a == b
  {
  }

  /** A JavaScript number: finite, an infinity, or NaN. Positive and
      negative zero are the same value here. */
  datatype Num = Finite(value: real) | Infinity(negative: bool) | NaN

  const Zero: Num := Finite(0.0)

  /** `x || 0`: a falsy number (zero or NaN) is replaced by zero, any
      other number is kept. */
  function OrZero(x: Num): (r: Num)
    ensures r != NaN
    ensures r == Zero <==> x == Zero || x == NaN
    ensures x != Zero && x != NaN ==> r == x
  {
    if x == Zero || x == NaN then Zero else x
  }

  /** The number primitives: `parse` is parseFloat, `show` converts a
      number to its string form, `apply` evaluates one operator. They are
      parameters, so everything proved holds whatever they compute. */
  datatype Arith = Arith(
    parse: string -> Num,
    show: Num -> string,
    apply: (Op, Num, Num) -> Num)

  /** The argument of a digit button. */
  type Digit = d: int | 0 <= d <= 9

  /** The one character of `number.toString()` for a digit. */
  function DigitChar(d: Digit): (c: char)
    ensures '0' <= c <= '9'
    ensures c == '0' <==> d == 0
  {
    (('0' as int) + d) as char
  }

  /** `x` is a prefix of `t`. */
  predicate StartsWith(t: string, x: string) {
    |x| <= |t| && t[..|x|] == x
  }

  /** `x` is a suffix of `t`. */
  predicate EndsWith(t: string, x: string) {
    |x| <= |t| && t[|t| - |x|..] == x
  }

  /** The history line `a op b = result` for one completed operation: the
      three numbers' texts, the symbol, and six characters of spacing and
      `=` between them. */
  function Record(ar: Arith, a: Num, op: Op, b: Num): (r: string)
    ensures |r| == |ar.show(a)| + |ar.show(b)| + |ar.show(ar.apply(op, a, b))| + 6
  {
    ar.show(a) + " " + Symbol(op) + " " + ar.show(b) + " = " + ar.show(ar.apply(op, a, b))
  }

  /** A history line opens with the left operand and the operator's
      symbol, and closes with the result of applying the operator to the
      two operands. */
  lemma RecordShape(ar: Arith, a: Num, op: Op, b: Num)
    ensures var r := Record(ar, a, op, b);
      && StartsWith(r, ar.show(a) + " " + Symbol(op) + " ")
      && EndsWith(r, " = " + ar.show(ar.apply(op, a, b)))
  {
  }
}
