/** Click sequences worked through on a Calculator object. Each states
    what parseFloat, the number-to-string conversion and the arithmetic
    give for the few values involved, and derives the display and the
    history the handlers then produce. */
module Scenarios {
  import opened Values
  import opened Transitions
  import opened Engine

  /** 1 + 1 + 1 = : the second '+' completes "1 + 1" and chains on its
      result, and '=' completes "2 + 1". */
  method ChainedAddition(ar: Arith) returns (display: string, history: seq<string>)
    requires ar.parse("1") == Finite(1.0)
    requires ar.apply(Plus, Finite(1.0), Finite(1.0)) == Finite(2.0)
    requires ar.apply(Plus, Finite(2.0), Finite(1.0)) == Finite(3.0)
    requires ar.show(Finite(1.0)) == "1" && ar.show(Finite(2.0)) == "2" && ar.show(Finite(3.0)) == "3"
    ensures display == "3"
    ensures history == ["1 + 1 = 2", "2 + 1 = 3"]
  {
    var c := new Calculator(ar);
    c.HandleNumberClick(1);
    c.HandleOperatorClick(Plus);
    c.HandleNumberClick(1);
    assert c.displayExpression == "1 + 1";
    c.HandleOperatorClick(Plus);
    assert c.displayExpression == "2 +";
    assert c.history == [Record(ar, Finite(1.0), Plus, Finite(1.0))];
    assert Record(ar, Finite(1.0), Plus, Finite(1.0)) == "1 + 1 = 2";
    c.HandleNumberClick(1);
    assert c.displayExpression == "2 + 1";
    c.HandleEqualsClick();
    assert c.history == ["1 + 1 = 2", Record(ar, Finite(2.0), Plus, Finite(1.0))];
    assert Record(ar, Finite(2.0), Plus, Finite(1.0)) == "2 + 1 = 3";
    display, history := c.displayExpression, c.history;
  }

  /** 9 ÷ 2 = shows 4.5; a '.' pressed next is ignored because the result
      text already holds one, and the next digit starts a new operand. */
  method DivisionThenDecimal(ar: Arith) returns (display: string, history: seq<string>, buffer: string)
    requires ar.parse("9") == Finite(9.0) && ar.parse("2") == Finite(2.0)
    requires ar.apply(Divide, Finite(9.0), Finite(2.0)) == Finite(4.5)
    requires ar.show(Finite(9.0)) == "9" && ar.show(Finite(2.0)) == "2" && ar.show(Finite(4.5)) == "4.5"
    ensures display == "4.5"
    ensures history == ["9 \U{00F7} 2 = 4.5"]
    ensures buffer == "7"
  {
    var c := new Calculator(ar);
    c.HandleNumberClick(9);
    c.HandleOperatorClick(Divide);
    c.HandleNumberClick(2);
    c.HandleEqualsClick();
    assert c.history == [Record(ar, Finite(9.0), Divide, Finite(2.0))];
    assert Record(ar, Finite(9.0), Divide, Finite(2.0)) == "9 \U{00F7} 2 = 4.5";
    c.HandleDecimalClick();
    display, history := c.displayExpression, c.history;
    c.HandleNumberClick(7);
    buffer := c.inputValue;
  }

  /** 5 ÷ 0 = : the infinite quotient goes unchecked into the display and
      the history. */
  method DivisionByZero(ar: Arith) returns (display: string, history: seq<string>)
    requires ar.parse("5") == Finite(5.0) && ar.parse("0") == Zero
    requires ar.apply(Divide, Finite(5.0), Zero) == Infinity(false)
    requires ar.show(Finite(5.0)) == "5" && ar.show(Zero) == "0" && ar.show(Infinity(false)) == "Infinity"
    ensures display == "Infinity"
    ensures history == ["5 \U{00F7} 0 = Infinity"]
  {
    var c := new Calculator(ar);
    c.HandleNumberClick(5);
    c.HandleOperatorClick(Divide);
    c.HandleNumberClick(0);
    assert c.displayExpression == "5 \U{00F7} 0";
    c.HandleEqualsClick();
    assert c.history == [Record(ar, Finite(5.0), Divide, Zero)];
    assert Record(ar, Finite(5.0), Divide, Zero) == "5 \U{00F7} 0 = Infinity";
    display, history := c.displayExpression, c.history;
  }

  /** 5 - 5 - 3 + : the chained result 0 lands in the zero sentinel, so
      the display drops "0 -" while 3 is typed, and the '+' takes 3 as a
      fresh left operand; the pending "0 - 3" is never evaluated or logged. */
  method ZeroIntermediateResult(ar: Arith) returns (display: string, history: seq<string>, left: Num)
    requires ar.parse("5") == Finite(5.0) && ar.parse("3") == Finite(3.0)
    requires ar.apply(Minus, Finite(5.0), Finite(5.0)) == Zero
    requires ar.show(Finite(5.0)) == "5" && ar.show(Zero) == "0" && ar.show(Finite(3.0)) == "3"
    ensures display == "3 +"
    ensures history == ["5 - 5 = 0"]
    ensures left == Finite(3.0)
  {
    var c := new Calculator(ar);
    c.HandleNumberClick(5);
    c.HandleOperatorClick(Minus);
    c.HandleNumberClick(5);
    c.HandleOperatorClick(Minus);
    assert c.history == [Record(ar, Finite(5.0), Minus, Finite(5.0))];
    assert Record(ar, Finite(5.0), Minus, Finite(5.0)) == "5 - 5 = 0";
    assert c.displayExpression == "0 -";
    c.HandleNumberClick(3);
    assert c.displayExpression == "3";
    c.HandleOperatorClick(Plus);
    display, history, left := c.displayExpression, c.history, c.currentValue;
  }
}
