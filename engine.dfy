/** The calculator component as an object: the seven state cells are
    fields, and each click handler is a method that reads the cells as they
    were when the click arrived and then overwrites them one by one. */
module Engine {
  import opened Values
  import opened Transitions

  class Calculator {
    const ar: Arith
    var currentValue: Num
    var operator: Option<Op>
    var inputValue: string
    var waitingForOperand: bool
    var displayExpression: string
    var history: seq<string>
    var showHistory: bool

    /** The cells as one value. */
    function Snapshot(): State
      reads this
    {
      State(currentValue, operator, inputValue, waitingForOperand,
            displayExpression, history, showHistory)
    }

    constructor (ar: Arith)
      ensures this.ar == ar
      ensures Snapshot() == Initial()
    {
      this.ar := ar;
      currentValue := Zero;
      operator := None;
      inputValue := "0";
      waitingForOperand := false;
      displayExpression := "0";
      history := [];
      showHistory := false;
    }

    method HandleNumberClick(number: Digit)
      modifies this
      ensures Snapshot() == NumberClick(ar, old(Snapshot()), number)
    {
      var text := [DigitChar(number)];
      if waitingForOperand {
        inputValue := text;
        if operator.Some? && currentValue != Zero {
          displayExpression := ar.show(currentValue) + " " + Symbol(operator.value) + " " + text;
        } else {
          displayExpression := text;
        }
        waitingForOperand := false;
      } else {
        var newInputValue := if inputValue == "0" then text else inputValue + text;
        inputValue := newInputValue;
        if operator.Some? && currentValue != Zero {
          displayExpression := ar.show(currentValue) + " " + Symbol(operator.value) + " " + newInputValue;
        } else {
          displayExpression := newInputValue;
        }
      }
    }

    method HandleOperatorClick(nextOperator: Op)
      modifies this
      ensures Snapshot() == OperatorClick(ar, old(Snapshot()), nextOperator)
    {
      var inputValueNumber := ar.parse(inputValue);
      if currentValue == Zero {
        currentValue := inputValueNumber;
        displayExpression := ar.show(inputValueNumber) + " " + Symbol(nextOperator);
      } else if operator.Some? {
        var currentValueNumber := OrZero(currentValue);
        var result := ar.apply(operator.value, currentValueNumber, inputValueNumber);
        history := history + [Record(ar, currentValueNumber, operator.value, inputValueNumber)];
        currentValue := result;
        inputValue := ar.show(result);
        displayExpression := ar.show(result) + " " + Symbol(nextOperator);
      } else {
        displayExpression := ar.show(inputValueNumber) + " " + Symbol(nextOperator);
      }
      waitingForOperand := true;
      operator := Some(nextOperator);
    }

    method HandleEqualsClick()
      modifies this
      ensures Snapshot() == EqualsClick(ar, old(Snapshot()))
    {
      var inputValueNumber := ar.parse(inputValue);
      if operator.Some? {
        var currentValueNumber := OrZero(currentValue);
        var result := ar.apply(operator.value, currentValueNumber, inputValueNumber);
        inputValue := ar.show(result);
        history := history + [Record(ar, currentValueNumber, operator.value, inputValueNumber)];
        displayExpression := ar.show(result);
        currentValue := Zero;
        operator := None;
        waitingForOperand := true;
      }
    }

    method HandleClearClick()
      modifies this
      ensures Snapshot() == ClearClick(old(Snapshot()))
    {
      inputValue := "0";
      displayExpression := "0";
      currentValue := Zero;
      operator := None;
      waitingForOperand := false;
    }

    method HandleClearAllClick()
      modifies this
      ensures Snapshot() == ClearAllClick(old(Snapshot()))
    {
      inputValue := "0";
      displayExpression := "0";
      currentValue := Zero;
      operator := None;
      waitingForOperand := false;
      history := [];
    }

    method HandleDecimalClick()
      modifies this
      ensures Snapshot() == DecimalClick(ar, old(Snapshot()))
    {
      if '.' !in inputValue {
        if waitingForOperand {
          inputValue := "0.";
          if operator.Some? && currentValue != Zero {
            displayExpression := ar.show(currentValue) + " " + Symbol(operator.value) + " 0.";
          } else {
            displayExpression := "0.";
          }
          waitingForOperand := false;
        } else {
          var newInputValue := inputValue + ".";
          inputValue := newInputValue;
          if operator.Some? && currentValue != Zero {
            displayExpression := ar.show(currentValue) + " " + Symbol(operator.value) + " " + newInputValue;
          } else {
            displayExpression := newInputValue;
          }
        }
      }
    }

    method ViewHistory()
      modifies this
      ensures Snapshot() == ViewHistoryClick(old(Snapshot()))
    {
      showHistory := !showHistory;
    }
  }
}
