/** The calculator's state and its seven click handlers as pure
    transitions: each reads the state as it was when the click arrived and
    gives the state after it. */
module Transitions {
  import opened Values

  /** The seven state cells of the component. A `currentValue` of zero
      doubles as "no left operand yet". */
  datatype State = State(
    currentValue: Num,
    operator: Option<Op>,
    inputValue: string,
    waitingForOperand: bool,
    displayExpression: string,
    history: seq<string>,
    showHistory: bool)

  /** The calculation cells at their initial values, with the given
      history and history visibility. */
  function Cleared(history: seq<string>, showHistory: bool): State {
    State(Zero, None, "0", false, "0", history, showHistory)
  }

  /** The state the component starts in. */
  function Initial(): State {
    Cleared([], false)
  }

  /** What the display shows while an operand is typed: the pending
      `value op` before the typed text when an operator is pending and the
      left operand is nonzero, the typed text alone otherwise. */
  function Expression(ar: Arith, s: State, typed: string): (r: string)
    ensures s.operator.None? || s.currentValue == Zero ==> r == typed
  {
    if s.operator.Some? && s.currentValue != Zero
    then ar.show(s.currentValue) + " " + Symbol(s.operator.value) + " " + typed
    else typed
  }

  /** The display text while typing always ends with the typed text; with
      a pending operator and a nonzero left operand it opens with that
      operand and the operator's symbol, three characters longer than the
      two parts. */
  lemma ExpressionShape(ar: Arith, s: State, typed: string)
    ensures EndsWith(Expression(ar, s, typed), typed)
    ensures s.operator.Some? && s.currentValue != Zero ==>
      var e := Expression(ar, s, typed);
      var pending := ar.show(s.currentValue) + " " + Symbol(s.operator.value) + " ";
      && StartsWith(e, pending)
      && |e| == |pending| + |typed|
  {
  }

  /** The result of applying the pending operator to the left operand and
      the parsed buffer, with the left operand's falsy values read as 0. */
  function Evaluate(ar: Arith, s: State): (r: Num)
    requires s.operator.Some?
    ensures s.currentValue == Zero || s.currentValue == NaN ==>
      r == ar.apply(s.operator.value, Zero, ar.parse(s.inputValue))
    ensures s.currentValue != Zero && s.currentValue != NaN ==>
      r == ar.apply(s.operator.value, s.currentValue, ar.parse(s.inputValue))
  {
    ar.apply(s.operator.value, OrZero(s.currentValue), ar.parse(s.inputValue))
  }

  /** The history line of the operation Evaluate completes, with the left
      operand's falsy values logged as 0. */
  function Completed(ar: Arith, s: State): (r: string)
    requires s.operator.Some?
    ensures s.currentValue == Zero || s.currentValue == NaN ==>
      r == Record(ar, Zero, s.operator.value, ar.parse(s.inputValue))
    ensures s.currentValue != Zero && s.currentValue != NaN ==>
      r == Record(ar, s.currentValue, s.operator.value, ar.parse(s.inputValue))
  {
    Record(ar, OrZero(s.currentValue), s.operator.value, ar.parse(s.inputValue))
  }

  /** The line logged for a completed operation opens with the left
      operand as used (falsy values read as 0) and the pending operator,
      and closes with the very value Evaluate stores and shows. */
  lemma CompletedShape(ar: Arith, s: State)
    requires s.operator.Some?
    ensures StartsWith(Completed(ar, s), ar.show(OrZero(s.currentValue)) + " " + Symbol(s.operator.value) + " ")
    ensures EndsWith(Completed(ar, s), " = " + ar.show(Evaluate(ar, s)))
  {
    RecordShape(ar, OrZero(s.currentValue), s.operator.value, ar.parse(s.inputValue));
  }

  /** handleNumberClick */
  function NumberClick(ar: Arith, s: State, number: Digit): (r: State)
    ensures !r.waitingForOperand
    ensures s.waitingForOperand ==> r.inputValue == [DigitChar(number)]
    ensures !s.waitingForOperand && s.inputValue == "0" ==> r.inputValue == [DigitChar(number)]
    ensures !s.waitingForOperand && s.inputValue != "0" ==> r.inputValue == s.inputValue + [DigitChar(number)]
    ensures r.displayExpression == Expression(ar, s, r.inputValue)
    ensures r.currentValue == s.currentValue && r.operator == s.operator
    ensures r.history == s.history && r.showHistory == s.showHistory
  {
    var text := [DigitChar(number)];
    if s.waitingForOperand then
      s.(inputValue := text, displayExpression := Expression(ar, s, text), waitingForOperand := false)
    else
      var newInputValue := if s.inputValue == "0" then text else s.inputValue + text;
      s.(inputValue := newInputValue, displayExpression := Expression(ar, s, newInputValue))
  }

  /** handleDecimalClick */
  function DecimalClick(ar: Arith, s: State): (r: State)
    ensures '.' in s.inputValue ==> r == s
    ensures '.' !in s.inputValue ==>
      && !r.waitingForOperand
      && r.inputValue == (if s.waitingForOperand then "0." else s.inputValue + ".")
      && r.displayExpression == Expression(ar, s, r.inputValue)
    ensures r.currentValue == s.currentValue && r.operator == s.operator
    ensures r.history == s.history && r.showHistory == s.showHistory
  {
    if '.' in s.inputValue then
      s
    else if s.waitingForOperand then
      s.(inputValue := "0.", displayExpression := Expression(ar, s, "0."), waitingForOperand := false)
    else
      var newInputValue := s.inputValue + ".";
      s.(inputValue := newInputValue, displayExpression := Expression(ar, s, newInputValue))
  }

  /** handleOperatorClick */
  function OperatorClick(ar: Arith, s: State, nextOperator: Op): (r: State)
    ensures r.waitingForOperand && r.operator == Some(nextOperator)
    ensures s.currentValue == Zero ==>
      && r.currentValue == ar.parse(s.inputValue)
      && r.inputValue == s.inputValue
      && r.history == s.history
      && r.displayExpression == ar.show(ar.parse(s.inputValue)) + " " + Symbol(nextOperator)
    ensures s.currentValue != Zero && s.operator.Some? ==>
      && r.currentValue == Evaluate(ar, s)
      && r.inputValue == ar.show(Evaluate(ar, s))
      && r.history == s.history + [Completed(ar, s)]
      && r.displayExpression == ar.show(Evaluate(ar, s)) + " " + Symbol(nextOperator)
    ensures s.currentValue != Zero && s.operator.None? ==>
      && r.currentValue == s.currentValue
      && r.inputValue == s.inputValue
      && r.history == s.history
      && r.displayExpression == ar.show(ar.parse(s.inputValue)) + " " + Symbol(nextOperator)
    ensures r.showHistory == s.showHistory
  {
    var inputValueNumber := ar.parse(s.inputValue);
    var s' :=
      if s.currentValue == Zero then
        s.(currentValue := inputValueNumber,
           displayExpression := ar.show(inputValueNumber) + " " + Symbol(nextOperator))
      else if s.operator.Some? then
        var result := Evaluate(ar, s);
        s.(history := s.history + [Completed(ar, s)],
           currentValue := result,
           inputValue := ar.show(result),
           displayExpression := ar.show(result) + " " + Symbol(nextOperator))
      else
        s.(displayExpression := ar.show(inputValueNumber) + " " + Symbol(nextOperator));
    s'.(waitingForOperand := true, operator := Some(nextOperator))
  }

  /** handleEqualsClick */
  function EqualsClick(ar: Arith, s: State): (r: State)
    ensures s.operator.None? ==> r == s
    ensures s.operator.Some? ==>
      && r.history == s.history + [Completed(ar, s)]
      && r.inputValue == ar.show(Evaluate(ar, s))
      && r.displayExpression == r.inputValue
      && r.currentValue == Zero && r.operator == None && r.waitingForOperand
    ensures r.showHistory == s.showHistory
  {
    if s.operator.None? then
      s
    else
      var result := Evaluate(ar, s);
      s.(inputValue := ar.show(result),
         history := s.history + [Completed(ar, s)],
         displayExpression := ar.show(result),
         currentValue := Zero,
         operator := None,
         waitingForOperand := true)
  }

  /** handleClearClick */
  function ClearClick(s: State): (r: State)
    ensures r == Cleared(s.history, s.showHistory)
  {
    s.(inputValue := "0", displayExpression := "0", currentValue := Zero,
       operator := None, waitingForOperand := false)
  }

  /** handleClearAllClick */
  function ClearAllClick(s: State): (r: State)
    ensures r == Cleared([], s.showHistory)
  {
    s.(inputValue := "0", displayExpression := "0", currentValue := Zero,
       operator := None, waitingForOperand := false, history := [])
  }

  /** viewHistory */
  function ViewHistoryClick(s: State): (r: State)
    ensures r.showHistory == !s.showHistory
    ensures r.(showHistory := s.showHistory) == s
  {
    s.(showHistory := !s.showHistory)
  }

  /** One button press, as the markup wires it to a handler. */
  datatype Key =
    | Number(digit: Digit)
    | Decimal
    | Operator(op: Op)
    | Equals
    | Clear
    | ClearAll
    | ViewHistory

  function Step(ar: Arith, s: State, k: Key): State {
    match k
    case Number(d) => NumberClick(ar, s, d)
    case Decimal => DecimalClick(ar, s)
    case Operator(op) => OperatorClick(ar, s, op)
    case Equals => EqualsClick(ar, s)
    case Clear => ClearClick(s)
    case ClearAll => ClearAllClick(s)
    case ViewHistory => ViewHistoryClick(s)
  }

  /** The state after a sequence of presses, handled one after another. */
  function Run(ar: Arith, s: State, keys: seq<Key>): State
    decreases |keys|
  {
    if keys == [] then s else Run(ar, Step(ar, s, keys[0]), keys[1..])
  }
}
