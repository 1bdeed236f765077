/** What the click handlers guarantee, over single clicks and over any
    sequence of clicks: the shape of the typed buffer, the zero sentinel,
    the history log and the history-visibility flag. */
module Properties {
  import opened Values
  import opened Transitions

  predicate IsDigitChar(c: char) {
    '0' <= c <= '9'
  }

  /** A number as typed on the keypad: digits and at most one '.', starting
      with a digit, and a leading '0' only alone or before the '.'. */
  predicate Literal(t: string) {
    && |t| > 0
    && IsDigitChar(t[0])
    && (forall i :: 0 <= i < |t| ==> IsDigitChar(t[i]) || t[i] == '.')
    && multiset(t)['.'] <= 1
    && (t[0] == '0' && |t| > 1 ==> t[1] == '.')
  }

  /** A history line of some completed operation `a op b = apply(op, a, b)`. */
  ghost predicate IsRecord(ar: Arith, e: string) {
    exists a: Num, op: Op, b: Num :: e == Record(ar, a, op, b)
  }

  ghost predicate AllRecords(ar: Arith, h: seq<string>) {
    forall i :: 0 <= i < |h| ==> IsRecord(ar, h[i])
  }

  /** The buffer is a typed literal whenever no fresh operand is awaited. */
  predicate BufferTyped(s: State) {
    !s.waitingForOperand ==> Literal(s.inputValue)
  }

  /** Without a pending operator, the left operand holds the zero sentinel. */
  predicate SentinelWhenIdle(s: State) {
    s.operator.None? ==> s.currentValue == Zero
  }

  /** What the display shows, read off the other cells: `value op` while
      an operand is awaited after an operator, otherwise the buffer, after
      the pending `value op` when the left operand is nonzero. */
  function DisplayOf(ar: Arith, s: State): string {
    if s.waitingForOperand && s.operator.Some?
    then ar.show(s.currentValue) + " " + Symbol(s.operator.value)
    else Expression(ar, s, s.inputValue)
  }

  /** The display cell agrees with the cells it is derived from. */
  predicate DisplayDerived(ar: Arith, s: State) {
    s.displayExpression == DisplayOf(ar, s)
  }

  ghost predicate Invariant(ar: Arith, s: State) {
    && BufferTyped(s) && SentinelWhenIdle(s) && AllRecords(ar, s.history)
    && DisplayDerived(ar, s)
  }

  // ---------------------------------------------------------------------
  // Digit and decimal entry

  lemma LiteralAppendDigit(t: string, c: char)
    requires Literal(t) && t != "0" && IsDigitChar(c)
    ensures Literal(t + [c])
  {
    assert multiset(t + [c]) == multiset(t) + multiset{c};
  }

  lemma LiteralAppendPoint(t: string)
    requires Literal(t) && '.' !in t
    ensures Literal(t + ".")
  {
    assert multiset(t + ".") == multiset(t) + multiset{'.'};
    assert multiset(t)['.'] == 0;
  }

  lemma StepKeepsBufferTyped(ar: Arith, s: State, k: Key)
    requires BufferTyped(s)
    ensures BufferTyped(Step(ar, s, k))
  {
    match k
    case Number(d) =>
      var c := DigitChar(d);
      assert multiset([c])['.'] == 0;
      if !s.waitingForOperand && s.inputValue != "0" {
        LiteralAppendDigit(s.inputValue, c);
      }
    case Decimal =>
      if '.' !in s.inputValue {
        if s.waitingForOperand {
          assert multiset("0.")['.'] == 1;
        } else {
          LiteralAppendPoint(s.inputValue);
        }
      }
    case Clear =>
      assert multiset("0")['.'] == 0;
    case ClearAll =>
      assert multiset("0")['.'] == 0;
    case _ =>
  }

  predicate IsEntry(k: Key) {
    k.Number? || k.Decimal?
  }

  /** Digit and '.' presses keep the buffer a typed literal, so it never
      holds a second '.' and never a '0' followed by another digit, and
      they touch neither the left operand, the operator nor the history. */
  lemma {:induction false} EntryKeepsLiteral(ar: Arith, s: State, keys: seq<Key>)
    requires !s.waitingForOperand && Literal(s.inputValue)
    requires forall i :: 0 <= i < |keys| ==> IsEntry(keys[i])
    ensures var r := Run(ar, s, keys);
      && !r.waitingForOperand
      && Literal(r.inputValue)
      && r.currentValue == s.currentValue && r.operator == s.operator
      && r.history == s.history
    decreases |keys|
  {
    if keys != [] {
      var s' := Step(ar, s, keys[0]);
      StepKeepsBufferTyped(ar, s, keys[0]);
      EntryKeepsLiteral(ar, s', keys[1..]);
    }
  }

  /** From a cleared calculator, any digit and '.' presses leave a buffer
      with at most one '.' and no superfluous leading zero. */
  lemma EntryFromCleared(ar: Arith, h: seq<string>, sh: bool, keys: seq<Key>)
    requires forall i :: 0 <= i < |keys| ==> IsEntry(keys[i])
    ensures var t := Run(ar, Cleared(h, sh), keys).inputValue;
      && multiset(t)['.'] <= 1
      && !(|t| > 1 && t[0] == '0' && IsDigitChar(t[1]))
  {
    assert multiset("0")['.'] == 0;
    EntryKeepsLiteral(ar, Cleared(h, sh), keys);
  }

  /** The number of leading '0' characters of t. */
  function LeadingZeros(t: string): (k: nat)
    ensures k <= |t|
    ensures forall j :: 0 <= j < k ==> t[j] == '0'
    ensures k < |t| ==> t[k] != '0'
  {
    if |t| > 0 && t[0] == '0' then 1 + LeadingZeros(t[1..]) else 0
  }

  lemma LeadingZerosUnique(t: string, k: nat)
    requires k <= |t|
    requires forall j :: 0 <= j < k ==> t[j] == '0'
    requires k < |t| ==> t[k] != '0'
    ensures LeadingZeros(t) == k
  {
  }

  /** Typed digits with their leading zeros collapsed: the digits after
      the leading zeros, or "0" when only zeros (or nothing) were typed. */
  function Collapsed(t: string): (r: string)
    ensures |r| > 0
    ensures r[0] == '0' ==> r == "0"
    ensures r == "0" || (|r| <= |t| && r == t[|t| - |r|..])
  {
    var k := LeadingZeros(t);
    if k == |t| then "0" else t[k..]
  }

  lemma CollapsedAppend(t: string, c: char)
    requires IsDigitChar(c)
    ensures Collapsed(t + [c]) == if Collapsed(t) == "0" then [c] else Collapsed(t) + [c]
  {
    var k := LeadingZeros(t);
    var u := t + [c];
    if k < |t| {
      LeadingZerosUnique(u, k);
      assert u[k..] == t[k..] + [c];
    } else if c == '0' {
      LeadingZerosUnique(u, |t| + 1);
    } else {
      LeadingZerosUnique(u, |t|);
      assert u[|t|..] == [c];
    }
  }

  /** The presses of the digit buttons ds, in order. */
  function Numbers(ds: seq<Digit>): seq<Key> {
    seq(|ds|, i requires 0 <= i < |ds| => Number(ds[i]))
  }

  /** The characters of the digits ds, in order. */
  function DigitsText(ds: seq<Digit>): string {
    seq(|ds|, i requires 0 <= i < |ds| => DigitChar(ds[i]))
  }

  /** One digit typed onto a buffer that holds Collapsed(t) gives
      Collapsed(t + the digit). */
  lemma NumberOnCollapsed(ar: Arith, s: State, t: string, d: Digit)
    requires !s.waitingForOperand && s.inputValue == Collapsed(t)
    ensures NumberClick(ar, s, d).inputValue == Collapsed(t + [DigitChar(d)])
  {
    CollapsedAppend(t, DigitChar(d));
  }

  lemma RunNumbers(ar: Arith, s: State, ds: seq<Digit>)
    ensures ds == [] ==> Run(ar, s, Numbers(ds)) == s
    ensures ds != [] ==> Run(ar, s, Numbers(ds)) == Run(ar, NumberClick(ar, s, ds[0]), Numbers(ds[1..]))
  {
    if ds == [] {
      assert Numbers(ds) == [];
    } else {
      assert Numbers(ds)[0] == Number(ds[0]);
      assert Numbers(ds)[1..] == Numbers(ds[1..]);
    }
  }

  lemma DigitsTextCons(t: string, ds: seq<Digit>)
    ensures ds == [] ==> t + DigitsText(ds) == t
    ensures ds != [] ==> t + [DigitChar(ds[0])] + DigitsText(ds[1..]) == t + DigitsText(ds)
  {
    if ds != [] {
      assert DigitsText(ds) == [DigitChar(ds[0])] + DigitsText(ds[1..]);
    }
  }

  /** Typing digits onto a buffer that holds Collapsed(t) gives
      Collapsed(t + the digits), shown after the pending `value op` when
      the left operand is nonzero. */
  lemma {:induction false} TypingDigits(ar: Arith, s: State, t: string, ds: seq<Digit>)
    requires !s.waitingForOperand && s.inputValue == Collapsed(t)
    ensures var r := Run(ar, s, Numbers(ds));
      && !r.waitingForOperand
      && r.inputValue == Collapsed(t + DigitsText(ds))
      && (ds != [] ==> r.displayExpression == Expression(ar, s, r.inputValue))
      && r.currentValue == s.currentValue && r.operator == s.operator
      && r.history == s.history
    decreases |ds|
  {
    RunNumbers(ar, s, ds);
    DigitsTextCons(t, ds);
    if ds != [] {
      var c := DigitChar(ds[0]);
      var s' := NumberClick(ar, s, ds[0]);
      NumberOnCollapsed(ar, s, t, ds[0]);
      TypingDigits(ar, s', t + [c], ds[1..]);
      RunNumbers(ar, s', ds[1..]);
    }
  }

  /** From a cleared calculator, digit presses make the buffer, and the
      display, the typed digits with leading zeros collapsed. */
  lemma TypingFromCleared(ar: Arith, h: seq<string>, sh: bool, ds: seq<Digit>)
    ensures var r := Run(ar, Cleared(h, sh), Numbers(ds));
      && r.inputValue == Collapsed(DigitsText(ds))
      && r.displayExpression == r.inputValue
      && r.history == h
  {
    assert Collapsed("") == "0";
    TypingDigits(ar, Cleared(h, sh), "", ds);
    assert "" + DigitsText(ds) == DigitsText(ds);
    if ds == [] {
      assert Numbers(ds) == [];
    }
  }

  /** After a result whose text already holds a '.', such as "4.5", the
      '.' button does nothing and the next digit starts a new operand. */
  lemma DecimalIgnoredAfterResult(ar: Arith, s: State, d: Digit)
    requires s.operator.Some? && '.' in ar.show(Evaluate(ar, s))
    ensures var r := EqualsClick(ar, s);
      && DecimalClick(ar, r) == r
      && r.waitingForOperand
      && NumberClick(ar, DecimalClick(ar, r), d).inputValue == [DigitChar(d)]
  {
  }

  // ---------------------------------------------------------------------
  // Operators, equals and the history log

  /** A press that completes an operation and so logs it. */
  predicate Completes(s: State, k: Key) {
    s.operator.Some? && (k.Equals? || (k.Operator? && s.currentValue != Zero))
  }

  /** Every press other than clear-all appends exactly the completed
      operation's line when it completes one and leaves the log alone
      otherwise. */
  lemma StepHistory(ar: Arith, s: State, k: Key)
    requires !k.ClearAll?
    ensures Completes(s, k) ==> Step(ar, s, k).history == s.history + [Completed(ar, s)]
    ensures !Completes(s, k) ==> Step(ar, s, k).history == s.history
  {
  }

  /** Without clear-all, the log only grows at its end, by at most one line
      per press, and every added line is a completed operation. */
  lemma {:induction false} HistoryAppendOnly(ar: Arith, s: State, keys: seq<Key>)
    requires forall i :: 0 <= i < |keys| ==> !keys[i].ClearAll?
    ensures var r := Run(ar, s, keys);
      && s.history <= r.history
      && |r.history| <= |s.history| + |keys|
      && AllRecords(ar, r.history[|s.history|..])
    decreases |keys|
  {
    var r := Run(ar, s, keys);
    if keys == [] {
      assert r.history[|s.history|..] == [];
    } else {
      var s' := Step(ar, s, keys[0]);
      StepHistory(ar, s, keys[0]);
      HistoryAppendOnly(ar, s', keys[1..]);
      if Completes(s, keys[0]) {
        var e := Completed(ar, s);
        assert IsRecord(ar, e) by {
          assert e == Record(ar, OrZero(s.currentValue), s.operator.value, ar.parse(s.inputValue));
        }
        forall i | |s.history| <= i < |r.history|
          ensures IsRecord(ar, r.history[i])
        {
          if i == |s.history| {
            assert r.history[i] == s'.history[i] == e;
          } else {
            assert r.history[i] == r.history[|s'.history|..][i - |s'.history|];
          }
        }
      } else {
        assert r.history[|s.history|..] == r.history[|s'.history|..];
      }
    }
  }

  /** Equals on a state whose left operand is NaN logs the operation with
      0 as its left operand, while the display had shown NaN. */
  lemma FalsyLeftOperandLoggedAsZero(ar: Arith, s: State, typed: string)
    requires s.operator.Some? && s.currentValue == NaN
    ensures EqualsClick(ar, s).history
      == s.history + [Record(ar, Zero, s.operator.value, ar.parse(s.inputValue))]
    ensures Expression(ar, s, typed)
      == ar.show(NaN) + " " + Symbol(s.operator.value) + " " + typed
  {
  }

  /** Equals right after equals changes nothing. */
  lemma EqualsTwice(ar: Arith, s: State)
    ensures EqualsClick(ar, EqualsClick(ar, s)) == EqualsClick(ar, s)
  {
  }

  // ---------------------------------------------------------------------
  // Clear, clear-all and the history view

  lemma ClearIdempotent(s: State)
    ensures ClearClick(ClearClick(s)) == ClearClick(s)
    ensures ClearClick(s).history == s.history
    ensures ClearAllClick(ClearClick(s)) == ClearAllClick(s)
  {
  }

  lemma ViewHistoryTwice(s: State)
    ensures ViewHistoryClick(ViewHistoryClick(s)) == s
  {
  }

  /** The number of history-view toggles among keys. */
  function Toggles(keys: seq<Key>): nat
    decreases |keys|
  {
    if keys == [] then 0 else (if keys[0].ViewHistory? then 1 else 0) + Toggles(keys[1..])
  }

  lemma StepShowHistory(ar: Arith, s: State, k: Key)
    ensures Step(ar, s, k).showHistory == if k.ViewHistory? then !s.showHistory else s.showHistory
  {
  }

  /** Only the history-view button changes the history visibility: after
      any presses it is flipped once per toggle. */
  lemma {:induction false} ShowHistoryParity(ar: Arith, s: State, keys: seq<Key>)
    ensures Run(ar, s, keys).showHistory
      == if Toggles(keys) % 2 == 0 then s.showHistory else !s.showHistory
    decreases |keys|
  {
    if keys != [] {
      StepShowHistory(ar, s, keys[0]);
      ShowHistoryParity(ar, Step(ar, s, keys[0]), keys[1..]);
      assert Toggles(keys) == (if keys[0].ViewHistory? then 1 else 0) + Toggles(keys[1..]);
    }
  }

  // ---------------------------------------------------------------------
  // Reachable states

  /** Every handler keeps the display in step with the other cells, given
      the zero sentinel, which rules out the operator handler's last branch
      (the one that shows the buffer but keeps the old left operand). */
  lemma StepKeepsDisplay(ar: Arith, s: State, k: Key)
    requires SentinelWhenIdle(s) && DisplayDerived(ar, s)
    ensures DisplayDerived(ar, Step(ar, s, k))
  {
  }

  lemma StepKeepsInvariant(ar: Arith, s: State, k: Key)
    requires Invariant(ar, s)
    ensures Invariant(ar, Step(ar, s, k))
  {
    StepKeepsBufferTyped(ar, s, k);
    StepKeepsDisplay(ar, s, k);
    var r := Step(ar, s, k);
    if !k.ClearAll? {
      StepHistory(ar, s, k);
      if Completes(s, k) {
        var e := Completed(ar, s);
        assert IsRecord(ar, e) by {
          assert e == Record(ar, OrZero(s.currentValue), s.operator.value, ar.parse(s.inputValue));
        }
        assert forall i :: 0 <= i < |r.history| ==> r.history[i] == (if i < |s.history| then s.history[i] else e);
      }
    }
  }

  lemma {:induction false} RunKeepsInvariant(ar: Arith, s: State, keys: seq<Key>)
    requires Invariant(ar, s)
    ensures Invariant(ar, Run(ar, s, keys))
    decreases |keys|
  {
    if keys != [] {
      StepKeepsInvariant(ar, s, keys[0]);
      RunKeepsInvariant(ar, Step(ar, s, keys[0]), keys[1..]);
    }
  }

  /** Every state reachable from the initial one keeps the invariant: a
      typed literal in the buffer unless an operand is awaited, the zero
      sentinel when no operator is pending, and only completed operations
      in the log. */
  lemma ReachableInvariant(ar: Arith, keys: seq<Key>)
    ensures Invariant(ar, Run(ar, Initial(), keys))
  {
    assert multiset("0")['.'] == 0;
    RunKeepsInvariant(ar, Initial(), keys);
  }

  /** On every reachable state the display is determined by the other
      cells: `value op` while the operand after an operator is awaited,
      and otherwise the buffer, after the pending `value op` when the left
      operand is nonzero. */
  lemma ReachableDisplay(ar: Arith, keys: seq<Key>)
    ensures var s := Run(ar, Initial(), keys);
      && (s.waitingForOperand && s.operator.Some? ==>
            s.displayExpression == ar.show(s.currentValue) + " " + Symbol(s.operator.value))
      && (!s.waitingForOperand || s.operator.None? ==>
            EndsWith(s.displayExpression, s.inputValue))
      && (s.operator.None? ==> s.displayExpression == s.inputValue)
  {
    ReachableInvariant(ar, keys);
  }

  /** On a reachable state the last branch of the operator handler (a
      nonzero left operand with no operator pending) is never taken. */
  lemma DefensiveBranchUnreachable(ar: Arith, keys: seq<Key>)
    ensures var s := Run(ar, Initial(), keys);
      s.currentValue != Zero ==> s.operator.Some?
  {
    ReachableInvariant(ar, keys);
  }
}
