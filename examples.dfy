/** A concrete instance of the abstract number syntax, for worked
    examples: tokens of decimal digits only, valued as reals, with the
    four real operators (division by zero yields 0 here, where the
    source's float64 division yields an infinity or NaN).

    Each example takes the expression as a parameter fixed by its
    `requires` rather than writing the literal into the `ensures`: the
    split, the counts and the run are then unfolded only as far as the
    `assert … by` steps ask, which keeps these proofs small and stable. */
module DigitExamples {
  import opened Wrappers
  import opened Numeric
  import opened Tokens
  import opened Evaluator
  import opened Calculator

  predicate IsDigits(s: string) {
    |s| > 0 && forall i :: 0 <= i < |s| ==> '0' <= s[i] <= '9'
  }

  function DigitsValue(s: string): real {
    if |s| == 0 then 0.0
    else DigitsValue(s[..|s| - 1]) * 10.0 + (s[|s| - 1] as int - '0' as int) as real
  }

  /** The digit syntax meets the facts the calculator relies on: the
      empty token and the operator symbols are not numbers. */
  function Digits(): (ar: Arithmetic<real>)
    ensures Sound(ar)
  {
    assert "+"[0] == '+' && "-"[0] == '-' && "*"[0] == '*' && "/"[0] == '/';
    Arithmetic(IsDigits, DigitsValue, 0.0,
      (a: real, b: real) => a + b,
      (a: real, b: real) => a - b,
      (a: real, b: real) => a * b,
      (a: real, b: real) => if b == 0.0 then 0.0 else a / b)
  }

  lemma AddExample(exp: string)
    requires exp == "3 4 +"
    ensures Calc(Digits(), exp) == Value(7.0)
  {
    var e := ["3", "4", "+"];
    assert Split(exp) == e by {
      assert Join(e[2..]) == "+";
      assert Join(e[1..]) == "4 +";
      assert Join(e) == exp;
      SplitJoin(e);
    }
    assert Validate(Digits(), exp) == None by {
      NoLettersIn(exp);
      assert Numbers(Digits(), e[1..]) == 1;
      assert Operators(e[1..]) == 1;
    }
    assert Run(Digits(), e, []) == Running([7.0]) by {
      assert Run(Digits(), e[1..], [3.0]) == Running([7.0]);
    }
  }

  /** The second value from the top is the left operand. */
  lemma SubtractExample(exp: string)
    requires exp == "5 1 -"
    ensures Calc(Digits(), exp) == Value(4.0)
  {
    var e := ["5", "1", "-"];
    assert Split(exp) == e by {
      assert Join(e[2..]) == "-";
      assert Join(e[1..]) == "1 -";
      assert Join(e) == exp;
      SplitJoin(e);
    }
    assert Validate(Digits(), exp) == None by {
      NoLettersIn(exp);
      assert Numbers(Digits(), e[1..]) == 1;
      assert Operators(e[1..]) == 1;
    }
    assert Run(Digits(), e, []) == Running([4.0]) by {
      assert Run(Digits(), e[1..], [5.0]) == Running([4.0]);
    }
  }

  lemma MultiplyExample(exp: string)
    requires exp == "2 3 *"
    ensures Calc(Digits(), exp) == Value(6.0)
  {
    var e := ["2", "3", "*"];
    assert Split(exp) == e by {
      assert Join(e[2..]) == "*";
      assert Join(e[1..]) == "3 *";
      assert Join(e) == exp;
      SplitJoin(e);
    }
    assert Validate(Digits(), exp) == None by {
      NoLettersIn(exp);
      assert Numbers(Digits(), e[1..]) == 1;
      assert Operators(e[1..]) == 1;
    }
    assert Run(Digits(), e, []) == Running([6.0]) by {
      assert Run(Digits(), e[1..], [2.0]) == Running([6.0]);
    }
  }

  lemma DivideExample(exp: string)
    requires exp == "10 2 /"
    ensures Calc(Digits(), exp) == Value(5.0)
  {
    var e := ["10", "2", "/"];
    assert Split(exp) == e by {
      assert Join(e[2..]) == "/";
      assert Join(e[1..]) == "2 /";
      assert Join(e) == exp;
      SplitJoin(e);
    }
    assert Validate(Digits(), exp) == None by {
      NoLettersIn(exp);
      assert Numbers(Digits(), e[1..]) == 1;
      assert Operators(e[1..]) == 1;
    }
    assert Run(Digits(), e, []) == Running([5.0]) by {
      assert DigitsValue("1") == 1.0 by { assert "1"[..0] == ""; }
      assert DigitsValue("10") == 10.0 by { assert "10"[..1] == "1"; }
      assert Run(Digits(), e[1..], [10.0]) == Running([5.0]);
    }
  }

  /** A surplus trailing operator is caught by `count`, before evaluation. */
  lemma SurplusOperatorExample(exp: string)
    requires exp == "1 2 + +"
    ensures Calc(Digits(), exp) == Failure(BadExpression)
  {
    var e := ["1", "2", "+", "+"];
    assert Split(exp) == e by {
      assert Join(e[3..]) == "+";
      assert Join(e[2..]) == "+ +";
      assert Join(e[1..]) == "2 + +";
      assert Join(e) == exp;
      SplitJoin(e);
    }
    NoLettersIn(exp);
    assert Numbers(Digits(), e[2..]) == 0 by {
      assert Numbers(Digits(), e[3..]) == 0;
    }
    assert Operators(e[2..]) == 2 by {
      assert Operators(e[3..]) == 1;
    }
  }

  /** A doubled space makes an empty token that pops both values and
      pushes nothing, so the operator after it finds the stack empty. */
  lemma DoubledSpaceExample(exp: string)
    requires exp == "1 2  +"
    ensures Calc(Digits(), exp) == Failure(StackEmpty)
  {
    var e := ["1", "2", "", "+"];
    assert Split(exp) == e by {
      assert Join(e[3..]) == "+";
      assert Join(e[2..]) == " +";
      assert Join(e[1..]) == "2  +";
      assert Join(e) == exp;
      SplitJoin(e);
    }
    assert Validate(Digits(), exp) == None by {
      NoLettersIn(exp);
      assert Numbers(Digits(), e[2..]) == 0 by {
        assert Numbers(Digits(), e[3..]) == 0;
      }
      assert Operators(e[2..]) == 1 by {
        assert Operators(e[3..]) == 1;
      }
    }
    assert Run(Digits(), e, []) == Halted(StackEmpty) by {
      assert Run(Digits(), e[3..], []) == Halted(StackEmpty);
      assert Run(Digits(), e[2..], [1.0, 2.0]) == Halted(StackEmpty);
    }
  }

  /** Here the operator finds a single value: the second underflow message. */
  lemma SingleValueLeftExample(exp: string)
    requires exp == "1 2  3 + +"
    ensures Calc(Digits(), exp) == Failure(StackEmptied)
  {
    var e := ["1", "2", "", "3", "+", "+"];
    assert Split(exp) == e by {
      assert Join(e[5..]) == "+";
      assert Join(e[4..]) == "+ +";
      assert Join(e[3..]) == "3 + +";
      assert Join(e[2..]) == " 3 + +";
      assert Join(e[1..]) == "2  3 + +";
      assert Join(e) == exp;
      SplitJoin(e);
    }
    SingleValueLeftValid(exp);
    assert Run(Digits(), e, []) == Halted(StackEmptied) by {
      assert Run(Digits(), e[4..], [3.0]) == Halted(StackEmptied);
      assert Run(Digits(), e[3..], []) == Halted(StackEmptied);
      assert Run(Digits(), e[2..], [1.0, 2.0]) == Halted(StackEmptied);
    }
  }

  /** Numbers and operators alone can pass the count and still run the
      stack short: the second `+` finds a single value, and the three
      tokens after it are never reached. */
  lemma EarlyOperatorExample(exp: string)
    requires exp == "1 2 + + 3 3 +"
    ensures Others(Digits(), Split(exp)) == 0
    ensures Calc(Digits(), exp) == Failure(StackEmptied)
  {
    var e := ["1", "2", "+", "+", "3", "3", "+"];
    assert Split(exp) == e by {
      assert Join(e[6..]) == "+";
      assert Join(e[5..]) == "3 +";
      assert Join(e[4..]) == "3 3 +";
      assert Join(e[3..]) == "+ 3 3 +";
      assert Join(e[2..]) == "+ + 3 3 +";
      assert Join(e[1..]) == "2 + + 3 3 +";
      assert Join(e) == exp;
      SplitJoin(e);
    }
    EarlyOperatorValid(exp);
    assert Run(Digits(), e, []) == Halted(StackEmptied) by {
      assert Run(Digits(), e[3..], [3.0]) == Halted(StackEmptied);
      assert Run(Digits(), e[2..], [1.0, 2.0]) == Halted(StackEmptied);
    }
  }

  /** The seven tokens above pass every check of the validation chain and
      are all numbers or operators. */
  lemma EarlyOperatorValid(exp: string)
    requires exp == "1 2 + + 3 3 +"
    requires Split(exp) == ["1", "2", "+", "+", "3", "3", "+"]
    ensures Validate(Digits(), exp) == None
    ensures Others(Digits(), Split(exp)) == 0
  {
    var e := ["1", "2", "+", "+", "3", "3", "+"];
    NoLettersIn(exp);
    assert Numbers(Digits(), e[2..]) == 2 by {
      assert Numbers(Digits(), e[6..]) == 0;
      assert Numbers(Digits(), e[5..]) == 1;
      assert Numbers(Digits(), e[4..]) == 2;
      assert Numbers(Digits(), e[3..]) == 2;
    }
    assert Operators(e[2..]) == 3 by {
      assert Operators(e[6..]) == 1;
      assert Operators(e[5..]) == 1;
      assert Operators(e[4..]) == 1;
      assert Operators(e[3..]) == 2;
    }
    assert Others(Digits(), e) == 0 by {
      assert Others(Digits(), e[6..]) == 0;
      assert Others(Digits(), e[5..]) == 0;
      assert Others(Digits(), e[4..]) == 0;
      assert Others(Digits(), e[3..]) == 0;
      assert Others(Digits(), e[2..]) == 0;
      assert Others(Digits(), e[1..]) == 0;
    }
  }

  /** A lone token is echoed unless it is not a number or is zero. */
  lemma LoneTokenExamples()
    ensures Calc(Digits(), "7") == Echo("7")
    ensures Calc(Digits(), "0") == Failure(NotZero)
    ensures Calc(Digits(), "") == Failure(MustBeNumber)
  {
    CalcLoneToken(Digits(), "7");
    CalcLoneToken(Digits(), "0");
    CalcLoneToken(Digits(), "");
  }

  /** The six tokens above pass every check of the validation chain. */
  lemma SingleValueLeftValid(exp: string)
    requires exp == "1 2  3 + +"
    requires Split(exp) == ["1", "2", "", "3", "+", "+"]
    ensures Validate(Digits(), exp) == None
  {
    var e := ["1", "2", "", "3", "+", "+"];
    NoLettersIn(exp);
    assert Numbers(Digits(), e[2..]) == 1 by {
      assert Numbers(Digits(), e[5..]) == 0;
      assert Numbers(Digits(), e[4..]) == 0;
      assert Numbers(Digits(), e[3..]) == 1;
    }
    assert Operators(e[2..]) == 2 by {
      assert Operators(e[5..]) == 1;
      assert Operators(e[4..]) == 2;
      assert Operators(e[3..]) == 2;
    }
  }

  /** The checks run in their fixed order: a second token that is not a
      number is reported before a missing trailing operator. */
  lemma SecondTokenExample(exp: string)
    requires exp == "1 + 2"
    ensures Calc(Digits(), exp) == Failure(FirstTwoNumbers)
  {
    var e := ["1", "+", "2"];
    assert Split(exp) == e by {
      assert Join(e[1..]) == "+ 2";
      assert Join(e) == exp;
      SplitJoin(e);
    }
  }

  lemma LastTokenExample(exp: string)
    requires exp == "1 2 3"
    ensures Calc(Digits(), exp) == Failure(LastOperator)
  {
    var e := ["1", "2", "3"];
    assert Split(exp) == e by {
      assert Join(e[1..]) == "2 3";
      assert Join(e) == exp;
      SplitJoin(e);
    }
  }

  /** A letter is reported before the counts are compared: these tokens
      would also fail `count` (two numbers, two operators). */
  lemma LetterExample(exp: string)
    requires exp == "1 2 a + +"
    ensures Calc(Digits(), exp) == Failure(NoLetters)
  {
    var e := ["1", "2", "a", "+", "+"];
    assert Split(exp) == e by {
      assert Join(e[3..]) == "+ +";
      assert Join(e[2..]) == "a + +";
      assert Join(e[1..]) == "2 a + +";
      assert Join(e) == exp;
      SplitJoin(e);
    }
    assert IsLetter(exp[4]);
  }

  /** Digits, spaces and operator symbols all come before the letters. */
  lemma NoLettersIn(s: string)
    requires forall i :: 0 <= i < |s| ==> s[i] < 'A'
    ensures !HasLetter(s)
  {
    forall i | 0 <= i < |s| ensures !IsLetter(s[i]) {
      IsLetterAlphabet(s[i]);
    }
  }
}
