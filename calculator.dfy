/** The `calculate` handler without its HTTP and template plumbing: the
    fixed-order validation chain, the stack-based evaluation loop and the
    final pop. The input is the submitted expression; the outcome is what
    the result page shows (`success` and `hasil`). */
module Calculator {
  import opened Wrappers
  import opened Numeric
  import opened Tokens
  import opened Evaluator
  import opened PostfixStack

  const MustBeNumber: string := "HARUS BERUPA ANGKA"
  const NotZero: string := "SELAIN 0"
  const FirstTwoNumbers: string := "DIGIT PERTAMA & KEDUA HARUS ANGKA"
  const LastOperator: string := "ELEMEN TERAKHIR HARUS OPERATOR"
  const NoLetters: string := "TIDAK BOLEH ADA HURUF"
  const BadExpression: string := "EKSPRESI SALAH"

  /** What the result page shows: the lone token echoed unchanged, the
      evaluated value, or an error message (`success` is false only for
      the last). */
  datatype Outcome<V> = Echo(token: string) | Value(value: V) | Failure(message: string)
  {
    predicate Success() { !Failure? }
  }

  /** Specification of the validation chain: the outcome of the first
      failing check, or `None` when every check passes and the tokens go
      on to evaluation. A lone token is answered here in every case. */
  function Validate<V(==)>(ar: Arithmetic<V>, exp: string): (r: Option<Outcome<V>>)
    ensures var e := Split(exp);
      r == None <==>
        && |e| >= 2 && ar.isNum(e[0]) && ar.isNum(e[1]) && IsOperator(e[|e| - 1])
        && !HasLetter(exp) && Numbers(ar, e) - Operators(e) == 1
    ensures r.Some? ==> !r.value.Value?
  {
    var elements := Split(exp);
    if |elements| < 2 then
      if !ar.isNum(elements[0]) then Some(Failure(MustBeNumber))
      else if ar.toFloat(elements[0]) == ar.zero then Some(Failure(NotZero))
      else Some(Echo(elements[0]))
    else if !ar.isNum(elements[0]) then Some(Failure(FirstTwoNumbers))
    else if !ar.isNum(elements[1]) then Some(Failure(FirstTwoNumbers))
    else if !IsOperator(elements[|elements| - 1]) then Some(Failure(LastOperator))
    else if HasLetter(exp) then Some(Failure(NoLetters))
    else if Numbers(ar, elements) - Operators(elements) != 1 then Some(Failure(BadExpression))
    else None
  }

  /** Specification of the evaluation of tokens that passed `count`: the
      underflow report, or the value the final pop returns. */
  function Evaluate<V>(ar: Arithmetic<V>, elements: seq<string>): (r: Outcome<V>)
    requires Sound(ar)
    requires Numbers(ar, elements) - Operators(elements) == 1
    ensures r.Value? <==> Run(ar, elements, []).Running?
    ensures r.Failure? ==> r.message == StackEmpty || r.message == StackEmptied
    ensures !r.Echo?
  {
    match Run(ar, elements, [])
    case Halted(m) => Failure(m)
    case Running(st) =>
      FinalStackSingle(ar, elements);
      Value(st[|st| - 1])
  }

  /** Specification of the whole handler. The page reports success
      exactly for a lone non-zero number, or for an expression that passes
      every check and is evaluated to its end. */
  function Calc<V(==)>(ar: Arithmetic<V>, exp: string): (r: Outcome<V>)
    requires Sound(ar)
    ensures r.Success() <==>
      || (' ' !in exp && ar.isNum(exp) && ar.toFloat(exp) != ar.zero)
      || (Validate(ar, exp) == None && Run(ar, Split(exp), []).Running?)
  {
    SplitSingle(exp);
    match Validate(ar, exp)
    case Some(o) => o
    case None => Evaluate(ar, Split(exp))
  }

  /** The validation chain of the handler, with `isContainsAlphabet` and
      `count` run as their loops. */
  method CheckExpression<V(==)>(ar: Arithmetic<V>, exp: string) returns (verdict: Option<Outcome<V>>)
    ensures verdict == Validate(ar, exp)
  {
    var elements := Split(exp);
    if |elements| < 2 {
      if !ar.isNum(elements[0]) {
        return Some(Failure(MustBeNumber));
      }
      if ar.toFloat(elements[0]) == ar.zero {
        return Some(Failure(NotZero));
      }
      return Some(Echo(elements[0]));
    }
    if !ar.isNum(elements[0]) {
      return Some(Failure(FirstTwoNumbers));
    }
    if !ar.isNum(elements[1]) {
      return Some(Failure(FirstTwoNumbers));
    }
    if !IsOperator(elements[|elements| - 1]) {
      return Some(Failure(LastOperator));
    }
    var letters := ContainsAlphabet(exp);
    if letters {
      return Some(Failure(NoLetters));
    }
    var counted := Count(ar, elements);
    if !counted {
      return Some(Failure(BadExpression));
    }
    return None;
  }

  /** The operator switch of the evaluation loop: pushes `left OP right`
      for the four operators and nothing for any other token. */
  method PushResult<V>(ar: Arithmetic<V>, stack: Stack<V>, tok: string, left: V, right: V)
    modifies stack
    ensures stack.items == old(stack.items) + Apply(ar, tok, left, right).ToSeq()
  {
    if tok == "+" {
      stack.Push(ar.add(left, right));
    } else if tok == "-" {
      stack.Push(ar.sub(left, right));
    } else if tok == "*" {
      stack.Push(ar.mul(left, right));
    } else if tok == "/" {
      stack.Push(ar.div(left, right));
    }
  }

  /** The evaluation loop on a `Stack` and the final pop. */
  method EvaluateTokens<V>(ar: Arithmetic<V>, elements: seq<string>) returns (o: Outcome<V>)
    requires Sound(ar)
    requires Numbers(ar, elements) - Operators(elements) == 1
    ensures o == Evaluate(ar, elements)
  {
    var stack := new Stack<V>();
    for i := 0 to |elements|
      invariant Run(ar, elements[i..], stack.items) == Run(ar, elements, [])
    {
      var v := elements[i];
      ghost var before := stack.items;
      assert elements[i..][1..] == elements[i + 1..];
      if ar.isNum(v) {
        stack.Push(ar.toFloat(v));
      } else {
        if stack.IsEmpty() {
          return Failure(StackEmpty);
        }
        var val1 := stack.Pop();
        if stack.IsEmpty() {
          return Failure(StackEmptied);
        }
        var val2 := stack.Pop();
        assert val1.value == before[|before| - 1] && val2.value == before[|before| - 2];
        PushResult(ar, stack, v, val2.value, val1.value);
      }
      assert Step(ar, before, v) == Running(stack.items);
    }
    assert elements[|elements|..] == [];
    FinalStackSingle(ar, elements);
    var top := stack.Pop();
    return Value(top.value);
  }

  /** The handler: validation, then evaluation. */
  method Calculate<V(==)>(ar: Arithmetic<V>, exp: string) returns (o: Outcome<V>)
    requires Sound(ar)
    ensures o == Calc(ar, exp)
  {
    var verdict := CheckExpression(ar, exp);
    if verdict.Some? {
      return verdict.value;
    }
    o := EvaluateTokens(ar, Split(exp));
  }

  // ---------------------------------------------------------------------
  // Properties of the handler
  // ---------------------------------------------------------------------

  /** An expression without spaces is a lone token: a non-number is
      rejected first, then a zero value, otherwise the text is echoed
      unchanged; letters are not looked for on this path. */
  lemma CalcLoneToken<V>(ar: Arithmetic<V>, exp: string)
    requires Sound(ar)
    requires ' ' !in exp
    ensures Calc(ar, exp) ==
      if !ar.isNum(exp) then Failure(MustBeNumber)
      else if ar.toFloat(exp) == ar.zero then Failure(NotZero)
      else Echo(exp)
  {
    SplitSingle(exp);
  }

  /** With a space the checks run in a fixed order, and each failing check
      is reported only when every earlier one passed: first and second
      token numeric, last token an operator, no letter, then `count`. */
  lemma ValidateFirstFailingCheck<V>(ar: Arithmetic<V>, exp: string)
    requires ' ' in exp
    ensures |Split(exp)| >= 2
    ensures var e := Split(exp);
      && (Validate(ar, exp) == Some(Failure(FirstTwoNumbers)) <==>
            !ar.isNum(e[0]) || !ar.isNum(e[1]))
      && (Validate(ar, exp) == Some(Failure(LastOperator)) <==>
            ar.isNum(e[0]) && ar.isNum(e[1]) && !IsOperator(e[|e| - 1]))
      && (Validate(ar, exp) == Some(Failure(NoLetters)) <==>
            ar.isNum(e[0]) && ar.isNum(e[1]) && IsOperator(e[|e| - 1]) && HasLetter(exp))
      && (Validate(ar, exp) == Some(Failure(BadExpression)) <==>
            && ar.isNum(e[0]) && ar.isNum(e[1]) && IsOperator(e[|e| - 1]) && !HasLetter(exp)
            && Numbers(ar, e) - Operators(e) != 1)
  {
    SplitSingle(exp);
  }

  /** Only a lone non-zero number is echoed, and it is echoed as typed. */
  lemma CalcEchoMeansLoneNumber<V>(ar: Arithmetic<V>, exp: string)
    requires Sound(ar)
    requires Calc(ar, exp).Echo?
    ensures Calc(ar, exp).token == exp
    ensures ' ' !in exp && ar.isNum(exp) && ar.toFloat(exp) != ar.zero
  {
    SplitSingle(exp);
  }

  /** An expression with a space that contains a letter never succeeds. */
  lemma CalcRejectsLetters<V>(ar: Arithmetic<V>, exp: string)
    requires Sound(ar)
    requires ' ' in exp && HasLetter(exp)
    ensures Calc(ar, exp).Failure?
  {
    SplitSingle(exp);
  }

  /** Success, stated on the reference condition for underflow: a lone
      non-zero number, or an expression that passes every check and never
      meets a short stack. */
  lemma CalcSuccessIff<V>(ar: Arithmetic<V>, exp: string)
    requires Sound(ar)
    ensures Calc(ar, exp).Success() <==>
      || (' ' !in exp && ar.isNum(exp) && ar.toFloat(exp) != ar.zero)
      || (Validate(ar, exp) == None && NeverUnderflows(ar, Split(exp), 0))
  {
    NoUnderflowIff(ar, Split(exp), []);
  }

  /** Every failure carries one of the eight messages of the handler. */
  lemma CalcFailureMessages<V>(ar: Arithmetic<V>, exp: string)
    requires Sound(ar)
    requires Calc(ar, exp).Failure?
    ensures Calc(ar, exp).message in
      {MustBeNumber, NotZero, FirstTwoNumbers, LastOperator, NoLetters, BadExpression, StackEmpty, StackEmptied}
  {
  }

  /** A computed value means every check passed, every token was a number
      or an operator (so the expression has no doubled, leading or
      trailing space), no operator met a short stack, and the value is the
      single value left on the stack. */
  lemma CalcValueSound<V>(ar: Arithmetic<V>, exp: string)
    requires Sound(ar)
    requires Calc(ar, exp).Value?
    ensures var e := Split(exp);
      && |e| >= 2 && ar.isNum(e[0]) && ar.isNum(e[1]) && IsOperator(e[|e| - 1])
      && !HasLetter(exp)
      && Numbers(ar, e) - Operators(e) == 1
      && Others(ar, e) == 0
      && "" !in e
      && NeverUnderflows(ar, e, 0)
      && Run(ar, e, []) == Running([Calc(ar, exp).value])
  {
    var e := Split(exp);
    NoUnderflowIff(ar, e, []);
    FinalStackSingle(ar, e);
    var st := Run(ar, e, []).stack;
    assert st == [st[0]];
    if "" in e {
      var k :| 0 <= k < |e| && e[k] == "";
      OthersPositive(ar, e, k);
    }
  }

  /** Conversely, an expression that passes every check and never meets a
      short stack evaluates to a value. */
  lemma CalcValueComplete<V>(ar: Arithmetic<V>, exp: string)
    requires Sound(ar)
    requires var e := Split(exp);
      && |e| >= 2 && ar.isNum(e[0]) && ar.isNum(e[1]) && IsOperator(e[|e| - 1])
      && !HasLetter(exp)
      && Numbers(ar, e) - Operators(e) == 1
      && NeverUnderflows(ar, e, 0)
    ensures Calc(ar, exp).Value?
  {
    NoUnderflowIff(ar, Split(exp), []);
  }

  /** An expression that passes every check but meets a short stack is
      reported with one of the two underflow messages. */
  lemma CalcUnderflow<V>(ar: Arithmetic<V>, exp: string)
    requires Sound(ar)
    requires Validate(ar, exp) == None
    requires !NeverUnderflows(ar, Split(exp), 0)
    ensures Calc(ar, exp) == Failure(StackEmpty) || Calc(ar, exp) == Failure(StackEmptied)
  {
    NoUnderflowIff(ar, Split(exp), []);
  }

  /** After validation the stack is found empty before a first pop only
      when some token is neither a number nor an operator (for instance the
      empty token of a doubled space); an operator alone can only leave a
      single value, which gives "stack kosong". */
  lemma CalcStackEmptyNeedsOtherToken<V>(ar: Arithmetic<V>, exp: string)
    requires Sound(ar)
    requires Calc(ar, exp) == Failure(StackEmpty)
    ensures Others(ar, Split(exp)) > 0
  {
    var e := Split(exp);
    if Others(ar, e) == 0 {
      assert |e| >= 2 && ar.isNum(e[0]) && ar.isNum(e[1]);
      var st := [ar.toFloat(e[0]), ar.toFloat(e[1])];
      assert e[1..][0] == e[1] && e[2..] == e[1..][1..];
      var first: seq<V> := [ar.toFloat(e[0])];
      assert Step(ar, [], e[0]) == Running(first) by { assert [] + first == first; }
      assert Step(ar, first, e[1]) == Running(st);
      assert Run(ar, e, []) == Run(ar, e[1..], first);
      assert Run(ar, e[1..], first) == Run(ar, e[2..], st);
      assert Others(ar, e) == Others(ar, e[1..]) == Others(ar, e[2..]);
      StackEmptyNeedsOtherToken(ar, e[2..], st);
    }
  }

  /** A token that is neither a number nor an operator is counted. */
  lemma {:induction false} OthersPositive<V>(ar: Arithmetic<V>, s: seq<string>, k: nat)
    requires k < |s| && !ar.isNum(s[k]) && !IsOperator(s[k])
    ensures Others(ar, s) > 0
  {
    if k > 0 {
      OthersPositive(ar, s[1..], k - 1);
    }
  }
}
