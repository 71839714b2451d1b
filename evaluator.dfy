/** The postfix evaluation loop of the `calculate` handler, as a
    specification: one step per token, left to right, over the list of
    values on the stack (bottom first). */
module Evaluator {
  import opened Wrappers
  import opened Numeric
  import opened Tokens

  /** Reported when an operator finds the stack empty before its first pop. */
  const StackEmpty: string := "Ups Stacknya Kosong"
  /** Reported when the stack becomes empty after the first pop. */
  const StackEmptied: string := "stack kosong"

  datatype EvalState<V> = Running(stack: seq<V>) | Halted(message: string)

  /** The `switch` over the token: `left OP right` for the four operators,
      nothing for any other token (the switch has no default case). */
  function Apply<V>(ar: Arithmetic<V>, tok: string, left: V, right: V): (r: Option<V>)
    ensures r.Some? <==> IsOperator(tok)
  {
    if tok == "+" then Some(ar.add(left, right))
    else if tok == "-" then Some(ar.sub(left, right))
    else if tok == "*" then Some(ar.mul(left, right))
    else if tok == "/" then Some(ar.div(left, right))
    else None
  }

  /** One token: a number is pushed; anything else pops the top (`val1`)
      and the value below it (`val2`) and pushes `val2 OP val1` when the
      token is an operator. */
  function Step<V>(ar: Arithmetic<V>, st: seq<V>, tok: string): (r: EvalState<V>)
    ensures ar.isNum(tok) ==> r == Running(st + [ar.toFloat(tok)])
    ensures !ar.isNum(tok) ==> (r.Halted? <==> |st| < 2)
    ensures r.Halted? ==> r.message == if |st| == 0 then StackEmpty else StackEmptied
  {
    if ar.isNum(tok) then Running(st + [ar.toFloat(tok)])
    else if |st| == 0 then Halted(StackEmpty)
    else if |st| == 1 then Halted(StackEmptied)
    else
      var val1 := st[|st| - 1];
      var val2 := st[|st| - 2];
      var rest := st[..|st| - 2];
      match Apply(ar, tok, val2, val1)
      case Some(r) => Running(rest + [r])
      case None => Running(rest)
  }

  /** The tokens applied in order to the stack `st`, stopping at the first
      underflow. */
  function Run<V>(ar: Arithmetic<V>, tokens: seq<string>, st: seq<V>): (r: EvalState<V>)
    ensures r.Halted? ==> r.message == StackEmpty || r.message == StackEmptied
    decreases |tokens|
  {
    if tokens == [] then Running(st)
    else
      match Step(ar, st, tokens[0])
      case Halted(m) => Halted(m)
      case Running(next) => Run(ar, tokens[1..], next)
  }

  /** The change of stack height that `s` causes when evaluated without
      underflow: one up per number, one down per operator and two down
      per other token. */
  function Depth<V>(ar: Arithmetic<V>, s: seq<string>): int {
    Numbers(ar, s) - Operators(s) - 2 * Others(ar, s)
  }

  /** Reference definition of "no underflow": before every non-numeric
      token the stack, of starting height `h`, holds at least two values. */
  ghost predicate NeverUnderflows<V>(ar: Arithmetic<V>, tokens: seq<string>, h: int) {
    forall i :: 0 <= i < |tokens| && !ar.isNum(tokens[i]) ==> h + Depth(ar, tokens[..i]) >= 2
  }

  /** On an operator the second value from the top is the left operand
      and the top is the right operand; any other non-numeric token drops
      both values. */
  lemma OperandOrder<V>(ar: Arithmetic<V>, st: seq<V>, tok: string)
    requires |st| >= 2
    requires !ar.isNum(tok)
    ensures var n := |st|;
      Step(ar, st, tok) ==
        if tok == "+" then Running(st[..n - 2] + [ar.add(st[n - 2], st[n - 1])])
        else if tok == "-" then Running(st[..n - 2] + [ar.sub(st[n - 2], st[n - 1])])
        else if tok == "*" then Running(st[..n - 2] + [ar.mul(st[n - 2], st[n - 1])])
        else if tok == "/" then Running(st[..n - 2] + [ar.div(st[n - 2], st[n - 1])])
        else Running(st[..n - 2])
  {
  }

  /** Evaluation is sequential: running `a + b` runs `a`, then `b` from
      where `a` left the stack, and nothing of `b` is evaluated once `a`
      has stopped on an underflow. */
  lemma {:induction false} RunAppend<V>(ar: Arithmetic<V>, a: seq<string>, b: seq<string>, st: seq<V>)
    ensures Run(ar, a + b, st) ==
      match Run(ar, a, st)
      case Halted(m) => Halted(m)
      case Running(next) => Run(ar, b, next)
  {
    if a == [] {
      assert a + b == b;
    } else {
      assert (a + b)[0] == a[0];
      assert (a + b)[1..] == a[1..] + b;
      match Step(ar, st, a[0])
      case Halted(m) =>
      case Running(next) => RunAppend(ar, a[1..], b, next);
    }
  }

  /** Height change of a single token. */
  lemma DepthOne<V>(ar: Arithmetic<V>, t: string)
    requires Sound(ar)
    ensures Depth(ar, [t]) == if ar.isNum(t) then 1 else if IsOperator(t) then -1 else -2
  {
    assert [t][1..] == [];
    assert Numbers(ar, [t]) == if ar.isNum(t) then 1 else 0;
    assert Operators([t]) == if IsOperator(t) then 1 else 0;
    assert Others(ar, [t]) == if !ar.isNum(t) && !IsOperator(t) then 1 else 0;
    OperatorIsNotNumber(ar, t);
  }

  /** Depth adds up over concatenation. */
  lemma DepthAppend<V>(ar: Arithmetic<V>, a: seq<string>, b: seq<string>)
    ensures Depth(ar, a + b) == Depth(ar, a) + Depth(ar, b)
  {
    CountsAppend(ar, a, b);
  }

  /** The counting invariant: a run that does not underflow changes the
      stack height by exactly `Depth`. */
  lemma {:induction false} RunSize<V>(ar: Arithmetic<V>, tokens: seq<string>, st: seq<V>)
    requires Sound(ar)
    requires Run(ar, tokens, st).Running?
    ensures |Run(ar, tokens, st).stack| == |st| + Depth(ar, tokens)
  {
    if tokens != [] {
      var t := tokens[0];
      DepthOne(ar, t);
      DepthAppend(ar, [t], tokens[1..]);
      assert [t] + tokens[1..] == tokens;
      OperatorIsNotNumber(ar, t);
      match Step(ar, st, t)
      case Running(next) =>
        RunSize(ar, tokens[1..], next);
    }
  }

  /** Peeling the first token off the reference condition. */
  lemma NeverUnderflowsCons<V>(ar: Arithmetic<V>, tokens: seq<string>, h: int)
    requires tokens != []
    ensures NeverUnderflows(ar, tokens, h) <==>
      (ar.isNum(tokens[0]) || h >= 2) && NeverUnderflows(ar, tokens[1..], h + Depth(ar, [tokens[0]]))
  {
    var t, rest := tokens[0], tokens[1..];
    assert tokens[..0] == [];
    forall i | 1 <= i <= |rest|
      ensures Depth(ar, tokens[..i]) == Depth(ar, [t]) + Depth(ar, rest[..i - 1])
    {
      assert tokens[..i] == [t] + rest[..i - 1];
      DepthAppend(ar, [t], rest[..i - 1]);
    }
    if NeverUnderflows(ar, tokens, h) {
      forall j | 0 <= j < |rest| && !ar.isNum(rest[j])
        ensures h + Depth(ar, [t]) + Depth(ar, rest[..j]) >= 2
      {
        assert tokens[j + 1] == rest[j];
      }
    }
    if (ar.isNum(t) || h >= 2) && NeverUnderflows(ar, rest, h + Depth(ar, [t])) {
      forall i | 0 <= i < |tokens| && !ar.isNum(tokens[i])
        ensures h + Depth(ar, tokens[..i]) >= 2
      {
        if i > 0 {
          assert rest[i - 1] == tokens[i];
        }
      }
    }
  }

  /** Evaluation runs to the end exactly when the reference condition
      holds: the counting characterisation of underflow. */
  lemma {:induction false} NoUnderflowIff<V>(ar: Arithmetic<V>, tokens: seq<string>, st: seq<V>)
    requires Sound(ar)
    ensures Run(ar, tokens, st).Running? <==> NeverUnderflows(ar, tokens, |st|)
  {
    if tokens != [] {
      var t := tokens[0];
      NeverUnderflowsCons(ar, tokens, |st|);
      DepthOne(ar, t);
      OperatorIsNotNumber(ar, t);
      match Step(ar, st, t)
      case Halted(m) =>
      case Running(next) =>
        NoUnderflowIff(ar, tokens[1..], next);
    }
  }

  /** When `count` accepts the tokens and evaluation from the empty stack
      does not underflow, exactly one value remains and no token was
      other than a number or an operator, so the final pop finds a value. */
  lemma FinalStackSingle<V>(ar: Arithmetic<V>, tokens: seq<string>)
    requires Sound(ar)
    requires Numbers(ar, tokens) - Operators(tokens) == 1
    requires Run(ar, tokens, []).Running?
    ensures |Run(ar, tokens, []).stack| == 1
    ensures Others(ar, tokens) == 0
  {
    RunSize(ar, tokens, []);
  }

  /** With at least one value on the stack and only numbers and operators
      to come, the stack is never found empty before a first pop: the
      first underflow message needs a token that is neither. */
  lemma {:induction false} StackEmptyNeedsOtherToken<V>(ar: Arithmetic<V>, tokens: seq<string>, st: seq<V>)
    requires Sound(ar)
    requires |st| >= 1 && Others(ar, tokens) == 0
    ensures Run(ar, tokens, st) != Halted(StackEmpty)
  {
    if tokens != [] {
      var t := tokens[0];
      OperatorIsNotNumber(ar, t);
      match Step(ar, st, t)
      case Halted(m) =>
      case Running(next) =>
        StackEmptyNeedsOtherToken(ar, tokens[1..], next);
    }
  }
}
