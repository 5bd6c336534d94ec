/**
 * The expression engine of src/expr.rs. A line is split on white space, every
 * token is classified as an operator or a number, and the terms are stored last
 * token first; evaluation pops them back off (so in input order) and reduces them
 * in postfix fashion on a stack of values that is local to one evaluation.
 */
module Expressions {
  import opened Wrappers
  import opened Numbers
  import Whitespace

  datatype BinOp = Add | Sub | Mul | Div

  /** Declared unary operators. None of them is implemented: evaluating one aborts. */
  datatype UnOp = Fact | Sin | Cos | Tan | Sqrt | Ln | Log

  datatype Term = Number(value: real) | BinOp(bop: BinOp) | UnOp(uop: UnOp)
  {
    /** `Term::is_op` */
    predicate IsOp()
    {
      BinOp? || UnOp?
    }

    /** `Term::is_number` */
    predicate IsNumber()
    {
      Number?
    }
  }

  datatype ParseErrorKind = InvalidOperator(message: string) | InvalidTerm(message: string)

  datatype ParseError = ParseError(kind: ParseErrorKind)

  /** Rust's `str::parse::<f64>`, which the model does not define: callers supply it. */
  type NumParser = string -> Option<real>

  /** The free function `is_number`: the token reads as a float. */
  predicate IsNumber(s: string, parseNum: NumParser)
  {
    parseNum(s).Some?
  }

  /** The tokens `Expr::parse` maps to operators without trying to read a number. */
  const OperatorSymbols: set<string> := {"+", "-", "*", "/", "!"}

  /** `get_bin_op`: the arithmetic a binary operator stands for, applied as `f(left, right)`. */
  function GetBinOp(op: BinOp): (Num, Num) -> Num
  {
    match op
    case Add => (l, r) => Apply(Plus, l, r)
    case Sub => (l, r) => Apply(Minus, l, r)
    case Mul => (l, r) => Apply(Times, l, r)
    case Div => (l, r) => Apply(Over, l, r)
  }

  /** The classification of one token inside `Expr::parse`; None for a bad token. */
  function Classify(t: string, parseNum: NumParser): Option<Term>
  {
    if t == "+" then Some(BinOp(Add))
    else if t == "-" then Some(BinOp(Sub))
    else if t == "*" then Some(BinOp(Mul))
    else if t == "/" then Some(BinOp(Div))
    else if t == "!" then Some(UnOp(Fact))
    else
      match parseNum(t)
      case Some(f) => Some(Number(f))
      case None => None
  }

  function InvalidToken(t: string): ParseError
  {
    ParseError(InvalidTerm("invalid token found: " + t))
  }

  /** The terms of `tokens` in input order, or the error for the first bad token. */
  function ClassifyAll(tokens: seq<string>, parseNum: NumParser): Result<seq<Term>, ParseError>
  {
    if tokens == [] then Ok([])
    else
      match ClassifyAll(tokens[..|tokens| - 1], parseNum)
      case Err(e) => Err(e)
      case Ok(terms) =>
        var last := tokens[|tokens| - 1];
        match Classify(last, parseNum)
        case None => Err(InvalidToken(last))
        case Some(t) => Ok(terms + [t])
  }

  /** `Vec::reverse` */
  function Reverse<T>(s: seq<T>): seq<T>
  {
    if s == [] then [] else Reverse(s[1..]) + [s[0]]
  }

  /** What `Expr::parse` stores: the classified tokens, last token first. */
  function ParseTerms(s: string, parseNum: NumParser): Result<seq<Term>, ParseError>
  {
    match ClassifyAll(Whitespace.SplitWhitespace(s), parseNum)
    case Ok(terms) => Ok(Reverse(terms))
    case Err(e) => Err(e)
  }

  /**
   * One binary operator on the local stack: pop the right operand, then the left,
   * push `op(left, right)`. A lone operand is pushed back unchanged; with no operand
   * at all there is nothing to do (None).
   */
  function ApplyBinOp(op: BinOp, local: seq<Num>): Option<seq<Num>>
  {
    if |local| >= 2 then
      Some(local[..|local| - 2] + [GetBinOp(op)(local[|local| - 2], local[|local| - 1])])
    else if |local| == 1 then Some(local)
    else None
  }

  /** Where the evaluation loop stops, with the terms it had not yet popped. */
  datatype Halt = Drained(local: seq<Num>) | Underflow(rest: seq<Term>) | Unimplemented(rest: seq<Term>)

  /** The evaluation loop over stored terms, popping the last one first. */
  function Run(pending: seq<Term>, local: seq<Num>): Halt
    decreases |pending|
  {
    if pending == [] then Drained(local)
    else
      var rest := pending[..|pending| - 1];
      match pending[|pending| - 1]
      case Number(n) => Run(rest, local + [Lit(n)])
      case BinOp(op) =>
        (match ApplyBinOp(op, local)
         case Some(next) => Run(rest, next)
         case None => Underflow(rest))
      case UnOp(_) => Unimplemented(rest)
  }

  /** Postfix evaluation of terms in input order, first term first. */
  function EvalLeftToRight(terms: seq<Term>, local: seq<Num>): Halt
  {
    if terms == [] then Drained(local)
    else
      match terms[0]
      case Number(n) => EvalLeftToRight(terms[1..], local + [Lit(n)])
      case BinOp(op) =>
        (match ApplyBinOp(op, local)
         case Some(next) => EvalLeftToRight(terms[1..], next)
         case None => Underflow(Reverse(terms[1..])))
      case UnOp(_) => Unimplemented(Reverse(terms[1..]))
  }

  /** `Expr::evaluate` either returns a `Result` or panics. */
  datatype Outcome = Finished(result: Result<Num, string>) | Panicked

  /** What `Expr::evaluate` reports once its loop stops as `h`. */
  function Verdict(h: Halt): Outcome
  {
    match h
    case Drained(local) =>
      Finished(if local == [] then Err("empty stack") else Ok(local[|local| - 1]))
    case Underflow(_) => Finished(Err("not enough items on stack"))
    case Unimplemented(_) => Panicked
  }

  /** The stored terms left in the expression once the loop stops as `h`. */
  function Leftover(h: Halt): seq<Term>
  {
    match h
    case Drained(_) => []
    case Underflow(rest) => rest
    case Unimplemented(rest) => rest
  }

  /** `Expr`: the parsed terms, stored so that popping from the end yields input order. */
  class Expr {
    var stack: seq<Term>

    constructor (terms: seq<Term>)
      ensures stack == terms
    {
      stack := terms;
    }

    /** `Expr::parse` */
    static method Parse(s: string, parseNum: NumParser) returns (r: Result<Expr, ParseError>)
      ensures ParseTerms(s, parseNum).Err? ==> r == Err(ParseTerms(s, parseNum).error)
      ensures ParseTerms(s, parseNum).Ok? ==>
                r.Ok? && fresh(r.value) && r.value.stack == ParseTerms(s, parseNum).value
    {
      var tokens := Whitespace.SplitWhitespace(s);
      var terms: seq<Term> := [];
      var i := 0;
      while i < |tokens|
        invariant 0 <= i <= |tokens|
        invariant ClassifyAll(tokens[..i], parseNum) == Ok(terms)
      {
        var t := tokens[i];
        var term := Classify(t, parseNum);
        assert tokens[..i + 1][..i] == tokens[..i];
        if term.None? {
          ErrorPersists(tokens, i + 1, parseNum);
          assert tokens[..|tokens|] == tokens;
          return Err(InvalidToken(t));
        }
        terms := terms + [term.value];
        i := i + 1;
      }
      assert tokens[..i] == tokens;
      terms := Reverse(terms);
      var e := new Expr(terms);
      r := Ok(e);
    }

    /** `Expr::evaluate`: drains the stored terms against a fresh local stack. */
    method Evaluate() returns (r: Outcome)
      modifies this
      ensures old(stack) == [] ==> r == Finished(Err("stack empty")) && stack == []
      ensures old(stack) != [] ==>
                r == Verdict(Run(old(stack), [])) && stack == Leftover(Run(old(stack), []))
    {
      if stack == [] {
        return Finished(Err("stack empty"));
      }
      ghost var halt := Run(stack, []);
      var local: seq<Num> := [];
      while stack != []
        invariant Run(stack, local) == halt
        decreases |stack|
      {
        ghost var before, pending := local, stack;
        var t := stack[|stack| - 1];
        stack := stack[..|stack| - 1];
        match t {
          case Number(n) =>
            local := local + [Lit(n)];
            assert Run(pending, before) == Run(stack, local);
          case BinOp(op) =>
            var right: Option<Num> := None;
            if local != [] {
              right := Some(local[|local| - 1]);
              local := local[..|local| - 1];
            }
            var left: Option<Num> := None;
            if local != [] {
              left := Some(local[|local| - 1]);
              local := local[..|local| - 1];
            }
            var f := GetBinOp(op);
            match (left, right) {
              case (Some(l), Some(rv)) =>
                local := local + [f(l, rv)];
                assert local == ApplyBinOp(op, before).value;
                assert Run(pending, before) == Run(stack, local);
              case (None, Some(rv)) =>
                local := local + [rv];
                assert local == before && ApplyBinOp(op, before) == Some(before);
                assert Run(pending, before) == Run(stack, local);
              case _ =>
                return Finished(Err("not enough items on stack"));
            }
          case UnOp(_) =>
            return Panicked;
        }
      }
      if local == [] {
        r := Finished(Err("empty stack"));
      } else {
        r := Finished(Ok(local[|local| - 1]));
      }
    }
  }

  /** Once a prefix of the tokens holds a bad token, so does every longer prefix, with the same error. */
  lemma {:induction false} ErrorPersists(tokens: seq<string>, k: nat, parseNum: NumParser)
    requires k <= |tokens| && ClassifyAll(tokens[..k], parseNum).Err?
    ensures ClassifyAll(tokens, parseNum) == ClassifyAll(tokens[..k], parseNum)
    decreases |tokens| - k
  {
    if k < |tokens| {
      assert tokens[..k + 1][..k] == tokens[..k];
      ErrorPersists(tokens, k + 1, parseNum);
    } else {
      assert tokens[..k] == tokens;
    }
  }

  /** Every token is an operator symbol or a number. */
  predicate AllValid(tokens: seq<string>, parseNum: NumParser)
  {
    forall i :: 0 <= i < |tokens| ==> Classify(tokens[i], parseNum).Some?
  }

  /** A bad token at `k`, all tokens before it good. */
  predicate FirstInvalid(tokens: seq<string>, k: int, parseNum: NumParser)
  {
    0 <= k < |tokens| && Classify(tokens[k], parseNum).None? &&
    forall j :: 0 <= j < k ==> Classify(tokens[j], parseNum).Some?
  }

  /** Operator symbols win over numbers; any other token is a number exactly when it parses as one. */
  lemma ClassifyOrder(t: string, parseNum: NumParser)
    ensures t == "+" ==> Classify(t, parseNum) == Some(BinOp(Add))
    ensures t == "-" ==> Classify(t, parseNum) == Some(BinOp(Sub))
    ensures t == "*" ==> Classify(t, parseNum) == Some(BinOp(Mul))
    ensures t == "/" ==> Classify(t, parseNum) == Some(BinOp(Div))
    ensures t == "!" ==> Classify(t, parseNum) == Some(UnOp(Fact))
    ensures t !in OperatorSymbols ==>
              Classify(t, parseNum) == (if IsNumber(t, parseNum) then Some(Number(parseNum(t).value)) else None)
  {
  }

  /** A classified token is an operator exactly when it is an operator symbol, and a number otherwise. */
  lemma ClassifyKinds(t: string, parseNum: NumParser)
    ensures Classify(t, parseNum).Some? <==> t in OperatorSymbols || IsNumber(t, parseNum)
    ensures Classify(t, parseNum).Some? ==>
              (Classify(t, parseNum).value.IsOp() <==> t in OperatorSymbols) &&
              (Classify(t, parseNum).value.IsOp() <==> !Classify(t, parseNum).value.IsNumber())
  {
  }

  /** Classification succeeds exactly when every token is good, and then gives one term per token, in order. */
  lemma {:induction false} ClassifyAllOk(tokens: seq<string>, parseNum: NumParser)
    ensures ClassifyAll(tokens, parseNum).Ok? <==> AllValid(tokens, parseNum)
    ensures ClassifyAll(tokens, parseNum).Ok? ==>
              |ClassifyAll(tokens, parseNum).value| == |tokens| &&
              forall i :: 0 <= i < |tokens| ==>
                ClassifyAll(tokens, parseNum).value[i] == Classify(tokens[i], parseNum).value
  {
    if tokens != [] {
      var init := tokens[..|tokens| - 1];
      ClassifyAllOk(init, parseNum);
      assert forall i :: 0 <= i < |init| ==> init[i] == tokens[i];
    }
  }

  /** A failed classification reports the first bad token. */
  lemma {:induction false} ClassifyAllFirstError(tokens: seq<string>, parseNum: NumParser)
    requires ClassifyAll(tokens, parseNum).Err?
    ensures exists k :: FirstInvalid(tokens, k, parseNum) &&
                        ClassifyAll(tokens, parseNum).error == InvalidToken(tokens[k])
  {
    var init := tokens[..|tokens| - 1];
    assert forall i :: 0 <= i < |init| ==> init[i] == tokens[i];
    if ClassifyAll(init, parseNum).Err? {
      ClassifyAllFirstError(init, parseNum);
      var k :| FirstInvalid(init, k, parseNum) && ClassifyAll(init, parseNum).error == InvalidToken(init[k]);
      assert FirstInvalid(tokens, k, parseNum);
    } else {
      ClassifyAllOk(init, parseNum);
      assert FirstInvalid(tokens, |tokens| - 1, parseNum);
    }
  }

  lemma {:induction false} ReverseAt<T>(s: seq<T>, i: int)
    requires 0 <= i < |s|
    ensures |Reverse(s)| == |s| && Reverse(s)[i] == s[|s| - 1 - i]
  {
    if i < |s| - 1 {
      ReverseAt(s[1..], i);
    } else {
      ReverseLength(s[1..]);
    }
  }

  lemma {:induction false} ReverseLength<T>(s: seq<T>)
    ensures |Reverse(s)| == |s|
  {
    if s != [] {
      ReverseLength(s[1..]);
    }
  }

  /**
   * `Expr::parse` succeeds exactly when every whitespace-separated token is an operator
   * symbol or a number, and then stores one term per token, last token first.
   */
  lemma ParseTermsOk(s: string, parseNum: NumParser)
    ensures ParseTerms(s, parseNum).Ok? <==> AllValid(Whitespace.SplitWhitespace(s), parseNum)
    ensures ParseTerms(s, parseNum).Ok? ==>
              |ParseTerms(s, parseNum).value| == |Whitespace.SplitWhitespace(s)| &&
              forall i :: 0 <= i < |Whitespace.SplitWhitespace(s)| ==>
                ParseTerms(s, parseNum).value[i] ==
                Classify(Whitespace.SplitWhitespace(s)[|Whitespace.SplitWhitespace(s)| - 1 - i], parseNum).value
  {
    var tokens := Whitespace.SplitWhitespace(s);
    ClassifyAllOk(tokens, parseNum);
    if ClassifyAll(tokens, parseNum).Ok? {
      var terms := ClassifyAll(tokens, parseNum).value;
      ReverseLength(terms);
      forall i | 0 <= i < |tokens|
        ensures ParseTerms(s, parseNum).value[i] == Classify(tokens[|tokens| - 1 - i], parseNum).value
      {
        ReverseAt(terms, i);
      }
    }
  }

  /** `Expr::parse` fails with `InvalidTerm` naming the first bad token. */
  lemma ParseTermsErr(s: string, parseNum: NumParser)
    requires ParseTerms(s, parseNum).Err?
    ensures exists k :: FirstInvalid(Whitespace.SplitWhitespace(s), k, parseNum) &&
                        ParseTerms(s, parseNum).error == InvalidToken(Whitespace.SplitWhitespace(s)[k])
  {
    ClassifyAllFirstError(Whitespace.SplitWhitespace(s), parseNum);
  }

  /** An empty or all-white-space line parses to an expression with no terms. */
  lemma ParseBlank(s: string, parseNum: NumParser)
    requires Whitespace.AllWs(s)
    ensures ParseTerms(s, parseNum) == Ok([])
  {
    Whitespace.SplitEmptyIffAllWs(s);
  }

  /** Popping the reversed terms from the end processes them in input order. */
  lemma {:induction false} RunIsLeftToRight(terms: seq<Term>, local: seq<Num>)
    ensures Run(Reverse(terms), local) == EvalLeftToRight(terms, local)
  {
    if terms != [] {
      var stored := Reverse(terms);
      assert stored[|stored| - 1] == terms[0];
      assert stored[..|stored| - 1] == Reverse(terms[1..]);
      match terms[0]
      case Number(n) =>
        RunIsLeftToRight(terms[1..], local + [Lit(n)]);
      case BinOp(op) =>
        if ApplyBinOp(op, local).Some? {
          RunIsLeftToRight(terms[1..], ApplyBinOp(op, local).value);
        }
      case UnOp(_) =>
    }
  }

  /** After a successful parse, evaluation sees the tokens' terms in input order. */
  lemma ParsedRunsInInputOrder(s: string, parseNum: NumParser)
    requires ParseTerms(s, parseNum).Ok?
    ensures var tokens := Whitespace.SplitWhitespace(s);
            ClassifyAll(tokens, parseNum).Ok? &&
            Run(ParseTerms(s, parseNum).value, []) == EvalLeftToRight(ClassifyAll(tokens, parseNum).value, [])
  {
    RunIsLeftToRight(ClassifyAll(Whitespace.SplitWhitespace(s), parseNum).value, []);
  }

  /** Some term is a unary operator. */
  predicate HasUnOp(terms: seq<Term>)
  {
    exists i :: 0 <= i < |terms| && terms[i].UnOp?
  }

  lemma HasUnOpSplit(terms: seq<Term>)
    requires terms != []
    ensures HasUnOp(terms) <==> terms[0].UnOp? || HasUnOp(terms[1..])
  {
    var tail := terms[1..];
    if HasUnOp(terms) && !terms[0].UnOp? {
      var i :| 0 <= i < |terms| && terms[i].UnOp?;
      assert tail[i - 1].UnOp?;
    }
    if HasUnOp(tail) {
      var i :| 0 <= i < |tail| && tail[i].UnOp?;
      assert terms[i + 1].UnOp?;
    }
  }

  /**
   * With a value already on the local stack, evaluation never underflows: it panics
   * exactly when some term is a unary operator, and otherwise ends with a value.
   */
  lemma {:induction false} NeverUnderflow(terms: seq<Term>, local: seq<Num>)
    requires local != []
    ensures !EvalLeftToRight(terms, local).Underflow?
    ensures EvalLeftToRight(terms, local).Unimplemented? <==> HasUnOp(terms)
    ensures EvalLeftToRight(terms, local).Drained? ==> EvalLeftToRight(terms, local).local != []
  {
    if terms != [] {
      HasUnOpSplit(terms);
      match terms[0]
      case Number(n) =>
        NeverUnderflow(terms[1..], local + [Lit(n)]);
      case BinOp(op) =>
        NeverUnderflow(terms[1..], ApplyBinOp(op, local).value);
      case UnOp(_) =>
    }
  }

  /**
   * Evaluation of a non-empty expression from the empty local stack: it fails with
   * "not enough items on stack" exactly when the first term is a binary operator,
   * it panics exactly when the first term is not and some term is unary, and the
   * "empty stack" error is never reached.
   */
  lemma UnderflowOnlyAtStart(terms: seq<Term>)
    requires terms != []
    ensures EvalLeftToRight(terms, []).Underflow? <==> terms[0].BinOp?
    ensures EvalLeftToRight(terms, []).Unimplemented? <==> !terms[0].BinOp? && HasUnOp(terms)
    ensures Verdict(EvalLeftToRight(terms, [])) != Finished(Err("empty stack"))
  {
    HasUnOpSplit(terms);
    var empty: seq<Num> := [];
    match terms[0]
    case Number(n) =>
      NeverUnderflow(terms[1..], empty + [Lit(n)]);
    case BinOp(op) =>
      assert ApplyBinOp(op, empty) == None;
    case UnOp(_) =>
  }

  /** "a b op" pushes `op(a, b)`: the first operand is the left one. */
  lemma OperandOrder(a: real, b: real, op: BinOp)
    ensures EvalLeftToRight([Number(a), Number(b), BinOp(op)], []) ==
            Drained([GetBinOp(op)(Lit(a), Lit(b))])
  {
    var terms := [Number(a), Number(b), BinOp(op)];
    var empty: seq<Num> := [];
    var result := GetBinOp(op)(Lit(a), Lit(b));
    assert terms[1..] == [Number(b), BinOp(op)] && terms[1..][1..] == [BinOp(op)];
    assert [BinOp(op)][1..] == [];
    var operands := [Lit(a), Lit(b)];
    assert operands[..0] == empty && |operands| == 2;
    assert operands[0] == Lit(a) && operands[1] == Lit(b);
    assert empty + [result] == [result];
    assert ApplyBinOp(op, operands) == Some([result]);
    assert EvalLeftToRight([BinOp(op)], [Lit(a), Lit(b)]) == Drained([result]);
    assert [Lit(a)] + [Lit(b)] == [Lit(a), Lit(b)];
    assert EvalLeftToRight([Number(b), BinOp(op)], [Lit(a)]) == Drained([result]);
    assert empty + [Lit(a)] == [Lit(a)];
  }

  /** A binary operator with a single operand leaves it in place; with none it fails. */
  lemma BinOpUnderflow(op: BinOp, x: Num)
    ensures ApplyBinOp(op, [x]) == Some([x])
    ensures ApplyBinOp(op, []) == None
    ensures EvalLeftToRight([BinOp(op)], [x]) == Drained([x])
    ensures Verdict(EvalLeftToRight([BinOp(op)], [])) == Finished(Err("not enough items on stack"))
  {
  }
}
