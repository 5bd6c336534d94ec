/**
 * Whole-line runs of the expression engine: parse a line, then evaluate the stored
 * terms from an empty local stack. The float reader is left open except for the
 * literals each line uses.
 */
module ExpressionExamples {
  import opened Wrappers
  import opened Numbers
  import opened Expressions
  import Whitespace

  /** The tokens of a line of three words separated by single spaces. */
  lemma ThreeTokens(a: string, b: string, c: string)
    requires Whitespace.IsWord(a) && Whitespace.IsWord(b) && Whitespace.IsWord(c)
    ensures Whitespace.SplitWhitespace(a + " " + b + " " + c) == [a, b, c]
  {
    var words := [a, b, c];
    assert words[1..] == [b, c] && words[1..][1..] == [c];
    Whitespace.JoinStart(words);
    Whitespace.JoinStart([b, c]);
    assert Whitespace.Join([c]) == c;
    assert a + (" " + (b + (" " + c))) == a + " " + b + " " + c;
    Whitespace.SplitJoin(words);
  }

  /** Classifying three good tokens. */
  lemma ClassifyThree(a: string, b: string, c: string, parseNum: NumParser)
    requires Classify(a, parseNum).Some? && Classify(b, parseNum).Some? && Classify(c, parseNum).Some?
    ensures ClassifyAll([a, b, c], parseNum) ==
            Ok([Classify(a, parseNum).value, Classify(b, parseNum).value, Classify(c, parseNum).value])
  {
    var tokens := [a, b, c];
    var ta, tb, tc := Classify(a, parseNum).value, Classify(b, parseNum).value, Classify(c, parseNum).value;
    var none: seq<string> := [];
    var noTerms: seq<Term> := [];
    assert [a][..0] == none;
    assert ClassifyAll([a], parseNum) == Ok(noTerms + [ta]);
    assert noTerms + [ta] == [ta];
    assert [a, b][..1] == [a];
    assert ClassifyAll([a, b], parseNum) == Ok([ta] + [tb]);
    assert [ta] + [tb] == [ta, tb];
    assert tokens[..2] == [a, b];
    assert ClassifyAll(tokens, parseNum) == Ok([ta, tb] + [tc]);
    assert [ta, tb] + [tc] == [ta, tb, tc];
  }

  /** "x y op" with two numbers and a binary operator: parsed last token first, evaluated as `op(x, y)`. */
  lemma BinaryLine(x: string, y: string, sym: string, a: real, b: real, op: BinOp, parseNum: NumParser)
    requires Whitespace.IsWord(x) && Whitespace.IsWord(y) && Whitespace.IsWord(sym)
    requires x !in OperatorSymbols && y !in OperatorSymbols
    requires parseNum(x) == Some(a) && parseNum(y) == Some(b) && Classify(sym, parseNum) == Some(BinOp(op))
    ensures ParseTerms(x + " " + y + " " + sym, parseNum) == Ok([BinOp(op), Number(b), Number(a)])
    ensures Verdict(Run([BinOp(op), Number(b), Number(a)], [])) == Finished(Ok(GetBinOp(op)(Lit(a), Lit(b))))
  {
    ThreeTokens(x, y, sym);
    ClassifyThree(x, y, sym, parseNum);
    var terms := [Number(a), Number(b), BinOp(op)];
    assert Reverse(terms) == [BinOp(op), Number(b), Number(a)] by {
      var none: seq<Term> := [];
      assert terms[1..] == [Number(b), BinOp(op)] && terms[1..][1..] == [BinOp(op)];
      assert [BinOp(op)][1..] == none;
      assert Reverse([BinOp(op)]) == none + [BinOp(op)] == [BinOp(op)];
      assert Reverse([Number(b), BinOp(op)]) == [BinOp(op)] + [Number(b)] == [BinOp(op), Number(b)];
      assert Reverse(terms) == [BinOp(op), Number(b)] + [Number(a)];
    }
    RunIsLeftToRight(terms, []);
    OperandOrder(a, b, op);
  }

  /** "1 2 +" stores its terms last first and evaluates to 1 + 2, that is 3. */
  lemma OnePlusTwo(parseNum: NumParser)
    requires parseNum("1") == Some(1.0) && parseNum("2") == Some(2.0)
    ensures ParseTerms("1 2 +", parseNum) == Ok([BinOp(Add), Number(2.0), Number(1.0)])
    ensures Verdict(Run([BinOp(Add), Number(2.0), Number(1.0)], [])) ==
            Finished(Ok(Apply(Plus, Lit(1.0), Lit(2.0))))
    ensures Value(Apply(Plus, Lit(1.0), Lit(2.0))) == Some(3.0)
  {
    assert "1 2 +" == "1" + " " + "2" + " " + "+";
    BinaryLine("1", "2", "+", 1.0, 2.0, Add, parseNum);
    ValueOfApply(Plus, 1.0, 2.0);
  }

  /** "5 3 -" subtracts the second operand from the first: 5 - 3 = 2, not 3 - 5. */
  lemma FiveMinusThree(parseNum: NumParser)
    requires parseNum("5") == Some(5.0) && parseNum("3") == Some(3.0)
    ensures ParseTerms("5 3 -", parseNum) == Ok([BinOp(Sub), Number(3.0), Number(5.0)])
    ensures Verdict(Run([BinOp(Sub), Number(3.0), Number(5.0)], [])) ==
            Finished(Ok(Apply(Minus, Lit(5.0), Lit(3.0))))
    ensures Value(Apply(Minus, Lit(5.0), Lit(3.0))) == Some(2.0)
  {
    assert "5 3 -" == "5" + " " + "3" + " " + "-";
    BinaryLine("5", "3", "-", 5.0, 3.0, Sub, parseNum);
    ValueOfApply(Minus, 5.0, 3.0);
  }

  /** "x y z" whose first token is good and whose second is not fails on the second. */
  lemma BadSecondToken(x: string, y: string, z: string, parseNum: NumParser)
    requires Whitespace.IsWord(x) && Whitespace.IsWord(y) && Whitespace.IsWord(z)
    requires Classify(x, parseNum).Some? && Classify(y, parseNum).None?
    ensures ParseTerms(x + " " + y + " " + z, parseNum) == Err(InvalidToken(y))
  {
    ThreeTokens(x, y, z);
    var tokens := [x, y, z];
    assert FirstInvalid(tokens, 1, parseNum);
    assert ClassifyAll(tokens, parseNum).Err? by {
      ClassifyAllOk(tokens, parseNum);
    }
    ClassifyAllFirstError(tokens, parseNum);
    var k :| FirstInvalid(tokens, k, parseNum) && ClassifyAll(tokens, parseNum).error == InvalidToken(tokens[k]);
    assert k == 1;
  }

  /** "1 foo +" fails on "foo", the first token that is neither an operator nor a number. */
  lemma InvalidMiddleToken(parseNum: NumParser)
    requires parseNum("1").Some? && parseNum("foo") == None
    ensures ParseTerms("1 foo +", parseNum) == Err(ParseError(InvalidTerm("invalid token found: foo")))
  {
    assert "1 foo +" == "1" + " " + "foo" + " " + "+";
    assert "invalid token found: " + "foo" == "invalid token found: foo";
    BadSecondToken("1", "foo", "+", parseNum);
  }

  /** "+" alone has no operand at all: evaluation reports the underflow. */
  lemma LoneOperator(parseNum: NumParser)
    ensures ParseTerms("+", parseNum) == Ok([BinOp(Add)])
    ensures Verdict(Run([BinOp(Add)], [])) == Finished(Err("not enough items on stack"))
  {
    Whitespace.SplitWord("+");
    var none: seq<string> := [];
    var noTerms: seq<Term> := [];
    assert ["+"][..0] == none;
    assert noTerms + [BinOp(Add)] == [BinOp(Add)];
    assert ClassifyAll(["+"], parseNum) == Ok([BinOp(Add)]);
    assert [BinOp(Add)][1..] == [];
    assert Reverse([BinOp(Add)]) == [BinOp(Add)];
  }

  /** The tokens of a line of two words separated by a single space. */
  lemma TwoTokens(a: string, b: string)
    requires Whitespace.IsWord(a) && Whitespace.IsWord(b)
    ensures Whitespace.SplitWhitespace(a + " " + b) == [a, b]
  {
    var words := [a, b];
    assert words[1..] == [b];
    Whitespace.JoinStart(words);
    assert Whitespace.Join([b]) == b;
    assert a + (" " + b) == a + " " + b;
    Whitespace.SplitJoin(words);
  }

  /** Classifying two good tokens. */
  lemma ClassifyTwo(a: string, b: string, parseNum: NumParser)
    requires Classify(a, parseNum).Some? && Classify(b, parseNum).Some?
    ensures ClassifyAll([a, b], parseNum) == Ok([Classify(a, parseNum).value, Classify(b, parseNum).value])
  {
    var ta, tb := Classify(a, parseNum).value, Classify(b, parseNum).value;
    var none: seq<string> := [];
    var noTerms: seq<Term> := [];
    assert [a][..0] == none;
    assert ClassifyAll([a], parseNum) == Ok(noTerms + [ta]);
    assert noTerms + [ta] == [ta];
    assert [a, b][..1] == [a];
    assert ClassifyAll([a, b], parseNum) == Ok([ta] + [tb]);
    assert [ta] + [tb] == [ta, tb];
  }

  /** "x u": a number then a unary operator parses, and evaluating it panics. */
  lemma UnaryLine(x: string, sym: string, a: real, u: UnOp, parseNum: NumParser)
    requires Whitespace.IsWord(x) && Whitespace.IsWord(sym)
    requires x !in OperatorSymbols && parseNum(x) == Some(a) && Classify(sym, parseNum) == Some(UnOp(u))
    ensures ParseTerms(x + " " + sym, parseNum) == Ok([UnOp(u), Number(a)])
    ensures Verdict(Run([UnOp(u), Number(a)], [])) == Panicked
  {
    TwoTokens(x, sym);
    ClassifyTwo(x, sym, parseNum);
    var terms := [Number(a), UnOp(u)];
    var noTerms: seq<Term> := [];
    assert Reverse(terms) == [UnOp(u), Number(a)] by {
      assert terms[1..] == [UnOp(u)] && [UnOp(u)][1..] == noTerms;
      assert Reverse([UnOp(u)]) == noTerms + [UnOp(u)] == [UnOp(u)];
    }
    var stored := [UnOp(u), Number(a)];
    var none: seq<Num> := [];
    assert stored[..1] == [UnOp(u)] && [UnOp(u)][..0] == noTerms;
    assert none + [Lit(a)] == [Lit(a)];
    assert Run(stored, none) == Run([UnOp(u)], [Lit(a)]);
  }

  /** "1 !": the factorial is declared but not implemented, so evaluation panics. */
  lemma OneFactorial(parseNum: NumParser)
    requires parseNum("1") == Some(1.0)
    ensures ParseTerms("1 !", parseNum) == Ok([UnOp(Fact), Number(1.0)])
    ensures Verdict(Run([UnOp(Fact), Number(1.0)], [])) == Panicked
  {
    assert "1 !" == "1" + " " + "!";
    assert Whitespace.IsWord("!") by {
      assert !Whitespace.IsWs('!');
    }
    UnaryLine("1", "!", 1.0, Fact, parseNum);
  }

  /** Concatenation regrouped, one step at a time. */
  lemma Regroup(p: string, q: string, r: string)
    ensures p + (q + r) == p + q + r
  {
  }

  /** The tokens of a line of four words separated by single spaces. */
  lemma FourTokens(a: string, b: string, c: string, d: string)
    requires Whitespace.IsWord(a) && Whitespace.IsWord(b) && Whitespace.IsWord(c) && Whitespace.IsWord(d)
    ensures Whitespace.SplitWhitespace(a + " " + b + " " + c + " " + d) == [a, b, c, d]
  {
    var words := [a, b, c, d];
    assert words[1..] == [b, c, d] && words[1..][1..] == [c, d] && words[1..][1..][1..] == [d];
    Whitespace.JoinStart(words);
    Whitespace.JoinStart([b, c, d]);
    Whitespace.JoinStart([c, d]);
    assert Whitespace.Join([d]) == d;
    var r1 := c + (" " + d);
    var r2 := b + (" " + r1);
    assert Whitespace.Join(words) == a + (" " + r2);
    Regroup(a, " ", r2);
    Regroup(a + " ", b, " " + r1);
    Regroup(a + " " + b, " ", r1);
    Regroup(a + " " + b + " ", c, " " + d);
    Regroup(a + " " + b + " " + c, " ", d);
    Whitespace.SplitJoin(words);
  }

  /**
   * "x y op op": the second operator finds only the first one's result on the local
   * stack and passes it through, so the line evaluates to `op(x, y)`.
   */
  lemma RepeatedOperatorLine(x: string, y: string, sym: string, a: real, b: real, op: BinOp, parseNum: NumParser)
    requires Whitespace.IsWord(x) && Whitespace.IsWord(y) && Whitespace.IsWord(sym)
    requires x !in OperatorSymbols && y !in OperatorSymbols
    requires parseNum(x) == Some(a) && parseNum(y) == Some(b) && Classify(sym, parseNum) == Some(BinOp(op))
    ensures ParseTerms(x + " " + y + " " + sym + " " + sym, parseNum) ==
            Ok([BinOp(op), BinOp(op), Number(b), Number(a)])
    ensures Verdict(Run([BinOp(op), BinOp(op), Number(b), Number(a)], [])) ==
            Finished(Ok(GetBinOp(op)(Lit(a), Lit(b))))
  {
    var terms := [Number(a), Number(b), BinOp(op), BinOp(op)];
    var stored := [BinOp(op), BinOp(op), Number(b), Number(a)];
    assert ClassifyAll(Whitespace.SplitWhitespace(x + " " + y + " " + sym + " " + sym), parseNum) == Ok(terms) by {
      FourTokens(x, y, sym, sym);
      var tokens := [x, y, sym, sym];
      ClassifyThree(x, y, sym, parseNum);
      assert tokens[..3] == [x, y, sym];
      assert [Number(a), Number(b), BinOp(op)] + [BinOp(op)] == terms;
    }
    assert Reverse(terms) == stored by {
      ReverseLength(terms);
      forall i | 0 <= i < 4
        ensures Reverse(terms)[i] == stored[i]
      {
        ReverseAt(terms, i);
      }
    }
    RunIsLeftToRight(terms, []);
    RepeatedOperatorPassesThrough(a, b, op);
  }

  /** "a b op op" from the empty local stack: the second operator passes `op(a, b)` through. */
  lemma RepeatedOperatorPassesThrough(a: real, b: real, op: BinOp)
    ensures EvalLeftToRight([Number(a), Number(b), BinOp(op), BinOp(op)], []) ==
            Drained([GetBinOp(op)(Lit(a), Lit(b))])
  {
    var terms := [Number(a), Number(b), BinOp(op), BinOp(op)];
    var result := GetBinOp(op)(Lit(a), Lit(b));
    assert terms[1..] == [Number(b), BinOp(op), BinOp(op)];
    assert terms[1..][1..] == [BinOp(op), BinOp(op)];
    assert terms[1..][1..][1..] == [BinOp(op)];
    assert EvalLeftToRight([BinOp(op)], [result]) == Drained([result]);
    var operands: seq<Num> := [Lit(a), Lit(b)];
    var empty: seq<Num> := [];
    assert operands[..0] == empty && operands[0] == Lit(a) && operands[1] == Lit(b);
    assert empty + [result] == [result];
    assert ApplyBinOp(op, operands) == Some([result]);
    assert EvalLeftToRight([BinOp(op), BinOp(op)], operands) == Drained([result]);
    assert [Lit(a)] + [Lit(b)] == operands;
    assert empty + [Lit(a)] == [Lit(a)];
  }

  /**
   * "1 2 + +": the second "+" finds only the sum on the local stack and passes it
   * through, so the line evaluates to 1 + 2 = 3; no value carries over from earlier
   * lines, because the local stack is new on every call.
   */
  lemma PassThroughLine(parseNum: NumParser)
    requires parseNum("1") == Some(1.0) && parseNum("2") == Some(2.0)
    ensures ParseTerms("1 2 + +", parseNum) == Ok([BinOp(Add), BinOp(Add), Number(2.0), Number(1.0)])
    ensures Verdict(Run([BinOp(Add), BinOp(Add), Number(2.0), Number(1.0)], [])) ==
            Finished(Ok(Apply(Plus, Lit(1.0), Lit(2.0))))
  {
    assert "1 2 + +" == "1" + " " + "2" + " " + "+" + " " + "+";
    RepeatedOperatorLine("1", "2", "+", 1.0, 2.0, Add, parseNum);
  }
}
