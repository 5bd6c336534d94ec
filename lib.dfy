/**
 * The persistent value stack of src/lib.rs. Values pushed by earlier input lines
 * stay on it; an operator symbol pops the top two values and pushes the result.
 */
module Calculator {
  import opened Wrappers
  import opened Numbers
  import Expressions

  type OpFn = (Num, Num) -> Num

  /** `is_op`: the four operator symbols the stack accepts. */
  predicate IsOp(s: string)
  {
    s == "+" || s == "-" || s == "*" || s == "/"
  }

  /** `get_op_fn`: the arithmetic for an operator symbol, applied as `f(left, right)`. */
  function GetOpFn(s: string): Option<OpFn>
  {
    if s == "+" then Some((l, r) => Apply(Plus, l, r))
    else if s == "-" then Some((l, r) => Apply(Minus, l, r))
    else if s == "*" then Some((l, r) => Apply(Times, l, r))
    else if s == "/" then Some((l, r) => Apply(Over, l, r))
    else None
  }

  /** `Stack`: a vector of values whose end is the top. */
  class Stack {
    var stack: seq<Num>

    /** `Stack::new` */
    constructor ()
      ensures stack == []
    {
      stack := [];
    }

    /** `Stack::push` */
    method Push(val: Num)
      modifies this
      ensures stack == old(stack) + [val]
    {
      stack := stack + [val];
    }

    /** `Vec::pop` on the field. */
    method Pop() returns (v: Option<Num>)
      modifies this
      ensures old(stack) == [] ==> v == None && stack == []
      ensures old(stack) != [] ==>
                v == Some(old(stack)[|old(stack)| - 1]) && stack == old(stack)[..|old(stack)| - 1]
    {
      if stack == [] {
        v := None;
      } else {
        v := Some(stack[|stack| - 1]);
        stack := stack[..|stack| - 1];
      }
    }

    /** `Stack::op`: looks the symbol up, then applies it with `bin_op`. */
    method Op(op: string) returns (r: Result<Num, string>)
      modifies this
      ensures GetOpFn(op).None? ==> r == Err("unknown operator") && stack == old(stack)
      ensures GetOpFn(op).Some? && |old(stack)| >= 2 ==>
                var n := |old(stack)|;
                r == Ok(GetOpFn(op).value(old(stack)[n - 2], old(stack)[n - 1])) &&
                stack == old(stack)[..n - 2] + [r.value]
      ensures GetOpFn(op).Some? && |old(stack)| < 2 ==>
                r == Err("not enough items on the stack") && stack == []
      ensures r.Ok? ==> stack != [] && stack[|stack| - 1] == r.value && |stack| == |old(stack)| - 1
    {
      var opFn := GetOpFn(op);
      match opFn {
        case Some(f) =>
          r := BinOp(f);
        case None =>
          r := Err("unknown operator");
      }
    }

    /**
     * `Stack::bin_op`: pops the top `r` and the value `l` beneath it and pushes
     * `f(l, r)`. On underflow, whatever was popped is not put back.
     */
    method BinOp(f: OpFn) returns (r: Result<Num, string>)
      modifies this
      ensures |old(stack)| >= 2 ==>
                var n := |old(stack)|;
                r == Ok(f(old(stack)[n - 2], old(stack)[n - 1])) &&
                stack == old(stack)[..n - 2] + [r.value]
      ensures |old(stack)| < 2 ==> r == Err("not enough items on the stack") && stack == []
      ensures r.Ok? ==> stack != [] && stack[|stack| - 1] == r.value && |stack| == |old(stack)| - 1
    {
      var lop := Pop();
      var rop := Pop();
      match (rop, lop) {
        case (Some(l), Some(rv)) =>
          var result := f(l, rv);
          Push(result);
          r := Ok(result);
        case _ =>
          r := Err("not enough items on the stack");
      }
    }
  }

  /** `is_op` holds exactly for the symbols `get_op_fn` knows. */
  lemma IsOpIffKnown(s: string)
    ensures IsOp(s) <==> GetOpFn(s).Some?
  {
  }

  /** The stack and the expression engine read each operator symbol as the same arithmetic. */
  lemma OperatorTablesAgree(s: string, parseNum: Expressions.NumParser, l: Num, r: Num)
    requires IsOp(s)
    ensures Expressions.Classify(s, parseNum).Some? && Expressions.Classify(s, parseNum).value.BinOp?
    ensures GetOpFn(s).value(l, r) == Expressions.GetBinOp(Expressions.Classify(s, parseNum).value.bop)(l, r)
  {
  }

  /**
   * Two values pushed, then an operator: the result is `op(first, second)`, it is the
   * new top, and it is the only value left.
   */
  method PushPushOp(a: Num, b: Num, op: string) returns (r: Result<Num, string>, after: seq<Num>)
    requires IsOp(op)
    ensures r == Ok(GetOpFn(op).value(a, b))
    ensures after == [r.value]
  {
    var s := new Stack();
    s.Push(a);
    s.Push(b);
    r := s.Op(op);
    after := s.stack;
  }

  /** One value pushed, then an operator: the operator fails and the lone value is gone. */
  method LoneValueIsLost(a: Num, op: string) returns (r: Result<Num, string>, after: seq<Num>)
    requires IsOp(op)
    ensures r == Err("not enough items on the stack")
    ensures after == []
  {
    var s := new Stack();
    s.Push(a);
    r := s.Op(op);
    after := s.stack;
  }
}
