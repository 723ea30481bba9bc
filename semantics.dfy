/** What expressions mean, on the tree: the value of a pure expression, and the exact
    effect of any expression on the variables and the operand stack.

    The effect follows the stack discipline of the machine the compiler targets, so it
    keeps the source's quirk: an assignment stores the value and leaves nothing on the
    stack, and an operator takes whatever two entries are on top.  A chained
    assignment, or an assignment used as an operand, therefore consumes entries that
    were already on the stack, and fails when there are none. */
module Semantics {
  import opened Diagnostics
  import opened Ast

  /** The part of the machine state an expression acts on. */
  datatype Frame = Frame(vars: seq<int>, stack: seq<int>)

  /** The result of ADD, SUB or LT on the values `a` and `b`. */
  function Combine(n: Node, a: int, b: int): (v: int)
    requires n.ADD? || n.SUB? || n.LT?
    ensures n.ADD? ==> v == a + b
    ensures n.SUB? ==> v == a - b
    ensures n.LT? ==> (v == 1 <==> a < b) && (v == 0 <==> !(a < b))
  {
    if n.ADD? then a + b else if n.SUB? then a - b else if a < b then 1 else 0
  }

  /** The value of a pure expression under the variables `vars` (0 for a). */
  function Eval(n: Node, vars: seq<int>): int
    requires IsPure(n) && |vars| == VarCount
  {
    match n
    case VAR(i) => vars[i]
    case CONST(v) => v
    case ADD(l, r) => Combine(n, Eval(l, vars), Eval(r, vars))
    case SUB(l, r) => Combine(n, Eval(l, vars), Eval(r, vars))
    case LT(l, r) => Combine(n, Eval(l, vars), Eval(r, vars))
  }

  /** The effect of evaluating `n` on `f`: a variable or a literal pushes its value; an
      operator evaluates its operands in order and replaces the top two entries by
      their combination; an assignment evaluates its right side and pops the top
      entry into the variable.  None when an operator or an assignment finds too few
      entries on the stack, and for a node that is not an expression. */
  function Effect(n: Node, f: Frame): (r: Option<Frame>)
    requires |f.vars| == VarCount
    ensures r.Some? ==> |r.value.vars| == VarCount
    decreases n, 1
  {
    match n
    case VAR(i) => if 0 <= i < VarCount then Some(Frame(f.vars, f.stack + [f.vars[i]])) else None
    case CONST(v) => if v >= 0 then Some(Frame(f.vars, f.stack + [v])) else None
    case ADD(_, _) => OperatorEffect(n, f)
    case SUB(_, _) => OperatorEffect(n, f)
    case LT(_, _) => OperatorEffect(n, f)
    case SET(i, e) =>
      if !(0 <= i < VarCount) then None
      else
        (match Effect(e, f)
         case None => None
         case Some(g) =>
           var k := |g.stack|;
           if k == 0 then None else Some(Frame(g.vars[i := g.stack[k - 1]], g.stack[..k - 1])))
    case _ => None
  }

  /** ADD, SUB, LT: the left operand, the right operand, then the combination of the
      top two entries. */
  function OperatorEffect(n: Node, f: Frame): (r: Option<Frame>)
    requires (n.ADD? || n.SUB? || n.LT?) && |f.vars| == VarCount
    ensures r.Some? ==> |r.value.vars| == VarCount
    decreases n, 0
  {
    match Effect(n.op1, f)
    case None => None
    case Some(g) =>
      match Effect(n.op2, g)
      case None => None
      case Some(h) => Combined(n, h)
  }

  /** The last part of an operator: the top two entries replaced by their combination,
      or None when there are fewer than two. */
  function Combined(n: Node, h: Frame): (r: Option<Frame>)
    requires n.ADD? || n.SUB? || n.LT?
    ensures r.Some? ==> r.value.vars == h.vars
  {
    var k := |h.stack|;
    if k < 2 then None
    else Some(Frame(h.vars, h.stack[..k - 2] + [Combine(n, h.stack[k - 2], h.stack[k - 1])]))
  }

  /** A pure expression leaves the variables alone and pushes exactly its value on top
      of whatever was on the stack. */
  lemma {:induction false} PureEffect(n: Node, f: Frame)
    requires IsPure(n) && |f.vars| == VarCount
    ensures Effect(n, f) == Some(Frame(f.vars, f.stack + [Eval(n, f.vars)]))
    decreases n, 1
  {
    match n
    case VAR(_) =>
    case CONST(_) =>
    case ADD(_, _) => PureOperator(n, f);
    case SUB(_, _) => PureOperator(n, f);
    case LT(_, _) => PureOperator(n, f);
  }

  lemma {:induction false} PureOperator(n: Node, f: Frame)
    requires (n.ADD? || n.SUB? || n.LT?) && IsPure(n) && |f.vars| == VarCount
    ensures OperatorEffect(n, f) == Some(Frame(f.vars, f.stack + [Eval(n, f.vars)]))
    decreases n, 0
  {
    var a := Eval(n.op1, f.vars);
    PureEffect(n.op1, f);
    var g := Frame(f.vars, f.stack + [a]);
    PureEffect(n.op2, g);
    var h := Frame(f.vars, f.stack + [a] + [Eval(n.op2, f.vars)]);
    assert h.stack[..|h.stack| - 2] == f.stack;
  }

  /** An assignment of a pure expression stores its value and leaves the stack as it
      was. */
  lemma AssignEffect(i: int, e: Node, f: Frame)
    requires 0 <= i < VarCount && IsPure(e) && |f.vars| == VarCount
    ensures Effect(SET(i, e), f) == Some(Frame(f.vars[i := Eval(e, f.vars)], f.stack))
  {
    PureEffect(e, f);
    assert (f.stack + [Eval(e, f.vars)])[..|f.stack|] == f.stack;
  }

  /** A chained assignment `a = b = e` pops one entry more than it pushes: the inner
      assignment leaves nothing for the outer one to store, so it takes whatever was
      below and fails on an empty stack. */
  lemma ChainedAssignUnderflows(i: int, j: int, e: Node, f: Frame)
    requires 0 <= i < VarCount && 0 <= j < VarCount && IsPure(e) && |f.vars| == VarCount
    ensures f.stack == [] ==> Effect(SET(i, SET(j, e)), f) == None
    ensures f.stack != [] ==>
      Effect(SET(i, SET(j, e)), f) ==
        Some(Frame(f.vars[j := Eval(e, f.vars)][i := f.stack[|f.stack| - 1]], f.stack[..|f.stack| - 1]))
  {
    AssignEffect(j, e, f);
  }
}
