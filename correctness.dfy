/** The compiler and the machine together: running the code `Code` gives an expression,
    wherever it sits in a program, has exactly the effect `Effect` describes on the
    tree, and for a pure expression that is pushing its value. */
module Correctness {
  import opened Diagnostics
  import opened Ast
  import opened Bytecode
  import opened CodeGen
  import opened Machine
  import opened Semantics

  /** `c` occupies the cells of `p` from index `base` on. */
  predicate CodeAt(p: seq<int>, base: int, c: seq<int>) {
    0 <= base && base + |c| <= |p| && p[base..base + |c|] == c
  }

  lemma CodeAtSplit(p: seq<int>, base: int, a: seq<int>, b: seq<int>)
    requires CodeAt(p, base, a + b)
    ensures CodeAt(p, base, a) && CodeAt(p, base + |a|, b)
  {
    assert p[base..base + |a|] == p[base..base + |a + b|][..|a|];
    assert p[base + |a|..base + |a| + |b|] == p[base..base + |a + b|][|a|..];
  }

  /** Running `total == a + b` iterations is running `a` and then, if the machine is
      still running, `b` more. */
  lemma {:induction false} ExecuteThen(p: seq<int>, s: State, a: nat, b: nat, total: nat, t: State)
    requires Execute(p, s, a) == Running(t) && total == a + b
    ensures Execute(p, s, total) == Execute(p, t, b)
    decreases a
  {
    if a > 0 {
      ExecuteThen(p, Step(p, s).next, a - 1, b, total - 1, t);
    }
  }

  /** A machine that has halted or crashed within `a` iterations stays so. */
  lemma {:induction false} ExecuteStops(p: seq<int>, s: State, a: nat, total: nat)
    requires !Execute(p, s, a).Running? && a <= total
    ensures Execute(p, s, total) == Execute(p, s, a)
    decreases a
  {
    if Step(p, s).Next? {
      ExecuteStops(p, Step(p, s).next, a - 1, total - 1);
    }
  }

  /** The number of instructions the code of an expression executes when it runs to
      the end. */
  function Steps(n: Node): (k: nat)
    ensures k >= 1
  {
    match n
    case ADD(l, r) => Steps(l) + Steps(r) + 1
    case SUB(l, r) => Steps(l) + Steps(r) + 1
    case LT(l, r) => Steps(l) + Steps(r) + 1
    case SET(_, e) => Steps(e) + 1
    case _ => 1
  }

  /** The machine ended up where the tree says: crashed when the effect fails, and
      otherwise still running at `pc` with the frame's variables and stack. */
  predicate Reaches(r: Status, f: Option<Frame>, pc: int) {
    match f
    case None => r == Crashed
    case Some(g) => r.Running? && r.now.vars == g.vars && r.now.stack == g.stack && r.now.pc == pc
  }

  /** `n` is an expression: `IsExpr`, named once more so that the proofs below can
      pass the fact from lemma to lemma without unfolding it at every call. */
  predicate Expression(n: Node) {
    IsExpr(n)
  }

  /** The code of an expression, started at its first cell, runs for `Steps(n)`
      instructions and makes exactly the change `Effect` gives, ending just after its
      last cell; or it crashes exactly when `Effect` fails. */
  lemma ExprCode(p: seq<int>, n: Node, s: State)
    requires IsExpr(n) && |s.vars| == VarCount && CodeAt(p, s.pc, Code(n, s.pc))
    ensures Reaches(Execute(p, s, Steps(n)), Effect(n, Frame(s.vars, s.stack)), s.pc + |Code(n, s.pc)|)
  {
    ExprRuns(p, n, s);
  }

  lemma {:induction false} ExprRuns(p: seq<int>, n: Node, s: State)
    requires Expression(n) && |s.vars| == VarCount && CodeAt(p, s.pc, Code(n, s.pc))
    ensures Reaches(Execute(p, s, Steps(n)), Effect(n, Frame(s.vars, s.stack)), s.pc + |Code(n, s.pc)|)
    decreases n, 2
  {
    match n
    case VAR(i) => LeafCode(p, s, IFETCH, i);
    case CONST(v) => LeafCode(p, s, IPUSH, v);
    case ADD(_, _) => OperatorRuns(p, n, s);
    case SUB(_, _) => OperatorRuns(p, n, s);
    case LT(_, _) => OperatorRuns(p, n, s);
    case SET(_, _) => AssignRuns(p, n, s);
  }

  /** One IFETCH or IPUSH: the operand is refreshed from the next cell. */
  lemma LeafCode(p: seq<int>, s: State, op: int, x: int)
    requires CodeAt(p, s.pc, [op, x]) && (op == IFETCH || op == IPUSH)
    ensures Step(p, s) == Apply(op, s.(arg := Some(x)))
    ensures Execute(p, s, 1) == (match Apply(op, s.(arg := Some(x)))
                                  case Next(t) => Running(t)
                                  case Halt(t) => Halted(t)
                                  case Fault => Crashed)
  {
    assert p[s.pc] == p[s.pc..s.pc + 2][0];
    assert p[s.pc + 1] == p[s.pc..s.pc + 2][1];
  }

  /** The operands of an expression are expressions. */
  lemma Operands(n: Node)
    requires Expression(n) && (n.ADD? || n.SUB? || n.LT? || n.SET?)
    ensures !n.SET? ==> Expression(n.op1)
    ensures Expression(n.op2)
  {
  }

  lemma {:induction false} OperatorRuns(p: seq<int>, n: Node, s: State)
    requires (n.ADD? || n.SUB? || n.LT?) && Expression(n) && |s.vars| == VarCount
    requires CodeAt(p, s.pc, Code(n, s.pc))
    ensures Reaches(Execute(p, s, Steps(n)), Effect(n, Frame(s.vars, s.stack)), s.pc + |Code(n, s.pc)|)
    decreases n, 1
  {
    Operands(n);
    var mid := s.pc + |Code(n.op1, s.pc)|;
    var end := mid + |Code(n.op2, mid)|;
    OperatorLayout(p, n, s.pc, mid, end);
    var f := Frame(s.vars, s.stack);
    OperatorUnfolds(n, f);
    assert Steps(n) == Steps(n.op1) + Steps(n.op2) + 1;
    OperatorSequence(p, n, s, mid, end, Steps(n), Effect(n, f), s.pc + |Code(n, s.pc)|);
  }

  /** An operator's code run part by part: the left operand from the start, the right
      one from `mid`, the operator at `end`. */
  lemma {:induction false} OperatorSequence(p: seq<int>, n: Node, s: State, mid: int, end: int,
                                            total: nat, fr: Option<Frame>, stop: int)
    requires (n.ADD? || n.SUB? || n.LT?) && Expression(n.op1) && Expression(n.op2)
    requires |s.vars| == VarCount
    requires CodeAt(p, s.pc, Code(n.op1, s.pc)) && mid == s.pc + |Code(n.op1, s.pc)|
    requires CodeAt(p, mid, Code(n.op2, mid)) && end == mid + |Code(n.op2, mid)|
    requires CodeAt(p, end, [Operator(n)]) && stop == end + 1
    requires total == Steps(n.op1) + Steps(n.op2) + 1
    requires fr == AfterLeft(n, Effect(n.op1, Frame(s.vars, s.stack)))
    ensures Reaches(Execute(p, s, total), fr, stop)
    decreases n, 0
  {
    var l, r := n.op1, n.op2;
    ExprRuns(p, l, s);
    var fl := Effect(l, Frame(s.vars, s.stack));
    if fl.Some? {
      OperatorRest(p, n, r, fl.value, Execute(p, s, Steps(l)).now, mid, end, stop);
    }
    ReachesThen(p, s, Steps(l), Steps(r) + 1, total, fl, mid, fr, stop);
  }

  /** Two runs one after the other: the first reaches `fl` at `mid`; when it did not
      crash, the second reaches `fr` at `stop` from where the first ended; a crash of
      the first is a crash of the whole. */
  lemma ReachesThen(p: seq<int>, s: State, a: nat, b: nat, total: nat, fl: Option<Frame>, mid: int,
                    fr: Option<Frame>, stop: int)
    requires Reaches(Execute(p, s, a), fl, mid) && total == a + b
    requires fl.None? ==> fr.None?
    requires fl.Some? ==> Reaches(Execute(p, Execute(p, s, a).now, b), fr, stop)
    ensures Reaches(Execute(p, s, total), fr, stop)
  {
    if fl.None? {
      ExecuteStops(p, s, a, total);
    } else {
      ExecuteThen(p, s, a, b, total, Execute(p, s, a).now);
    }
  }

  /** What remains of an operator's effect once its left operand has had `fl`. */
  function AfterLeft(n: Node, fl: Option<Frame>): Option<Frame>
    requires n.ADD? || n.SUB? || n.LT?
    requires fl.Some? ==> |fl.value.vars| == VarCount
  {
    match fl
    case None => None
    case Some(g) => (match Effect(n.op2, g) case None => None case Some(h) => Combined(n, h))
  }

  /** Where the parts of an operator's code lie: the left operand from `base`, the
      right one from `mid`, the operator at `end`. */
  lemma OperatorLayout(p: seq<int>, n: Node, base: int, mid: int, end: int)
    requires (n.ADD? || n.SUB? || n.LT?) && CodeAt(p, base, Code(n, base))
    requires mid == base + |Code(n.op1, base)| && end == mid + |Code(n.op2, mid)|
    ensures CodeAt(p, base, Code(n.op1, base)) && CodeAt(p, mid, Code(n.op2, mid))
    ensures CodeAt(p, end, [Operator(n)]) && base + |Code(n, base)| == end + 1
  {
    var cl := Code(n.op1, base);
    var cr := Code(n.op2, base + |cl|);
    assert Code(n, base) == cl + cr + [Operator(n)];
    CodeAtSplit(p, base, cl + cr, [Operator(n)]);
    CodeAtSplit(p, base, cl, cr);
  }

  /** The effect of an operator, one operand at a time. */
  lemma OperatorUnfolds(n: Node, f: Frame)
    requires (n.ADD? || n.SUB? || n.LT?) && |f.vars| == VarCount
    ensures Effect(n, f) == AfterLeft(n, Effect(n.op1, f))
  {
  }

  /** An operator after its left operand: the right operand `r` from `mid`, then the
      operator at `end`, stopping at `stop`. */
  lemma {:induction false} OperatorRest(p: seq<int>, n: Node, r: Node, g: Frame, t: State,
                                        mid: int, end: int, stop: int)
    requires (n.ADD? || n.SUB? || n.LT?) && r == n.op2 && Expression(r) && |t.vars| == VarCount
    requires g == Frame(t.vars, t.stack) && t.pc == mid
    requires CodeAt(p, mid, Code(r, mid)) && end == mid + |Code(r, mid)|
    requires CodeAt(p, end, [Operator(n)]) && stop == end + 1
    ensures Reaches(Execute(p, t, Steps(r) + 1), AfterLeft(n, Some(g)), stop)
    decreases r, 3
  {
    ExprRuns(p, r, t);
    OperatorTail(p, n, t, Steps(r), Effect(r, g), end);
  }

  /** Whatever the operands reached, one operator instruction more combines the top
      two entries or crashes. */
  lemma OperatorTail(p: seq<int>, n: Node, t: State, a: nat, f: Option<Frame>, end: int)
    requires n.ADD? || n.SUB? || n.LT?
    requires Reaches(Execute(p, t, a), f, end) && CodeAt(p, end, [Operator(n)])
    ensures Reaches(Execute(p, t, a + 1), match f case None => None case Some(h) => Combined(n, h), end + 1)
  {
    match f
    case None =>
      ExecuteStops(p, t, a, a + 1);
    case Some(h) =>
      var u := Execute(p, t, a).now;
      ExecuteThen(p, t, a, 1, a + 1, u);
      OperatorStep(p, n, u, h);
  }

  /** The operator instruction at the end of an operator's code. */
  lemma OperatorStep(p: seq<int>, n: Node, u: State, h: Frame)
    requires n.ADD? || n.SUB? || n.LT?
    requires CodeAt(p, u.pc, [Operator(n)]) && u.vars == h.vars && u.stack == h.stack
    ensures Reaches(Execute(p, u, 1), Combined(n, h), u.pc + 1)
  {
    assert p[u.pc] == p[u.pc..u.pc + 1][0];
  }

  lemma {:induction false} AssignRuns(p: seq<int>, n: Node, s: State)
    requires n.SET? && Expression(n) && |s.vars| == VarCount
    requires CodeAt(p, s.pc, Code(n, s.pc))
    ensures Reaches(Execute(p, s, Steps(n)), Effect(n, Frame(s.vars, s.stack)), s.pc + |Code(n, s.pc)|)
    decreases n, 0
  {
    var base := s.pc;
    var e := n.op2;
    Operands(n);
    assert 0 <= n.index < VarCount;
    var ce := Code(e, base);
    assert Code(n, base) == ce + [ISTORE, n.index];
    CodeAtSplit(p, base, ce, [ISTORE, n.index]);
    ExprRuns(p, e, s);
    if Effect(e, Frame(s.vars, s.stack)).None? {
      ExecuteStops(p, s, Steps(e), Steps(n));
    } else {
      var t := Execute(p, s, Steps(e)).now;
      ExecuteThen(p, s, Steps(e), 1, Steps(n), t);
      StoreStep(p, n.index, t);
    }
  }

  /** The ISTORE at the end of an assignment's code. */
  lemma StoreStep(p: seq<int>, i: int, t: State)
    requires 0 <= i < VarCount && |t.vars| == VarCount
    requires CodeAt(p, t.pc, [ISTORE, i])
    ensures var k := |t.stack|;
      Reaches(Execute(p, t, 1),
              if k == 0 then None else Some(Frame(t.vars[i := t.stack[k - 1]], t.stack[..k - 1])),
              t.pc + 2)
  {
    assert p[t.pc] == p[t.pc..t.pc + 2][0];
    assert p[t.pc + 1] == p[t.pc..t.pc + 2][1];
  }

  /** What the source promises for expressions: the code of a pure expression, run
      from any state, leaves the variables unchanged and the old stack beneath, and
      pushes exactly the expression's value. */
  lemma PureCode(p: seq<int>, n: Node, s: State)
    requires IsPure(n) && |s.vars| == VarCount && CodeAt(p, s.pc, Code(n, s.pc))
    ensures var r := Execute(p, s, Steps(n));
      r.Running? && r.now.vars == s.vars && r.now.stack == s.stack + [Eval(n, s.vars)] &&
      r.now.pc == s.pc + |Code(n, s.pc)|
  {
    PureEffect(n, Frame(s.vars, s.stack));
    PureIsExpr(n);
    ExprCode(p, n, s);
  }

  /** An expression statement runs its expression and then IPOP, which changes
      nothing; so it has the expression's effect, whatever follows it in the
      program. */
  lemma ExprStatementRuns(p: seq<int>, e: Node, s: State)
    requires IsExpr(e) && |s.vars| == VarCount
    requires CodeAt(p, s.pc, Code(EXPR(e), s.pc)) && s.pc + |Code(EXPR(e), s.pc)| < |p|
    ensures Reaches(Execute(p, s, Steps(e) + 1), Effect(e, Frame(s.vars, s.stack)),
                    s.pc + |Code(EXPR(e), s.pc)|)
  {
    var ce := Code(e, s.pc);
    assert Code(EXPR(e), s.pc) == ce + [IPOP];
    CodeAtSplit(p, s.pc, ce, [IPOP]);
    ExprCode(p, e, s);
    PopRest(p, s, Steps(e), Effect(e, Frame(s.vars, s.stack)), s.pc + |ce|);
  }

  /** Whatever the run so far reached, one IPOP more changes nothing but the pc. */
  lemma PopRest(p: seq<int>, s: State, a: nat, f: Option<Frame>, end: int)
    requires Reaches(Execute(p, s, a), f, end) && CodeAt(p, end, [IPOP]) && end < |p| - 1
    ensures Reaches(Execute(p, s, a + 1), f, end + 1)
  {
    match f
    case None =>
      ExecuteStops(p, s, a, a + 1);
    case Some(g) =>
      var t := Execute(p, s, a).now;
      ExecuteThen(p, s, a, 1, a + 1, t);
      PopStep(p, t);
  }

  lemma PopStep(p: seq<int>, t: State)
    requires CodeAt(p, t.pc, [IPOP]) && t.pc < |p| - 1
    ensures Execute(p, t, 1) == Running(t.(pc := t.pc + 1, arg := Some(p[t.pc + 1])))
  {
    assert p[t.pc] == p[t.pc..t.pc + 1][0];
  }

  /** Since IPOP pops nothing, the statement `e;` for a pure `e` leaves its value on
      the stack. */
  lemma ExprStatementKeepsValue(p: seq<int>, e: Node, s: State)
    requires IsPure(e) && |s.vars| == VarCount
    requires CodeAt(p, s.pc, Code(EXPR(e), s.pc)) && s.pc + |Code(EXPR(e), s.pc)| < |p|
    ensures var r := Execute(p, s, Steps(e) + 1);
      r.Running? && r.now.vars == s.vars && r.now.stack == s.stack + [Eval(e, s.vars)]
  {
    PureEffect(e, Frame(s.vars, s.stack));
    PureIsExpr(e);
    ExprStatementRuns(p, e, s);
  }

  /** The statement `a = e;` for a pure `e` stores the value and leaves the stack as
      it was: ISTORE pops what the code of `e` pushed. */
  lemma AssignStatement(p: seq<int>, i: int, e: Node, s: State)
    requires 0 <= i < VarCount && IsPure(e) && |s.vars| == VarCount
    requires CodeAt(p, s.pc, Code(EXPR(SET(i, e)), s.pc)) && s.pc + |Code(EXPR(SET(i, e)), s.pc)| < |p|
    ensures var r := Execute(p, s, Steps(e) + 2);
      r.Running? && r.now.vars == s.vars[i := Eval(e, s.vars)] && r.now.stack == s.stack
  {
    AssignEffect(i, e, Frame(s.vars, s.stack));
    PureIsExpr(e);
    ExprStatementRuns(p, SET(i, e), s);
  }

  /** Every pure expression is an expression the parser can build. */
  lemma {:induction false} PureIsExpr(n: Node)
    requires IsPure(n)
    ensures IsExpr(n)
  {
    match n
    case VAR(_) =>
    case CONST(_) =>
    case ADD(l, r) => PureIsExpr(l); PureIsExpr(r);
    case SUB(l, r) => PureIsExpr(l); PureIsExpr(r);
    case LT(l, r) => PureIsExpr(l); PureIsExpr(r);
  }
}
