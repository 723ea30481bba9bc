/** The syntax tree the parser builds: one constructor per node kind of the source.
    The source's generic node carries a kind, an optional value and up to three
    children; here each kind carries exactly what it uses.  An assignment keeps the
    index of its target variable, which the source reads from a VAR child. */
module Ast {

  datatype Node =
    | VAR(index: int)                       // variable a..z as 0..25
    | CONST(value: int)                     // numeric literal
    | ADD(op1: Node, op2: Node)
    | SUB(op1: Node, op2: Node)
    | LT(op1: Node, op2: Node)
    | SET(index: int, op2: Node)            // index = op2
    | IF1(op1: Node, op2: Node)             // if (op1) op2
    | IF2(op1: Node, op2: Node, op3: Node)  // if (op1) op2 else op3
    | WHILE(op1: Node, op2: Node)           // while (op1) op2
    | DO(op1: Node, op2: Node)              // do op1 while (op2)
    | EMPTY
    | SEQ(op1: Node, op2: Node)             // op1 then op2
    | EXPR(op1: Node)                       // expression statement
    | PROG(op1: Node)

  /** Number of variables, a to z. */
  const VarCount: nat := 26

  /** The expressions the parser can build: variables within a..z, non-negative
      literals, and the four operators. */
  predicate IsExpr(n: Node) {
    match n
    case VAR(i) => 0 <= i < VarCount
    case CONST(v) => v >= 0
    case ADD(l, r) => IsExpr(l) && IsExpr(r)
    case SUB(l, r) => IsExpr(l) && IsExpr(r)
    case LT(l, r) => IsExpr(l) && IsExpr(r)
    case SET(i, e) => 0 <= i < VarCount && IsExpr(e)
    case _ => false
  }

  /** The statements the parser can build. */
  predicate IsStmt(n: Node) {
    match n
    case IF1(c, t) => IsExpr(c) && IsStmt(t)
    case IF2(c, t, e) => IsExpr(c) && IsStmt(t) && IsStmt(e)
    case WHILE(c, b) => IsExpr(c) && IsStmt(b)
    case DO(b, c) => IsStmt(b) && IsExpr(c)
    case EMPTY => true
    case SEQ(a, b) => IsStmt(a) && IsStmt(b)
    case EXPR(e) => IsExpr(e)
    case _ => false
  }

  predicate IsProg(n: Node) {
    n.PROG? && IsStmt(n.op1)
  }

  /** The expressions without assignment: variables, literals, +, - and <. */
  predicate IsPure(n: Node) {
    match n
    case VAR(i) => 0 <= i < VarCount
    case CONST(v) => v >= 0
    case ADD(l, r) => IsPure(l) && IsPure(r)
    case SUB(l, r) => IsPure(l) && IsPure(r)
    case LT(l, r) => IsPure(l) && IsPure(r)
    case _ => false
  }
}
