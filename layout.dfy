/** The shape of compiled code: the code of any parsed expression or statement splits
    into complete instructions, names only the 26 variables, and jumps only within its
    own span; a whole program ends in HALT and jumps only to indices inside it. */
module Layout {
  import opened Ast
  import opened Bytecode
  import opened CodeGen
  import opened Machine
  import G = Grammar

  /** The nodes the parser builds below PROG. */
  predicate Compilable(n: Node) {
    IsExpr(n) || IsStmt(n)
  }

  /** The code for `n` at `base` is well-formed, every jump landing between its first
      cell and the index just after its last. */
  lemma {:induction false} CodeWellFormed(n: Node, base: int)
    requires Compilable(n)
    ensures WellFormed(Code(n, base), base, base + |Code(n, base)|)
    decreases n, 1
  {
    match n
    case VAR(i) => Instruction(IFETCH, i, base, base + 2);
    case CONST(v) => Instruction(IPUSH, v, base, base + 2);
    case ADD(_, _) => OperatorWellFormed(n, base);
    case SUB(_, _) => OperatorWellFormed(n, base);
    case LT(_, _) => OperatorWellFormed(n, base);
    case SET(i, e) =>
      CodeWellFormed(e, base);
      StoreJoin(Code(e, base), i, base);
    case IF1(_, _) => IfWellFormed(n, base);
    case IF2(_, _, _) => IfElseWellFormed(n, base);
    case WHILE(_, _) => WhileWellFormed(n, base);
    case DO(_, _) => DoWellFormed(n, base);
    case EMPTY =>
    case SEQ(_, _) => SeqWellFormed(n, base);
    case EXPR(e) =>
      CodeWellFormed(e, base);
      PopJoin(Code(e, base), base);
  }

  /** A program: the code of its statement followed by HALT, whose index is the only
      jump target at or after the end of the statement's code. */
  lemma ProgramWellFormed(n: Node)
    requires IsProg(n)
    ensures var code := Code(n, 0);
      |code| >= 1 && code[|code| - 1] == HALT && WellFormed(code, 0, |code| - 1)
  {
    var cs := Code(n.op1, 0);
    CodeWellFormed(n.op1, 0);
    Instruction(HALT, 0, 0, |cs|);
    Join(cs, 0, |cs|, [HALT], 0, 0, 0, |cs|);
  }

  /** Every jump of a program's code, read by instruction widths from its first cell,
      names an index of the program. */
  lemma ProgramJumps(n: Node, k: int)
    requires IsProg(n)
    requires Boundary(Code(n, 0), k) && 0 <= k < |Code(n, 0)| && IsJump(Code(n, 0)[k])
    ensures k + 1 < |Code(n, 0)| && 0 <= Code(n, 0)[k + 1] < |Code(n, 0)|
  {
    var code := Code(n, 0);
    ProgramWellFormed(n);
    OperandAt(code, 0, |code| - 1, k);
  }

  /** Whatever text parses compiles to well-formed code ending in HALT. */
  lemma ParsedProgramWellFormed(input: string)
    ensures G.Parse(input).Ok? ==>
      var code := Code(G.Parse(input).value, 0);
      |code| >= 1 && code[|code| - 1] == HALT && WellFormed(code, 0, |code| - 1)
  {
    if G.Parse(input).Ok? {
      ProgramWellFormed(G.Parse(input).value);
    }
  }

  /** A compiled program crashes at an instruction boundary only for want of stack
      entries. */
  lemma ProgramStepSafe(n: Node, s: State)
    requires IsProg(n) && Boundary(Code(n, 0), s.pc) && 0 <= s.pc < |Code(n, 0)|
    requires |s.vars| == 26 && |s.stack| >= Pops(Code(n, 0)[s.pc])
    ensures !Step(Code(n, 0), s).Fault?
  {
    ProgramWellFormed(n);
    SafeStep(Code(n, 0), s);
  }

  /* The constructs with two or three children, one lemma each: the children's code
     is well-formed for its own span, and a lemma on plain sequences below joins the
     pieces, with each jump landing inside the whole span. */

  lemma {:induction false} OperatorWellFormed(n: Node, base: int)
    requires (n.ADD? || n.SUB? || n.LT?) && Compilable(n)
    ensures WellFormed(Code(n, base), base, base + |Code(n, base)|)
    decreases n, 0
  {
    var cl := Code(n.op1, base);
    var mid := base + |cl|;
    var cr := Code(n.op2, mid);
    assert Code(n, base) == cl + cr + [Operator(n)];
    CodeWellFormed(n.op1, base);
    CodeWellFormed(n.op2, mid);
    OperatorJoin(cl, cr, Operator(n), base, mid, mid + |cr| + 1);
  }

  lemma {:induction false} IfWellFormed(n: Node, base: int)
    requires n.IF1? && Compilable(n)
    ensures WellFormed(Code(n, base), base, base + |Code(n, base)|)
    decreases n, 0
  {
    var cc := Code(n.op1, base);
    var tb := base + |cc| + 2;
    var ct := Code(n.op2, tb);
    var end := tb + |ct|;
    assert Code(n, base) == cc + [JZ, end] + ct;
    CodeWellFormed(n.op1, base);
    CodeWellFormed(n.op2, tb);
    IfJoin(cc, ct, base, tb, end);
  }

  lemma {:induction false} IfElseWellFormed(n: Node, base: int)
    requires n.IF2? && Compilable(n)
    ensures WellFormed(Code(n, base), base, base + |Code(n, base)|)
    decreases n, 0
  {
    var cc := Code(n.op1, base);
    var tb := base + |cc| + 2;
    var ct := Code(n.op2, tb);
    var eb := tb + |ct| + 2;
    var ce := Code(n.op3, eb);
    var end := eb + |ce|;
    assert Code(n, base) == cc + [JZ, eb] + ct + [JMP, end] + ce;
    CodeWellFormed(n.op1, base);
    CodeWellFormed(n.op2, tb);
    CodeWellFormed(n.op3, eb);
    IfElseJoin(cc, ct, ce, base, tb, eb, end);
  }

  lemma {:induction false} WhileWellFormed(n: Node, base: int)
    requires n.WHILE? && Compilable(n)
    ensures WellFormed(Code(n, base), base, base + |Code(n, base)|)
    decreases n, 0
  {
    var cc := Code(n.op1, base);
    var bb := base + |cc| + 2;
    var cb := Code(n.op2, bb);
    var end := bb + |cb| + 2;
    assert Code(n, base) == cc + [JZ, end] + cb + [JMP, base];
    CodeWellFormed(n.op1, base);
    CodeWellFormed(n.op2, bb);
    WhileJoin(cc, cb, base, bb, end);
  }

  lemma {:induction false} DoWellFormed(n: Node, base: int)
    requires n.DO? && Compilable(n)
    ensures WellFormed(Code(n, base), base, base + |Code(n, base)|)
    decreases n, 0
  {
    var cb := Code(n.op1, base);
    var mid := base + |cb|;
    var cc := Code(n.op2, mid);
    assert Code(n, base) == cb + cc + [JNZ, base];
    CodeWellFormed(n.op1, base);
    CodeWellFormed(n.op2, mid);
    DoJoin(cb, cc, base, mid, mid + |cc| + 2);
  }

  lemma {:induction false} SeqWellFormed(n: Node, base: int)
    requires n.SEQ? && Compilable(n)
    ensures WellFormed(Code(n, base), base, base + |Code(n, base)|)
    decreases n, 0
  {
    var ca := Code(n.op1, base);
    var mid := base + |ca|;
    var cb := Code(n.op2, mid);
    assert Code(n, base) == ca + cb;
    CodeWellFormed(n.op1, base);
    CodeWellFormed(n.op2, mid);
    Join(ca, base, mid, cb, mid, mid + |cb|, base, mid + |cb|);
  }

  /* The layouts of `CodeGen`, on plain sequences. */

  lemma OperatorJoin(cl: seq<int>, cr: seq<int>, op: int, base: int, mid: int, end: int)
    requires IADD <= op <= ILT
    requires mid == base + |cl| && end == mid + |cr| + 1
    requires WellFormed(cl, base, mid) && WellFormed(cr, mid, end - 1)
    ensures WellFormed(cl + cr + [op], base, end)
  {
    Instruction(op, 0, base, end);
    Join(cl, base, mid, cr, mid, end - 1, base, end);
    Join(cl + cr, base, end, [op], base, end, base, end);
  }

  lemma StoreJoin(ce: seq<int>, i: int, base: int)
    requires 0 <= i < 26 && WellFormed(ce, base, base + |ce|)
    ensures WellFormed(ce + [ISTORE, i], base, base + |ce| + 2)
  {
    Instruction(ISTORE, i, base, base);
    Join(ce, base, base + |ce|, [ISTORE, i], base, base, base, base + |ce| + 2);
  }

  lemma PopJoin(ce: seq<int>, base: int)
    requires WellFormed(ce, base, base + |ce|)
    ensures WellFormed(ce + [IPOP], base, base + |ce| + 1)
  {
    Instruction(IPOP, 0, base, base);
    Join(ce, base, base + |ce|, [IPOP], base, base, base, base + |ce| + 1);
  }

  lemma IfJoin(cc: seq<int>, ct: seq<int>, base: int, tb: int, end: int)
    requires tb == base + |cc| + 2 && end == tb + |ct|
    requires WellFormed(cc, base, base + |cc|) && WellFormed(ct, tb, end)
    ensures WellFormed(cc + [JZ, end] + ct, base, end)
  {
    Instruction(JZ, end, end, end);
    Join(cc, base, base + |cc|, [JZ, end], end, end, base, end);
    Join(cc + [JZ, end], base, end, ct, tb, end, base, end);
  }

  lemma IfElseJoin(cc: seq<int>, ct: seq<int>, ce: seq<int>, base: int, tb: int, eb: int, end: int)
    requires tb == base + |cc| + 2 && eb == tb + |ct| + 2 && end == eb + |ce|
    requires WellFormed(cc, base, base + |cc|) && WellFormed(ct, tb, tb + |ct|) && WellFormed(ce, eb, end)
    ensures WellFormed(cc + [JZ, eb] + ct + [JMP, end] + ce, base, end)
  {
    Instruction(JZ, eb, eb, eb);
    Instruction(JMP, end, end, end);
    Join(cc, base, base + |cc|, [JZ, eb], eb, eb, base, end);
    Join(cc + [JZ, eb], base, end, ct, tb, tb + |ct|, base, end);
    Join(cc + [JZ, eb] + ct, base, end, [JMP, end], end, end, base, end);
    Join(cc + [JZ, eb] + ct + [JMP, end], base, end, ce, eb, end, base, end);
  }

  lemma WhileJoin(cc: seq<int>, cb: seq<int>, base: int, bb: int, end: int)
    requires bb == base + |cc| + 2 && end == bb + |cb| + 2
    requires WellFormed(cc, base, base + |cc|) && WellFormed(cb, bb, bb + |cb|)
    ensures WellFormed(cc + [JZ, end] + cb + [JMP, base], base, end)
  {
    Instruction(JZ, end, end, end);
    Instruction(JMP, base, base, base);
    Join(cc, base, base + |cc|, [JZ, end], end, end, base, end);
    Join(cc + [JZ, end], base, end, cb, bb, bb + |cb|, base, end);
    Join(cc + [JZ, end] + cb, base, end, [JMP, base], base, base, base, end);
  }

  lemma DoJoin(cb: seq<int>, cc: seq<int>, base: int, mid: int, end: int)
    requires mid == base + |cb| && end == mid + |cc| + 2
    requires WellFormed(cb, base, mid) && WellFormed(cc, mid, mid + |cc|)
    ensures WellFormed(cb + cc + [JNZ, base], base, end)
  {
    Instruction(JNZ, base, base, base);
    Join(cb, base, mid, cc, mid, mid + |cc|, base, end);
    Join(cb + cc, base, end, [JNZ, base], base, base, base, end);
  }

  /** Two pieces, each well-formed for a range inside `lo..hi`. */
  lemma Join(a: seq<int>, la: int, ha: int, b: seq<int>, lb: int, hb: int, lo: int, hi: int)
    requires WellFormed(a, la, ha) && lo <= la && ha <= hi
    requires WellFormed(b, lb, hb) && lo <= lb && hb <= hi
    ensures WellFormed(a + b, lo, hi)
  {
    WellFormedWiden(a, la, ha, lo, hi);
    WellFormedWiden(b, lb, hb, lo, hi);
    WellFormedConcat(a, b, lo, hi);
  }
}
