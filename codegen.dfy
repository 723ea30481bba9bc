/** The compiler: a post-order walk over the tree that appends cells to a growing
    program and backpatches forward jumps.

    `Code(n, base)` is the code emitted for `n` when emission starts at index `base`
    (jump operands are absolute, so the code depends on where it starts).  The class
    `Compiler` does it the source's way: `Gen` appends one cell and bumps `pc`; a
    forward jump is emitted with a placeholder 0 whose index is remembered, and that
    cell is overwritten once the target is known.  `Emit` follows those steps on
    values, and `EmitCode` shows that they produce exactly `Code`.

    The nodes with two or three children have a function of their own in both
    `Code` and `Emit`, as they have a method of their own in `Compiler`. */
module CodeGen {
  import opened Ast
  import opened Bytecode

  /** The code for `n` starting at index `base`. */
  function Code(n: Node, base: int): (code: seq<int>)
    decreases n, 1
  {
    match n
    case VAR(i) => [IFETCH, i]
    case CONST(v) => [IPUSH, v]
    case ADD(_, _) => OperatorCode(n, base)
    case SUB(_, _) => OperatorCode(n, base)
    case LT(_, _) => OperatorCode(n, base)
    case SET(i, e) => Code(e, base) + [ISTORE, i]
    case IF1(_, _) => IfCode(n, base)
    case IF2(_, _, _) => IfElseCode(n, base)
    case WHILE(_, _) => WhileCode(n, base)
    case DO(_, _) => DoCode(n, base)
    case EMPTY => []
    case SEQ(_, _) => SeqCode(n, base)
    case EXPR(e) => Code(e, base) + [IPOP]
    case PROG(s) => Code(s, base) + [HALT]
  }

  /** The opcode of an ADD, SUB or LT node. */
  function Operator(n: Node): (op: int)
    requires n.ADD? || n.SUB? || n.LT?
    ensures op == IADD <==> n.ADD?
    ensures op == ISUB <==> n.SUB?
    ensures op == ILT <==> n.LT?
  {
    if n.ADD? then IADD else if n.SUB? then ISUB else ILT
  }

  /** ADD, SUB, LT: both operands, then the operator. */
  function OperatorCode(n: Node, base: int): seq<int>
    requires n.ADD? || n.SUB? || n.LT?
    decreases n, 0
  {
    var cl := Code(n.op1, base);
    cl + Code(n.op2, base + |cl|) + [Operator(n)]
  }

  /** IF1: the JZ target is the index just after the then-code. */
  function IfCode(n: Node, base: int): seq<int>
    requires n.IF1?
    decreases n, 0
  {
    var cc := Code(n.op1, base);
    var ct := Code(n.op2, base + |cc| + 2);
    cc + [JZ, base + |cc| + 2 + |ct|] + ct
  }

  /** IF2: the JZ target is the start of the else-code, the JMP target its end. */
  function IfElseCode(n: Node, base: int): seq<int>
    requires n.IF2?
    decreases n, 0
  {
    var cc := Code(n.op1, base);
    var ct := Code(n.op2, base + |cc| + 2);
    var elseStart := base + |cc| + 2 + |ct| + 2;
    var ce := Code(n.op3, elseStart);
    cc + [JZ, elseStart] + ct + [JMP, elseStart + |ce|] + ce
  }

  /** WHILE: the JZ target is just after the closing JMP, which jumps back to the
      start of the condition code. */
  function WhileCode(n: Node, base: int): seq<int>
    requires n.WHILE?
    decreases n, 0
  {
    var cc := Code(n.op1, base);
    var cb := Code(n.op2, base + |cc| + 2);
    cc + [JZ, base + |cc| + 2 + |cb| + 2] + cb + [JMP, base]
  }

  /** DO: the JNZ target is the start of the body. */
  function DoCode(n: Node, base: int): seq<int>
    requires n.DO?
    decreases n, 0
  {
    var cb := Code(n.op1, base);
    cb + Code(n.op2, base + |cb|) + [JNZ, base]
  }

  /** SEQ: the two statements one after the other. */
  function SeqCode(n: Node, base: int): seq<int>
    requires n.SEQ?
    decreases n, 0
  {
    var ca := Code(n.op1, base);
    ca + Code(n.op2, base + |ca|)
  }

  /** The buffer `compile` leaves when it starts on `buf`: the same steps as the
      source, one `gen` at a time, with each placeholder overwritten by the buffer's
      length once its target is reached.  `EmitCode` shows it is `buf` followed by
      `Code(n, |buf|)`. */
  function Emit(buf: seq<int>, n: Node): (r: seq<int>)
    ensures |buf| <= |r|
    decreases n, 1
  {
    match n
    case VAR(i) => buf + [IFETCH] + [i]
    case CONST(v) => buf + [IPUSH] + [v]
    case ADD(_, _) => EmitOperator(buf, n)
    case SUB(_, _) => EmitOperator(buf, n)
    case LT(_, _) => EmitOperator(buf, n)
    case SET(i, e) => Emit(buf, e) + [ISTORE] + [i]
    case IF1(_, _) => EmitIf(buf, n)
    case IF2(_, _, _) => EmitIfElse(buf, n)
    case WHILE(_, _) => EmitWhile(buf, n)
    case DO(_, _) => EmitDo(buf, n)
    case EMPTY => buf
    case SEQ(_, _) => EmitSeq(buf, n)
    case EXPR(e) => Emit(buf, e) + [IPOP]
    case PROG(s) => Emit(buf, s) + [HALT]
  }

  function EmitOperator(buf: seq<int>, n: Node): (r: seq<int>)
    requires n.ADD? || n.SUB? || n.LT?
    ensures |buf| <= |r|
    decreases n, 0
  {
    Emit(Emit(buf, n.op1), n.op2) + [Operator(n)]
  }

  function EmitIf(buf: seq<int>, n: Node): (r: seq<int>)
    requires n.IF1?
    ensures |buf| <= |r|
    decreases n, 0
  {
    var b1 := Emit(buf, n.op1) + [JZ] + [0];
    var b2 := Emit(b1, n.op2);
    b2[|b1| - 1 := |b2|]
  }

  function EmitIfElse(buf: seq<int>, n: Node): (r: seq<int>)
    requires n.IF2?
    ensures |buf| <= |r|
    decreases n, 0
  {
    var b1 := Emit(buf, n.op1) + [JZ] + [0];
    var b2 := Emit(b1, n.op2) + [JMP] + [0];
    var b3 := b2[|b1| - 1 := |b2|];
    var b4 := Emit(b3, n.op3);
    b4[|b2| - 1 := |b4|]
  }

  function EmitWhile(buf: seq<int>, n: Node): (r: seq<int>)
    requires n.WHILE?
    ensures |buf| <= |r|
    decreases n, 0
  {
    var b1 := Emit(buf, n.op1) + [JZ] + [0];
    var b2 := Emit(b1, n.op2) + [JMP] + [|buf|];
    b2[|b1| - 1 := |b2|]
  }

  function EmitDo(buf: seq<int>, n: Node): (r: seq<int>)
    requires n.DO?
    ensures |buf| <= |r|
    decreases n, 0
  {
    Emit(Emit(buf, n.op1), n.op2) + [JNZ] + [|buf|]
  }

  function EmitSeq(buf: seq<int>, n: Node): (r: seq<int>)
    requires n.SEQ?
    ensures |buf| <= |r|
    decreases n, 0
  {
    Emit(Emit(buf, n.op1), n.op2)
  }

  /** The emission buffer and its next index.  The source keeps the buffer in a
      class-level list shared by every compiler; here each compiler owns its own. */
  class Compiler {
    var program: seq<int>
    var pc: int

    /** `pc` is the index the next cell goes to. */
    ghost predicate Valid()
      reads this
    {
      pc == |program|
    }

    constructor ()
      ensures Valid() && program == []
    {
      program := [];
      pc := 0;
    }

    /** `gen`: append one cell. */
    method Gen(command: int)
      requires Valid()
      modifies this
      ensures Valid()
      ensures program == old(program) + [command]
    {
      program := program + [command];
      pc := pc + 1;
    }

    /** `compile`: append the code for `node` and return the whole buffer.  The
        branches with forward jumps or two operands are the methods below. */
    method Compile(node: Node) returns (p: seq<int>)
      requires Valid()
      modifies this
      ensures Valid()
      ensures program == Emit(old(program), node)
      ensures program == old(program) + Code(node, old(pc))
      ensures p == program
      decreases node, 1
    {
      ghost var start := program;
      match node {
        case VAR(i) =>
          Gen(IFETCH);
          Gen(i);
        case CONST(v) =>
          Gen(IPUSH);
          Gen(v);
        case ADD(_, _) =>
          CompileOperator(node);
        case SUB(_, _) =>
          CompileOperator(node);
        case LT(_, _) =>
          CompileOperator(node);
        case SET(i, e) =>
          p := Compile(e);
          Gen(ISTORE);
          Gen(i);
        case IF1(_, _) =>
          CompileIf1(node);
        case IF2(_, _, _) =>
          CompileIf2(node);
        case WHILE(_, _) =>
          CompileWhile(node);
        case DO(_, _) =>
          CompileDo(node);
        case EMPTY =>
        case SEQ(_, _) =>
          CompileSeq(node);
        case EXPR(e) =>
          p := Compile(e);
          Gen(IPOP);
        case PROG(s) =>
          p := Compile(s);
          Gen(HALT);
      }
      EmitCode(start, node);
      p := program;
    }

    /** The ADD, SUB and LT branches of `compile`: both operands, then the operator. */
    method CompileOperator(node: Node)
      requires Valid() && (node.ADD? || node.SUB? || node.LT?)
      modifies this
      ensures Valid()
      ensures program == EmitOperator(old(program), node)
      decreases node, 0
    {
      var p := Compile(node.op1);
      p := Compile(node.op2);
      Gen(Operator(node));
    }

    /** The IF1 branch of `compile`: the condition, JZ with a placeholder operand,
        the then-part, and the placeholder overwritten with the index after it. */
    method CompileIf1(node: Node)
      requires Valid() && node.IF1?
      modifies this
      ensures Valid()
      ensures program == EmitIf(old(program), node)
      decreases node, 0
    {
      var p := Compile(node.op1);
      Gen(JZ);
      var addr := pc;
      Gen(0);
      p := Compile(node.op2);
      program := program[addr := pc];
    }

    /** The IF2 branch of `compile`: JZ to the else-part and JMP past it, each
        emitted with a placeholder and overwritten once its target is reached. */
    method CompileIf2(node: Node)
      requires Valid() && node.IF2?
      modifies this
      ensures Valid()
      ensures program == EmitIfElse(old(program), node)
      decreases node, 0
    {
      var p := Compile(node.op1);
      Gen(JZ);
      var addr1 := pc;
      Gen(0);
      p := Compile(node.op2);
      Gen(JMP);
      var addr2 := pc;
      Gen(0);
      program := program[addr1 := pc];
      p := Compile(node.op3);
      program := program[addr2 := pc];
    }

    /** The WHILE branch of `compile`: the condition, JZ past the loop with a
        placeholder, the body, JMP back to the condition, then the placeholder. */
    method CompileWhile(node: Node)
      requires Valid() && node.WHILE?
      modifies this
      ensures Valid()
      ensures program == EmitWhile(old(program), node)
      decreases node, 0
    {
      var addr1 := pc;
      var p := Compile(node.op1);
      Gen(JZ);
      var addr2 := pc;
      Gen(0);
      p := Compile(node.op2);
      Gen(JMP);
      Gen(addr1);
      program := program[addr2 := pc];
    }

    /** The DO branch of `compile`: the body, the condition, JNZ back to the body. */
    method CompileDo(node: Node)
      requires Valid() && node.DO?
      modifies this
      ensures Valid()
      ensures program == EmitDo(old(program), node)
      decreases node, 0
    {
      var addr := pc;
      var p := Compile(node.op1);
      p := Compile(node.op2);
      Gen(JNZ);
      Gen(addr);
    }

    /** The SEQ branch of `compile`: both statements in order. */
    method CompileSeq(node: Node)
      requires Valid() && node.SEQ?
      modifies this
      ensures Valid()
      ensures program == EmitSeq(old(program), node)
      decreases node, 0
    {
      var p := Compile(node.op1);
      p := Compile(node.op2);
    }
  }

  /** The buffer `compile` leaves is the one it started with followed by the code
      for the node at that index. */
  lemma {:induction false} EmitCode(buf: seq<int>, n: Node)
    ensures Emit(buf, n) == buf + Code(n, |buf|)
    decreases n, 1
  {
    match n
    case VAR(i) =>
      LeafLayout(buf, IFETCH, i);
    case CONST(v) =>
      LeafLayout(buf, IPUSH, v);
    case ADD(_, _) => EmitCodeOperator(buf, n);
    case SUB(_, _) => EmitCodeOperator(buf, n);
    case LT(_, _) => EmitCodeOperator(buf, n);
    case SET(i, e) =>
      EmitCode(buf, e);
      SuffixLayout(buf, Code(e, |buf|), ISTORE, i);
    case IF1(_, _) => EmitCodeIf(buf, n);
    case IF2(_, _, _) => EmitCodeIfElse(buf, n);
    case WHILE(_, _) => EmitCodeWhile(buf, n);
    case DO(_, _) => EmitCodeDo(buf, n);
    case EMPTY =>
    case SEQ(_, _) => EmitCodeSeq(buf, n);
    case EXPR(e) =>
      EmitCode(buf, e);
      Glue(buf, Code(e, |buf|), [IPOP]);
    case PROG(s) =>
      EmitCode(buf, s);
      Glue(buf, Code(s, |buf|), [HALT]);
  }

  /* The cases of `EmitCode` with two or three children, one lemma each.  Every one
     combines the induction hypotheses with a layout lemma about the buffer (below),
     after stating where each child's code starts and ends in the terms `Code` uses. */

  lemma {:induction false} EmitCodeOperator(buf: seq<int>, n: Node)
    requires n.ADD? || n.SUB? || n.LT?
    ensures EmitOperator(buf, n) == buf + OperatorCode(n, |buf|)
    decreases n, 0
  {
    var p1 := Emit(buf, n.op1);
    EmitCode(buf, n.op1);
    EmitCode(p1, n.op2);
    assert |p1| == |buf| + |Code(n.op1, |buf|)|;
    Regroup(buf, Code(n.op1, |buf|), Code(n.op2, |p1|), [Operator(n)]);
  }

  lemma {:induction false} EmitCodeSeq(buf: seq<int>, n: Node)
    requires n.SEQ?
    ensures EmitSeq(buf, n) == buf + SeqCode(n, |buf|)
    decreases n, 0
  {
    var p1 := Emit(buf, n.op1);
    EmitCode(buf, n.op1);
    EmitCode(p1, n.op2);
    assert |p1| == |buf| + |Code(n.op1, |buf|)|;
    Glue(buf, Code(n.op1, |buf|), Code(n.op2, |p1|));
  }

  lemma {:induction false} EmitCodeDo(buf: seq<int>, n: Node)
    requires n.DO?
    ensures EmitDo(buf, n) == buf + DoCode(n, |buf|)
    decreases n, 0
  {
    var p1 := Emit(buf, n.op1);
    EmitCode(buf, n.op1);
    EmitCode(p1, n.op2);
    assert |p1| == |buf| + |Code(n.op1, |buf|)|;
    DoLayout(buf, Code(n.op1, |buf|), Code(n.op2, |p1|));
  }

  lemma {:induction false} EmitCodeIf(buf: seq<int>, n: Node)
    requires n.IF1?
    ensures EmitIf(buf, n) == buf + IfCode(n, |buf|)
    decreases n, 0
  {
    var c, t := n.op1, n.op2;
    var p1 := Emit(buf, c);
    var p2 := p1 + [JZ] + [0];
    var p3 := Emit(p2, t);
    EmitCode(buf, c);
    EmitCode(p2, t);
    If1Layout(buf, Code(c, |buf|), Code(t, |p2|), p1, p2, p3);
    assert |p2| == |buf| + |Code(c, |buf|)| + 2;
    assert |p3| == |buf| + |Code(c, |buf|)| + 2 + |Code(t, |buf| + |Code(c, |buf|)| + 2)|;
  }

  lemma {:induction false} EmitCodeIfElse(buf: seq<int>, n: Node)
    requires n.IF2?
    ensures EmitIfElse(buf, n) == buf + IfElseCode(n, |buf|)
    decreases n, 0
  {
    var p1 := Emit(buf, n.op1);
    var p2 := p1 + [JZ] + [0];
    var p3 := Emit(p2, n.op2);
    var p4 := p3 + [JMP] + [0];
    var p5 := p4[|p2| - 1 := |p4|];
    var p6 := Emit(p5, n.op3);
    assert EmitIfElse(buf, n) == p6[|p4| - 1 := |p6|];
    EmitCode(buf, n.op1);
    EmitCode(p2, n.op2);
    EmitCode(p5, n.op3);
    If2Layout(buf, Code(n.op1, |buf|), Code(n.op2, |p2|), Code(n.op3, |p5|), p1, p2, p3, p4, p5, p6);
    IfElseAt(n, |buf|, |p2|, |p5|, |p6|);
    Chain(EmitIfElse(buf, n), p6[|p4| - 1 := |p6|],
          Code(n.op1, |buf|) + [JZ, |p5|] + Code(n.op2, |p2|) + [JMP, |p6|] + Code(n.op3, |p5|), buf,
          IfElseCode(n, |buf|));
  }

  /** `IfElseCode` with the indices where the then-code and the else-code start and
      end given as arguments. */
  lemma IfElseAt(n: Node, base: int, tb: int, eb: int, end: int)
    requires n.IF2?
    requires tb == base + |Code(n.op1, base)| + 2
    requires eb == base + |Code(n.op1, base)| + 2 + |Code(n.op2, tb)| + 2
    requires end == base + |Code(n.op1, base)| + 2 + |Code(n.op2, tb)| + 2 + |Code(n.op3, eb)|
    ensures IfElseCode(n, base) == Code(n.op1, base) + [JZ, eb] + Code(n.op2, tb) + [JMP, end] + Code(n.op3, eb)
  {
    IfElseShape(n, base);
  }

  /** `IfElseCode` unfolded. */
  lemma IfElseShape(n: Node, base: int)
    requires n.IF2?
    ensures var cc := Code(n.op1, base);
      var ct := Code(n.op2, base + |cc| + 2);
      var ce := Code(n.op3, base + |cc| + 2 + |ct| + 2);
      IfElseCode(n, base) ==
        cc + [JZ, base + |cc| + 2 + |ct| + 2] + ct + [JMP, base + |cc| + 2 + |ct| + 2 + |ce|] + ce
  {
  }

  /** Three equalities in a row, the last one under a common prefix. */
  lemma Chain(a: seq<int>, b: seq<int>, c: seq<int>, s: seq<int>, d: seq<int>)
    requires a == b && b == s + c && d == c
    ensures a == s + d
  {
  }


  lemma {:induction false} EmitCodeWhile(buf: seq<int>, n: Node)
    requires n.WHILE?
    ensures EmitWhile(buf, n) == buf + WhileCode(n, |buf|)
    decreases n, 0
  {
    var c, b := n.op1, n.op2;
    var p1 := Emit(buf, c);
    var p2 := p1 + [JZ] + [0];
    var p3 := Emit(p2, b);
    var p4 := p3 + [JMP] + [|buf|];
    EmitCode(buf, c);
    EmitCode(p2, b);
    WhileLayout(buf, Code(c, |buf|), Code(b, |p2|), p1, p2, p3, p4);
    assert |p2| == |buf| + |Code(c, |buf|)| + 2;
    assert |p4| == |buf| + |Code(c, |buf|)| + 2 + |Code(b, |buf| + |Code(c, |buf|)| + 2)| + 2;
  }

  /* Layouts of the buffer: what `Emit` appends, regrouped as the pieces of `Code`.
     `s` is the buffer before the node, and `p1`, `p2`, ... the buffer after each
     step. */

  lemma LeafLayout(s: seq<int>, op: int, operand: int)
    ensures s + [op] + [operand] == s + [op, operand]
  {
  }

  lemma SuffixLayout(s: seq<int>, a: seq<int>, op: int, operand: int)
    ensures s + a + [op] + [operand] == s + (a + [op, operand])
  {
  }

  lemma DoLayout(s: seq<int>, a: seq<int>, b: seq<int>)
    ensures s + a + b + [JNZ] + [|s|] == s + (a + b + [JNZ, |s|])
  {
    Regroup(s, a, b, [JNZ, |s|]);
  }

  /** IF1: the placeholder after JZ becomes the index after the then-part. */
  lemma If1Layout(s: seq<int>, cc: seq<int>, ct: seq<int>, p1: seq<int>, p2: seq<int>, p3: seq<int>)
    requires p1 == s + cc && p2 == p1 + [JZ] + [0] && p3 == p2 + ct
    ensures |p2| == |s| + |cc| + 2 && |p3| == |p2| + |ct|
    ensures p3[|p2| - 1 := |p3|] == s + (cc + [JZ, |p3|] + ct)
  {
    PatchInside(p2, ct, |p2| - 1, |p3|);
    assert p2[|p2| - 1 := |p3|] == s + (cc + [JZ, |p3|]);
    Glue(s, cc + [JZ, |p3|], ct);
  }

  /** IF2: the placeholder after JZ becomes the start of the else-part, the one
      after JMP its end. */
  lemma If2Layout(s: seq<int>, cc: seq<int>, ct: seq<int>, ce: seq<int>,
                  p1: seq<int>, p2: seq<int>, p3: seq<int>, p4: seq<int>, p5: seq<int>, p6: seq<int>)
    requires p1 == s + cc && p2 == p1 + [JZ] + [0] && p3 == p2 + ct && p4 == p3 + [JMP] + [0]
    requires p5 == p4[|p2| - 1 := |p4|] && p6 == p5 + ce
    ensures |p2| == |s| + |cc| + 2 && |p5| == |s| + |cc| + 2 + |ct| + 2
    ensures |p6| == |s| + |cc| + 2 + |ct| + 2 + |ce|
    ensures p6[|p4| - 1 := |p6|] == s + (cc + [JZ, |p5|] + ct + [JMP, |p6|] + ce)
  {
    var head := s + (cc + [JZ, |p5|]);
    PatchInside(p2, ct + [JMP] + [0], |p2| - 1, |p4|);
    assert p2[|p2| - 1 := |p4|] == head;
    assert p5 == head + (ct + [JMP, 0]);
    PatchInside(p5, ce, |p4| - 1, |p6|);
    PatchAfter(head, ct + [JMP, 0], |ct| + 1, |p6|);
    assert (ct + [JMP, 0])[|ct| + 1 := |p6|] == ct + [JMP, |p6|];
    Regroup(s, cc + [JZ, |p5|], ct + [JMP, |p6|], ce);
  }

  /** WHILE: the placeholder after JZ becomes the index after the JMP back. */
  lemma WhileLayout(s: seq<int>, cc: seq<int>, cb: seq<int>, p1: seq<int>, p2: seq<int>,
                    p3: seq<int>, p4: seq<int>)
    requires p1 == s + cc && p2 == p1 + [JZ] + [0] && p3 == p2 + cb && p4 == p3 + [JMP] + [|s|]
    ensures |p2| == |s| + |cc| + 2 && |p4| == |p2| + |cb| + 2
    ensures p4[|p2| - 1 := |p4|] == s + (cc + [JZ, |p4|] + cb + [JMP, |s|])
  {
    PatchInside(p2, cb + [JMP] + [|s|], |p2| - 1, |p4|);
    assert p2[|p2| - 1 := |p4|] == s + (cc + [JZ, |p4|]);
    Regroup(s, cc + [JZ, |p4|], cb, [JMP, |s|]);
  }

  /** Overwriting a cell of the prefix leaves the appended part alone. */
  lemma PatchInside(prefix: seq<int>, rest: seq<int>, addr: nat, v: int)
    requires addr < |prefix|
    ensures (prefix + rest)[addr := v] == prefix[addr := v] + rest
  {
  }

  /** Overwriting a cell of the appended part leaves the prefix alone. */
  lemma PatchAfter(prefix: seq<int>, rest: seq<int>, k: nat, v: int)
    requires k < |rest|
    ensures (prefix + rest)[|prefix| + k := v] == prefix + rest[k := v]
  {
  }

  /** Appending two pieces one at a time or together gives the same buffer. */
  lemma Glue(s: seq<int>, a: seq<int>, b: seq<int>)
    ensures s + a + b == s + (a + b)
  {
  }

  /** Appending three pieces one at a time or all at once gives the same buffer. */
  lemma Regroup(s: seq<int>, a: seq<int>, b: seq<int>, c: seq<int>)
    ensures s + (a + b + c) == s + a + b + c
  {
  }

  /** The compiler's entry point on a fresh compiler: the program for `node` from
      index 0. */
  method CompileProgram(node: Node) returns (program: seq<int>)
    ensures program == Code(node, 0)
  {
    var compiler := new Compiler();
    program := compiler.Compile(node);
  }
}
