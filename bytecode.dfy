/** The instruction set of the stack machine and how a flat program of integers splits
    into instructions: an opcode cell, followed by one operand cell for the
    instructions that take one. */
module Bytecode {

  const IFETCH: int := 0   // push var[operand]
  const ISTORE: int := 1   // var[operand] := pop
  const IPUSH: int := 2    // push operand
  const IPOP: int := 3     // (the source pushes the operand and pops it again)
  const IADD: int := 4     // replace the top two a, b with a + b
  const ISUB: int := 5     // replace the top two a, b with a - b
  const ILT: int := 6      // replace the top two a, b with 1 if a < b, else 0
  const JZ: int := 7       // pop; jump to operand if it was 0
  const JNZ: int := 8      // pop; jump to operand if it was not 0
  const JMP: int := 9      // jump to operand
  const HALT: int := 10    // stop

  predicate IsOpcode(op: int) {
    IFETCH <= op <= HALT
  }

  predicate IsJump(op: int) {
    op == JZ || op == JNZ || op == JMP
  }

  predicate TakesVar(op: int) {
    op == IFETCH || op == ISTORE
  }

  /** The number of cells an instruction occupies. */
  function Width(op: int): (w: nat)
    ensures 1 <= w <= 2
  {
    if op in {IFETCH, ISTORE, IPUSH, JZ, JNZ, JMP} then 2 else 1
  }

  /** Read from its first cell by instruction widths, `code` splits into complete
      instructions with known opcodes; every jump operand lies in `lo..hi` and every
      variable operand names one of the 26 variables. */
  predicate WellFormed(code: seq<int>, lo: int, hi: int)
    decreases |code|
  {
    code == [] ||
    (IsOpcode(code[0]) && Width(code[0]) <= |code| &&
     (IsJump(code[0]) ==> lo <= code[1] <= hi) &&
     (TakesVar(code[0]) ==> 0 <= code[1] < 26) &&
     WellFormed(code[Width(code[0])..], lo, hi))
  }

  /** `k` is the index of an instruction's first cell when `code` is read by
      instruction widths from its first cell (the end counts as one). */
  predicate Boundary(code: seq<int>, k: int)
    decreases |code|
  {
    k == 0 ||
    (0 < k && code != [] && Width(code[0]) <= |code| && Boundary(code[Width(code[0])..], k - Width(code[0])))
  }

  /** In well-formed code, the operand of every jump read at an instruction boundary
      lies in `lo..hi`; a variable operand names one of the 26 variables. */
  lemma {:induction false} OperandAt(code: seq<int>, lo: int, hi: int, k: int)
    requires WellFormed(code, lo, hi) && Boundary(code, k) && 0 <= k < |code|
    ensures IsOpcode(code[k]) && k + Width(code[k]) <= |code|
    ensures IsJump(code[k]) ==> lo <= code[k + 1] <= hi
    ensures TakesVar(code[k]) ==> 0 <= code[k + 1] < 26
    decreases |code|
  {
    if k != 0 {
      var w := Width(code[0]);
      OperandAt(code[w..], lo, hi, k - w);
    }
  }

  /** Two well-formed pieces of code make a well-formed whole. */
  lemma {:induction false} WellFormedConcat(a: seq<int>, b: seq<int>, lo: int, hi: int)
    requires WellFormed(a, lo, hi) && WellFormed(b, lo, hi)
    ensures WellFormed(a + b, lo, hi)
    decreases |a|
  {
    if a != [] {
      var w := Width(a[0]);
      assert (a + b)[w..] == a[w..] + b;
      WellFormedConcat(a[w..], b, lo, hi);
    } else {
      assert a + b == b;
    }
  }

  /** Widening the range of allowed jump targets keeps code well-formed. */
  lemma {:induction false} WellFormedWiden(code: seq<int>, lo: int, hi: int, lo': int, hi': int)
    requires WellFormed(code, lo, hi) && lo' <= lo && hi <= hi'
    ensures WellFormed(code, lo', hi')
    decreases |code|
  {
    if code != [] {
      WellFormedWiden(code[Width(code[0])..], lo, hi, lo', hi');
    }
  }

  /** A single instruction with its operand, if any. */
  lemma Instruction(op: int, operand: int, lo: int, hi: int)
    requires IsOpcode(op)
    requires IsJump(op) ==> lo <= operand <= hi
    requires TakesVar(op) ==> 0 <= operand < 26
    ensures Width(op) == 2 ==> WellFormed([op, operand], lo, hi)
    ensures Width(op) == 1 ==> WellFormed([op], lo, hi)
  {
    if Width(op) == 2 {
      assert [op, operand][2..] == [];
    } else {
      assert [op][1..] == [];
    }
  }
}
