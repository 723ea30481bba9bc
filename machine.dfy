/** The virtual machine: 26 integer variables, an operand stack and a program counter,
    run in a fetch-decode-execute loop until HALT.

    The source's loop is `while True`; here the number of instructions executed is
    bounded by a fuel argument, and running out of fuel is an outcome of its own.  The
    source does no checks at all; every place where it would raise (an index out of
    range, a pop from an empty stack, an operand read before any was fetched) is the
    outcome Crashed here.  Indices follow Python's lists, negative ones counting from
    the end. */
module Machine {
  import opened Diagnostics
  import opened Bytecode

  /** Python's reading of index `i` into a list of length `n`. */
  function PyIndex(n: nat, i: int): (r: Option<nat>)
    ensures r.Some? ==> r.value < n
    ensures r.Some? <==> -(n as int) <= i < n
    ensures 0 <= i < n ==> r == Some(i)
  {
    if 0 <= i < n then Some(i)
    else if -(n as int) <= i < 0 then Some(i + n)
    else None
  }

  /** The machine state.  `arg` is the source's local of that name: it is refreshed
      from the cell after `pc` only when there is one, so it can be left over from an
      earlier instruction, and it is unbound (None) until first assigned. */
  datatype State = State(vars: seq<int>, stack: seq<int>, pc: int, arg: Option<int>)

  /** 26 variables all 0, an empty stack and pc 0. */
  function Initial(): (s: State)
    ensures |s.vars| == 26 && (forall i | 0 <= i < 26 :: s.vars[i] == 0)
    ensures s.stack == [] && s.pc == 0
  {
    State(seq(26, _ => 0), [], 0, None)
  }

  datatype StepResult = Next(next: State) | Halt(last: State) | Fault

  /** One iteration of the loop of `run`: fetch the opcode at `pc` and, when there is
      a cell after it, the operand; then execute the opcode. */
  function Step(p: seq<int>, s: State): StepResult {
    match PyIndex(|p|, s.pc)
    case None => Fault
    case Some(at) =>
      var arg := if s.pc < |p| - 1 then Some(p[PyIndex(|p|, s.pc + 1).value]) else s.arg;
      Apply(p[at], s.(arg := arg))
  }

  /** The branch of the loop of `run` for opcode `op`, with the operand already in
      `s.arg`. */
  function Apply(op: int, s: State): StepResult {
    var n := |s.stack|;
    if op == IFETCH then
      if s.arg.None? || PyIndex(|s.vars|, s.arg.value).None? then Fault
      else Next(s.(stack := s.stack + [s.vars[PyIndex(|s.vars|, s.arg.value).value]], pc := s.pc + 2))
    else if op == ISTORE then
      if n == 0 || s.arg.None? || PyIndex(|s.vars|, s.arg.value).None? then Fault
      else Next(s.(vars := s.vars[PyIndex(|s.vars|, s.arg.value).value := s.stack[n - 1]],
                   stack := s.stack[..n - 1], pc := s.pc + 2))
    else if op == IPUSH then
      if s.arg.None? then Fault else Next(s.(stack := s.stack + [s.arg.value], pc := s.pc + 2))
    else if op == IPOP then
      if s.arg.None? then Fault else Next(s.(pc := s.pc + 1))
    else if op == IADD then
      if n < 2 then Fault
      else Next(s.(stack := s.stack[..n - 2] + [s.stack[n - 2] + s.stack[n - 1]], pc := s.pc + 1))
    else if op == ISUB then
      if n < 2 then Fault
      else Next(s.(stack := s.stack[..n - 2] + [s.stack[n - 2] - s.stack[n - 1]], pc := s.pc + 1))
    else if op == ILT then
      if n < 2 then Fault
      else Next(s.(stack := s.stack[..n - 2] + [if s.stack[n - 2] < s.stack[n - 1] then 1 else 0],
                   pc := s.pc + 1))
    else if op == JZ then
      if n == 0 then Fault
      else if s.stack[n - 1] == 0 then
        if s.arg.None? then Fault else Next(s.(stack := s.stack[..n - 1], pc := s.arg.value))
      else Next(s.(stack := s.stack[..n - 1], pc := s.pc + 2))
    else if op == JNZ then
      if n == 0 then Fault
      else if s.stack[n - 1] != 0 then
        if s.arg.None? then Fault else Next(s.(stack := s.stack[..n - 1], pc := s.arg.value))
      else Next(s.(stack := s.stack[..n - 1], pc := s.pc + 2))
    else if op == JMP then
      if s.arg.None? then Fault else Next(s.(pc := s.arg.value))
    else if op == HALT then
      Halt(s)
    else
      // no branch matches an unknown opcode: the loop goes round unchanged
      Next(s)
  }

  /** How many entries an instruction takes off the stack and how many it puts back,
      as the opcode table has it; IPOP's push and pop cancel out. */
  function Pops(op: int): nat {
    if op == ISTORE || op == JZ || op == JNZ then 1
    else if op == IADD || op == ISUB || op == ILT then 2
    else 0
  }

  function Pushes(op: int): nat {
    if op == IFETCH || op == IPUSH || op == IADD || op == ISUB || op == ILT then 1 else 0
  }

  /** A step that goes on took `Pops(op)` entries and put back `Pushes(op)`, leaving
      the entries below untouched. */
  lemma StackDiscipline(op: int, s: State)
    ensures Apply(op, s).Next? ==>
      var below := |s.stack| - Pops(op);
      below >= 0 && |Apply(op, s).next.stack| == below + Pushes(op) &&
      Apply(op, s).next.stack[..below] == s.stack[..below]
  {
    var n := |s.stack|;
    if Apply(op, s).Next? && (Pops(op) == 2 || (Pops(op) == 1 && Pushes(op) == 0)) {
      assert s.stack[..n - Pops(op)] == s.stack[..n - Pops(op)][..n - Pops(op)];
    }
  }

  /** Only ISTORE writes a variable, and only the one its operand names; no step
      replaces the operand; HALT stops with the state as it is. */
  lemma StepFrame(op: int, s: State)
    ensures Apply(op, s).Next? && op != ISTORE ==> Apply(op, s).next.vars == s.vars
    ensures Apply(op, s).Next? && op == ISTORE ==>
      var target := PyIndex(|s.vars|, s.arg.value).value;
      |Apply(op, s).next.vars| == |s.vars| &&
      Apply(op, s).next.vars[target] == s.stack[|s.stack| - 1] &&
      forall i | 0 <= i < |s.vars| && i != target :: Apply(op, s).next.vars[i] == s.vars[i]
    ensures Apply(op, s).Next? ==> Apply(op, s).next.arg == s.arg
    ensures Apply(op, s).Halt? <==> op == HALT
    ensures op == HALT ==> Apply(op, s) == Halt(s)
  {
  }

  /** Where a step sends the program counter: past the instruction's cells, to the
      operand for JMP and for a JZ or JNZ whose condition holds, and nowhere for an
      unknown opcode. */
  lemma ControlFlow(op: int, s: State)
    ensures Apply(op, s).Next? && !IsJump(op) ==>
      Apply(op, s).next.pc == s.pc + (if IsOpcode(op) then Width(op) else 0)
    ensures Apply(op, s).Next? && op == JMP ==> Apply(op, s).next.pc == s.arg.value
    ensures Apply(op, s).Next? && (op == JZ || op == JNZ) ==>
      var taken := (s.stack[|s.stack| - 1] == 0) == (op == JZ);
      Apply(op, s).next.pc == if taken then s.arg.value else s.pc + 2
  {
  }

  /** Fetching at any cell but the last loads the cell after it as the operand. */
  lemma StepOperand(p: seq<int>, s: State)
    requires 0 <= s.pc < |p| - 1
    ensures Step(p, s) == Apply(p[s.pc], s.(arg := Some(p[s.pc + 1])))
  {
  }

  /** At an instruction boundary of a well-formed program that ends in HALT, a step
      fails only for want of stack entries: the opcode is known, its operand is
      fresh from the next cell, and a variable operand is in range. */
  lemma SafeStep(p: seq<int>, s: State)
    requires WellFormed(p, 0, |p| - 1) && |p| >= 1 && p[|p| - 1] == HALT
    requires Boundary(p, s.pc) && 0 <= s.pc < |p|
    requires |s.vars| == 26 && |s.stack| >= Pops(p[s.pc])
    ensures !Step(p, s).Fault?
  {
    OperandAt(p, 0, |p| - 1, s.pc);
    if s.pc < |p| - 1 {
      StepOperand(p, s);
    }
  }

  datatype Status = Halted(final: State) | Crashed | Running(now: State)

  /** At most `fuel` iterations of the loop from `s`. */
  function Execute(p: seq<int>, s: State, fuel: nat): Status
    decreases fuel
  {
    if fuel == 0 then Running(s)
    else
      match Step(p, s)
      case Halt(last) => Halted(last)
      case Fault => Crashed
      case Next(s') => Execute(p, s', fuel - 1)
  }

  /** `run`, the loop only: the variables are a fresh array updated in place, the
      stack a list that grows and shrinks at its end. */
  method Run(program: seq<int>, fuel: nat) returns (r: Status)
    ensures r == Execute(program, Initial(), fuel)
  {
    var vars := new int[26](_ => 0);
    var stack: seq<int> := [];
    var pc := 0;
    var arg: Option<int> := None;
    assert vars[..] == Initial().vars;
    var left := fuel;
    while left > 0
      invariant vars.Length == 26
      invariant Execute(program, Initial(), fuel) == Execute(program, State(vars[..], stack, pc, arg), left)
      decreases left
    {
      ghost var s := State(vars[..], stack, pc, arg);
      var at := PyIndex(|program|, pc);
      if at.None? {
        return Crashed;
      }
      var op := program[at.value];
      if pc < |program| - 1 {
        arg := Some(program[PyIndex(|program|, pc + 1).value]);
      }
      assert Step(program, s) == Apply(op, State(vars[..], stack, pc, arg));
      var out := Cycle(op, vars, stack, pc, arg);
      match out
      case Fault =>
        return Crashed;
      case Halt(last) =>
        return Halted(last);
      case Next(next) =>
        stack, pc, arg := next.stack, next.pc, next.arg;
      left := left - 1;
    }
    return Running(State(vars[..], stack, pc, arg));
  }

  /** The body of the loop of `run` after the fetch: executes `op` on the variables in
      place and the given stack, pc and operand. */
  method Cycle(op: int, vars: array<int>, stack: seq<int>, pc: int, arg: Option<int>)
      returns (out: StepResult)
    requires vars.Length == 26
    modifies vars
    ensures out == Apply(op, State(old(vars[..]), stack, pc, arg))
    ensures out.Next? ==> out.next.vars == vars[..]
    ensures out.Halt? ==> out.last.vars == vars[..]
  {
    var n := |stack|;
    if op == IFETCH {
      if arg.None? || PyIndex(26, arg.value).None? {
        return Fault;
      }
      out := Next(State(vars[..], stack + [vars[PyIndex(26, arg.value).value]], pc + 2, arg));
    } else if op == ISTORE {
      if n == 0 || arg.None? || PyIndex(26, arg.value).None? {
        return Fault;
      }
      var top := stack[n - 1];
      vars[PyIndex(26, arg.value).value] := top;
      out := Next(State(vars[..], stack[..n - 1], pc + 2, arg));
    } else if op == IPUSH {
      if arg.None? {
        return Fault;
      }
      out := Next(State(vars[..], stack + [arg.value], pc + 2, arg));
    } else if op == IPOP {
      if arg.None? {
        return Fault;
      }
      var pushed := stack + [arg.value];
      out := Next(State(vars[..], pushed[..|pushed| - 1], pc + 1, arg));
    } else if op == IADD || op == ISUB || op == ILT {
      if n < 2 {
        return Fault;
      }
      var a, b := stack[n - 2], stack[n - 1];
      var v := if op == IADD then a + b else if op == ISUB then a - b else if a < b then 1 else 0;
      out := Next(State(vars[..], stack[..n - 2] + [v], pc + 1, arg));
    } else if op == JZ || op == JNZ {
      if n == 0 {
        return Fault;
      }
      var top := stack[n - 1];
      if (op == JZ && top == 0) || (op == JNZ && top != 0) {
        if arg.None? {
          return Fault;
        }
        out := Next(State(vars[..], stack[..n - 1], arg.value, arg));
      } else {
        out := Next(State(vars[..], stack[..n - 1], pc + 2, arg));
      }
    } else if op == JMP {
      if arg.None? {
        return Fault;
      }
      out := Next(State(vars[..], stack, arg.value, arg));
    } else if op == HALT {
      out := Halt(State(vars[..], stack, pc, arg));
    } else {
      out := Next(State(vars[..], stack, pc, arg));
    }
  }

  /** The variables the source reports after HALT: each non-zero one, as its index
      (0 for a) and value, in the order a to z. */
  function Report(vars: seq<int>): (r: seq<(int, int)>)
    ensures forall k | 0 <= k < |r| :: 0 <= r[k].0 < |vars| && vars[r[k].0] == r[k].1 != 0
    ensures forall i | 0 <= i < |vars| && vars[i] != 0 :: (i, vars[i]) in r
    ensures forall j, k | 0 <= j < k < |r| :: r[j].0 < r[k].0
  {
    if vars == [] then []
    else
      var n := |vars| - 1;
      var front := Report(vars[..n]);
      assert forall i | 0 <= i < n :: vars[..n][i] == vars[i];
      front + (if vars[n] != 0 then [(n, vars[n])] else [])
  }
}
