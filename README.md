# A toy compiler and stack machine, modelled in Dafny

The system is a small compiler for a C-like toy language:
- statements: `if`/`else`, `while`, `do … while`, blocks, `;`, and expression statements;
- expressions: one-letter variables `a`–`z`, non-negative decimal literals, `+`, `-`, `<` and `=`.

It is written as one sequential pipeline:

- a **lexer** turns the characters into tokens. The current character is kept in a field; `%` marks the end of the program.
- a **recursive-descent parser** with one token of lookahead builds a syntax tree.
- a **compiler** generates code in post-order into a flat buffer of integers. Forward jumps are backpatched: a placeholder is emitted, then overwritten once its target is known.
- a **virtual machine** runs that buffer on 26 integer variables, an operand stack and a program counter until `HALT`.

The model keeps every stage in the source's own form:
- the lexer is a class whose methods advance a cursor over the text;
- the parser is a class whose methods advance a shared lexer;
- the compiler is a class with a growing buffer and a `pc` field;
- the machine's loop is a method over an array of variables.

Each method is proved against a specification function: `Scan`, the functions of `Grammar`, `Code`/`Emit`, and `Step`/`Execute`. The properties the source promises are proved as lemmas about those functions. On top of this, `Semantics` gives the meaning of expressions on the tree, and `Correctness` proves that the compiled code, run on the machine, has exactly that effect.

Modules, one per file:
- `Diagnostics` (`diagnostics.dfy`): the error kinds, `Result`, `Outcome` and `Option`.
- `Scanning` (`scanning.dfy`): the tokens, the scanning function `Scan` with its lemmas, and the class `Lexer`.
- `Ast` (`ast.dfy`): the syntax tree, with one constructor per node kind, and the shapes the parser builds.
- `Grammar` (`grammar.dfy`): the parser as functions over a lexer cursor.
- `Parsing` (`parsing.dfy`): the class `Parser`, whose methods are proved equal to `Grammar`.
- `Syntax` (`syntax.dfy`): facts, over all texts, about the trees the parser builds and the errors it reports.
- `Bytecode` (`bytecode.dfy`): the opcodes, instruction widths, and well-formed code.
- `CodeGen` (`codegen.dfy`): two views of the compiler's output, and the class `Compiler`:
  - `Code`, the code of a node placed at a given index;
  - `Emit`, the buffer built step by step with backpatching.
- `Layout` (`layout.dfy`): compiled code is well-formed and its jumps stay inside the program.
- `Machine` (`machine.dfy`): the step function, the fuel-bounded run, the imperative `Run`, and the report.
- `Semantics` (`semantics.dfy`): the value and the stack effect of an expression.
- `Correctness` (`correctness.dfy`): compiling and then running an expression has the effect `Semantics` gives.
- `Scenarios` (`scenarios.dfy`): whole programs through the pipeline.

Behaviour of the code that the model keeps as written:
- A program is exactly one statement followed by the end marker: `a=1;b=2;%` is a syntax error (`Scenarios.TwoStatements`). Several statements need a block.
- `ISTORE` pops and pushes nothing, so an assignment used as a value consumes an entry that was already on the stack. As a result, `a = b = 5`, which parses as SET(a, SET(b, 5)) (`Scenarios.ChainedAssignParses`), underflows unless something is already on the stack (`Semantics.ChainedAssignUnderflows`).
- `IPOP` pushes its operand and pops it again, so it changes nothing. An expression statement therefore leaves its value on the stack (`Correctness.ExprStatementKeepsValue`).
- In `do … while (…)`, the closing `;` is checked but not consumed (`Syntax.DoErrors`).
- A chain of `<` is not parsed: a `test` reads at most one `<`, so `a<b<c;%` fails with "expected ;" (`Syntax.TestReadsOneLess`, `Scenarios.ChainedLessRejected`).
- A `do … while (…);` on its own is never a whole program: its `;` is left current, so `parse` does not find EOF (`Syntax.TopLevelDoRejected`).
- Python list indexing is modelled, including negative indices. The operand `arg` of the machine is refreshed only when a cell follows `pc`, so it can be stale, or unbound before it is first assigned.

## Model

| member | source | states |
|---|---|---|
| Scanning.Scan | main.py:31-62 | one call of `next_tok`: the cursor never moves back, and moves forward for every token except EOF; EOF leaves the cursor on `%`; an identifier's index is below 26; every failure is a lexical error |
| Scanning.SkipSpaces | main.py:37-38 | the index after a maximal run of whitespace |
| Scanning.ScanSkipsSpaces | main.py:37-38 | whitespace before the current character does not change the token scanned or where scanning ends |
| Scanning.ScanFromSkipped | main.py:37-38 | scanning from any index is scanning from the end of the whitespace there |
| Scanning.ScanSymbol | main.py:39-41 | each of `{ } ( ) + - < = ;` yields its own token and advances exactly one character |
| Scanning.EofIsSticky | main.py:35-36 | once EOF is scanned, scanning again from the cursor yields EOF at the same place |
| Scanning.ScanSentinel | main.py:35-36 | `%` yields EOF without advancing |
| Scanning.ScanNumber | main.py:42-48 | a maximal digit run yields NUM carrying the run's decimal value, and scanning continues after the run |
| Scanning.ScanWord | main.py:49-60 | a maximal letter run is lower-cased: a keyword in any case gives its keyword token, a single letter gives ID with its alphabet index, and any other word is an UnknownWord error naming the lower-cased word |
| Scanning.LetterStartsWord | main.py:35-49 | a letter is caught by no branch earlier than the word branch |
| Scanning.ScanUnknownChar | main.py:61-62 | a character that starts no token is an UnknownChar error naming it |
| Scanning.DecimalRoundTrip | main.py:43-47 | reading the decimal digits of any `n` gives back `n` |
| Scanning.ScanSpelling | main.py:31-62 | scanning a token's spelling, after any whitespace and before a separator, gives back that token: the lexer inverts the spelling of every token it can produce |
| Scanning.ScanSpelledLetter | main.py:56-58 | a single letter followed by a separator scans as ID with its index |
| Scanning.ScanSpelledKeyword | main.py:54-55 | a keyword's spelling followed by a separator scans as that keyword |
| Scanning.ScanSpelledSymbol | main.py:39-41 | a symbol's character scans as that symbol |
| Scanning.ScanDecimalString | main.py:42-48 | the decimal digits of `n` followed by a separator scan as `NUM(n)` |
| Scanning.ScanLowerWord | main.py:49-58 | a lower-case word followed by a separator is lower-cased to itself: a keyword scans as the keyword, a single letter as its ID |
| Scanning.Lexer.constructor | main.py:21 | the lexer starts on a space before the program's text |
| Scanning.Lexer.NextTok | main.py:31-62 | the imperative `next_tok` succeeds exactly when `Scan` does, and then leaves the cursor `Scan` gives, or fails with `Scan`'s error |
| Scanning.Lexer.ReadToken | main.py:35-62 | the branches after whitespace, agreeing with `Scan` on the token, the new position and the error |
| Scanning.Lexer.ReadNumber | main.py:43-47 | the digit loop: the accumulated value is the decimal value of the run, and it stops at the run's end |
| Scanning.Lexer.ReadWord | main.py:50-53 | the letter loop: the word is the lower-cased run, and it stops at the run's end |
| Grammar.Advance | main.py:31-34 | consuming a token scans the next; a real token (not EOF) lowers the rank; errors are lexical |
| Grammar.Term | main.py:85-95 | `term`: ID, NUM or a parenthesised expression; it consumes input and builds an expression |
| Grammar.Summa | main.py:97-106 | `summa`: an expression, after which the current token is neither `+` nor `-` |
| Grammar.SumTail | main.py:99-105 | the loop of `summa`: it stops only at a token other than `+`/`-` |
| Grammar.Test | main.py:108-113 | `test`: on success it consumes input and builds an expression; when a `<` is still current afterwards, the result is an LT |
| Grammar.Expr | main.py:115-122 | `expr`: it consumes input and builds an expression |
| Grammar.ParenExpr | main.py:124-132 | `paren_expr`: on success it consumes input and builds an expression |
| Grammar.Statement | main.py:134-173 | `statement`: it consumes input and builds a statement |
| Grammar.BlockTail | main.py:165-167 | the loop of a block: it consumes input and builds a statement |
| Grammar.ParseText | main.py:175-180 | `parse`: what it accepts is a PROG over a statement |
| Grammar.Parse | main.py:175-180 | parsing a whole program text yields a PROG over a statement, or an error |
| Parsing.Parser.constructor | main.py:78-79 | the parser works on the lexer it was given |
| Parsing.Parser.Term | main.py:85-95 | the imperative `term` builds the node, leaves the lexer at the cursor, and fails with the error that `Grammar.Term` gives |
| Parsing.Parser.Summa | main.py:97-106 | the imperative `summa`, with its loop, agrees with `Grammar.Summa` |
| Parsing.Parser.Test | main.py:108-113 | agrees with `Grammar.Test` |
| Parsing.Parser.Expr | main.py:115-122 | agrees with `Grammar.Expr` |
| Parsing.Parser.ParenExpr | main.py:124-132 | agrees with `Grammar.ParenExpr`, including the errors for a missing `(` or `)` |
| Parsing.Parser.Statement | main.py:134-173 | agrees with `Grammar.Statement` |
| Parsing.Parser.IfStatement | main.py:135-143 | the `if` branch, with its optional `else`, agrees with `Grammar.Statement` |
| Parsing.Parser.WhileStatement | main.py:144-148 | the `while` branch agrees with `Grammar.Statement` |
| Parsing.Parser.DoStatement | main.py:149-158 | the `do` branch agrees with `Grammar.Statement`, whose `;` is checked but not consumed |
| Parsing.Parser.Block | main.py:162-167 | the `{` branch with its loop agrees with `Grammar.Statement`, which folds `Grammar.BlockTail` from EMPTY |
| Parsing.Parser.ExprStatement | main.py:168-172 | the expression branch agrees with `Grammar.Statement`, a missing `;` being an error |
| Parsing.Parser.Parse | main.py:175-180 | reads the first token, one statement, then EOF, agreeing with `Grammar.ParseText`; a trailing token is a syntax error |
| Parsing.ParseProgram | main.py:336-339 | a fresh lexer and parser over the text give `Grammar.Parse`, a PROG over a statement |
| Syntax.SumTailFolds | main.py:99-105 | the loop of `summa` builds the left fold of the operators and terms it read, in order: the sum so far becomes the left operand of each new `+`/`-`, and it stops at a token other than `+`/`-` |
| Syntax.SumTailReads | main.py:99-105 | conversely, operators and terms one after another in the text, followed by any other token, are read whole by the loop, which returns their left fold and stops at that token |
| Syntax.SummaFolds | main.py:97-106 | `summa` is its first term with the following `+`/`-` terms, read from the text in order, applied on the left |
| Syntax.SummaReads | main.py:97-106 | a term followed by `+`/`-` terms and then any other token is read whole by `summa`, as their left fold |
| Syntax.BlockTailFolds | main.py:165-167 | the loop of a block appends the statements it read, in order, each as the right child of a new SEQ, and stops after the closing `}` |
| Syntax.BlockTailReads | main.py:165-167 | conversely, statements one after another followed by `}` are read whole by the loop, which appends them in order and consumes the `}` |
| Syntax.BlockFolds | main.py:162-167 | a block is the chain of SEQ nodes from EMPTY over the statements between its braces, in the order they appear |
| Syntax.BlockReads | main.py:162-167 | `{ s1 … sk }` is read as SEQ(…SEQ(SEQ(EMPTY, s1), s2)…, sk) |
| Syntax.StatementKind | main.py:134-173 | the first token decides the statement: IF1 or IF2 exactly from `if`, WHILE exactly from `while`, DO exactly from `do` |
| Syntax.IfShapes | main.py:135-143 | an `if` reads `(`condition`)` and a then-branch; it builds IF2 exactly when `else` follows the then-branch, and then IF2 over that condition, that then-branch and the statement read after `else`, stopping after it; otherwise IF1 over the condition and then-branch, stopping after the then-branch |
| Syntax.TestReadsOneLess | main.py:108-113 | `test` reads a summa; with no `<` after it, the summa is the result; with a `<`, the result is LT of the summa and the one summa after the `<`, and nothing more is read |
| Syntax.ChainedLessStops | main.py:115-122 | when a test leaves `<` current, `expr` returns that test, so a second `<` is left for the caller |
| Syntax.TestFromId | main.py:108-113 | a test starting at an identifier is never an assignment, and a bare variable there is that identifier |
| Syntax.AssignTarget | main.py:115-122 | from an identifier, `expr` builds a SET exactly when `test` returns that bare variable and `=` follows: its target is the identifier and its right side, with the final cursor, is what the recursive `expr` reads after the `=` |
| Syntax.ParenErrors | main.py:124-132 | `paren_expr` fails with "expected (" at any other token, and with "expected )" when the expression is not followed by `)` |
| Syntax.DoErrors | main.py:149-158 | a `do` body not followed by `while` fails with "expected while"; a `do` statement that succeeds leaves its `;` current |
| Syntax.DoNeedsSemicolon | main.py:155-158 | a `do … while (…)` whose condition is not followed by `;` fails with "expected ;" |
| Syntax.ExprStatementErrors | main.py:168-172 | an expression statement whose expression is not followed by `;` fails with "expected ;" |
| Syntax.ParseOneStatement | main.py:175-180 | `parse` succeeds exactly when the first token scans, one statement parses and EOF follows it; it then builds PROG over that statement; a statement followed by any other token is a syntax error |
| Syntax.TopLevelDoRejected | main.py:149-158 | no whole program is a `do` statement, because the `;` it leaves current is not EOF |
| Bytecode.Width | main.py:209-250 | an instruction occupies one or two cells |
| Bytecode.OperandAt | main.py:205-207 | in well-formed code, every instruction read by widths from the first cell has a known opcode and all its cells; a jump operand lies in the allowed range; a variable operand lies in 0..25 |
| Bytecode.WellFormedConcat | main.py:263-265 | appending well-formed pieces keeps the buffer well-formed |
| CodeGen.Operator | main.py:274-285 | ADD, SUB and LT compile to IADD, ISUB and ILT, in both directions |
| CodeGen.EmitCode | main.py:267-334 | backpatching changes only the placeholders: `compile` leaves the old buffer untouched and appends exactly `Code(n, b)` placed at the buffer's length `b` |
| CodeGen.EmitCodeOperator | main.py:274-285 | an operator is its left operand's code, its right operand's code, then the opcode |
| CodeGen.EmitCodeIf | main.py:290-296 | IF1 with its placeholder backpatched is the condition, a JZ to the index just after the then-code, then the then-code |
| CodeGen.EmitCodeIfElse | main.py:297-308 | IF2 with both placeholders backpatched is the condition, a JZ to the start of the else-code, the then-code, a JMP to the end of the else-code, then the else-code |
| CodeGen.EmitCodeWhile | main.py:309-318 | WHILE backpatched is the condition, a JZ to just after the closing JMP, the body, then a JMP back to the start of the condition |
| CodeGen.EmitCodeDo | main.py:319-324 | DO is the body, the condition, then a JNZ back to the start of the body |
| CodeGen.EmitCodeSeq | main.py:325-327 | SEQ: the two statements' code one after the other |
| CodeGen.If1Layout | main.py:290-296 | overwriting IF1's placeholder with the buffer length gives the condition, JZ to the end, then the then-code |
| CodeGen.If2Layout | main.py:297-308 | the two backpatches of IF2 give JZ to the else-code and JMP to the end |
| CodeGen.WhileLayout | main.py:309-318 | the WHILE backpatch gives JZ to just after the JMP back to the condition |
| CodeGen.Compiler.constructor | main.py:259-261 | an empty buffer with `pc` 0 |
| CodeGen.Compiler.Gen | main.py:263-265 | `gen` appends one cell and keeps `pc` equal to the buffer's length |
| CodeGen.Compiler.Compile | main.py:267-334 | the imperative `compile` leaves `Emit` of the old buffer, which is the old buffer followed by `Code`, keeps `pc` equal to the buffer's length, and returns the buffer |
| CodeGen.Compiler.CompileOperator | main.py:274-285 | the ADD/SUB/LT branch agrees with `EmitOperator` |
| CodeGen.Compiler.CompileIf1 | main.py:290-296 | the IF1 branch, backpatch included, agrees with `EmitIf` |
| CodeGen.Compiler.CompileIf2 | main.py:297-308 | the IF2 branch agrees with `EmitIfElse` |
| CodeGen.Compiler.CompileWhile | main.py:309-318 | the WHILE branch agrees with `EmitWhile` |
| CodeGen.Compiler.CompileDo | main.py:319-324 | the DO branch agrees with `EmitDo` |
| CodeGen.Compiler.CompileSeq | main.py:325-327 | the SEQ branch agrees with `EmitSeq` |
| CodeGen.CompileProgram | main.py:341-342 | a fresh compiler returns `Code(node, 0)` |
| Layout.CodeWellFormed | main.py:267-334 | the code of any parsed expression or statement has the following properties: it splits into complete instructions; it names only the 26 variables; every jump lands between its first cell and the index after its last |
| Layout.OperatorWellFormed | main.py:274-285 | the operator case |
| Layout.IfWellFormed | main.py:290-296 | the IF1 case of `CodeWellFormed` |
| Layout.IfElseWellFormed | main.py:297-308 | the IF2 case |
| Layout.WhileWellFormed | main.py:309-318 | the WHILE case of `CodeWellFormed` |
| Layout.DoWellFormed | main.py:319-324 | the DO case |
| Layout.SeqWellFormed | main.py:325-327 | the SEQ case |
| Layout.ProgramWellFormed | main.py:331-333 | for a PROG, the last cell is HALT and the code is well-formed with every jump operand below the program's length |
| Layout.ProgramJumps | main.py:290-324 | every jump of a compiled program, read at an instruction boundary, names an index of the program |
| Layout.ParsedProgramWellFormed | main.py:339-342 | whatever text parses compiles to well-formed code ending in HALT |
| Layout.ProgramStepSafe | main.py:205-248 | at an instruction boundary of a compiled program, a step crashes only for want of stack entries |
| Machine.PyIndex | main.py:205 | Python's reading of a list index, negative ones counting from the end, and None exactly when it is out of range |
| Machine.Initial | main.py:201-203 | 26 variables all 0, an empty stack, pc 0 |
| Machine.StackDiscipline | main.py:209-248 | a step that goes on takes `Pops(op)` entries and puts back `Pushes(op)`, which follow the opcode table; the entries below are untouched; IPOP leaves the stack unchanged |
| Machine.StepFrame | main.py:209-250 | only ISTORE writes a variable: the one its operand names, with the popped top; no step replaces the operand; HALT stops with the state unchanged |
| Machine.ControlFlow | main.py:209-248 | a non-jump advances pc by its width (1 or 2); JMP sets pc to its operand; JZ/JNZ go to the operand when the popped value is 0 (JZ) or not 0 (JNZ), and otherwise advance by 2 |
| Machine.StepOperand | main.py:205-207 | a fetch at any cell but the last loads the next cell as the operand |
| Machine.SafeStep | main.py:205-248 | at an instruction boundary of well-formed code ending in HALT, a step crashes only for want of stack entries |
| Machine.Run | main.py:200-250 | the imperative loop, with its variables in an array updated in place, gives `Execute` from the initial state |
| Machine.Cycle | main.py:209-250 | one pass through the opcode branches agrees with `Apply`, and the array holds the new variables |
| Machine.Report | main.py:254-256 | the reported pairs are exactly the non-zero variables, each with its value, in increasing index order |
| Semantics.Combine | main.py:222-236 | ADD gives `a+b`, SUB gives `a-b`, and LT gives 1 exactly when `a<b` and 0 otherwise |
| Semantics.Effect | main.py:268-289 | the effect of an expression on variables and stack keeps 26 variables |
| Semantics.Combined | main.py:222-236 | an operator leaves the variables alone |
| Semantics.PureEffect | main.py:268-285 | a pure expression leaves the variables alone and pushes exactly its value |
| Semantics.AssignEffect | main.py:286-289 | an assignment of a pure expression stores its value and leaves the stack as it was |
| Semantics.ChainedAssignUnderflows | main.py:212-214 | `a = b = e` fails on an empty stack; otherwise it stores `e` in b, stores the entry that was below into a, and pops it |
| Correctness.ExprCode | main.py:268-289 | the code of any parsed expression, wherever it sits, runs for `Steps(n)` instructions and has exactly `Effect`'s result, ending just after its last cell; or it crashes exactly when `Effect` fails |
| Correctness.ExprRuns | main.py:268-289 | the induction behind `ExprCode` |
| Correctness.OperatorRuns | main.py:274-285 | the operator case: left operand, right operand, then the operator |
| Correctness.AssignRuns | main.py:286-289 | the assignment case: right side, then ISTORE |
| Correctness.LeafCode | main.py:209-217 | IFETCH/IPUSH at their cells run with the next cell as operand |
| Correctness.StoreStep | main.py:212-214 | ISTORE at its cells pops the top into the variable, or crashes on an empty stack |
| Correctness.OperatorStep | main.py:222-236 | the operator instruction replaces the top two entries by their combination, or crashes |
| Correctness.PureCode | main.py:268-285 | the code of a pure expression, run from any state, leaves the variables unchanged and the old stack beneath, and pushes exactly the expression's value |
| Correctness.ExprStatementRuns | main.py:328-330 | an expression statement has its expression's effect, IPOP changing nothing |
| Correctness.ExprStatementKeepsValue | main.py:218-221 | the statement `e;` for a pure `e` leaves its value on the stack |
| Correctness.AssignStatement | main.py:212-214 | `a = e;` for a pure `e` stores the value and leaves the stack as it was |
| Correctness.PopStep | main.py:218-221 | IPOP only advances pc |
| Scenarios.TwoStatements | main.py:175-180 | `a=1;b=2;%` is a syntax error |
| Scenarios.AssignmentStatement | main.py:168-172 | `a=1;` at the start of any text parses as an expression statement assigning 1 to a, after which the current token is the one that follows |
| Scenarios.OneStatement | main.py:175-180 | `a=1;%` parses as PROG over the statement that assigns 1 to a |
| Scenarios.ChainedAssignParses | main.py:115-122 | `a=b=5;%` parses as PROG over the expression statement SET(a, SET(b, 5)) |
| Scenarios.ChainedLessRejected | main.py:108-113 | `a<b<c;%` fails with "expected ;", because `test` reads a single `<` |
| Scenarios.AssignmentRuns | main.py:200-256 | `a = 1;` compiles to six cells and halts after four instructions, with a reported as 1 and nothing else reported |
| Scenarios.ExpressionStatementLeavesValue | main.py:328-330 | `1;` halts with 1 still on the stack |

## Left out

- Standard input: the program is a string given in full. A stream that runs out before `%` becomes a cursor at the end of the text, which scans as an UnknownChar error with an empty name, as the source's fall-through does.
- The error methods print a message and exit the process. Here every error is a `Result` failure carrying the error kind, returned at once.
- Printing: the final report is the function `Machine.Report`, the list of non-zero `(index, value)` pairs. The `print` calls themselves are out.
- The top-level driver: `ParseProgram` and `CompileProgram` model its first two steps, and `Run` its third on a given program. There is no single end-to-end method, because the driver only chains them.
- Python's Unicode character classes: whitespace, digits and letters are ASCII only. Under Python's rules non-ASCII letters and digits would give variable indices outside 0..25 or other values.
- The compiler's buffer is a class-level list shared by every compiler. Here each compiler owns a fresh buffer starting at `pc` 0.
- Termination of `run`: the source loops `while True`. Here `Execute` and `Run` take a fuel bound, and running out of fuel is the outcome `Running`. No property of non-terminating programs is stated.
- Runtime exceptions of the machine (an index out of range, a pop from an empty list, an operand read before it is assigned) are the single outcome `Crashed`. The kind of exception is not distinguished.
- The parser mutates nodes in place (`n.kind = IF2`, `n.op1 = …`). Here each node is built as a value once its children are parsed. The trees are the same.
- A SET node carries the target variable's index directly rather than a VAR child, because the parser builds it only from a bare variable.
- Layout.ProgramJumps: states that jump operands lie within the program. It does not state that they land on instruction boundaries, which is what the construction gives.
- Compiled statements other than expression statements (`if`, `while`, `do`, blocks) are not proved to run as their tree describes. The proofs stop at the well-formedness of their code and at the jump targets.
