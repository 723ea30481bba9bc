/** Whole programs through the pipeline: a program of one assignment is accepted and
    one of two statements is rejected, since `parse` reads exactly one; a chain of `<`
    is rejected; a chained assignment nests to the right; an assignment compiles, runs
    and is reported; an expression statement leaves its value on the stack. */
module Scenarios {
  import opened Diagnostics
  import opened Scanning
  import opened Ast
  import opened Grammar
  import opened Bytecode
  import opened CodeGen
  import opened Machine
  import opened Syntax

  /** The text a lexer scans for the program "a=1;b=2;%". */
  const Sample: string := " a=1;b=2;%"

  /** The text a lexer scans for the program "a=1;%". */
  const Single: string := " a=1;%"

  /** The text a lexer scans for the program "a<b<c;%". */
  const Chain: string := " a<b<c;%"

  /** The tokens of any text that starts with the statement `a=1;`. */
  lemma AssignmentTokens(text: string)
    requires 5 < |text| && text[..5] == " a=1;"
    ensures Scan(text, 0) == Ok(Cursor(ID(0), 2))
    ensures Scan(text, 2) == Ok(Cursor(EQUAL, 3))
    ensures Scan(text, 3) == Ok(Cursor(NUM(1), 4))
    ensures Scan(text, 4) == Ok(Cursor(SEMICOLON, 5))
  {
    AssignmentChars(text);
    ScanLeadingLetter(text);
    ScanSymbol(text, 2);
    ScanLiteralOne(text);
    ScanSymbol(text, 4);
  }

  lemma AssignmentChars(text: string)
    requires 5 < |text| && text[..5] == " a=1;"
    ensures text[0] == ' ' && text[2] == '=' && text[4] == ';'
    ensures text[1..2] == "a" && text[3..4] == "1"
  {
    assert text[0] == text[..5][0] && text[2] == text[..5][2] && text[4] == text[..5][4];
    assert text[1..2] == text[..5][1..2] && text[3..4] == text[..5][3..4];
  }

  /** A space, then the letter a before a separator, scans as the variable a. */
  lemma ScanLeadingLetter(text: string)
    requires 2 < |text| && text[0] == ' ' && text[1..2] == "a" && Separated(text, 2)
    ensures Scan(text, 0) == Ok(Cursor(ID(0), 2))
  {
    ScanSkipsSpaces(text, 0, 1);
    ScanLowerWord("a", text, 1);
  }

  lemma ScanLiteralOne(text: string)
    requires 4 < |text| && text[3..4] == "1" && Separated(text, 4)
    ensures Scan(text, 3) == Ok(Cursor(NUM(1), 4))
  {
    assert DecimalString(1) == "1";
    ScanDecimalString(1, text, 3);
  }

  /** The test at the start is the bare variable a, followed by "=". */
  lemma AssignmentTarget(text: string)
    requires 5 < |text| && text[..5] == " a=1;"
    ensures Test(text, Cursor(ID(0), 2)) == Ok((VAR(0), Cursor(EQUAL, 3)))
  {
    AssignmentTokens(text);
    assert Term(text, Cursor(ID(0), 2)) == Ok((VAR(0), Cursor(EQUAL, 3)));
    assert Summa(text, Cursor(ID(0), 2)) == Ok((VAR(0), Cursor(EQUAL, 3)));
  }

  /** The right side of the assignment. */
  lemma AssignmentValue(text: string)
    requires 5 < |text| && text[..5] == " a=1;"
    ensures Expr(text, Cursor(NUM(1), 4)) == Ok((CONST(1), Cursor(SEMICOLON, 5)))
  {
    AssignmentTokens(text);
    assert Term(text, Cursor(NUM(1), 4)) == Ok((CONST(1), Cursor(SEMICOLON, 5)));
    assert Summa(text, Cursor(NUM(1), 4)) == Ok((CONST(1), Cursor(SEMICOLON, 5)));
    assert Test(text, Cursor(NUM(1), 4)) == Ok((CONST(1), Cursor(SEMICOLON, 5)));
  }

  /** The statement `a=1;`, after which the current token is whatever follows it. */
  lemma AssignmentStatement(text: string, next: Cursor)
    requires 5 < |text| && text[..5] == " a=1;"
    requires Scan(text, 5) == Ok(next)
    ensures Statement(text, Cursor(ID(0), 2)) == Ok((EXPR(SET(0, CONST(1))), next))
  {
    AssignmentTokens(text);
    AssignmentTarget(text);
    AssignmentValue(text);
    assert Expr(text, Cursor(ID(0), 2)) == Ok((SET(0, CONST(1)), Cursor(SEMICOLON, 5)));
  }

  /** `Single` is the statement `a=1;` followed by the end marker. */
  lemma SingleShape()
    ensures 5 < |Single| && Single[..5] == " a=1;"
    ensures Scan(Single, 5) == Ok(Cursor(EOF, 5))
  {
    ScanSentinel(Single, 5);
  }

  /** `parse` accepts a program of one assignment. */
  lemma OneStatement()
    ensures Parse("a=1;%") == Ok(PROG(EXPR(SET(0, CONST(1)))))
  {
    assert [' '] + "a=1;%" == Single;
    SingleShape();
    AssignmentTokens(Single);
    AssignmentStatement(Single, Cursor(EOF, 5));
  }

  /** `Sample` is the statement `a=1;` followed by b. */
  lemma SampleShape()
    ensures 5 < |Sample| && Sample[..5] == " a=1;"
    ensures Scan(Sample, 5) == Ok(Cursor(ID(1), 6))
  {
    assert Sample[5..6] == "b";
    ScanLowerWord("b", Sample, 5);
  }

  /** `parse` rejects a program of two statements: after the first, the current token
      is not EOF. */
  lemma TwoStatements()
    ensures Parse("a=1;b=2;%") == Err(SyntaxError)
  {
    assert [' '] + "a=1;b=2;%" == Sample;
    SampleShape();
    AssignmentTokens(Sample);
    AssignmentStatement(Sample, Cursor(ID(1), 6));
  }

  /** The tokens of `Chain` up to its second `<`. */
  lemma ChainTokens()
    ensures Scan(Chain, 0) == Ok(Cursor(ID(0), 2))
    ensures Scan(Chain, 2) == Ok(Cursor(LESS, 3))
    ensures Scan(Chain, 3) == Ok(Cursor(ID(1), 4))
    ensures Scan(Chain, 4) == Ok(Cursor(LESS, 5))
  {
    assert Chain[1..2] == "a";
    ScanLeadingLetter(Chain);
    ScanSymbol(Chain, 2);
    ScanChainB();
    ScanSymbol(Chain, 4);
  }

  lemma ScanChainB()
    ensures Scan(Chain, 3) == Ok(Cursor(ID(1), 4))
  {
    assert Chain[3..4] == "b";
    ScanLowerWord("b", Chain, 3);
  }

  /** `test` reads a single `<`: the statement "a<b<c;" stops at the second `<`,
      where a `;` is expected. */
  lemma ChainedLessRejected()
    ensures Parse("a<b<c;%") == Err(Expected(";"))
  {
    assert [' '] + "a<b<c;%" == Chain;
    ChainTokens();
    assert Summa(Chain, Cursor(ID(0), 2)) == Ok((VAR(0), Cursor(LESS, 3)));
    assert Summa(Chain, Cursor(ID(1), 4)) == Ok((VAR(1), Cursor(LESS, 5)));
    assert Test(Chain, Cursor(ID(0), 2)) == Ok((LT(VAR(0), VAR(1)), Cursor(LESS, 5)));
    assert Expr(Chain, Cursor(ID(0), 2)) == Ok((LT(VAR(0), VAR(1)), Cursor(LESS, 5)));
  }

  /** The text a lexer scans for the program "a=b=5;%". */
  const Assigns: string := " a=b=5;%"

  lemma ScanAssignsA()
    ensures Scan(Assigns, 0) == Ok(Cursor(ID(0), 2))
  {
    assert Assigns[1..2] == "a";
    ScanLeadingLetter(Assigns);
  }

  lemma ScanAssignsB()
    ensures Scan(Assigns, 3) == Ok(Cursor(ID(1), 4))
  {
    assert Assigns[3..4] == "b";
    ScanLowerWord("b", Assigns, 3);
  }

  lemma ScanAssignsFive()
    ensures Scan(Assigns, 5) == Ok(Cursor(NUM(5), 6))
  {
    assert DecimalString(5) == "5";
    assert Assigns[5..6] == "5";
    ScanDecimalString(5, Assigns, 5);
  }

  /** The right side `5`, which ends at the ";". */
  lemma AssignsValue()
    ensures Expr(Assigns, Cursor(NUM(5), 6)) == Ok((CONST(5), Cursor(SEMICOLON, 7)))
  {
    ScanSymbol(Assigns, 6);
    assert Term(Assigns, Cursor(NUM(5), 6)) == Ok((CONST(5), Cursor(SEMICOLON, 7)));
    assert Summa(Assigns, Cursor(NUM(5), 6)) == Ok((CONST(5), Cursor(SEMICOLON, 7)));
  }

  /** The test at b is the bare variable b, followed by "=". */
  lemma AssignsTargetB()
    ensures Test(Assigns, Cursor(ID(1), 4)) == Ok((VAR(1), Cursor(EQUAL, 5)))
  {
    ScanSymbol(Assigns, 4);
    assert Term(Assigns, Cursor(ID(1), 4)) == Ok((VAR(1), Cursor(EQUAL, 5)));
    assert Summa(Assigns, Cursor(ID(1), 4)) == Ok((VAR(1), Cursor(EQUAL, 5)));
  }

  /** The test at a is the bare variable a, followed by "=". */
  lemma AssignsTargetA()
    ensures Test(Assigns, Cursor(ID(0), 2)) == Ok((VAR(0), Cursor(EQUAL, 3)))
  {
    ScanSymbol(Assigns, 2);
    assert Term(Assigns, Cursor(ID(0), 2)) == Ok((VAR(0), Cursor(EQUAL, 3)));
    assert Summa(Assigns, Cursor(ID(0), 2)) == Ok((VAR(0), Cursor(EQUAL, 3)));
  }

  /** The inner assignment `b=5`. */
  lemma InnerAssign()
    ensures Expr(Assigns, Cursor(ID(1), 4)) == Ok((SET(1, CONST(5)), Cursor(SEMICOLON, 7)))
  {
    AssignsTargetB();
    ScanAssignsFive();
    AssignsValue();
    AssignTarget(Assigns, Cursor(ID(1), 4));
  }

  /** The outer assignment, whose right side is the inner one. */
  lemma OuterAssign()
    ensures Expr(Assigns, Cursor(ID(0), 2)) == Ok((SET(0, SET(1, CONST(5))), Cursor(SEMICOLON, 7)))
  {
    AssignsTargetA();
    ScanAssignsB();
    InnerAssign();
    AssignTarget(Assigns, Cursor(ID(0), 2));
  }

  /** `a=b=5;` parses as an assignment whose right side is the assignment to b, the
      tree whose run `Semantics.ChainedAssignUnderflows` describes. */
  lemma ChainedAssignParses()
    ensures Parse("a=b=5;%") == Ok(PROG(EXPR(SET(0, SET(1, CONST(5))))))
  {
    assert [' '] + "a=b=5;%" == Assigns;
    ScanAssignsA();
    OuterAssign();
    ScanSentinel(Assigns, 7);
    assert Statement(Assigns, Cursor(ID(0), 2)) == Ok((EXPR(SET(0, SET(1, CONST(5)))), Cursor(EOF, 7)));
  }

  /** The program `a = 1;` compiles to six cells and halts after four instructions
      with a set to 1, the only variable reported. */
  lemma AssignmentRuns()
    ensures Code(PROG(EXPR(SET(0, CONST(1)))), 0) == [IPUSH, 1, ISTORE, 0, IPOP, HALT]
    ensures var r := Execute([IPUSH, 1, ISTORE, 0, IPOP, HALT], Initial(), 4);
      r.Halted? && r.final.stack == [] && r.final.pc == 5 && Report(r.final.vars) == [(0, 1)]
  {
    var p := [IPUSH, 1, ISTORE, 0, IPOP, HALT];
    var s0 := Initial();
    var s1 := State(s0.vars, [1], 2, Some(1));
    var s2 := State(s0.vars[0 := 1], [], 4, Some(0));
    var s3 := State(s0.vars[0 := 1], [], 5, Some(HALT));
    assert Step(p, s0) == Next(s1);
    assert Step(p, s1) == Next(s2);
    assert Step(p, s2) == Next(s3);
    assert Step(p, s3) == Halt(s3);
    assert Execute(p, s3, 1) == Halted(s3);
    ReportOne(s3.vars);
  }

  /** After `a = 1`, a is the only variable reported. */
  lemma ReportOne(vars: seq<int>)
    requires vars == Initial().vars[0 := 1]
    ensures Report(vars) == [(0, 1)]
  {
    var r := Report(vars);
    assert |vars| == 26 && vars[0] == 1;
    assert forall i | 0 < i < 26 :: vars[i] == Initial().vars[i] == 0;
    assert (0, vars[0]) in r;
    forall k | 0 <= k < |r| ensures r[k] == (0, 1) {
      assert vars[r[k].0] != 0;
    }
    assert |r| >= 2 ==> r[0].0 < r[1].0;
  }

  /** The program `1;` halts with its value still on the stack, since IPOP pops
      nothing. */
  lemma ExpressionStatementLeavesValue()
    ensures Code(PROG(EXPR(CONST(1))), 0) == [IPUSH, 1, IPOP, HALT]
    ensures var r := Execute([IPUSH, 1, IPOP, HALT], Initial(), 3);
      r.Halted? && r.final.stack == [1]
  {
    var p := [IPUSH, 1, IPOP, HALT];
    var s0 := Initial();
    var s1 := State(s0.vars, [1], 2, Some(1));
    var s2 := State(s0.vars, [1], 3, Some(HALT));
    assert Step(p, s0) == Next(s1);
    assert Step(p, s1) == Next(s2);
    assert Step(p, s2) == Halt(s2);
  }
}
