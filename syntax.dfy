/** Facts about the trees the parser builds and the errors it reports, over all texts:
    sums and differences fold to the left over the terms read one after another; a
    block folds its statements, in the order read, into left-leaning SEQ nodes over
    EMPTY; a test reads at most one "<"; IF2 is built exactly when "else" follows the
    then-branch; an assignment is built only from a bare variable followed by "=";
    and each missing token is the error the parser names. */
module Syntax {
  import opened Diagnostics
  import opened Scanning
  import opened Ast
  import opened Grammar

  /** The sum so far `n` with each (operator, term) of `ops` applied on the left, in
      order: [(+, t1), (-, t2)] gives SUB(ADD(n, t1), t2). */
  function LeftFold(n: Node, ops: seq<(Token, Node)>): Node
    decreases |ops|
  {
    if ops == [] then n
    else LeftFold(if ops[0].0 == PLUS then ADD(n, ops[0].1) else SUB(n, ops[0].1), ops[1..])
  }

  /** From `c`, the text holds the operators and terms of `ops` one after another, and
      reading them leaves the cursor `e`. */
  predicate ReadsTerms(text: string, c: Cursor, ops: seq<(Token, Node)>, e: Cursor)
    decreases |ops|
  {
    ValidCursor(text, c) &&
    if ops == [] then e == c
    else
      (c.tok == PLUS || c.tok == MINUS) && ops[0].0 == c.tok &&
      Advance(text, c).Ok? && Term(text, Advance(text, c).value).Ok? &&
      Term(text, Advance(text, c).value).value.0 == ops[0].1 &&
      ReadsTerms(text, Term(text, Advance(text, c).value).value.1, ops[1..], e)
  }

  /** A fold over at least one operator is an ADD or a SUB. */
  lemma {:induction false} LeftFoldShape(n: Node, ops: seq<(Token, Node)>)
    requires ops != []
    ensures LeftFold(n, ops).ADD? || LeftFold(n, ops).SUB?
    decreases |ops|
  {
    var m := if ops[0].0 == PLUS then ADD(n, ops[0].1) else SUB(n, ops[0].1);
    if ops[1..] != [] {
      LeftFoldShape(m, ops[1..]);
    }
  }

  /** What the loop of `summa` builds is the left fold of the operators and terms it
      read. */
  lemma {:induction false} SumTailFolds(text: string, n: Node, c: Cursor)
    requires ValidCursor(text, c) && IsExpr(n)
    ensures SumTail(text, n, c).Ok? ==>
      exists ops :: ReadsTerms(text, c, ops, SumTail(text, n, c).value.1) &&
                    SumTail(text, n, c).value.0 == LeftFold(n, ops)
    decreases Rank(text, c)
  {
    if SumTail(text, n, c).Ok? {
      var e := SumTail(text, n, c).value.1;
      if c.tok == PLUS || c.tok == MINUS {
        var c1 := Advance(text, c).value;
        var t := Term(text, c1).value;
        var m := if c.tok == PLUS then ADD(n, t.0) else SUB(n, t.0);
        assert SumTail(text, n, c) == SumTail(text, m, t.1);
        SumTailFolds(text, m, t.1);
        var rest :| ReadsTerms(text, t.1, rest, e) && SumTail(text, m, t.1).value.0 == LeftFold(m, rest);
        var ops := [(c.tok, t.0)] + rest;
        assert ops[1..] == rest;
        assert ReadsTerms(text, c, ops, e);
      } else {
        assert ReadsTerms(text, c, [], e);
      }
    }
  }

  /** Conversely, whenever the text holds operators and terms followed by a token
      other than + and -, the loop of `summa` reads all of them and builds their left
      fold. */
  lemma {:induction false} SumTailReads(text: string, n: Node, c: Cursor, ops: seq<(Token, Node)>, e: Cursor)
    requires IsExpr(n) && ReadsTerms(text, c, ops, e) && e.tok != PLUS && e.tok != MINUS
    ensures SumTail(text, n, c) == Ok((LeftFold(n, ops), e))
    decreases |ops|
  {
    if ops != [] {
      var t := Term(text, Advance(text, c).value).value;
      var m := if c.tok == PLUS then ADD(n, t.0) else SUB(n, t.0);
      SumTailReads(text, m, t.1, ops[1..], e);
    }
  }

  /** `summa` is its first term with the following + and - applied on the left, in the
      order read. */
  lemma SummaFolds(text: string, c: Cursor)
    requires ValidCursor(text, c)
    ensures Summa(text, c).Ok? ==>
      Term(text, c).Ok? &&
      exists ops :: ReadsTerms(text, Term(text, c).value.1, ops, Summa(text, c).value.1) &&
                    Summa(text, c).value.0 == LeftFold(Term(text, c).value.0, ops)
  {
    if Term(text, c).Ok? {
      var t := Term(text, c).value;
      SumTailFolds(text, t.0, t.1);
    }
  }

  /** `term (("+" | "-") term)*` followed by any other token is read whole by `summa`,
      which builds its left fold: `t1 - t2 + t3` is ADD(SUB(t1, t2), t3). */
  lemma SummaReads(text: string, c: Cursor, t: Node, c0: Cursor, ops: seq<(Token, Node)>, e: Cursor)
    requires ValidCursor(text, c) && Term(text, c) == Ok((t, c0))
    requires ReadsTerms(text, c0, ops, e) && e.tok != PLUS && e.tok != MINUS
    ensures Summa(text, c) == Ok((LeftFold(t, ops), e))
  {
    SumTailReads(text, t, c0, ops, e);
  }

  /** The block `n` with each statement of `ss` appended in order: [s1, s2] gives
      SEQ(SEQ(n, s1), s2). */
  function SeqFold(n: Node, ss: seq<Node>): Node
    decreases |ss|
  {
    if ss == [] then n else SeqFold(SEQ(n, ss[0]), ss[1..])
  }

  /** From `c`, the text holds the statements of `ss` one after another, none starting
      at "}", and reading them leaves the cursor `e`. */
  predicate ReadsStatements(text: string, c: Cursor, ss: seq<Node>, e: Cursor)
    decreases |ss|
  {
    ValidCursor(text, c) &&
    if ss == [] then e == c
    else
      c.tok != RBRA && Statement(text, c).Ok? && Statement(text, c).value.0 == ss[0] &&
      ReadsStatements(text, Statement(text, c).value.1, ss[1..], e)
  }

  /** A fold of statements is its start or a SEQ. */
  lemma {:induction false} SeqFoldShape(n: Node, ss: seq<Node>)
    ensures SeqFold(n, ss) == n || SeqFold(n, ss).SEQ?
    decreases |ss|
  {
    if ss != [] && ss[1..] != [] {
      SeqFoldShape(SEQ(n, ss[0]), ss[1..]);
    }
  }

  /** What the loop of a block builds is the fold of the statements it read, up to a
      "}" that it then consumes. */
  lemma {:induction false} BlockTailFolds(text: string, n: Node, c: Cursor)
    requires ValidCursor(text, c) && IsStmt(n)
    ensures BlockTail(text, n, c).Ok? ==>
      exists ss, e :: ReadsStatements(text, c, ss, e) && ValidCursor(text, e) && e.tok == RBRA &&
                      Advance(text, e) == Ok(BlockTail(text, n, c).value.1) &&
                      BlockTail(text, n, c).value.0 == SeqFold(n, ss)
    decreases Rank(text, c)
  {
    if BlockTail(text, n, c).Ok? {
      var r := BlockTail(text, n, c).value;
      if c.tok == RBRA {
        assert ReadsStatements(text, c, [], c);
      } else {
        var s := Statement(text, c).value;
        var m := SEQ(n, s.0);
        assert BlockTail(text, n, c) == BlockTail(text, m, s.1);
        BlockTailFolds(text, m, s.1);
        var rest, e :| ReadsStatements(text, s.1, rest, e) && ValidCursor(text, e) && e.tok == RBRA &&
                       Advance(text, e) == Ok(r.1) && r.0 == SeqFold(m, rest);
        var ss := [s.0] + rest;
        assert ss[1..] == rest;
        assert ReadsStatements(text, c, ss, e);
      }
    }
  }

  /** Conversely, statements followed by "}" are read whole by the loop of a block,
      which appends them in order. */
  lemma {:induction false} BlockTailReads(text: string, n: Node, c: Cursor, ss: seq<Node>, e: Cursor)
    requires IsStmt(n) && ReadsStatements(text, c, ss, e) && ValidCursor(text, e) && e.tok == RBRA
    ensures BlockTail(text, n, c) ==
      match Advance(text, e) case Ok(c1) => Ok((SeqFold(n, ss), c1)) case Err(x) => Err(x)
    decreases |ss|
  {
    if ss != [] {
      var s := Statement(text, c).value;
      BlockTailReads(text, SEQ(n, s.0), s.1, ss[1..], e);
    }
  }

  /** A block is the fold, from EMPTY, of the statements read between its braces. */
  lemma BlockFolds(text: string, c: Cursor)
    requires ValidCursor(text, c) && c.tok == LBRA
    ensures Statement(text, c).Ok? ==>
      Advance(text, c).Ok? &&
      exists ss, e :: ReadsStatements(text, Advance(text, c).value, ss, e) && ValidCursor(text, e) &&
                      e.tok == RBRA && Advance(text, e) == Ok(Statement(text, c).value.1) &&
                      Statement(text, c).value.0 == SeqFold(EMPTY, ss)
  {
    if Advance(text, c).Ok? {
      BlockTailFolds(text, EMPTY, Advance(text, c).value);
    }
  }

  /** `{ s1 ... sk }` is read as SEQ(...SEQ(SEQ(EMPTY, s1), s2)..., sk). */
  lemma BlockReads(text: string, c: Cursor, c1: Cursor, ss: seq<Node>, e: Cursor, c2: Cursor)
    requires ValidCursor(text, c) && c.tok == LBRA && Advance(text, c) == Ok(c1)
    requires ReadsStatements(text, c1, ss, e) && ValidCursor(text, e) && e.tok == RBRA
    requires Advance(text, e) == Ok(c2)
    ensures Statement(text, c) == Ok((SeqFold(EMPTY, ss), c2))
  {
    BlockTailReads(text, EMPTY, c1, ss, e);
  }

  /** Which statement is built is decided by the first token: IF1 or IF2 exactly from
      "if", WHILE exactly from "while", DO exactly from "do". */
  lemma StatementKind(text: string, c: Cursor)
    requires ValidCursor(text, c)
    ensures Statement(text, c).Ok? ==>
      (Statement(text, c).value.0.IF1? || Statement(text, c).value.0.IF2? <==> c.tok == IF) &&
      (Statement(text, c).value.0.WHILE? <==> c.tok == Token.WHILE) &&
      (Statement(text, c).value.0.DO? <==> c.tok == Token.DO)
  {
    if c.tok == LBRA {
      BlockFolds(text, c);
      if Statement(text, c).Ok? {
        var ss, e :| ReadsStatements(text, Advance(text, c).value, ss, e) && ValidCursor(text, e) &&
                     e.tok == RBRA && Advance(text, e) == Ok(Statement(text, c).value.1) &&
                     Statement(text, c).value.0 == SeqFold(EMPTY, ss);
        SeqFoldShape(EMPTY, ss);
      }
    } else if c.tok == IF {
      IfKind(text, c);
    } else if c.tok == Token.WHILE {
      WhileKind(text, c);
    } else if c.tok == Token.DO {
      DoKind(text, c);
    } else {
      PlainKind(text, c);
    }
  }

  lemma IfKind(text: string, c: Cursor)
    requires ValidCursor(text, c) && c.tok == IF
    ensures Statement(text, c).Ok? ==> Statement(text, c).value.0.IF1? || Statement(text, c).value.0.IF2?
  {
  }

  lemma WhileKind(text: string, c: Cursor)
    requires ValidCursor(text, c) && c.tok == Token.WHILE
    ensures Statement(text, c).Ok? ==> Statement(text, c).value.0.WHILE?
  {
  }

  lemma DoKind(text: string, c: Cursor)
    requires ValidCursor(text, c) && c.tok == Token.DO
    ensures Statement(text, c).Ok? ==> Statement(text, c).value.0.DO?
  {
  }

  /** ";" gives EMPTY and anything else an expression statement. */
  lemma PlainKind(text: string, c: Cursor)
    requires ValidCursor(text, c)
    requires c.tok != IF && c.tok != LBRA && c.tok != Token.WHILE && c.tok != Token.DO
    ensures Statement(text, c).Ok? ==> Statement(text, c).value.0.EMPTY? || Statement(text, c).value.0.EXPR?
  {
  }

  /** An "if" reads its condition and then-branch; the result is IF2 exactly when
      "else" follows the then-branch, and then holds the statement read after the
      "else"; an IF1 ends where the then-branch ended. */
  lemma IfShapes(text: string, c: Cursor)
    requires ValidCursor(text, c) && c.tok == IF
    ensures Statement(text, c).Ok? ==>
      Advance(text, c).Ok? && ParenExpr(text, Advance(text, c).value).Ok? &&
      var cond := ParenExpr(text, Advance(text, c).value).value;
      Statement(text, cond.1).Ok? &&
      var th := Statement(text, cond.1).value;
      (Statement(text, c).value.0.IF2? <==> th.1.tok == ELSE) &&
      (Statement(text, c).value.0.IF1? ==> Statement(text, c).value == (IF1(cond.0, th.0), th.1)) &&
      (Statement(text, c).value.0.IF2? ==>
        Advance(text, th.1).Ok? && Statement(text, Advance(text, th.1).value).Ok? &&
        var el := Statement(text, Advance(text, th.1).value).value;
        Statement(text, c).value == (IF2(cond.0, th.0, el.0), el.1))
  {
  }

  /** `test` reads at most one "<": the summa alone when no "<" follows it, and
      otherwise the comparison of two summas, stopping after the second even when
      another "<" follows. */
  lemma TestReadsOneLess(text: string, c: Cursor)
    requires ValidCursor(text, c)
    ensures Test(text, c).Ok? ==> Summa(text, c).Ok?
    ensures Summa(text, c).Ok? && Summa(text, c).value.1.tok != LESS ==> Test(text, c) == Summa(text, c)
    ensures Summa(text, c).Ok? && Summa(text, c).value.1.tok == LESS && Test(text, c).Ok? ==>
      var s := Summa(text, c).value;
      Advance(text, s.1).Ok? && Summa(text, Advance(text, s.1).value).Ok? &&
      Test(text, c) == Ok((LT(s.0, Summa(text, Advance(text, s.1).value).value.0),
                           Summa(text, Advance(text, s.1).value).value.1))
  {
  }

  /** A test that leaves "<" current is an expression that ends there too: a second
      "<" is read by nothing, so `a<b<c;` is missing its ";". */
  lemma ChainedLessStops(text: string, c: Cursor)
    requires ValidCursor(text, c)
    ensures Test(text, c).Ok? && Test(text, c).value.1.tok == LESS ==> Expr(text, c) == Test(text, c)
  {
  }

  /** A test that starts at an identifier is never an assignment, and when it is a
      bare variable it is that identifier's. */
  lemma TestFromId(text: string, c: Cursor)
    requires ValidCursor(text, c) && c.tok.ID?
    ensures Test(text, c).Ok? ==> !Test(text, c).value.0.SET?
    ensures Test(text, c).Ok? && Test(text, c).value.0.VAR? ==> Test(text, c).value.0 == VAR(c.tok.index)
  {
    SummaFolds(text, c);
    if Summa(text, c).Ok? {
      var ops :| ReadsTerms(text, Term(text, c).value.1, ops, Summa(text, c).value.1) &&
                 Summa(text, c).value.0 == LeftFold(Term(text, c).value.0, ops);
      if ops != [] {
        LeftFoldShape(Term(text, c).value.0, ops);
      }
    }
  }

  /** An assignment starting at an identifier is built exactly when the test read from
      there is that bare variable and "=" follows; its target is the identifier and
      its right side is the expression read after the "=". */
  lemma AssignTarget(text: string, c: Cursor)
    requires ValidCursor(text, c) && c.tok.ID?
    ensures Expr(text, c).Ok? && Expr(text, c).value.0.SET? ==>
      Test(text, c).Ok? && Test(text, c).value.0 == VAR(c.tok.index) &&
      Test(text, c).value.1.tok == EQUAL && Expr(text, c).value.0.index == c.tok.index &&
      Advance(text, Test(text, c).value.1).Ok? &&
      var e := Expr(text, Advance(text, Test(text, c).value.1).value);
      e.Ok? && Expr(text, c).value == (SET(c.tok.index, e.value.0), e.value.1)
    ensures Test(text, c).Ok? && Test(text, c).value.0.VAR? && Test(text, c).value.1.tok == EQUAL &&
            Advance(text, Test(text, c).value.1).Ok? ==>
      var e := Expr(text, Advance(text, Test(text, c).value.1).value);
      e.Ok? ==> Expr(text, c) == Ok((SET(c.tok.index, e.value.0), e.value.1))
  {
    TestFromId(text, c);
  }

  /** `paren_expr` demands "(" first and ")" after the expression. */
  lemma ParenErrors(text: string, c: Cursor)
    requires ValidCursor(text, c)
    ensures c.tok != LPAR ==> ParenExpr(text, c) == Err(Expected("("))
    ensures c.tok == LPAR && Advance(text, c).Ok? && Expr(text, Advance(text, c).value).Ok? &&
            Expr(text, Advance(text, c).value).value.1.tok != RPAR ==>
              ParenExpr(text, c) == Err(Expected(")"))
  {
  }

  /** A "do" statement demands "while" after its body and ";" after its condition,
      and leaves that ";" as the current token. */
  lemma DoErrors(text: string, c: Cursor)
    requires ValidCursor(text, c) && c.tok == Token.DO
    ensures Advance(text, c).Ok? && Statement(text, Advance(text, c).value).Ok? &&
            Statement(text, Advance(text, c).value).value.1.tok != Token.WHILE ==>
              Statement(text, c) == Err(Expected("while"))
    ensures Statement(text, c).Ok? ==> Statement(text, c).value.1.tok == SEMICOLON
  {
  }

  /** The semicolon check of the "do" statement: a condition not followed by ";". */
  lemma DoNeedsSemicolon(text: string, c: Cursor)
    requires ValidCursor(text, c) && c.tok == Token.DO
    ensures Advance(text, c).Ok? && Statement(text, Advance(text, c).value).Ok? ==>
      var b := Statement(text, Advance(text, c).value).value;
      b.1.tok == Token.WHILE && Advance(text, b.1).Ok? &&
      ParenExpr(text, Advance(text, b.1).value).Ok? &&
      ParenExpr(text, Advance(text, b.1).value).value.1.tok != SEMICOLON ==>
        Statement(text, c) == Err(Expected(";"))
  {
  }

  /** An expression statement demands ";" after its expression. */
  lemma ExprStatementErrors(text: string, c: Cursor)
    requires ValidCursor(text, c)
    requires c.tok != IF && c.tok != Token.WHILE && c.tok != Token.DO && c.tok != SEMICOLON && c.tok != LBRA
    ensures Expr(text, c).Ok? && Expr(text, c).value.1.tok != SEMICOLON ==>
      Statement(text, c) == Err(Expected(";"))
  {
  }

  /** `parse` accepts exactly one statement followed by EOF, and builds PROG over it;
      a statement followed by any other token is a syntax error. */
  lemma ParseOneStatement(text: string, pos: nat)
    requires pos <= |text|
    ensures ParseText(text, pos).Ok? <==>
      Scan(text, pos).Ok? && Statement(text, Scan(text, pos).value).Ok? &&
      Statement(text, Scan(text, pos).value).value.1.tok == EOF
    ensures ParseText(text, pos).Ok? ==>
      ParseText(text, pos).value == PROG(Statement(text, Scan(text, pos).value).value.0)
    ensures Scan(text, pos).Ok? && Statement(text, Scan(text, pos).value).Ok? &&
            Statement(text, Scan(text, pos).value).value.1.tok != EOF ==>
              ParseText(text, pos) == Err(SyntaxError)
  {
  }

  /** A "do" statement never parses as a whole program: it leaves its ";" current,
      and `parse` then finds that instead of EOF. */
  lemma TopLevelDoRejected(text: string, pos: nat)
    requires pos <= |text|
    ensures ParseText(text, pos).Ok? ==> !ParseText(text, pos).value.op1.DO?
  {
    ParseOneStatement(text, pos);
    if ParseText(text, pos).Ok? {
      var c := Scan(text, pos).value;
      StatementKind(text, c);
      if c.tok == Token.DO {
        DoErrors(text, c);
      }
    }
  }
}
