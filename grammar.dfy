/** The recursive-descent parser as functions, one per parsing method of the source.

    Each function takes the lexer's cursor (the current token, one token of
    lookahead, and the position after it) and returns the node it built together with
    the cursor it leaves, or the first error.  Tokens are pulled from the text one at
    a time with `Scan`, exactly when the source calls `next_tok`, so a lexical error
    surfaces only when the parser reaches it. */
module Grammar {
  import opened Diagnostics
  import opened Scanning
  import opened Ast

  /** A cursor the lexer can have produced over `text`. */
  predicate ValidCursor(text: string, c: Cursor) {
    c.pos <= |text| && Producible(c.tok)
  }

  /** A measure that every consumed token lowers: the text left, and whether the
      current token is still to be consumed (EOF never is). */
  function Rank(text: string, c: Cursor): nat
    requires c.pos <= |text|
  {
    2 * (|text| - c.pos) + (if c.tok == EOF then 0 else 1)
  }

  /** `d` is a valid cursor strictly further on than `c`. */
  predicate Consumed(text: string, c: Cursor, d: Cursor)
    requires c.pos <= |text|
  {
    ValidCursor(text, d) && Rank(text, d) < Rank(text, c)
  }

  /** `d` is a valid cursor no earlier than `c`. */
  predicate NotBefore(text: string, c: Cursor, d: Cursor)
    requires c.pos <= |text|
  {
    ValidCursor(text, d) && Rank(text, d) <= Rank(text, c)
  }

  /** `next_tok`: consuming the current token scans the next one. */
  function Advance(text: string, c: Cursor): (r: Result<Cursor>)
    requires ValidCursor(text, c)
    ensures r.Ok? ==> NotBefore(text, c, r.value)
    ensures r.Ok? && c.tok != EOF ==> Consumed(text, c, r.value)
    ensures r.Err? ==> IsLexical(r.error)
  {
    Scan(text, c.pos)
  }

  /** term := ID | NUM | paren_expr */
  function Term(text: string, c: Cursor): (r: Result<(Node, Cursor)>)
    requires ValidCursor(text, c)
    ensures r.Ok? ==> Consumed(text, c, r.value.1) && IsExpr(r.value.0)
    decreases Rank(text, c), 1
  {
    match c.tok
    case ID(i) =>
      var c1 :- Advance(text, c);
      Ok((VAR(i), c1))
    case NUM(v) =>
      var c1 :- Advance(text, c);
      Ok((CONST(v), c1))
    case _ => ParenExpr(text, c)
  }

  /** summa := term (("+" | "-") term)* */
  function Summa(text: string, c: Cursor): (r: Result<(Node, Cursor)>)
    requires ValidCursor(text, c)
    ensures r.Ok? ==> Consumed(text, c, r.value.1) && IsExpr(r.value.0)
    ensures r.Ok? ==> r.value.1.tok != PLUS && r.value.1.tok != MINUS
    decreases Rank(text, c), 2
  {
    var t :- Term(text, c);
    SumTail(text, t.0, t.1)
  }

  /** The loop of `summa`: while the current token is + or -, consume it and a term
      and make the sum so far the left operand. */
  function SumTail(text: string, n: Node, c: Cursor): (r: Result<(Node, Cursor)>)
    requires ValidCursor(text, c) && IsExpr(n)
    ensures r.Ok? ==> NotBefore(text, c, r.value.1) && IsExpr(r.value.0)
    ensures r.Ok? ==> r.value.1.tok != PLUS && r.value.1.tok != MINUS
    decreases Rank(text, c), 1
  {
    if c.tok == PLUS || c.tok == MINUS then
      var c1 :- Advance(text, c);
      var t :- Term(text, c1);
      SumTail(text, if c.tok == PLUS then ADD(n, t.0) else SUB(n, t.0), t.1)
    else
      Ok((n, c))
  }

  /** test := summa ("<" summa)? */
  function Test(text: string, c: Cursor): (r: Result<(Node, Cursor)>)
    requires ValidCursor(text, c)
    ensures r.Ok? ==> Consumed(text, c, r.value.1) && IsExpr(r.value.0)
    ensures r.Ok? && r.value.1.tok == LESS ==> r.value.0.LT?
    decreases Rank(text, c), 3
  {
    var s :- Summa(text, c);
    if s.1.tok == LESS then
      var c1 :- Advance(text, s.1);
      var s2 :- Summa(text, c1);
      Ok((LT(s.0, s2.0), s2.1))
    else
      Ok(s)
  }

  /** expr := test | ID "=" expr, the assignment taken only when the test starting at
      an ID is that bare variable and "=" follows. */
  function Expr(text: string, c: Cursor): (r: Result<(Node, Cursor)>)
    requires ValidCursor(text, c)
    ensures r.Ok? ==> Consumed(text, c, r.value.1) && IsExpr(r.value.0)
    decreases Rank(text, c), 4
  {
    if !c.tok.ID? then
      Test(text, c)
    else
      var t :- Test(text, c);
      if t.0.VAR? && t.1.tok == EQUAL then
        var c1 :- Advance(text, t.1);
        var e :- Expr(text, c1);
        Ok((SET(t.0.index, e.0), e.1))
      else
        Ok(t)
  }

  /** paren_expr := "(" expr ")" */
  function ParenExpr(text: string, c: Cursor): (r: Result<(Node, Cursor)>)
    requires ValidCursor(text, c)
    ensures r.Ok? ==> Consumed(text, c, r.value.1) && IsExpr(r.value.0)
    decreases Rank(text, c), 0
  {
    if c.tok != LPAR then
      Err(Expected("("))
    else
      var c1 :- Advance(text, c);
      var e :- Expr(text, c1);
      if e.1.tok != RPAR then
        Err(Expected(")"))
      else
        var c2 :- Advance(text, e.1);
        Ok((e.0, c2))
  }

  /** statement: if, while, do-while (whose closing ";" is checked but left as the
      current token), ";", a block, or an expression followed by ";". */
  function Statement(text: string, c: Cursor): (r: Result<(Node, Cursor)>)
    requires ValidCursor(text, c)
    ensures r.Ok? ==> Consumed(text, c, r.value.1) && IsStmt(r.value.0)
    decreases Rank(text, c), 5
  {
    match c.tok
    case IF =>
      var c1 :- Advance(text, c);
      var cond :- ParenExpr(text, c1);
      var th :- Statement(text, cond.1);
      if th.1.tok == ELSE then
        var c2 :- Advance(text, th.1);
        var el :- Statement(text, c2);
        Ok((IF2(cond.0, th.0, el.0), el.1))
      else
        Ok((IF1(cond.0, th.0), th.1))
    case WHILE =>
      var c1 :- Advance(text, c);
      var cond :- ParenExpr(text, c1);
      var body :- Statement(text, cond.1);
      Ok((Node.WHILE(cond.0, body.0), body.1))
    case DO =>
      var c1 :- Advance(text, c);
      var body :- Statement(text, c1);
      if body.1.tok != Token.WHILE then
        Err(Expected("while"))
      else
        var c2 :- Advance(text, body.1);
        var cond :- ParenExpr(text, c2);
        if cond.1.tok != SEMICOLON then
          Err(Expected(";"))
        else
          Ok((Node.DO(body.0, cond.0), cond.1))
    case SEMICOLON =>
      var c1 :- Advance(text, c);
      Ok((EMPTY, c1))
    case LBRA =>
      var c1 :- Advance(text, c);
      BlockTail(text, EMPTY, c1)
    case _ =>
      var e :- Expr(text, c);
      if e.1.tok != SEMICOLON then
        Err(Expected(";"))
      else
        var c1 :- Advance(text, e.1);
        Ok((EXPR(e.0), c1))
  }

  /** The loop of a block: until "}", parse a statement and append it, the block so
      far becoming the left child of a new SEQ node. */
  function BlockTail(text: string, n: Node, c: Cursor): (r: Result<(Node, Cursor)>)
    requires ValidCursor(text, c) && IsStmt(n)
    ensures r.Ok? ==> Consumed(text, c, r.value.1) && IsStmt(r.value.0)
    decreases Rank(text, c), 6
  {
    if c.tok == RBRA then
      var c1 :- Advance(text, c);
      Ok((n, c1))
    else
      var s :- Statement(text, c);
      BlockTail(text, SEQ(n, s.0), s.1)
  }

  /** `parse` on a lexer positioned at `pos`: read the first token, one statement,
      then demand EOF. */
  function ParseText(text: string, pos: nat): (r: Result<Node>)
    requires pos <= |text|
    ensures r.Ok? ==> IsProg(r.value)
  {
    var c :- Scan(text, pos);
    var s :- Statement(text, c);
    if s.1.tok != EOF then Err(SyntaxError) else Ok(PROG(s.0))
  }

  /** The whole program text, read by a fresh lexer. */
  function Parse(input: string): (r: Result<Node>)
    ensures r.Ok? ==> IsProg(r.value)
  {
    ParseText([' '] + input, 0)
  }
}
