/** The parser object: recursive-descent methods that advance a shared lexer in place.
    Each method is proved to build the node, leave the lexer at the cursor, and fail
    with the error, that the matching function of `Grammar` gives.  Where the source
    prints a diagnostic and exits, a method returns the error at once. */
module Parsing {
  import opened Diagnostics
  import opened Scanning
  import opened Ast
  import G = Grammar

  /** A method's result paired with the lexer's cursor afterwards, in the shape the
      functions of `Grammar` return. */
  function Lift(r: Result<Node>, c: Cursor): Result<(Node, Cursor)> {
    if r.Ok? then Ok((r.value, c)) else Err(r.error)
  }

  class Parser {
    const lexer: Lexer

    constructor (lexer: Lexer)
      ensures this.lexer == lexer
    {
      this.lexer := lexer;
    }

    /** The lexer is in a state the functions of `Grammar` accept. */
    ghost predicate Ready()
      reads this, lexer
    {
      lexer.Valid() && G.ValidCursor(lexer.text, lexer.Cur())
    }

    method Term() returns (r: Result<Node>)
      requires Ready()
      modifies lexer
      ensures lexer.Valid() && (r.Ok? ==> Ready())
      ensures Lift(r, lexer.Cur()) == G.Term(lexer.text, old(lexer.Cur()))
      decreases G.Rank(lexer.text, lexer.Cur()), 1
    {
      if lexer.tok.ID? {
        var n := VAR(lexer.tok.index);
        :- lexer.NextTok();
        return Ok(n);
      } else if lexer.tok.NUM? {
        var n := CONST(lexer.tok.value);
        :- lexer.NextTok();
        return Ok(n);
      } else {
        r := ParenExpr();
      }
    }

    method Summa() returns (r: Result<Node>)
      requires Ready()
      modifies lexer
      ensures lexer.Valid() && (r.Ok? ==> Ready())
      ensures Lift(r, lexer.Cur()) == G.Summa(lexer.text, old(lexer.Cur()))
      decreases G.Rank(lexer.text, lexer.Cur()), 2
    {
      var n :- Term();
      while lexer.tok == PLUS || lexer.tok == MINUS
        invariant Ready() && IsExpr(n)
        invariant G.Summa(lexer.text, old(lexer.Cur())) == G.SumTail(lexer.text, n, lexer.Cur())
        invariant G.Rank(lexer.text, lexer.Cur()) < G.Rank(lexer.text, old(lexer.Cur()))
        decreases G.Rank(lexer.text, lexer.Cur())
      {
        var plus := lexer.tok == PLUS;
        :- lexer.NextTok();
        var t :- Term();
        n := if plus then ADD(n, t) else SUB(n, t);
      }
      return Ok(n);
    }

    method Test() returns (r: Result<Node>)
      requires Ready()
      modifies lexer
      ensures lexer.Valid() && (r.Ok? ==> Ready())
      ensures Lift(r, lexer.Cur()) == G.Test(lexer.text, old(lexer.Cur()))
      decreases G.Rank(lexer.text, lexer.Cur()), 3
    {
      var n :- Summa();
      if lexer.tok == LESS {
        :- lexer.NextTok();
        var m :- Summa();
        n := LT(n, m);
      }
      return Ok(n);
    }

    method Expr() returns (r: Result<Node>)
      requires Ready()
      modifies lexer
      ensures lexer.Valid() && (r.Ok? ==> Ready())
      ensures Lift(r, lexer.Cur()) == G.Expr(lexer.text, old(lexer.Cur()))
      decreases G.Rank(lexer.text, lexer.Cur()), 4
    {
      if !lexer.tok.ID? {
        r := Test();
        return;
      }
      var n :- Test();
      if n.VAR? && lexer.tok == EQUAL {
        :- lexer.NextTok();
        var e :- Expr();
        n := SET(n.index, e);
      }
      return Ok(n);
    }

    method ParenExpr() returns (r: Result<Node>)
      requires Ready()
      modifies lexer
      ensures lexer.Valid() && (r.Ok? ==> Ready())
      ensures Lift(r, lexer.Cur()) == G.ParenExpr(lexer.text, old(lexer.Cur()))
      decreases G.Rank(lexer.text, lexer.Cur()), 0
    {
      if lexer.tok != LPAR {
        return Err(Expected("("));
      }
      :- lexer.NextTok();
      var n :- Expr();
      if lexer.tok != RPAR {
        return Err(Expected(")"));
      }
      :- lexer.NextTok();
      return Ok(n);
    }

    /** `statement`: dispatches on the current token.  Each kind of statement with
        parts of its own is parsed by a method below. */
    method Statement() returns (r: Result<Node>)
      requires Ready()
      modifies lexer
      ensures lexer.Valid() && (r.Ok? ==> Ready())
      ensures Lift(r, lexer.Cur()) == G.Statement(lexer.text, old(lexer.Cur()))
      decreases G.Rank(lexer.text, lexer.Cur()), 6
    {
      if lexer.tok == IF {
        r := IfStatement();
      } else if lexer.tok == Token.WHILE {
        r := WhileStatement();
      } else if lexer.tok == Token.DO {
        r := DoStatement();
      } else if lexer.tok == SEMICOLON {
        :- lexer.NextTok();
        return Ok(EMPTY);
      } else if lexer.tok == LBRA {
        r := Block();
      } else {
        r := ExprStatement();
      }
    }

    /** "if" paren_expr statement, then "else" statement if ELSE follows. */
    method IfStatement() returns (r: Result<Node>)
      requires Ready() && lexer.tok == IF
      modifies lexer
      ensures lexer.Valid() && (r.Ok? ==> Ready())
      ensures Lift(r, lexer.Cur()) == G.Statement(lexer.text, old(lexer.Cur()))
      decreases G.Rank(lexer.text, lexer.Cur()), 5
    {
      var first := lexer.NextTok();
      if first.Fail? {
        return Err(first.error);
      }
      var cond :- ParenExpr();
      var th :- Statement();
      if lexer.tok == ELSE {
        :- lexer.NextTok();
        var el :- Statement();
        return Ok(IF2(cond, th, el));
      }
      return Ok(IF1(cond, th));
    }

    /** "while" paren_expr statement */
    method WhileStatement() returns (r: Result<Node>)
      requires Ready() && lexer.tok == Token.WHILE
      modifies lexer
      ensures lexer.Valid() && (r.Ok? ==> Ready())
      ensures Lift(r, lexer.Cur()) == G.Statement(lexer.text, old(lexer.Cur()))
      decreases G.Rank(lexer.text, lexer.Cur()), 5
    {
      var first := lexer.NextTok();
      if first.Fail? {
        return Err(first.error);
      }
      var cond :- ParenExpr();
      var body :- Statement();
      return Ok(Node.WHILE(cond, body));
    }

    /** "do" statement "while" paren_expr, with the closing ";" checked but left as
        the current token. */
    method DoStatement() returns (r: Result<Node>)
      requires Ready() && lexer.tok == Token.DO
      modifies lexer
      ensures lexer.Valid() && (r.Ok? ==> Ready())
      ensures Lift(r, lexer.Cur()) == G.Statement(lexer.text, old(lexer.Cur()))
      decreases G.Rank(lexer.text, lexer.Cur()), 5
    {
      var first := lexer.NextTok();
      if first.Fail? {
        return Err(first.error);
      }
      var body :- Statement();
      if lexer.tok != Token.WHILE {
        return Err(Expected("while"));
      }
      :- lexer.NextTok();
      var cond :- ParenExpr();
      if lexer.tok != SEMICOLON {
        return Err(Expected(";"));
      }
      return Ok(Node.DO(body, cond));
    }

    /** "{" statement* "}": each statement becomes the right child of a new SEQ node
        whose left child is the block so far. */
    method Block() returns (r: Result<Node>)
      requires Ready() && lexer.tok == LBRA
      modifies lexer
      ensures lexer.Valid() && (r.Ok? ==> Ready())
      ensures Lift(r, lexer.Cur()) == G.Statement(lexer.text, old(lexer.Cur()))
      decreases G.Rank(lexer.text, lexer.Cur()), 5
    {
      var n := EMPTY;
      :- lexer.NextTok();
      while lexer.tok != RBRA
        invariant Ready() && IsStmt(n)
        invariant G.Statement(lexer.text, old(lexer.Cur())) == G.BlockTail(lexer.text, n, lexer.Cur())
        invariant G.Rank(lexer.text, lexer.Cur()) < G.Rank(lexer.text, old(lexer.Cur()))
        decreases G.Rank(lexer.text, lexer.Cur())
      {
        var s :- Statement();
        n := SEQ(n, s);
      }
      :- lexer.NextTok();
      return Ok(n);
    }

    /** expr ";" */
    method ExprStatement() returns (r: Result<Node>)
      requires Ready() && lexer.tok !in {IF, Token.WHILE, Token.DO, SEMICOLON, LBRA}
      modifies lexer
      ensures lexer.Valid() && (r.Ok? ==> Ready())
      ensures Lift(r, lexer.Cur()) == G.Statement(lexer.text, old(lexer.Cur()))
      decreases G.Rank(lexer.text, lexer.Cur()), 5
    {
      var e :- Expr();
      if lexer.tok != SEMICOLON {
        return Err(Expected(";"));
      }
      :- lexer.NextTok();
      return Ok(EXPR(e));
    }

    /** `parse`: the first token, one statement, then EOF. */
    method Parse() returns (r: Result<Node>)
      requires lexer.Valid()
      modifies lexer
      ensures r == G.ParseText(lexer.text, old(lexer.pos))
    {
      var first := lexer.NextTok();
      if first.Fail? {
        return Err(first.error);
      }
      var s :- Statement();
      if lexer.tok != EOF {
        return Err(SyntaxError);
      }
      return Ok(PROG(s));
    }
  }

  /** A fresh lexer and parser over the program text, as the source's driver makes
      them. */
  method ParseProgram(input: string) returns (r: Result<Node>)
    ensures r == G.Parse(input)
    ensures r.Ok? ==> IsProg(r.value)
  {
    var lexer := new Lexer(input);
    var parser := new Parser(lexer);
    r := parser.Parse();
  }
}
