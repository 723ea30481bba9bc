/** The lexer: a character-level scanner that yields one token per call.

    The source keeps the current character `ch` in a field and reads the next one from
    standard input.  Here the whole input is a string `text` and `pos` is the index of
    the current character; `pos == |text|` stands for the empty string the stream
    returns once it is exhausted.  The source starts with `ch = ' '`, so the text a
    lexer scans is a space followed by the program. */
module Scanning {
  import opened Diagnostics

  /** One token: the source's pair of `sym` and `value`, with the value kept only by
      the two kinds that have one. */
  datatype Token =
    | NUM(value: nat)     // a decimal literal and its value
    | ID(index: nat)      // a one-letter variable name and its alphabet index
    | IF | ELSE | WHILE | DO
    | LBRA | RBRA | LPAR | RPAR | PLUS | MINUS | LESS | EQUAL | SEMICOLON
    | EOF

  /** The state a call leaves behind: the token just scanned and the index of the
      current character. */
  datatype Cursor = Cursor(tok: Token, pos: nat)

  /** The character that marks the logical end of a program. */
  const Sentinel: char := '%'

  const Symbols: map<char, Token> :=
    map['{' := LBRA, '}' := RBRA, '=' := EQUAL, ';' := SEMICOLON, '(' := LPAR,
        ')' := RPAR, '+' := PLUS, '-' := MINUS, '<' := LESS]

  const Words: map<string, Token> :=
    map["if" := IF, "else" := ELSE, "do" := DO, "while" := WHILE]

  /** ASCII characters that Python's str.isspace accepts: tab to carriage return,
      the four separators 0x1c to 0x1f, and the space. */
  predicate IsSpace(c: char) {
    9 <= c as int <= 13 || 28 <= c as int <= 32
  }

  predicate IsDigit(c: char) {
    '0' <= c <= '9'
  }

  predicate IsAlpha(c: char) {
    'a' <= c <= 'z' || 'A' <= c <= 'Z'
  }

  function DigitValue(c: char): (d: nat)
    requires IsDigit(c)
    ensures d < 10
  {
    c as int - '0' as int
  }

  /** ASCII lower-casing of one character. */
  function Lower(c: char): (r: char)
    ensures IsAlpha(c) ==> 'a' <= r <= 'z'
    ensures 'a' <= c <= 'z' ==> r == c
    ensures !IsAlpha(c) ==> r == c
  {
    if 'A' <= c <= 'Z' then (c as int + 32) as char else c
  }

  function LowerWord(s: string): (r: string)
    ensures |r| == |s|
  {
    seq(|s|, i requires 0 <= i < |s| => Lower(s[i]))
  }

  /** The end of the maximal run of characters satisfying `p` that starts at `i`. */
  function RunEnd(text: string, i: nat, p: char -> bool): (e: nat)
    requires i <= |text|
    ensures i <= e <= |text|
    ensures forall k | i <= k < e :: p(text[k])
    ensures e == |text| || !p(text[e])
    decreases |text| - i
  {
    if i < |text| && p(text[i]) then RunEnd(text, i + 1, p) else i
  }

  /** The value of a digit string read left to right, ten times the value so far plus
      the next digit. */
  function DecimalValue(s: string): nat
    requires forall k | 0 <= k < |s| :: IsDigit(s[k])
  {
    if s == [] then 0 else DecimalValue(s[..|s| - 1]) * 10 + DigitValue(s[|s| - 1])
  }

  /** Extending a digit run by one digit: ten times the old value plus that digit. */
  lemma DecimalStep(text: string, i: nat, j: nat)
    requires i <= j < |text| && forall k | i <= k <= j :: IsDigit(text[k])
    ensures DecimalValue(text[i..j + 1]) == DecimalValue(text[i..j]) * 10 + DigitValue(text[j])
  {
    assert text[i..j + 1][..j - i] == text[i..j];
  }

  /** The first index at or after `i` that does not hold whitespace. */
  function SkipSpaces(text: string, i: nat): (q: nat)
    requires i <= |text|
    ensures i <= q <= |text|
    ensures forall k | i <= k < q :: IsSpace(text[k])
    ensures q == |text| || !IsSpace(text[q])
  {
    RunEnd(text, i, IsSpace)
  }

  /** One call of the source's `next_tok`, starting at the current character `pos`:
      the token and the new position, or the lexical error that ends the run. */
  function Scan(text: string, pos: nat): (r: Result<Cursor>)
    requires pos <= |text|
    ensures r.Ok? ==> pos <= r.value.pos <= |text|
    ensures r.Ok? && r.value.tok != EOF ==> pos < r.value.pos
    ensures r.Ok? && r.value.tok == EOF ==>
              r.value.pos < |text| && text[r.value.pos] == Sentinel &&
              forall k | pos <= k < r.value.pos :: IsSpace(text[k])
    ensures r.Ok? && r.value.tok.ID? ==> r.value.tok.index < 26
    ensures r.Err? ==> IsLexical(r.error)
    decreases |text| - pos
  {
    if pos == |text| then Err(UnknownChar(""))
    else
      var ch := text[pos];
      if ch == Sentinel then Ok(Cursor(EOF, pos))
      else if IsSpace(ch) then Scan(text, pos + 1)
      else if ch in Symbols then Ok(Cursor(Symbols[ch], pos + 1))
      else if IsDigit(ch) then
        var e := RunEnd(text, pos, IsDigit);
        Ok(Cursor(NUM(DecimalValue(text[pos..e])), e))
      else if IsAlpha(ch) then
        var e := RunEnd(text, pos, IsAlpha);
        var word := LowerWord(text[pos..e]);
        if word in Words then Ok(Cursor(Words[word], e))
        else if |word| == 1 then Ok(Cursor(ID(word[0] as int - 'a' as int), e))
        else Err(UnknownWord(word))
      else Err(UnknownChar([ch]))
  }

  /* ---------------------------------------------------------------------------------
     Properties of one call
     --------------------------------------------------------------------------------- */

  /** Whitespace is skipped: a run of whitespace before the current character changes
      nothing about the token scanned. */
  lemma {:induction false} ScanSkipsSpaces(text: string, p: nat, q: nat)
    requires p <= q <= |text|
    requires forall k | p <= k < q :: IsSpace(text[k])
    ensures Scan(text, p) == Scan(text, q)
    decreases q - p
  {
    if p < q {
      ScanSkipsSpaces(text, p + 1, q);
    }
  }

  /** Scanning from any index scans from the end of the whitespace found there. */
  lemma ScanFromSkipped(text: string, i: nat)
    requires i <= |text|
    ensures Scan(text, i) == Scan(text, SkipSpaces(text, i))
  {
    ScanSkipsSpaces(text, i, SkipSpaces(text, i));
  }

  /** A run is maximal in exactly one place. */
  lemma {:induction false} RunEndIsUnique(text: string, i: nat, e: nat, p: char -> bool)
    requires i <= e <= |text|
    requires forall k | i <= k < e :: p(text[k])
    requires e == |text| || !p(text[e])
    ensures RunEnd(text, i, p) == e
    decreases e - i
  {
    if i < e {
      RunEndIsUnique(text, i + 1, e, p);
    }
  }

  /** Each one-character symbol yields its own token and advances by exactly one. */
  lemma ScanSymbol(text: string, q: nat)
    requires q < |text| && text[q] in Symbols
    ensures Scan(text, q) == Ok(Cursor(Symbols[text[q]], q + 1))
  {
  }

  /** The sentinel yields EOF without advancing, so the next call yields EOF again at
      the same place. */
  lemma EofIsSticky(text: string, pos: nat, p: nat)
    requires pos <= |text|
    requires Scan(text, pos) == Ok(Cursor(EOF, p))
    ensures Scan(text, p) == Ok(Cursor(EOF, p))
  {
  }

  /** A maximal digit run yields NUM carrying the run's decimal value, and the next
      call starts right after the run. */
  lemma ScanNumber(text: string, q: nat, e: nat)
    requires q < e <= |text|
    requires forall k | q <= k < e :: IsDigit(text[k])
    requires e == |text| || !IsDigit(text[e])
    ensures Scan(text, q) == Ok(Cursor(NUM(DecimalValue(text[q..e])), e))
  {
    RunEndIsUnique(text, q, e, IsDigit);
  }

  /** A maximal letter run is lower-cased; a keyword in any case gives its keyword
      token, a single letter gives ID with its alphabet index, and any other word is a
      lexical error. */
  lemma ScanWord(text: string, q: nat, e: nat)
    requires q < e <= |text|
    requires forall k | q <= k < e :: IsAlpha(text[k])
    requires e == |text| || !IsAlpha(text[e])
    ensures var w := LowerWord(text[q..e]);
            && (w in Words ==> Scan(text, q) == Ok(Cursor(Words[w], e)))
            && (e == q + 1 ==>
                  Scan(text, q) == Ok(Cursor(ID(Lower(text[q]) as int - 'a' as int), e)))
            && (w !in Words && e > q + 1 ==> Scan(text, q) == Err(UnknownWord(w)))
  {
    RunEndIsUnique(text, q, e, IsAlpha);
    var w := LowerWord(text[q..e]);
    LetterStartsWord(text[q]);
    assert Scan(text, q) == if w in Words then Ok(Cursor(Words[w], e))
                            else if |w| == 1 then Ok(Cursor(ID(w[0] as int - 'a' as int), e))
                            else Err(UnknownWord(w));
    if e == q + 1 {
      assert w[0] == Lower(text[q]);
      assert w !in Words;
    }
  }

  /** A letter is the first character of a word and of nothing else. */
  lemma LetterStartsWord(c: char)
    requires IsAlpha(c)
    ensures c != Sentinel && !IsSpace(c) && c !in Symbols && !IsDigit(c)
  {
  }

  /** Any character that starts no token is a lexical error naming it. */
  lemma ScanUnknownChar(text: string, q: nat)
    requires q < |text|
    requires var c := text[q];
             c != Sentinel && !IsSpace(c) && c !in Symbols && !IsDigit(c) && !IsAlpha(c)
    ensures Scan(text, q) == Err(UnknownChar([text[q]]))
  {
  }

  /* ---------------------------------------------------------------------------------
     Spelling tokens: scanning is a left inverse of writing a token out
     --------------------------------------------------------------------------------- */

  /** The decimal digits of `n`, most significant first, without leading zeros. */
  function DecimalString(n: nat): (s: string)
    ensures |s| > 0
    ensures forall k | 0 <= k < |s| :: IsDigit(s[k])
  {
    if n < 10 then ['0' + n as char]
    else DecimalString(n / 10) + ['0' + (n % 10) as char]
  }

  lemma {:induction false} DecimalRoundTrip(n: nat)
    ensures DecimalValue(DecimalString(n)) == n
  {
    if n >= 10 {
      var s := DecimalString(n);
      assert s[..|s| - 1] == DecimalString(n / 10);
      DecimalRoundTrip(n / 10);
    }
  }

  /** A token the lexer can produce: variable indices stop at 25. */
  predicate Producible(t: Token) {
    t.ID? ==> t.index < 26
  }

  /** The canonical spelling of a token: keywords in lower case, a variable as its
      letter, a number in decimal. */
  function Spelling(t: Token): (s: string)
    requires Producible(t)
    ensures |s| > 0
  {
    match t
    case NUM(n) => DecimalString(n)
    case ID(i) => ['a' + i as char]
    case IF => "if"
    case ELSE => "else"
    case WHILE => "while"
    case DO => "do"
    case LBRA => "{"
    case RBRA => "}"
    case LPAR => "("
    case RPAR => ")"
    case PLUS => "+"
    case MINUS => "-"
    case LESS => "<"
    case EQUAL => "="
    case SEMICOLON => ";"
    case EOF => [Sentinel]
  }

  /** A position where a word or number that ended just before it cannot go on. */
  predicate Separated(text: string, e: nat) {
    e >= |text| || (!IsDigit(text[e]) && !IsAlpha(text[e]))
  }

  /** Scanning a token's spelling, after any whitespace and before a separator, gives
      back the token; the cursor lands just after the spelling (on the sentinel for
      EOF). */
  lemma ScanSpelling(t: Token, text: string, p: nat, q: nat)
    requires Producible(t)
    requires p <= q && q + |Spelling(t)| <= |text|
    requires forall k | p <= k < q :: IsSpace(text[k])
    requires text[q..q + |Spelling(t)|] == Spelling(t)
    requires Separated(text, q + |Spelling(t)|)
    ensures Scan(text, p) == Ok(Cursor(t, if t == EOF then q else q + |Spelling(t)|))
  {
    ScanSkipsSpaces(text, p, q);
    ScanSpelledToken(t, text, q);
  }

  /** The same, with no whitespace before the spelling. */
  lemma ScanSpelledToken(t: Token, text: string, q: nat)
    requires Producible(t)
    requires q + |Spelling(t)| <= |text|
    requires text[q..q + |Spelling(t)|] == Spelling(t)
    requires Separated(text, q + |Spelling(t)|)
    ensures Scan(text, q) == Ok(Cursor(t, if t == EOF then q else q + |Spelling(t)|))
  {
    if t.NUM? {
      ScanDecimalString(t.value, text, q);
    } else if t.ID? {
      ScanSpelledLetter(t, text, q);
    } else if t in {IF, ELSE, WHILE, DO} {
      ScanSpelledKeyword(t, text, q);
    } else if t == EOF {
      assert text[q] == Sentinel by { assert text[q..q + 1][0] == text[q]; }
      ScanSentinel(text, q);
    } else {
      assert text[q] == Spelling(t)[0] by { assert text[q..q + 1][0] == text[q]; }
      ScanSpelledSymbol(t, text, q);
    }
  }

  /** The sentinel yields EOF without advancing. */
  lemma ScanSentinel(text: string, q: nat)
    requires q < |text| && text[q] == Sentinel
    ensures Scan(text, q) == Ok(Cursor(EOF, q))
  {
  }

  lemma ScanSpelledLetter(t: Token, text: string, q: nat)
    requires t.ID? && t.index < 26
    requires q + 1 <= |text| && text[q..q + 1] == Spelling(t)
    requires Separated(text, q + 1)
    ensures Scan(text, q) == Ok(Cursor(t, q + 1))
  {
    ScanLowerWord(Spelling(t), text, q);
  }

  lemma ScanSpelledKeyword(t: Token, text: string, q: nat)
    requires t in {IF, ELSE, WHILE, DO}
    requires q + |Spelling(t)| <= |text| && text[q..q + |Spelling(t)|] == Spelling(t)
    requires Separated(text, q + |Spelling(t)|)
    ensures Scan(text, q) == Ok(Cursor(t, q + |Spelling(t)|))
  {
    var w := Spelling(t);
    assert w in Words && Words[w] == t;
    assert forall k | 0 <= k < |w| :: 'a' <= w[k] <= 'z';
    ScanLowerWord(w, text, q);
  }

  lemma ScanSpelledSymbol(t: Token, text: string, q: nat)
    requires t in {LBRA, RBRA, LPAR, RPAR, PLUS, MINUS, LESS, EQUAL, SEMICOLON}
    requires q < |text| && text[q] == Spelling(t)[0]
    ensures Scan(text, q) == Ok(Cursor(t, q + 1))
  {
    ScanSymbol(text, q);
  }

  lemma ScanDecimalString(n: nat, text: string, q: nat)
    requires q + |DecimalString(n)| <= |text|
    requires text[q..q + |DecimalString(n)|] == DecimalString(n)
    requires Separated(text, q + |DecimalString(n)|)
    ensures Scan(text, q) == Ok(Cursor(NUM(n), q + |DecimalString(n)|))
  {
    var s := DecimalString(n);
    var e := q + |s|;
    forall k | q <= k < e ensures IsDigit(text[k]) {
      assert text[q..e][k - q] == s[k - q];
    }
    ScanNumber(text, q, e);
    DecimalRoundTrip(n);
  }

  lemma ScanLowerWord(w: string, text: string, q: nat)
    requires |w| > 0 && forall k | 0 <= k < |w| :: 'a' <= w[k] <= 'z'
    requires q + |w| <= |text| && text[q..q + |w|] == w
    requires Separated(text, q + |w|)
    ensures LowerWord(text[q..q + |w|]) == w
    ensures w in Words ==> Scan(text, q) == Ok(Cursor(Words[w], q + |w|))
    ensures |w| == 1 ==> Scan(text, q) == Ok(Cursor(ID(w[0] as int - 'a' as int), q + 1))
  {
    var e := q + |w|;
    assert text[q] == w[0] by { assert text[q..e][0] == w[0]; }
    if |w| == 1 {
      assert w !in Words;
    }
    forall k | q <= k < e ensures IsAlpha(text[k]) {
      assert text[q..e][k - q] == w[k - q];
    }
    assert LowerWord(text[q..e]) == w;
    ScanWord(text, q, e);
  }

  /** The lexer object: the text, the current character and the current token. */
  class Lexer {
    const text: string
    var pos: nat
    var tok: Token

    ghost predicate Valid()
      reads this
    {
      pos <= |text|
    }

    function Cur(): Cursor
      reads this
    {
      Cursor(tok, pos)
    }

    /** A lexer over `input`, its current character the space the source starts with.
        No token has been scanned yet; the placeholder EOF is never read before the
        first NextTok. */
    constructor (input: string)
      ensures text == [' '] + input && pos == 0 && Valid()
    {
      text := [' '] + input;
      pos := 0;
      tok := EOF;
    }

    /** Scans the next token into `tok`, or reports the lexical error.  The loop
        skips whitespace; the branches that end it are `ReadToken`. */
    method NextTok() returns (r: Outcome)
      requires Valid()
      modifies this
      ensures Valid()
      ensures r.Pass? <==> Scan(text, old(pos)).Ok?
      ensures r.Pass? ==> Cur() == Scan(text, old(pos)).value
      ensures r.Fail? ==> r.error == Scan(text, old(pos)).error
    {
      var sym: Option<Token> := None;
      while sym.None?
        invariant old(pos) <= pos <= |text|
        invariant sym.None? ==> Scan(text, pos) == Scan(text, old(pos))
        invariant sym.Some? ==> Scan(text, old(pos)) == Ok(Cursor(sym.value, pos))
        decreases |text| - pos, if sym.None? then 1 else 0
      {
        if pos < |text| && text[pos] != Sentinel && IsSpace(text[pos]) {
          ScanSkipsSpaces(text, pos, pos + 1);
          pos := pos + 1;
        } else {
          var t := ReadToken();
          if t.Err? {
            return Fail(t.error);
          }
          sym := Some(t.value);
        }
      }
      tok := sym.value;
      r := Pass;
    }

    /** One pass of the loop of `next_tok` at a character that is not whitespace: the
        sentinel, a symbol, a number or a word ends the loop with a token; anything
        else is a lexical error. */
    method ReadToken() returns (r: Result<Token>)
      requires Valid() && (pos < |text| ==> text[pos] == Sentinel || !IsSpace(text[pos]))
      modifies this`pos
      ensures Valid()
      ensures r.Ok? ==> Scan(text, old(pos)) == Ok(Cursor(r.value, pos))
      ensures r.Err? ==> Scan(text, old(pos)) == Err(r.error)
    {
      if pos == |text| {
        return Err(UnknownChar(""));
      }
      var ch := text[pos];
      if ch == Sentinel {
        r := Ok(EOF);
      } else if ch in Symbols {
        r := Ok(Symbols[ch]);
        pos := pos + 1;
      } else if IsDigit(ch) {
        var intval := ReadNumber();
        r := Ok(NUM(intval));
      } else if IsAlpha(ch) {
        var ident := ReadWord();
        if ident in Words {
          r := Ok(Words[ident]);
        } else if |ident| == 1 {
          r := Ok(ID(ident[0] as int - 'a' as int));
        } else {
          r := Err(UnknownWord(ident));
        }
      } else {
        r := Err(UnknownChar([ch]));
      }
    }

    /** The digit loop of `next_tok`: consumes the maximal digit run at the current
        character and accumulates its value. */
    method ReadNumber() returns (intval: nat)
      requires Valid()
      modifies this`pos
      ensures Valid()
      ensures pos == RunEnd(text, old(pos), IsDigit)
      ensures intval == DecimalValue(text[old(pos)..pos])
    {
      intval := 0;
      while pos < |text| && IsDigit(text[pos])
        invariant old(pos) <= pos <= |text|
        invariant forall k | old(pos) <= k < pos :: IsDigit(text[k])
        invariant intval == DecimalValue(text[old(pos)..pos])
        invariant RunEnd(text, pos, IsDigit) == RunEnd(text, old(pos), IsDigit)
        decreases |text| - pos
      {
        DecimalStep(text, old(pos), pos);
        intval := intval * 10 + DigitValue(text[pos]);
        pos := pos + 1;
      }
    }

    /** The letter loop of `next_tok`: consumes the maximal letter run at the current
        character and collects it lower-cased. */
    method ReadWord() returns (ident: string)
      requires Valid()
      modifies this`pos
      ensures Valid()
      ensures pos == RunEnd(text, old(pos), IsAlpha)
      ensures ident == LowerWord(text[old(pos)..pos])
    {
      ident := "";
      while pos < |text| && IsAlpha(text[pos])
        invariant old(pos) <= pos <= |text|
        invariant ident == LowerWord(text[old(pos)..pos])
        invariant RunEnd(text, pos, IsAlpha) == RunEnd(text, old(pos), IsAlpha)
        decreases |text| - pos
      {
        ident := ident + [Lower(text[pos])];
        pos := pos + 1;
      }
    }
  }
}
