/**
 * The parser object: a token list and a cursor `pos` that `Consume`
 * advances. Each `Parse<Rule>` method is proved to do what the grammar
 * function of the same rule says of the tokens that were unread when it
 * was called.
 */
module Parsing {
  import opened Wrappers
  import opened Tokens
  import opened Syntax
  import opened Grammar

  class Parser {
    const tokens: seq<Token>
    var pos: nat

    constructor (tokens: seq<Token>)
      ensures this.tokens == tokens && pos == 0
    {
      this.tokens := tokens;
      pos := 0;
    }

    /** The tokens from the cursor on; none once the cursor is past the end. */
    function Rest(): seq<Token>
      reads this
    {
      if pos <= |tokens| then tokens[pos..] else []
    }

    /**
     * A method's result and the new cursor agree with a grammar outcome:
     * the same node with the cursor at the unread rest, or the same error.
     */
    ghost predicate Agrees<T>(r: Result<T>, o: Outcome<T>)
      reads this
    {
      match o
      case Parsed(node, rest) => r == Ok(node) && Rest() == rest
      case Failed(e) => r == Err(e)
    }

    /** `peek`: the token at the cursor, or the EOF sentinel past the end. */
    method Peek() returns (tok: Token)
      ensures pos < |tokens| ==> tok == tokens[pos]
      ensures pos >= |tokens| ==> tok == EofToken
      ensures tok == Grammar.Peek(Rest())
    {
      if pos < |tokens| {
        tok := tokens[pos];
      } else {
        tok := EofToken;
      }
    }

    /**
     * `consume`: on a type or value mismatch the error carries the current
     * token and the cursor stays; otherwise the current token is returned
     * and the cursor moves on by exactly one.
     */
    method Consume(expectedType: Option<Kind>, expectedValue: string) returns (r: Result<Token>)
      modifies this`pos
      ensures Agrees(r, Grammar.Consume(old(Rest()), expectedType, expectedValue))
      ensures r.Err? ==> pos == old(pos) && r.error.token == Grammar.Peek(old(Rest()))
      ensures r.Ok? ==> pos == old(pos) + 1 && r.value == Grammar.Peek(old(Rest()))
    {
      var tok := Peek();
      if expectedType.Some? && tok.kind != expectedType.value {
        return Err(ParseError(ExpectedType(expectedType.value), tok));
      }
      if expectedValue != "" && tok.value != expectedValue {
        return Err(ParseError(ExpectedValue(expectedValue), tok));
      }
      pos := pos + 1;
      return Ok(tok);
    }

    /** `parse_program`. */
    method ParseProgram() returns (r: Result<Program>)
      modifies this`pos
      ensures Agrees(r, PProgram(old(Rest())))
    {
      var body := ParseStmtList();
      if body.Err? {
        return Err(body.error);
      }
      return Ok(Program(body.value));
    }

    /** `parse_stmt_list`. */
    method ParseStmtList() returns (r: Result<seq<Stmt>>)
      modifies this`pos
      ensures Agrees(r, PStmtList(old(Rest())))
      decreases |Rest()|, 4
    {
      ghost var start := Rest();
      var stmts: seq<Stmt> := [];
      PrependNothing(PStmtList(start));
      while true
        invariant |Rest()| <= |start|
        invariant PStmtList(start) == Prepend(stmts, PStmtList(Rest()))
        decreases |Rest()|
      {
        var tok := Peek();
        if tok.kind == EOF {
          break;
        }
        if tok.kind == KEYWORD && (tok.value == "fi" || tok.value == "od") {
          break;
        }
        if !(tok.kind == KEYWORD || tok.kind == IDENT) {
          break;
        }
        ghost var before := Rest();
        var stmt := ParseStmt();
        if stmt.Err? {
          StmtListFails(before);
          return Err(stmt.error);
        }
        ghost var after := Rest();
        ghost var done := stmts;
        stmts := stmts + [stmt.value];
        var next := Peek();
        if next.kind == SEMI {
          var _ := Consume(Some(SEMI), "");
        }
        StmtListStep(before, stmt.value, after, Rest());
        PrependTwice(done, stmt.value, PStmtList(Rest()));
      }
      assert stmts + [] == stmts;
      return Ok(stmts);
    }

    /** `parse_stmt`. */
    method ParseStmt() returns (r: Result<Stmt>)
      modifies this`pos
      ensures Agrees(r, PStmt(old(Rest())))
      decreases |Rest()|, 3
    {
      var tok := Peek();
      if tok.kind == KEYWORD && tok.value == "if" {
        r := ParseIf();
      } else if tok.kind == KEYWORD && tok.value == "do" {
        r := ParseDo();
      } else if tok.kind == IDENT {
        r := ParseAssignment();
      } else {
        r := Err(ParseError(UnexpectedStatement, tok));
      }
    }

    /** `parse_if`. */
    method ParseIf() returns (r: Result<Stmt>)
      modifies this`pos
      ensures Agrees(r, PIf(old(Rest())))
      decreases |Rest()|, 2
    {
      var kw := Consume(Some(KEYWORD), "if");
      if kw.Err? {
        return Err(kw.error);
      }
      var guards := ParseGuardList();
      if guards.Err? {
        return Err(guards.error);
      }
      var tok := Peek();
      if tok.kind == KEYWORD && tok.value == "fi" {
        var _ := Consume(Some(KEYWORD), "fi");
        return Ok(If(guards.value));
      }
      return Err(ParseError(ExpectedFi, tok));
    }

    /** `parse_do`. */
    method ParseDo() returns (r: Result<Stmt>)
      modifies this`pos
      ensures Agrees(r, PDo(old(Rest())))
      decreases |Rest()|, 2
    {
      var kw := Consume(Some(KEYWORD), "do");
      if kw.Err? {
        return Err(kw.error);
      }
      var guards := ParseGuardList();
      if guards.Err? {
        return Err(guards.error);
      }
      var tok := Peek();
      if tok.kind == KEYWORD && tok.value == "od" {
        var _ := Consume(Some(KEYWORD), "od");
        return Ok(Do(guards.value));
      }
      return Err(ParseError(ExpectedOd, tok));
    }

    /** `parse_guard_list`. */
    method ParseGuardList() returns (r: Result<seq<Guard>>)
      modifies this`pos
      ensures Agrees(r, PGuardList(old(Rest())))
      decreases |Rest()|, 1
    {
      ghost var start := Rest();
      var first := ParseGuard();
      if first.Err? {
        return Err(first.error);
      }
      var guards := [first.value];
      GuardListStep(start, first.value, Rest());
      while true
        invariant |Rest()| < |start|
        invariant PGuardList(start) == Prepend(guards, PGuardsAfterBar(Rest()))
        decreases |Rest()|
      {
        var tok := Peek();
        if tok.kind != BAR {
          break;
        }
        ghost var before := Rest();
        var _ := Consume(Some(BAR), "");
        var g := ParseGuard();
        if g.Err? {
          return Err(g.error);
        }
        ghost var done := guards;
        guards := guards + [g.value];
        GuardsAfterBarStep(before, g.value, Rest());
        PrependTwice(done, g.value, PGuardsAfterBar(Rest()));
      }
      assert guards + [] == guards;
      return Ok(guards);
    }

    /** `parse_guard`. */
    method ParseGuard() returns (r: Result<Guard>)
      modifies this`pos
      ensures Agrees(r, PGuard(old(Rest())))
      decreases |Rest()|, 0
    {
      var cond := ParseExpr();
      if cond.Err? {
        return Err(cond.error);
      }
      var tok := Peek();
      if tok.kind == ARROW {
        var _ := Consume(Some(ARROW), "");
      } else {
        return Err(ParseError(ExpectedArrow, tok));
      }
      var body := ParseStmtList();
      if body.Err? {
        return Err(body.error);
      }
      return Ok(Guard(cond.value, body.value));
    }

    /** `parse_assignment`. */
    method ParseAssignment() returns (r: Result<Stmt>)
      modifies this`pos
      ensures Agrees(r, PAssignment(old(Rest())))
      decreases |Rest()|, 2
    {
      var ident := Consume(Some(IDENT), "");
      if ident.Err? {
        return Err(ident.error);
      }
      var tok := Peek();
      if tok.kind == ASSIGN {
        var _ := Consume(Some(ASSIGN), "");
      } else {
        return Err(ParseError(ExpectedAssign, tok));
      }
      var e := ParseExpr();
      if e.Err? {
        return Err(e.error);
      }
      return Ok(Assign(ident.value.value, e.value));
    }

    /** `parse_expr`. */
    method ParseExpr() returns (r: Result<Expr>)
      modifies this`pos
      ensures Agrees(r, PExpr(old(Rest())))
      decreases |Rest()|, 10
    {
      r := ParseTier(1);
    }

    /**
     * The binary tier `level` (1 `parse_equality`, 2 `parse_relational`,
     * 3 `parse_additive`, 4 `parse_term`): an operand, then a loop that
     * folds each further operator and operand into `left`.
     */
    method ParseTier(level: nat) returns (r: Result<Expr>)
      requires 1 <= level <= 4
      modifies this`pos
      ensures Agrees(r, PTier(old(Rest()), level))
      decreases |Rest()|, 2 * (5 - level) + 1
    {
      ghost var start := Rest();
      var first: Result<Expr>;
      if level == 4 {
        first := ParseFactor();
      } else {
        first := ParseTier(level + 1);
      }
      if first.Err? {
        return Err(first.error);
      }
      var left := first.value;
      while true
        invariant |Rest()| < |start|
        invariant PTier(start, level) == PTierTail(level, left, Rest())
        decreases |Rest()|
      {
        var tok := Peek();
        if !(tok.kind == OP && OpLevel(tok.value) == level) {
          break;
        }
        var op := Consume(Some(OP), "");
        var right: Result<Expr>;
        if level == 4 {
          right := ParseFactor();
        } else {
          right := ParseTier(level + 1);
        }
        if right.Err? {
          return Err(right.error);
        }
        left := BinaryOp(op.value.value, left, right.value);
      }
      return Ok(left);
    }

    /** `parse_factor`. */
    method ParseFactor() returns (r: Result<Expr>)
      modifies this`pos
      ensures Agrees(r, PFactor(old(Rest())))
      decreases |Rest()|, 0
    {
      var tok := Peek();
      if tok.kind == NUMBER {
        var _ := Consume(Some(NUMBER), "");
        if tok.value != [] && AllDigits(tok.value) {
          return Ok(Number(DigitsValue(tok.value)));
        }
        return Err(ParseError(InvalidNumber, tok));
      }
      if tok.kind == IDENT {
        var _ := Consume(Some(IDENT), "");
        return Ok(Ident(tok.value));
      }
      if tok.kind == LPAREN {
        var _ := Consume(Some(LPAREN), "");
        var e := ParseExpr();
        if e.Err? {
          return e;
        }
        var close := Peek();
        if close.kind != RPAREN {
          return Err(ParseError(MissingRParen, close));
        }
        var _ := Consume(Some(RPAREN), "");
        return e;
      }
      return Err(ParseError(UnexpectedFactor, tok));
    }
  }

  /**
   * `parse_tokens`: report the first ERROR token if there is one, else run
   * a fresh parser over the tokens with the EOF sentinel appended.
   */
  method ParseTokens(tokens: seq<Token>) returns (r: Result<Program>)
    ensures r == TokensToProgram(tokens)
  {
    var errors := ErrorTokens(tokens);
    if errors != [] {
      return Err(ParseError(LexicalErrors, errors[0]));
    }
    var parser := new Parser(tokens + [EofToken]);
    r := parser.ParseProgram();
  }
}
