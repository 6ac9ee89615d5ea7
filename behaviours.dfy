/**
 * Concrete inputs and what the model does with them: operator grouping,
 * optional semicolons, where a statement list stops, which token an error
 * carries, and how the scanner splits words, numbers and operators.
 */
module ParserBehaviours {
  import opened Wrappers
  import opened Tokens
  import opened Syntax
  import opened Grammar
  import opened Printer

  function N(n: nat): Expr { Number(n) }

  /** `1 - 2 - 3` folds to the left. */
  lemma MinusFoldsLeft()
    ensures PExpr([Tok(NUMBER, "1"), Tok(OP, "-"), Tok(NUMBER, "2"), Tok(OP, "-"), Tok(NUMBER, "3"), EofToken])
         == Parsed(BinaryOp("-", BinaryOp("-", N(1), N(2)), N(3)), [EofToken])
  {
    var e := BinaryOp("-", BinaryOp("-", N(1), N(2)), N(3));
    assert Digits(1) == "1";
    assert Digits(2) == "2";
    assert Digits(3) == "3";
    assert OpLevel("-") == 3;
    assert WellFormedExpr(e);
    assert PrintAt(N(1), 3) == [Tok(NUMBER, "1")];
    assert PrintAt(BinaryOp("-", N(1), N(2)), 3) == [Tok(NUMBER, "1"), Tok(OP, "-"), Tok(NUMBER, "2")];
    assert PrintExpr(e) == [Tok(NUMBER, "1"), Tok(OP, "-"), Tok(NUMBER, "2"), Tok(OP, "-"), Tok(NUMBER, "3")];
    ExprPrintParse(e, [EofToken]);
    assert PrintExpr(e) + [EofToken] == [Tok(NUMBER, "1"), Tok(OP, "-"), Tok(NUMBER, "2"), Tok(OP, "-"), Tok(NUMBER, "3"), EofToken];
  }

  /** `1 + 2 * 3`: the term tier binds tighter than the additive tier. */
  lemma TimesBindsTighter()
    ensures PExpr([Tok(NUMBER, "1"), Tok(OP, "+"), Tok(NUMBER, "2"), Tok(OP, "*"), Tok(NUMBER, "3"), EofToken])
         == Parsed(BinaryOp("+", N(1), BinaryOp("*", N(2), N(3))), [EofToken])
  {
    var e := BinaryOp("+", N(1), BinaryOp("*", N(2), N(3)));
    assert Digits(1) == "1" && Digits(2) == "2" && Digits(3) == "3";
    assert OpLevel("+") == 3 && OpLevel("*") == 4;
    assert PrintAt(BinaryOp("*", N(2), N(3)), 4) == [Tok(NUMBER, "2"), Tok(OP, "*"), Tok(NUMBER, "3")];
    assert PrintExpr(e) == [Tok(NUMBER, "1"), Tok(OP, "+"), Tok(NUMBER, "2"), Tok(OP, "*"), Tok(NUMBER, "3")];
    ExprPrintParse(e, [EofToken]);
    assert PrintExpr(e) + [EofToken] == [Tok(NUMBER, "1"), Tok(OP, "+"), Tok(NUMBER, "2"), Tok(OP, "*"), Tok(NUMBER, "3"), EofToken];
  }

  /** `1 - (2 - 3)`: parentheses group to the right and leave no node of their own. */
  lemma ParenthesesLeaveNoNode()
    ensures PExpr([Tok(NUMBER, "1"), Tok(OP, "-"), Tok(LPAREN, "("), Tok(NUMBER, "2"), Tok(OP, "-"),
                   Tok(NUMBER, "3"), Tok(RPAREN, ")"), EofToken])
         == Parsed(BinaryOp("-", N(1), BinaryOp("-", N(2), N(3))), [EofToken])
  {
    var e := BinaryOp("-", N(1), BinaryOp("-", N(2), N(3)));
    var inner := [Tok(NUMBER, "2"), Tok(OP, "-"), Tok(NUMBER, "3")];
    assert Digits(1) == "1" && Digits(2) == "2" && Digits(3) == "3";
    assert OpLevel("-") == 3;
    assert PrintAt(BinaryOp("-", N(2), N(3)), 1) == inner;
    assert PrintAt(BinaryOp("-", N(2), N(3)), 4) == [Tok(LPAREN, "(")] + inner + [Tok(RPAREN, ")")];
    assert PrintExpr(e) == [Tok(NUMBER, "1"), Tok(OP, "-"), Tok(LPAREN, "(")] + inner + [Tok(RPAREN, ")")];
    ExprPrintParse(e, [EofToken]);
    assert PrintExpr(e) + [EofToken] == [Tok(NUMBER, "1"), Tok(OP, "-"), Tok(LPAREN, "("), Tok(NUMBER, "2"), Tok(OP, "-"),
                                         Tok(NUMBER, "3"), Tok(RPAREN, ")"), EofToken];
  }

  /** `x := 1 y := 2`: the `;` between statements is optional. */
  lemma SemicolonIsOptional(x: string, y: string, ts: seq<Token>)
    requires ts == [Tok(IDENT, x), Tok(ASSIGN, ":="), Tok(NUMBER, "1"),
                    Tok(IDENT, y), Tok(ASSIGN, ":="), Tok(NUMBER, "2")]
    ensures TokensToProgram(ts) == Ok(Program([Assign(x, N(1)), Assign(y, N(2))]))
  {
    var x1, y2 := Assign(x, N(1)), Assign(y, N(2));
    assert Digits(1) == "1" && Digits(2) == "2";
    assert PrintStmt(x1, false) == ts[..3];
    assert PrintStmt(y2, false) == ts[3..];
    assert [x1, y2][1..] == [y2] && [y2][1..] == [];
    assert PrintStmts([y2], false) == ts[3..];
    assert PrintProgram(Program([x1, y2]), false) == ts;
    ProgramRoundTrip(Program([x1, y2]), false);
  }

  /** A guard `x op n -> y := m` prints as its seven tokens. */
  lemma PrintedSimpleGuard(x: string, op: string, n: nat, y: string, m: nat)
    requires 1 <= OpLevel(op)
    ensures PrintGuard(Guard(BinaryOp(op, Ident(x), N(n)), [Assign(y, N(m))]), false)
         == [Tok(IDENT, x), Tok(OP, op), Tok(NUMBER, Digits(n)), Tok(ARROW, "->"),
             Tok(IDENT, y), Tok(ASSIGN, ":="), Tok(NUMBER, Digits(m))]
  {
    var cond := BinaryOp(op, Ident(x), N(n));
    assert !Bracketed(cond, 1);
    assert PrintAt(Ident(x), OpLevel(op)) == [Tok(IDENT, x)];
    assert PrintAt(N(n), OpLevel(op) + 1) == [Tok(NUMBER, Digits(n))];
    assert PrintExpr(cond) == [Tok(IDENT, x), Tok(OP, op), Tok(NUMBER, Digits(n))];
    assert [Assign(y, N(m))][1..] == [];
    assert PrintStmts([Assign(y, N(m))], false) == [Tok(IDENT, y), Tok(ASSIGN, ":="), Tok(NUMBER, Digits(m))];
  }

  /** A guard `x op n -> y := m` is well formed. */
  lemma SimpleGuardWellFormed(x: string, op: string, n: nat, y: string, m: nat)
    requires 1 <= OpLevel(op)
    ensures WellFormedGuards([Guard(BinaryOp(op, Ident(x), N(n)), [Assign(y, N(m))])])
  {
    assert WellFormedStmts([Assign(y, N(m))]);
  }

  function TwoGuardIf(x: string, y: string): Program {
    Program([If([Guard(BinaryOp(">", Ident(x), N(0)), [Assign(y, N(1))]),
                 Guard(BinaryOp("<=", Ident(x), N(0)), [Assign(y, N(0))])])])
  }

  lemma TwoGuardIfWellFormed(x: string, y: string)
    ensures WellFormedStmts(TwoGuardIf(x, y).body)
  {
    var g1 := Guard(BinaryOp(">", Ident(x), N(0)), [Assign(y, N(1))]);
    var g2 := Guard(BinaryOp("<=", Ident(x), N(0)), [Assign(y, N(0))]);
    assert WellFormedStmts(g1.body) && WellFormedStmts(g2.body);
    assert WellFormedGuards([g1, g2]);
  }

  lemma TwoGuardIfPrinted(x: string, y: string)
    ensures PrintProgram(TwoGuardIf(x, y), false) ==
      [Tok(KEYWORD, "if"), Tok(IDENT, x), Tok(OP, ">"), Tok(NUMBER, "0"), Tok(ARROW, "->"),
       Tok(IDENT, y), Tok(ASSIGN, ":="), Tok(NUMBER, "1"), Tok(BAR, "|"),
       Tok(IDENT, x), Tok(OP, "<="), Tok(NUMBER, "0"), Tok(ARROW, "->"),
       Tok(IDENT, y), Tok(ASSIGN, ":="), Tok(NUMBER, "0"), Tok(KEYWORD, "fi")]
  {
    var gs := TwoGuardIf(x, y).body[0].guards;
    var body := [Tok(KEYWORD, "if")] + PrintGuards(gs, false) + [Tok(KEYWORD, "fi")];
    assert PrintStmt(If(gs), false) == body;
    assert [If(gs)][1..] == [];
    assert PrintStmts([If(gs)], false) == body;
    TwoGuardsPrinted(x, y);
  }

  /** The guard list of `TwoGuardIf` prints as its fifteen tokens. */
  lemma TwoGuardsPrinted(x: string, y: string)
    ensures PrintGuards(TwoGuardIf(x, y).body[0].guards, false) ==
      [Tok(IDENT, x), Tok(OP, ">"), Tok(NUMBER, "0"), Tok(ARROW, "->"),
       Tok(IDENT, y), Tok(ASSIGN, ":="), Tok(NUMBER, "1"), Tok(BAR, "|"),
       Tok(IDENT, x), Tok(OP, "<="), Tok(NUMBER, "0"), Tok(ARROW, "->"),
       Tok(IDENT, y), Tok(ASSIGN, ":="), Tok(NUMBER, "0")]
  {
    var g1 := Guard(BinaryOp(">", Ident(x), N(0)), [Assign(y, N(1))]);
    var g2 := Guard(BinaryOp("<=", Ident(x), N(0)), [Assign(y, N(0))]);
    assert TwoGuardIf(x, y).body[0].guards == [g1, g2];
    assert Digits(0) == "0" && Digits(1) == "1";
    PrintedSimpleGuard(x, ">", 0, y, 1);
    PrintedSimpleGuard(x, "<=", 0, y, 0);
    assert [g1, g2][1..] == [g2] && [g2][1..] == [];
    assert PrintMoreGuards([g2], false) == [Tok(BAR, "|")] + PrintGuard(g2, false);
  }

  /** `if x > 0 -> y := 1 | x <= 0 -> y := 0 fi`: an `if` with two one-statement guards. */
  lemma IfWithTwoGuards(x: string, y: string, ts: seq<Token>)
    requires ts == [Tok(KEYWORD, "if"), Tok(IDENT, x), Tok(OP, ">"), Tok(NUMBER, "0"), Tok(ARROW, "->"),
                    Tok(IDENT, y), Tok(ASSIGN, ":="), Tok(NUMBER, "1"), Tok(BAR, "|"),
                    Tok(IDENT, x), Tok(OP, "<="), Tok(NUMBER, "0"), Tok(ARROW, "->"),
                    Tok(IDENT, y), Tok(ASSIGN, ":="), Tok(NUMBER, "0"), Tok(KEYWORD, "fi")]
    ensures TokensToProgram(ts) == Ok(TwoGuardIf(x, y))
  {
    TwoGuardIfPrinted(x, y);
    TwoGuardIfWellFormed(x, y);
    ProgramRoundTrip(TwoGuardIf(x, y), false);
  }

  /** The program rule on the tokens of `TrailingTokensIgnored` and the sentinel. */
  lemma StopsAtStrayParenthesis(x: string, y: string, ts: seq<Token>)
    requires ts == [Tok(IDENT, x), Tok(ASSIGN, ":="), Tok(NUMBER, "1"), Tok(RPAREN, ")"), Tok(IDENT, y), EofToken]
    ensures PProgram(ts) == Parsed(Program([Assign(x, N(1))]), ts[3..])
  {
    assert Digits(1) == "1" && [Assign(x, N(1))][1..] == [];
    assert PrintStmts([Assign(x, N(1))], false) == ts[..3];
    assert WellFormedStmts([Assign(x, N(1))]);
    StmtsRoundTrip([Assign(x, N(1))], false, ts[3..]);
    assert ts == ts[..3] + ts[3..];
  }

  /** `x := 1 ) y`: the program ends at the `)` and the rest is never looked at. */
  lemma TrailingTokensIgnored(x: string, y: string, ts: seq<Token>)
    requires ts == [Tok(IDENT, x), Tok(ASSIGN, ":="), Tok(NUMBER, "1"), Tok(RPAREN, ")"), Tok(IDENT, y)]
    ensures TokensToProgram(ts) == Ok(Program([Assign(x, N(1))]))
  {
    StopsAtStrayParenthesis(x, y, ts + [EofToken]);
    assert FirstErrorAt(ts) == |ts|;
    GrammarSuccessIsReported(ts, Program([Assign(x, N(1))]), (ts + [EofToken])[3..]);
  }

  /** The program rule on the tokens of `DoubledSemicolonEndsProgram` and the sentinel. */
  lemma StopsAtSecondSemicolon(x: string, y: string, ts: seq<Token>)
    requires ts == [Tok(IDENT, x), Tok(ASSIGN, ":="), Tok(NUMBER, "1"), Tok(SEMI, ";"), Tok(SEMI, ";"),
                    Tok(IDENT, y), Tok(ASSIGN, ":="), Tok(NUMBER, "2"), EofToken]
    ensures PProgram(ts) == Parsed(Program([Assign(x, N(1))]), ts[4..])
  {
    assert Digits(1) == "1" && [Assign(x, N(1))][1..] == [];
    assert PrintStmts([Assign(x, N(1))], true) == ts[..4];
    assert WellFormedStmts([Assign(x, N(1))]);
    StmtsRoundTrip([Assign(x, N(1))], true, ts[4..]);
    assert ts == ts[..4] + ts[4..];
  }

  /**
   * `x := 1 ; ; y := 2`: the list takes one `;` after a statement, and a
   * second `;` cannot start a statement, so the program ends there.
   */
  lemma DoubledSemicolonEndsProgram(x: string, y: string, ts: seq<Token>)
    requires ts == [Tok(IDENT, x), Tok(ASSIGN, ":="), Tok(NUMBER, "1"), Tok(SEMI, ";"), Tok(SEMI, ";"),
                    Tok(IDENT, y), Tok(ASSIGN, ":="), Tok(NUMBER, "2")]
    ensures TokensToProgram(ts) == Ok(Program([Assign(x, N(1))]))
  {
    var all := ts + [EofToken];
    StopsAtSecondSemicolon(x, y, all);
    assert NoErrors(ts);
    NoErrorsHasNoFirstError(ts);
    GrammarSuccessIsReported(ts, Program([Assign(x, N(1))]), all[4..]);
  }

  /** `123`: a number cannot start a statement, so the program is empty. */
  lemma NumberAloneIsEmptyProgram(ts: seq<Token>)
    requires ts == [Tok(NUMBER, "123")]
    ensures TokensToProgram(ts) == Ok(Program([]))
  {
    assert FirstErrorAt(ts) == 1;
    ErrorTokensStartAtFirst(ts);
  }

  /** The guard of `MissingFi`, printed and parsed back. */
  lemma SimpleGuardList(x: string, y: string, ts: seq<Token>)
    requires ts == [Tok(IDENT, x), Tok(OP, ">"), Tok(NUMBER, "0"), Tok(ARROW, "->"),
                    Tok(IDENT, y), Tok(ASSIGN, ":="), Tok(NUMBER, "1"), EofToken]
    ensures PGuardList(ts) == Parsed([Guard(BinaryOp(">", Ident(x), N(0)), [Assign(y, N(1))])], [EofToken])
  {
    var g := Guard(BinaryOp(">", Ident(x), N(0)), [Assign(y, N(1))]);
    assert Digits(0) == "0" && Digits(1) == "1";
    PrintedSimpleGuard(x, ">", 0, y, 1);
    SimpleGuardWellFormed(x, ">", 0, y, 1);
    assert [g][1..] == [];
    assert PrintGuards([g], false) + [EofToken] == ts;
    GuardsRoundTrip([g], false, [EofToken]);
  }

  /** The program rule on the tokens of `MissingFi` and the sentinel. */
  lemma UnclosedSimpleIf(x: string, y: string, ts: seq<Token>)
    requires ts == [Tok(KEYWORD, "if"), Tok(IDENT, x), Tok(OP, ">"), Tok(NUMBER, "0"), Tok(ARROW, "->"),
                    Tok(IDENT, y), Tok(ASSIGN, ":="), Tok(NUMBER, "1"), EofToken]
    ensures PProgram(ts) == Failed(ParseError(ExpectedFi, EofToken))
  {
    var g := Guard(BinaryOp(">", Ident(x), N(0)), [Assign(y, N(1))]);
    SimpleGuardList(x, y, ts[1..]);
    UnclosedIf(ts, [g], [EofToken]);
  }

  /** `if x > 0 -> y := 1` without `fi`: the error carries the EOF sentinel. */
  lemma MissingFi(x: string, y: string, ts: seq<Token>)
    requires ts == [Tok(KEYWORD, "if"), Tok(IDENT, x), Tok(OP, ">"), Tok(NUMBER, "0"), Tok(ARROW, "->"),
                    Tok(IDENT, y), Tok(ASSIGN, ":="), Tok(NUMBER, "1")]
    ensures TokensToProgram(ts) == Err(ParseError(ExpectedFi, EofToken))
  {
    UnclosedSimpleIf(x, y, ts + [EofToken]);
    assert FirstErrorAt(ts) == |ts|;
    GrammarFailureIsReported(ts, ParseError(ExpectedFi, EofToken));
  }

  /** The program rule on the tokens of `MissingCloseParen` and the sentinel. */
  lemma UnclosedParenthesis(x: string, ts: seq<Token>)
    requires ts == [Tok(IDENT, x), Tok(ASSIGN, ":="), Tok(LPAREN, "("), Tok(NUMBER, "1"), EofToken]
    ensures PProgram(ts) == Failed(ParseError(MissingRParen, EofToken))
  {
    var factor := ts[2..];
    assert Digits(1) == "1";
    ExprPrintParse(N(1), [EofToken]);
    assert PrintExpr(N(1)) + [EofToken] == factor[1..];
    assert PFactor(factor) == Failed(ParseError(MissingRParen, EofToken));
    FactorFailureIsExprFailure(factor);
    assert ts[1..][1..] == factor;
    assert PAssignment(ts) == Failed(ParseError(MissingRParen, EofToken));
    assert PStmtList(ts) == Failed(ParseError(MissingRParen, EofToken));
  }

  /** `x := (1`: the missing `)` is reported with the token found instead. */
  lemma MissingCloseParen(x: string, ts: seq<Token>)
    requires ts == [Tok(IDENT, x), Tok(ASSIGN, ":="), Tok(LPAREN, "("), Tok(NUMBER, "1")]
    ensures TokensToProgram(ts) == Err(ParseError(MissingRParen, EofToken))
  {
    UnclosedParenthesis(x, ts + [EofToken]);
    assert FirstErrorAt(ts) == |ts|;
    GrammarFailureIsReported(ts, ParseError(MissingRParen, EofToken));
  }

  /** `x := 1 @ 2`: the ERROR token is reported before any grammar rule runs. */
  lemma LexicalErrorWins(x: string, ts: seq<Token>)
    requires ts == [Tok(IDENT, x), Tok(ASSIGN, ":="), Tok(NUMBER, "1"), Token(ERROR, "@", 1, 8, 7), Tok(NUMBER, "2")]
    ensures TokensToProgram(ts) == Err(ParseError(LexicalErrors, Token(ERROR, "@", 1, 8, 7)))
  {
    assert ts[0].kind != ERROR && ts[1].kind != ERROR && ts[2].kind != ERROR && ts[3].kind == ERROR;
    assert FirstErrorAt(ts) == 3;
    LexicalErrorsComeFirst(ts);
  }
}
