/**
 * A printer from syntax trees back to token lists, used as the reference
 * the parser is checked against: printing a well-formed tree and parsing
 * the tokens gives the same tree back. An operand is put in parentheses
 * exactly when its operator binds more loosely than the tier it sits in,
 * and the right operand of a tier sits one tier tighter, so the round trip
 * pins down both the precedence of the tiers and their left-to-right
 * grouping.
 */
module Printer {
  import opened Tokens
  import opened Syntax
  import opened Grammar

  /** A token of the given kind and text; the parser does not read positions. */
  function Tok(kind: Kind, value: string): Token {
    Token(kind, value, 0, 0, 0)
  }

  /** The decimal spelling of `n`, without leading zeros, as a NUMBER token holds it. */
  function Digits(n: nat): (s: string)
    ensures |s| >= 1 && AllDigits(s)
  {
    var d := ['0' + (n % 10) as char];
    if n < 10 then d else Digits(n / 10) + d
  }

  /** Reading the printed numeral of `n` as `int` does gives `n` back. */
  lemma {:induction false} DigitsValueOfDigits(n: nat)
    ensures DigitsValue(Digits(n)) == n
  {
    var s := Digits(n);
    assert s[..|s| - 1] == if n < 10 then [] else Digits(n / 10);
    if n >= 10 {
      DigitsValueOfDigits(n / 10);
    }
  }

  /** No token of `ts` is an ERROR token. */
  predicate NoErrors(ts: seq<Token>) {
    forall i :: 0 <= i < |ts| ==> ts[i].kind != ERROR
  }

  lemma NoErrorsConcat(a: seq<Token>, b: seq<Token>)
    requires NoErrors(a) && NoErrors(b)
    ensures NoErrors(a + b)
  {
    forall i | 0 <= i < |a + b|
      ensures (a + b)[i].kind != ERROR
    {
      if i >= |a| {
        assert (a + b)[i] == b[i - |a|];
      }
    }
  }

  /** Whether `e` needs parentheses where an operand of tier `level` is expected. */
  predicate Bracketed(e: Expr, level: nat) {
    e.BinaryOp? && 1 <= OpLevel(e.op) < level
  }

  /**
   * `e` printed for the place of an operand of tier `level` (5 stands for a
   * factor): an operator node of tier k is printed as its left operand at
   * tier k, the operator, and its right operand at tier k + 1.
   */
  function PrintAt(e: Expr, level: nat): (ts: seq<Token>)
    ensures |ts| >= 1
    decreases e, if Bracketed(e, level) then 1 else 0
  {
    match e
    case Number(n) => [Tok(NUMBER, Digits(n))]
    case Ident(x) => [Tok(IDENT, x)]
    case BinaryOp(op, l, r) =>
      if Bracketed(e, level) then
        var inner := PrintAt(e, 1);
        [Tok(LPAREN, "(")] + inner + [Tok(RPAREN, ")")]
      else
        var k := OpLevel(op);
        var left := PrintAt(l, k);
        var right := PrintAt(r, k + 1);
        left + [Tok(OP, op)] + right
  }

  function PrintExpr(e: Expr): seq<Token> {
    PrintAt(e, 1)
  }

  /** The rule that parses an operand of tier `level`, 5 being `parse_factor`. */
  function PLevel(ts: seq<Token>, level: nat): Outcome<Expr>
    requires 1 <= level <= 5
  {
    if level == 5 then PFactor(ts) else PTier(ts, level)
  }

  /**
   * Parsing what `PrintAt` printed gives the tree back and stops in front of
   * whatever follows, as long as that is no operator the parse would
   * continue with.
   */
  lemma {:induction false} ExprRoundTrip(e: Expr, level: nat, t: seq<Token>)
    requires WellFormedExpr(e) && 1 <= level <= 5 && Stops(t, level)
    ensures PLevel(PrintAt(e, level) + t, level) == Parsed(e, t)
    decreases e, if Bracketed(e, level) then 1 else 0, 5 - level, 2
  {
    if level < 5 {
      TierPrefix(e, level, t);
    } else {
      match e
      case Number(n) =>
        DigitsValueOfDigits(n);
      case Ident(_) =>
      case BinaryOp(_, _, _) =>
        ParenthesisedRoundTrip(e, t);
    }
  }

  /** A parenthesised operator node parses back, through `parse_factor`, to the node itself. */
  lemma {:induction false} ParenthesisedRoundTrip(e: Expr, t: seq<Token>)
    requires WellFormedExpr(e) && e.BinaryOp?
    ensures PFactor(PrintAt(e, 5) + t) == Parsed(e, t)
    decreases e, 1, 0, 0
  {
    var close := [Tok(RPAREN, ")")] + t;
    var inner := PrintAt(e, 1);
    ExprRoundTrip(e, 1, close);
    assert PrintAt(e, 5) == [Tok(LPAREN, "(")] + inner + [Tok(RPAREN, ")")];
    var ts := PrintAt(e, 5) + t;
    assert ts == [Tok(LPAREN, "(")] + (inner + close);
    assert Advance(ts) == inner + close;
    assert PExpr(inner + close) == Parsed(e, close);
    assert Advance(close) == t;
  }

  /**
   * Tier `level` reads the printed `e` as one run of its loop and carries on
   * with its loop after it.
   */
  lemma {:induction false} TierPrefix(e: Expr, level: nat, u: seq<Token>)
    requires WellFormedExpr(e) && 1 <= level <= 4 && Stops(u, level + 1)
    ensures PTier(PrintAt(e, level) + u, level) == PTierTail(level, e, u)
    decreases e, if Bracketed(e, level) then 1 else 0, 5 - level, 1
  {
    if e.BinaryOp? && OpLevel(e.op) == level {
      OperatorPrefix(e, level, u);
    } else {
      assert PrintAt(e, level) == PrintAt(e, level + 1);
      ExprRoundTrip(e, level + 1, u);
    }
  }

  /**
   * An operator node of tier `level`: its left operand is read first, then
   * the loop reads the operator and the right operand.
   */
  lemma {:induction false} OperatorPrefix(e: Expr, level: nat, u: seq<Token>)
    requires WellFormedExpr(e) && 1 <= level <= 4 && Stops(u, level + 1)
    requires e.BinaryOp? && OpLevel(e.op) == level
    ensures PTier(PrintAt(e, level) + u, level) == PTierTail(level, e, u)
    decreases e, 0, 5 - level, 0
  {
    var opTok := Tok(OP, e.op);
    var right := PrintAt(e.right, level + 1);
    var more := [opTok] + (right + u);
    assert PrintAt(e, level) + u == PrintAt(e.left, level) + more;
    TierPrefix(e.left, level, more);
    ExprRoundTrip(e.right, level + 1, u);
    assert Grammar.Peek(more) == opTok && Advance(more) == right + u;
    assert POperand(right + u, level) == Parsed(e.right, u);
    assert PTierTail(level, e.left, more) == PTierTail(level, e, u);
  }

  /** The expression round trip at the top tier. */
  lemma ExprPrintParse(e: Expr, t: seq<Token>)
    requires WellFormedExpr(e) && Stops(t, 1)
    ensures PExpr(PrintExpr(e) + t) == Parsed(e, t)
  {
    ExprRoundTrip(e, 1, t);
  }

  // ---------------------------------------------------------------------
  // Statements, guards and programs
  // ---------------------------------------------------------------------

  /** A token list and the two lists around it are free of ERROR tokens together. */
  lemma NoErrorsConcat3(a: seq<Token>, b: seq<Token>, c: seq<Token>)
    requires NoErrors(a) && NoErrors(b) && NoErrors(c)
    ensures NoErrors(a + b + c)
  {
    NoErrorsConcat(a, b);
    NoErrorsConcat(a + b, c);
  }

  /**
   * An assignment `x := e`, an `if … fi` or a `do … od`; `semis` says
   * whether the statements of guard bodies are followed by `;`.
   */
  function PrintStmt(s: Stmt, semis: bool): (ts: seq<Token>)
    ensures |ts| >= 1
    ensures ts[0].kind == IDENT || ts[0].kind == KEYWORD
    decreases s, 3
  {
    match s
    case Assign(x, e) =>
      [Tok(IDENT, x), Tok(ASSIGN, ":=")] + PrintExpr(e)
    case If(gs) =>
      [Tok(KEYWORD, "if")] + PrintGuards(gs, semis) + [Tok(KEYWORD, "fi")]
    case Do(gs) =>
      [Tok(KEYWORD, "do")] + PrintGuards(gs, semis) + [Tok(KEYWORD, "od")]
  }

  /** The `;` after a statement, or nothing. */
  function Separator(semis: bool): seq<Token> {
    if semis then [Tok(SEMI, ";")] else []
  }

  /** A statement list, every statement followed by `;` when `semis` holds. */
  function PrintStmts(ss: seq<Stmt>, semis: bool): (ts: seq<Token>)
    decreases ss, 4
  {
    if ss == [] then []
    else
      PrintStmt(ss[0], semis) + Separator(semis) + PrintStmts(ss[1..], semis)
  }

  /** Guards separated by `|`. */
  function PrintGuards(gs: seq<Guard>, semis: bool): (ts: seq<Token>)
    decreases gs, 2
  {
    if gs == [] then []
    else
      PrintGuard(gs[0], semis) + PrintMoreGuards(gs[1..], semis)
  }

  /** The guards after the first, each preceded by `|`. */
  function PrintMoreGuards(gs: seq<Guard>, semis: bool): (ts: seq<Token>)
    decreases gs, 2
  {
    if gs == [] then []
    else
      [Tok(BAR, "|")] + PrintGuard(gs[0], semis) + PrintMoreGuards(gs[1..], semis)
  }

  /** A guarded command `cond -> body`. */
  function PrintGuard(g: Guard, semis: bool): (ts: seq<Token>)
    decreases g, 1
  {
    PrintExpr(g.cond) + [Tok(ARROW, "->")] + PrintStmts(g.body, semis)
  }

  function PrintProgram(p: Program, semis: bool): (ts: seq<Token>)
  {
    PrintStmts(p.body, semis)
  }

  /**
   * What may follow a printed statement list: a token that ends the list
   * and, when the statements carry no `;`, neither a `;` (which the list
   * would take as the last statement's separator) nor an operator (which
   * the last expression would continue with).
   */
  predicate Follows(t: seq<Token>, semis: bool) {
    && EndsStmtList(Grammar.Peek(t))
    && (semis || (Grammar.Peek(t).kind != SEMI && Grammar.Peek(t).kind != OP))
  }

  /**
   * A printed statement starts a statement in the eyes of `parse_stmt_list`,
   * parses back to itself, and leaves the cursor in front of what follows,
   * as long as that is no operator an expression would continue with.
   */
  lemma {:induction false} StmtRoundTrip(s: Stmt, semis: bool, u: seq<Token>)
    requires WellFormedStmt(s) && Stops(u, 1)
    ensures !EndsStmtList(Grammar.Peek(PrintStmt(s, semis) + u))
    ensures PStmt(PrintStmt(s, semis) + u) == Parsed(s, u)
    decreases s, 1
  {
    var ts := PrintStmt(s, semis) + u;
    assert Grammar.Peek(ts) == PrintStmt(s, semis)[0];
    match s
    case Assign(x, e) =>
      AssignRoundTrip(x, e, semis, u);
    case If(gs) =>
      GuardedRoundTrip(s, semis, u);
    case Do(gs) =>
      GuardedRoundTrip(s, semis, u);
  }

  lemma AssignRoundTrip(x: string, e: Expr, semis: bool, u: seq<Token>)
    requires WellFormedExpr(e) && Stops(u, 1)
    ensures PStmt(PrintStmt(Assign(x, e), semis) + u) == Parsed(Assign(x, e), u)
  {
    var ts := PrintStmt(Assign(x, e), semis) + u;
    var afterName := [Tok(ASSIGN, ":=")] + (PrintExpr(e) + u);
    assert ts == [Tok(IDENT, x)] + afterName;
    assert Advance(ts) == afterName;
    ExprPrintParse(e, u);
    assert Advance(afterName) == PrintExpr(e) + u;
    assert PAssignment(ts) == Parsed(Assign(x, e), u);
  }

  /** An `if … fi` or `do … od` parses back to itself. */
  lemma {:induction false} GuardedRoundTrip(s: Stmt, semis: bool, u: seq<Token>)
    requires (s.If? || s.Do?) && WellFormedStmt(s)
    ensures PStmt(PrintStmt(s, semis) + u) == Parsed(s, u)
    decreases s, 0
  {
    var ts := PrintStmt(s, semis) + u;
    var open, close := if s.If? then "if" else "do", if s.If? then "fi" else "od";
    var closing := [Tok(KEYWORD, close)] + u;
    var afterKw := PrintGuards(s.guards, semis) + closing;
    PrintGuardedUnfold(s, semis, u);
    assert PGuardList(afterKw) == Parsed(s.guards, closing) by {
      GuardsRoundTrip(s.guards, semis, closing);
    }
    assert Advance(ts) == afterKw;
    assert Advance(closing) == u;
    if s.If? {
      assert PIf(ts) == Parsed(s, u);
    } else {
      assert PDo(ts) == Parsed(s, u);
    }
  }

  /** A printed `if` or `do`: its keyword, its guards, then its closing keyword. */
  lemma PrintGuardedUnfold(s: Stmt, semis: bool, u: seq<Token>)
    requires s.If? || s.Do?
    ensures PrintStmt(s, semis) + u
         == [Tok(KEYWORD, if s.If? then "if" else "do")]
          + (PrintGuards(s.guards, semis) + ([Tok(KEYWORD, if s.If? then "fi" else "od")] + u))
  {
  }

  /**
   * A printed statement list, with or without `;` after each statement,
   * parses back to itself and stops, without consuming it, at what follows.
   */
  lemma {:induction false} StmtsRoundTrip(ss: seq<Stmt>, semis: bool, t: seq<Token>)
    requires WellFormedStmts(ss) && Follows(t, semis)
    ensures PStmtList(PrintStmts(ss, semis) + t) == Parsed(ss, t)
    decreases ss, 1
  {
    if ss != [] {
      WellFormedStmtsTail(ss);
      StmtsHead(ss, semis, t);
      StmtsRoundTrip(ss[1..], semis, t);
      PrependHead(ss, t);
    }
  }

  /** The first printed statement of a list parses back, and the list goes on after its `;`. */
  lemma {:induction false} StmtsHead(ss: seq<Stmt>, semis: bool, t: seq<Token>)
    requires ss != [] && WellFormedStmt(ss[0]) && Follows(t, semis)
    ensures PStmtList(PrintStmts(ss, semis) + t)
         == Prepend([ss[0]], PStmtList(PrintStmts(ss[1..], semis) + t))
    decreases ss, 0
  {
    var ts := PrintStmts(ss, semis) + t;
    var more := PrintStmts(ss[1..], semis) + t;
    var afterStmt := Separator(semis) + more;
    PrintStmtsUnfold(ss, semis, t);
    NextStatementStart(ss[1..], semis, t);
    StmtRoundTrip(ss[0], semis, afterStmt);
    SeparatorStep(semis, more);
    StmtListStep(ts, ss[0], afterStmt, more);
  }

  /** `parse_stmt_list` skips the printed `;`, and there is none to skip without it. */
  lemma SeparatorStep(semis: bool, more: seq<Token>)
    requires !semis ==> Grammar.Peek(more).kind != SEMI
    ensures var after := Separator(semis) + more;
      more == if Grammar.Peek(after).kind == SEMI then Advance(after) else after
  {
    if semis {
      assert (Separator(semis) + more)[1..] == more;
    } else {
      assert Separator(semis) + more == more;
    }
  }

  /** A non-empty printed statement list: its first statement, its `;` if any, then the rest. */
  lemma PrintStmtsUnfold(ss: seq<Stmt>, semis: bool, t: seq<Token>)
    requires ss != []
    ensures PrintStmts(ss, semis) + t
         == PrintStmt(ss[0], semis) + (Separator(semis) + (PrintStmts(ss[1..], semis) + t))
  {
  }

  /**
   * What follows a printed statement is no operator, and no `;` unless the
   * statements carry them.
   */
  lemma NextStatementStart(ss: seq<Stmt>, semis: bool, t: seq<Token>)
    requires Follows(t, semis)
    ensures !semis ==> Stops(PrintStmts(ss, semis) + t, 1)
    ensures !semis ==> Grammar.Peek(PrintStmts(ss, semis) + t).kind != SEMI
  {
    if ss == [] {
      assert PrintStmts(ss, semis) + t == t;
    } else {
      var first := PrintStmt(ss[0], semis);
      PrintStmtsUnfold(ss, semis, t);
      assert Grammar.Peek(PrintStmts(ss, semis) + t) == first[0];
    }
  }

  /**
   * A printed guard list parses back to itself, in front of a token that
   * is no `|` and may follow the statement list of the last guard.
   */
  lemma {:induction false} GuardsRoundTrip(gs: seq<Guard>, semis: bool, v: seq<Token>)
    requires |gs| >= 1 && WellFormedGuards(gs)
    requires Grammar.Peek(v).kind != BAR && Follows(v, semis)
    ensures PGuardList(PrintGuards(gs, semis) + v) == Parsed(gs, v)
    decreases gs, 0
  {
    var w := PrintMoreGuards(gs[1..], semis) + v;
    assert PrintGuards(gs, semis) + v == PrintGuard(gs[0], semis) + w;
    WellFormedGuardsTail(gs);
    MoreGuardsRoundTrip(gs[1..], semis, v);
    GuardRoundTrip(gs[0], semis, w);
    PrependHead(gs, v);
  }

  /** The guards after a `|` parse back to themselves. */
  lemma {:induction false} MoreGuardsRoundTrip(gs: seq<Guard>, semis: bool, v: seq<Token>)
    requires WellFormedGuards(gs)
    requires Grammar.Peek(v).kind != BAR && Follows(v, semis)
    ensures Follows(PrintMoreGuards(gs, semis) + v, semis)
    ensures PGuardsAfterBar(PrintMoreGuards(gs, semis) + v) == Parsed(gs, v)
    decreases gs, 0
  {
    if gs != [] {
      var w := PrintMoreGuards(gs[1..], semis) + v;
      var afterBar := PrintGuard(gs[0], semis) + w;
      var ts := [Tok(BAR, "|")] + afterBar;
      WellFormedGuardsTail(gs);
      MoreGuardsRoundTrip(gs[1..], semis, v);
      assert PGuardsAfterBar(ts) == Prepend([gs[0]], PGuardsAfterBar(w)) by {
        GuardRoundTrip(gs[0], semis, w);
        assert Advance(ts) == afterBar;
        GuardsAfterBarStep(ts, gs[0], w);
      }
      PrintMoreGuardsUnfold(gs, semis, v);
      PrependHead(gs, v);
    }
  }

  /** A non-empty list of guards after a `|`: the bar, the first guard, then the rest. */
  lemma PrintMoreGuardsUnfold(gs: seq<Guard>, semis: bool, v: seq<Token>)
    requires gs != []
    ensures PrintMoreGuards(gs, semis) + v
         == [Tok(BAR, "|")] + (PrintGuard(gs[0], semis) + (PrintMoreGuards(gs[1..], semis) + v))
  {
  }

  /** A printed guard parses back to itself in front of what may follow its statement list. */
  lemma {:induction false} GuardRoundTrip(g: Guard, semis: bool, w: seq<Token>)
    requires WellFormedExpr(g.cond) && WellFormedStmts(g.body)
    requires Follows(w, semis)
    ensures PGuard(PrintGuard(g, semis) + w) == Parsed(g, w)
    decreases g, 0
  {
    var body := PrintStmts(g.body, semis) + w;
    var afterCond := [Tok(ARROW, "->")] + body;
    assert PrintGuard(g, semis) + w == PrintExpr(g.cond) + afterCond;
    ExprPrintParse(g.cond, afterCond);
    assert Advance(afterCond) == body;
    StmtsRoundTrip(g.body, semis, w);
  }

  lemma WellFormedStmtsTail(ss: seq<Stmt>)
    requires |ss| >= 1 && WellFormedStmts(ss)
    ensures WellFormedStmt(ss[0]) && WellFormedStmts(ss[1..])
  {
    forall i | 0 <= i < |ss[1..]| ensures WellFormedStmt(ss[1..][i]) {
      assert ss[1..][i] == ss[i + 1];
    }
  }

  lemma WellFormedGuardsTail(gs: seq<Guard>)
    requires |gs| >= 1 && WellFormedGuards(gs)
    ensures WellFormedExpr(gs[0].cond) && WellFormedStmts(gs[0].body)
    ensures WellFormedGuards(gs[1..])
  {
    forall i | 0 <= i < |gs[1..]|
      ensures WellFormedExpr(gs[1..][i].cond) && WellFormedStmts(gs[1..][i].body)
    {
      assert gs[1..][i] == gs[i + 1];
    }
  }

  // ---------------------------------------------------------------------
  // The printer emits no ERROR token
  // ---------------------------------------------------------------------

  lemma {:induction false} PrintAtNoErrors(e: Expr, level: nat)
    ensures NoErrors(PrintAt(e, level))
    decreases e, if Bracketed(e, level) then 1 else 0
  {
    match e
    case Number(_) =>
    case Ident(_) =>
    case BinaryOp(op, l, r) =>
      if Bracketed(e, level) {
        PrintAtNoErrors(e, 1);
        NoErrorsConcat3([Tok(LPAREN, "(")], PrintAt(e, 1), [Tok(RPAREN, ")")]);
      } else {
        PrintAtNoErrors(l, OpLevel(op));
        PrintAtNoErrors(r, OpLevel(op) + 1);
        NoErrorsConcat3(PrintAt(l, OpLevel(op)), [Tok(OP, op)], PrintAt(r, OpLevel(op) + 1));
      }
  }

  lemma {:induction false} StmtNoErrors(s: Stmt, semis: bool)
    ensures NoErrors(PrintStmt(s, semis))
    decreases s, 3
  {
    match s
    case Assign(x, e) =>
      PrintAtNoErrors(e, 1);
      NoErrorsConcat([Tok(IDENT, x), Tok(ASSIGN, ":=")], PrintExpr(e));
    case If(gs) =>
      GuardsNoErrors(gs, semis);
      NoErrorsConcat3([Tok(KEYWORD, "if")], PrintGuards(gs, semis), [Tok(KEYWORD, "fi")]);
    case Do(gs) =>
      GuardsNoErrors(gs, semis);
      NoErrorsConcat3([Tok(KEYWORD, "do")], PrintGuards(gs, semis), [Tok(KEYWORD, "od")]);
  }

  lemma {:induction false} StmtsNoErrors(ss: seq<Stmt>, semis: bool)
    ensures NoErrors(PrintStmts(ss, semis))
    decreases ss, 4
  {
    if ss != [] {
      StmtNoErrors(ss[0], semis);
      StmtsNoErrors(ss[1..], semis);
      NoErrorsConcat3(PrintStmt(ss[0], semis), Separator(semis), PrintStmts(ss[1..], semis));
    }
  }

  lemma {:induction false} GuardsNoErrors(gs: seq<Guard>, semis: bool)
    ensures NoErrors(PrintGuards(gs, semis))
    decreases gs, 2
  {
    if gs != [] {
      GuardNoErrors(gs[0], semis);
      MoreGuardsNoErrors(gs[1..], semis);
      NoErrorsConcat(PrintGuard(gs[0], semis), PrintMoreGuards(gs[1..], semis));
    }
  }

  lemma {:induction false} MoreGuardsNoErrors(gs: seq<Guard>, semis: bool)
    ensures NoErrors(PrintMoreGuards(gs, semis))
    decreases gs, 2
  {
    if gs != [] {
      GuardNoErrors(gs[0], semis);
      MoreGuardsNoErrors(gs[1..], semis);
      NoErrorsConcat3([Tok(BAR, "|")], PrintGuard(gs[0], semis), PrintMoreGuards(gs[1..], semis));
    }
  }

  lemma {:induction false} GuardNoErrors(g: Guard, semis: bool)
    ensures NoErrors(PrintGuard(g, semis))
    decreases g, 1
  {
    PrintAtNoErrors(g.cond, 1);
    StmtsNoErrors(g.body, semis);
    NoErrorsConcat3(PrintExpr(g.cond), [Tok(ARROW, "->")], PrintStmts(g.body, semis));
  }

  /**
   * The whole pipeline after the scanner: printing a well-formed program,
   * with or without `;` after each statement, and handing the tokens to
   * `parse_tokens` gives the program back.
   */
  lemma ProgramRoundTrip(p: Program, semis: bool)
    requires WellFormedStmts(p.body)
    ensures TokensToProgram(PrintProgram(p, semis)) == Ok(p)
  {
    var ts := PrintProgram(p, semis);
    StmtsNoErrors(p.body, semis);
    ErrorTokensStartAtFirst(ts);
    NoErrorsHasNoFirstError(ts);
    StmtsRoundTrip(p.body, semis, [EofToken]);
  }

  /**
   * The converse of ProgramRoundTrip: whatever program `parse_tokens`
   * returns is well formed, so printing it and parsing again returns it.
   */
  lemma ParsedProgramReprints(tokens: seq<Token>, p: Program, semis: bool)
    requires TokensToProgram(tokens) == Ok(p)
    ensures TokensToProgram(PrintProgram(p, semis)) == Ok(p)
  {
    ProgramRoundTrip(p, semis);
  }

  lemma {:induction false} NoErrorsHasNoFirstError(ts: seq<Token>)
    requires NoErrors(ts)
    ensures FirstErrorAt(ts) == |ts|
  {
    if ts != [] {
      NoErrorsHasNoFirstError(ts[1..]);
    }
  }
}
