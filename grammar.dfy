/**
 * The recursive-descent grammar as pure functions over the tokens that are
 * left to read. Each function `P<Rule>` answers what the parser's
 * `parse_<rule>` method does when its cursor stands at the start of `ts`:
 * the node it builds and the tokens still unread afterwards, or the error
 * it raises. The methods of `Parsing.Parser` are proved against these.
 */
module Grammar {
  import opened Wrappers
  import opened Tokens
  import opened Syntax

  /** Which check failed; the exception texts themselves are not modelled. */
  datatype ErrorKind =
    | LexicalErrors
    | ExpectedType(expectedType: Kind)
    | ExpectedValue(expectedValue: string)
    | UnexpectedStatement
    | ExpectedFi
    | ExpectedOd
    | ExpectedArrow
    | ExpectedAssign
    | MissingRParen
    | UnexpectedFactor
    | InvalidNumber

  /** A parse error and the token it carries. */
  datatype ParseError = ParseError(kind: ErrorKind, token: Token)

  /** What one grammar rule yields: a node and the unread rest, or an error. */
  datatype Outcome<T> = Parsed(node: T, rest: seq<Token>) | Failed(error: ParseError)

  /** What the whole parse yields. */
  datatype Result<T> = Ok(value: T) | Err(error: ParseError)

  /** A list parsed by a loop: `front` is what the loop gathered before `o` started. */
  function Prepend<T>(front: seq<T>, o: Outcome<seq<T>>): Outcome<seq<T>> {
    match o
    case Failed(e) => Failed(e)
    case Parsed(more, rest) => Parsed(front + more, rest)
  }

  /** The current token, or the EOF sentinel once the list is used up. */
  function Peek(ts: seq<Token>): (t: Token)
    ensures ts != [] ==> t == ts[0]
    ensures ts == [] ==> t == EofToken
  {
    if |ts| > 0 then ts[0] else EofToken
  }

  /** The cursor moved one token on; moving past the end stays at the end. */
  function Advance(ts: seq<Token>): seq<Token> {
    if |ts| > 0 then ts[1..] else []
  }

  /**
   * `consume`: the type is checked first, then the value; an empty
   * expected value (Python's falsy `None` or `""`) is no check at all.
   */
  function Consume(ts: seq<Token>, expectedType: Option<Kind>, expectedValue: string): (r: Outcome<Token>)
    ensures r.Parsed? <==>
              (expectedType.None? || Peek(ts).kind == expectedType.value) &&
              (expectedValue == "" || Peek(ts).value == expectedValue)
    ensures r.Parsed? ==> r.node == Peek(ts) && r.rest == Advance(ts)
    ensures r.Parsed? && |ts| > 0 ==> |r.rest| == |ts| - 1
    ensures r.Failed? ==> r.error.token == Peek(ts)
  {
    var tok := Peek(ts);
    if expectedType.Some? && tok.kind != expectedType.value then
      Failed(ParseError(ExpectedType(expectedType.value), tok))
    else if expectedValue != "" && tok.value != expectedValue then
      Failed(ParseError(ExpectedValue(expectedValue), tok))
    else
      Parsed(tok, Advance(ts))
  }

  // ---------------------------------------------------------------------
  // Numbers
  // ---------------------------------------------------------------------

  predicate AllDigits(s: string) {
    forall i :: 0 <= i < |s| ==> '0' <= s[i] <= '9'
  }

  /**
   * `int` of a digit string: its decimal value, most significant digit
   * first. The value is zero exactly when every digit is `0`.
   */
  function DigitsValue(s: string): (v: nat)
    requires AllDigits(s)
    ensures v == 0 <==> forall i :: 0 <= i < |s| ==> s[i] == '0'
  {
    if s == [] then 0
    else DigitsValue(s[..|s| - 1]) * 10 + (s[|s| - 1] as int - '0' as int)
  }

  // ---------------------------------------------------------------------
  // Expressions
  // ---------------------------------------------------------------------

  /** `t` is an operator of binary tier `level` (1 = equality … 4 = term). */
  predicate InTier(t: Token, level: nat) {
    t.kind == OP && OpLevel(t.value) == level
  }

  /**
   * The next token is no operator of tier `level` or tighter, so no tier
   * from `level` on would continue its loop there.
   */
  predicate Stops(ts: seq<Token>, level: nat) {
    !(Peek(ts).kind == OP && OpLevel(Peek(ts).value) >= level)
  }

  /** `parse_expr`: an equality-tier expression. */
  function PExpr(ts: seq<Token>): (r: Outcome<Expr>)
    ensures r.Parsed? ==> |r.rest| < |ts| && Stops(r.rest, 1)
    decreases |ts|, 10
  {
    PTier(ts, 1)
  }

  /**
   * The four binary tiers (`parse_equality`, `parse_relational`,
   * `parse_additive`, `parse_term`): one operand, then the tier's loop.
   */
  function PTier(ts: seq<Token>, level: nat): (r: Outcome<Expr>)
    requires 1 <= level <= 4
    ensures r.Parsed? ==> |r.rest| < |ts| && Stops(r.rest, level)
    decreases |ts|, 2 * (5 - level) + 1
  {
    match POperand(ts, level)
    case Failed(e) => Failed(e)
    case Parsed(left, rest) => PTierTail(level, left, rest)
  }

  /** An operand of tier `level`: the next tier, or a factor below tier 4. */
  function POperand(ts: seq<Token>, level: nat): (r: Outcome<Expr>)
    requires 1 <= level <= 4
    ensures r.Parsed? ==> |r.rest| < |ts| && Stops(r.rest, level + 1)
    decreases |ts|, 2 * (5 - level)
  {
    if level == 4 then PFactor(ts) else PTier(ts, level + 1)
  }

  /**
   * The loop of tier `level` with `left` built so far: while the next token
   * is one of the tier's operators, consume it, parse an operand and make
   * `left` the new operator node.
   */
  function PTierTail(level: nat, left: Expr, ts: seq<Token>): (r: Outcome<Expr>)
    requires 1 <= level <= 4
    ensures r.Parsed? ==> |r.rest| <= |ts| && !InTier(Peek(r.rest), level)
    ensures r.Parsed? && Stops(ts, level + 1) ==> Stops(r.rest, level)
    decreases |ts|, 0
  {
    var tok := Peek(ts);
    if InTier(tok, level) then
      match POperand(Advance(ts), level)
      case Failed(e) => Failed(e)
      case Parsed(right, rest) => PTierTail(level, BinaryOp(tok.value, left, right), rest)
    else
      Parsed(left, ts)
  }

  /**
   * `parse_factor`: a number, a name, or a parenthesised expression, which
   * yields the inner node itself. The text of a NUMBER token is read with
   * Python's `int`, which raises on anything but digits here.
   */
  function PFactor(ts: seq<Token>): (r: Outcome<Expr>)
    ensures r.Parsed? ==> |r.rest| < |ts|
    decreases |ts|, 0
  {
    var tok := Peek(ts);
    if tok.kind == NUMBER then
      if tok.value != [] && AllDigits(tok.value) then Parsed(Number(DigitsValue(tok.value)), Advance(ts))
      else Failed(ParseError(InvalidNumber, tok))
    else if tok.kind == IDENT then
      Parsed(Ident(tok.value), Advance(ts))
    else if tok.kind == LPAREN then
      match PExpr(Advance(ts))
      case Failed(e) => Failed(e)
      case Parsed(inner, rest) =>
        if Peek(rest).kind != RPAREN then Failed(ParseError(MissingRParen, Peek(rest)))
        else Parsed(inner, Advance(rest))
    else
      Failed(ParseError(UnexpectedFactor, tok))
  }

  /**
   * A factor that fails at the start of an expression is the expression's
   * failure: no tier catches or replaces the error.
   */
  lemma FactorFailureIsExprFailure(ts: seq<Token>)
    requires PFactor(ts).Failed?
    ensures PExpr(ts) == PFactor(ts)
  {
    assert PTier(ts, 4) == PFactor(ts);
    assert PTier(ts, 3) == PFactor(ts);
    assert PTier(ts, 2) == PFactor(ts);
    assert PTier(ts, 1) == PFactor(ts);
    assert PExpr(ts) == PTier(ts, 1);
  }

  // ---------------------------------------------------------------------
  // Statements
  // ---------------------------------------------------------------------

  /** The three stop conditions of `parse_stmt_list`'s loop. */
  predicate EndsStmtList(t: Token) {
    || t.kind == EOF
    || (t.kind == KEYWORD && (t.value == "fi" || t.value == "od"))
    || !(t.kind == KEYWORD || t.kind == IDENT)
  }

  /**
   * `parse_stmt_list`: statements until a stop condition holds, each
   * optionally followed by one `;`.
   */
  function PStmtList(ts: seq<Token>): (r: Outcome<seq<Stmt>>)
    ensures r.Parsed? ==> |r.rest| <= |ts| && EndsStmtList(Peek(r.rest))
    decreases |ts|, 4
  {
    if EndsStmtList(Peek(ts)) then Parsed([], ts)
    else
      match PStmt(ts)
      case Failed(e) => Failed(e)
      case Parsed(s, rest) =>
        var next := if Peek(rest).kind == SEMI then Advance(rest) else rest;
        Prepend([s], PStmtList(next))
  }

  /** `parse_stmt`: dispatch on the current token. */
  function PStmt(ts: seq<Token>): (r: Outcome<Stmt>)
    ensures r.Parsed? ==> |r.rest| < |ts|
    decreases |ts|, 3
  {
    var tok := Peek(ts);
    if tok.kind == KEYWORD && tok.value == "if" then PIf(ts)
    else if tok.kind == KEYWORD && tok.value == "do" then PDo(ts)
    else if tok.kind == IDENT then PAssignment(ts)
    else Failed(ParseError(UnexpectedStatement, tok))
  }

  /** `parse_if`: `if`, a guard list, then `fi`. */
  function PIf(ts: seq<Token>): (r: Outcome<Stmt>)
    ensures r.Parsed? ==> |r.rest| < |ts| && r.node.If? && |r.node.guards| >= 1
    decreases |ts|, 2
  {
    match Consume(ts, Some(KEYWORD), "if")
    case Failed(e) => Failed(e)
    case Parsed(_, afterIf) =>
      match PGuardList(afterIf)
      case Failed(e) => Failed(e)
      case Parsed(guards, rest) =>
        var tok := Peek(rest);
        if tok.kind == KEYWORD && tok.value == "fi" then Parsed(If(guards), Advance(rest))
        else Failed(ParseError(ExpectedFi, tok))
  }

  /** `parse_do`: `do`, a guard list, then `od`. */
  function PDo(ts: seq<Token>): (r: Outcome<Stmt>)
    ensures r.Parsed? ==> |r.rest| < |ts| && r.node.Do? && |r.node.guards| >= 1
    decreases |ts|, 2
  {
    match Consume(ts, Some(KEYWORD), "do")
    case Failed(e) => Failed(e)
    case Parsed(_, afterDo) =>
      match PGuardList(afterDo)
      case Failed(e) => Failed(e)
      case Parsed(guards, rest) =>
        var tok := Peek(rest);
        if tok.kind == KEYWORD && tok.value == "od" then Parsed(Do(guards), Advance(rest))
        else Failed(ParseError(ExpectedOd, tok))
  }

  /** `parse_guard_list`: one guard, then more for as long as a `|` follows. */
  function PGuardList(ts: seq<Token>): (r: Outcome<seq<Guard>>)
    ensures r.Parsed? ==> |r.rest| < |ts| && |r.node| >= 1 && Peek(r.rest).kind != BAR
    decreases |ts|, 1
  {
    match PGuard(ts)
    case Failed(e) => Failed(e)
    case Parsed(g, rest) => Prepend([g], PGuardsAfterBar(rest))
  }

  /** The loop of `parse_guard_list`: `| guard` repeated. */
  function PGuardsAfterBar(ts: seq<Token>): (r: Outcome<seq<Guard>>)
    ensures r.Parsed? ==> |r.rest| <= |ts| && Peek(r.rest).kind != BAR
    decreases |ts|, 1
  {
    if Peek(ts).kind == BAR then
      match PGuard(Advance(ts))
      case Failed(e) => Failed(e)
      case Parsed(g, rest) => Prepend([g], PGuardsAfterBar(rest))
    else
      Parsed([], ts)
  }

  /** `parse_guard`: an expression, `->`, then a statement list. */
  function PGuard(ts: seq<Token>): (r: Outcome<Guard>)
    ensures r.Parsed? ==> |r.rest| < |ts|
    decreases |ts|, 0
  {
    match PExpr(ts)
    case Failed(e) => Failed(e)
    case Parsed(cond, rest) =>
      var tok := Peek(rest);
      if tok.kind != ARROW then Failed(ParseError(ExpectedArrow, tok))
      else
        match PStmtList(Advance(rest))
        case Failed(e) => Failed(e)
        case Parsed(body, last) => Parsed(Guard(cond, body), last)
  }

  /** `parse_assignment`: a name, `:=`, then an expression. */
  function PAssignment(ts: seq<Token>): (r: Outcome<Stmt>)
    ensures r.Parsed? ==> |r.rest| < |ts| && r.node.Assign?
    decreases |ts|, 2
  {
    match Consume(ts, Some(IDENT), "")
    case Failed(e) => Failed(e)
    case Parsed(ident, rest) =>
      var tok := Peek(rest);
      if tok.kind != ASSIGN then Failed(ParseError(ExpectedAssign, tok))
      else
        match PExpr(Advance(rest))
        case Failed(e) => Failed(e)
        case Parsed(e, last) => Parsed(Assign(ident.value, e), last)
  }

  /** `parse_program`: a statement list; what follows it is not looked at. */
  function PProgram(ts: seq<Token>): (r: Outcome<Program>)
    ensures r.Parsed? ==> EndsStmtList(Peek(r.rest))
  {
    match PStmtList(ts)
    case Failed(e) => Failed(e)
    case Parsed(body, rest) => Parsed(Program(body), rest)
  }

  // ---------------------------------------------------------------------
  // The shape of what the rules build
  // ---------------------------------------------------------------------

  /** Every operator node an expression rule builds carries one of the ten operators. */
  lemma {:induction false} ExprShape(ts: seq<Token>)
    ensures PExpr(ts).Parsed? ==> WellFormedExpr(PExpr(ts).node)
    decreases |ts|, 10
  {
    TierShape(ts, 1);
  }

  lemma {:induction false} TierShape(ts: seq<Token>, level: nat)
    requires 1 <= level <= 4
    ensures PTier(ts, level).Parsed? ==> WellFormedExpr(PTier(ts, level).node)
    decreases |ts|, 2 * (5 - level) + 1
  {
    OperandShape(ts, level);
    var o := POperand(ts, level);
    if o.Parsed? {
      TierTailShape(level, o.node, o.rest);
    }
  }

  lemma {:induction false} OperandShape(ts: seq<Token>, level: nat)
    requires 1 <= level <= 4
    ensures POperand(ts, level).Parsed? ==> WellFormedExpr(POperand(ts, level).node)
    decreases |ts|, 2 * (5 - level)
  {
    if level == 4 {
      FactorShape(ts);
    } else {
      TierShape(ts, level + 1);
    }
  }

  /** The tier loop only ever combines well-formed operands with an operator of its own tier. */
  lemma {:induction false} TierTailShape(level: nat, left: Expr, ts: seq<Token>)
    requires 1 <= level <= 4 && WellFormedExpr(left)
    ensures PTierTail(level, left, ts).Parsed? ==> WellFormedExpr(PTierTail(level, left, ts).node)
    decreases |ts|, 0
  {
    var tok := Peek(ts);
    if InTier(tok, level) {
      OperandShape(Advance(ts), level);
      var o := POperand(Advance(ts), level);
      if o.Parsed? {
        TierTailShape(level, BinaryOp(tok.value, left, o.node), o.rest);
      }
    }
  }

  lemma {:induction false} FactorShape(ts: seq<Token>)
    ensures PFactor(ts).Parsed? ==> WellFormedExpr(PFactor(ts).node)
    decreases |ts|, 0
  {
    if Peek(ts).kind == LPAREN {
      ExprShape(Advance(ts));
    }
  }

  /** Every statement list the rules build holds only well-formed statements. */
  lemma {:induction false} StmtListShape(ts: seq<Token>)
    ensures PStmtList(ts).Parsed? ==> WellFormedStmts(PStmtList(ts).node)
    decreases |ts|, 4
  {
    if !EndsStmtList(Peek(ts)) {
      StmtShape(ts);
      var o := PStmt(ts);
      if o.Parsed? {
        var next := if Peek(o.rest).kind == SEMI then Advance(o.rest) else o.rest;
        StmtListShape(next);
        var more := PStmtList(next);
        if more.Parsed? {
          StmtsCons(o.node, more.node);
        }
      }
    }
  }

  lemma {:induction false} StmtShape(ts: seq<Token>)
    ensures PStmt(ts).Parsed? ==> WellFormedStmt(PStmt(ts).node)
    decreases |ts|, 3
  {
    GuardedShape(ts);
    AssignmentShape(ts);
  }

  /** An `if` or `do` the rules build has at least one guard, each well formed. */
  lemma {:induction false} GuardedShape(ts: seq<Token>)
    ensures PIf(ts).Parsed? ==> WellFormedStmt(PIf(ts).node)
    ensures PDo(ts).Parsed? ==> WellFormedStmt(PDo(ts).node)
    decreases |ts|, 2
  {
    if |ts| > 0 {
      GuardListShape(ts[1..]);
    }
  }

  lemma {:induction false} AssignmentShape(ts: seq<Token>)
    ensures PAssignment(ts).Parsed? ==> WellFormedStmt(PAssignment(ts).node)
    decreases |ts|, 2
  {
    if |ts| > 0 {
      var rest := ts[1..];
      if Peek(rest).kind == ASSIGN {
        ExprShape(Advance(rest));
      }
    }
  }

  lemma {:induction false} GuardListShape(ts: seq<Token>)
    ensures PGuardList(ts).Parsed? ==> WellFormedGuards(PGuardList(ts).node)
    decreases |ts|, 1
  {
    GuardShape(ts);
    var o := PGuard(ts);
    if o.Parsed? {
      GuardsAfterBarShape(o.rest);
      var more := PGuardsAfterBar(o.rest);
      if more.Parsed? {
        GuardsCons(o.node, more.node);
      }
    }
  }

  lemma {:induction false} GuardsAfterBarShape(ts: seq<Token>)
    ensures PGuardsAfterBar(ts).Parsed? ==> WellFormedGuards(PGuardsAfterBar(ts).node)
    decreases |ts|, 1
  {
    if Peek(ts).kind == BAR {
      GuardShape(Advance(ts));
      var o := PGuard(Advance(ts));
      if o.Parsed? {
        GuardsAfterBarShape(o.rest);
        var more := PGuardsAfterBar(o.rest);
        if more.Parsed? {
          GuardsCons(o.node, more.node);
        }
      }
    }
  }

  lemma {:induction false} GuardShape(ts: seq<Token>)
    ensures PGuard(ts).Parsed? ==> WellFormedExpr(PGuard(ts).node.cond) && WellFormedStmts(PGuard(ts).node.body)
    decreases |ts|, 0
  {
    ExprShape(ts);
    var o := PExpr(ts);
    if o.Parsed? && Peek(o.rest).kind == ARROW {
      StmtListShape(Advance(o.rest));
    }
  }

  /** A program the rules build is well formed, so the printer can print it. */
  lemma ProgramShape(ts: seq<Token>)
    ensures PProgram(ts).Parsed? ==> WellFormedStmts(PProgram(ts).node.body)
  {
    StmtListShape(ts);
  }

  lemma StmtsCons(s: Stmt, ss: seq<Stmt>)
    requires WellFormedStmt(s) && WellFormedStmts(ss)
    ensures WellFormedStmts([s] + ss)
  {
    assert forall i :: 1 <= i < |[s] + ss| ==> ([s] + ss)[i] == ss[i - 1];
  }

  lemma GuardsCons(g: Guard, gs: seq<Guard>)
    requires WellFormedExpr(g.cond) && WellFormedStmts(g.body) && WellFormedGuards(gs)
    ensures WellFormedGuards([g] + gs)
  {
    assert forall i :: 1 <= i < |[g] + gs| ==> ([g] + gs)[i] == gs[i - 1];
  }

  // ---------------------------------------------------------------------
  // One round of the list loops
  // ---------------------------------------------------------------------

  lemma PrependNothing<T>(o: Outcome<seq<T>>)
    ensures Prepend([], o) == o
  {
    if o.Parsed? {
      assert [] + o.node == o.node;
    }
  }

  /** One round of `parse_stmt_list`'s loop, with the optional `;` skipped. */
  lemma StmtListStep(before: seq<Token>, s: Stmt, after: seq<Token>, next: seq<Token>)
    requires !EndsStmtList(Peek(before)) && PStmt(before) == Parsed(s, after)
    requires next == if Peek(after).kind == SEMI then Advance(after) else after
    ensures PStmtList(before) == Prepend([s], PStmtList(next))
  {
  }

  lemma StmtListFails(before: seq<Token>)
    requires !EndsStmtList(Peek(before)) && PStmt(before).Failed?
    ensures PStmtList(before) == Failed(PStmt(before).error)
  {
  }

  /** The first guard of `parse_guard_list`. */
  lemma GuardListStep(start: seq<Token>, g: Guard, rest: seq<Token>)
    requires PGuard(start) == Parsed(g, rest)
    ensures PGuardList(start) == Prepend([g], PGuardsAfterBar(rest))
  {
  }

  /** One round of `parse_guard_list`'s loop. */
  lemma GuardsAfterBarStep(before: seq<Token>, g: Guard, rest: seq<Token>)
    requires Peek(before).kind == BAR && PGuard(Advance(before)) == Parsed(g, rest)
    ensures PGuardsAfterBar(before) == Prepend([g], PGuardsAfterBar(rest))
  {
  }

  /** A list parsed as its head followed by its tail is the list itself. */
  lemma PrependHead<T>(xs: seq<T>, rest: seq<Token>)
    requires xs != []
    ensures Prepend([xs[0]], Parsed(xs[1..], rest)) == Parsed(xs, rest)
  {
    assert [xs[0]] + xs[1..] == xs;
  }

  /** Gathering `front` and then `x` is gathering `front + [x]`. */
  lemma PrependTwice<T>(front: seq<T>, x: T, o: Outcome<seq<T>>)
    ensures Prepend(front, Prepend([x], o)) == Prepend(front + [x], o)
  {
    if o.Parsed? {
      assert front + ([x] + o.node) == (front + [x]) + o.node;
    }
  }

  // ---------------------------------------------------------------------
  // The entry point
  // ---------------------------------------------------------------------

  /** The ERROR tokens of `ts`, in list order. */
  function ErrorTokens(ts: seq<Token>): (es: seq<Token>)
    ensures |es| <= |ts|
    ensures forall i :: 0 <= i < |es| ==> es[i].kind == ERROR
  {
    if ts == [] then [] else (if ts[0].kind == ERROR then [ts[0]] else []) + ErrorTokens(ts[1..])
  }

  /** The position of the first ERROR token, or `|ts|` when there is none. */
  function FirstErrorAt(ts: seq<Token>): (i: nat)
    ensures i <= |ts|
    ensures forall j :: 0 <= j < i ==> ts[j].kind != ERROR
    ensures i < |ts| ==> ts[i].kind == ERROR
  {
    if ts == [] then 0 else if ts[0].kind == ERROR then 0 else 1 + FirstErrorAt(ts[1..])
  }

  /** The list of ERROR tokens is empty exactly when there is none, and starts with the first. */
  lemma {:induction false} ErrorTokensStartAtFirst(ts: seq<Token>)
    ensures ErrorTokens(ts) == [] <==> FirstErrorAt(ts) == |ts|
    ensures ErrorTokens(ts) != [] ==> ErrorTokens(ts)[0] == ts[FirstErrorAt(ts)]
  {
    if ts != [] && ts[0].kind != ERROR {
      ErrorTokensStartAtFirst(ts[1..]);
      assert ErrorTokens(ts) == ErrorTokens(ts[1..]);
    }
  }

  /**
   * `parse_tokens`: refuse any ERROR token, reporting the first; otherwise
   * parse the program from the list with the EOF sentinel appended.
   */
  function TokensToProgram(tokens: seq<Token>): (r: Result<Program>)
    ensures (exists i :: 0 <= i < |tokens| && tokens[i].kind == ERROR) ==>
              r.Err? && r.error.kind == LexicalErrors && r.error.token.kind == ERROR
    ensures r.Ok? ==> WellFormedStmts(r.value.body)
  {
    ErrorTokensStartAtFirst(tokens);
    ProgramShape(tokens + [EofToken]);
    var errors := ErrorTokens(tokens);
    if errors != [] then Err(ParseError(LexicalErrors, errors[0]))
    else
      match PProgram(tokens + [EofToken])
      case Failed(e) => Err(e)
      case Parsed(p, _) => Ok(p)
  }

  /**
   * Lexical errors are reported before any grammar rule runs, with the first
   * ERROR token in list order; without one, the result is the program rule's.
   */
  lemma LexicalErrorsComeFirst(tokens: seq<Token>)
    ensures var i := FirstErrorAt(tokens);
      i < |tokens| ==> TokensToProgram(tokens) == Err(ParseError(LexicalErrors, tokens[i]))
    ensures FirstErrorAt(tokens) == |tokens| ==>
      TokensToProgram(tokens) ==
        match PProgram(tokens + [EofToken])
        case Failed(e) => Err(e)
        case Parsed(p, _) => Ok(p)
  {
    ErrorTokensStartAtFirst(tokens);
  }

  /**
   * An `if` whose guard list is not followed by `fi` stops the whole
   * statement list, with the error carrying the token found instead.
   */
  lemma UnclosedIf(ts: seq<Token>, guards: seq<Guard>, rest: seq<Token>)
    requires |ts| > 0 && ts[0].kind == KEYWORD && ts[0].value == "if"
    requires PGuardList(ts[1..]) == Parsed(guards, rest)
    requires !(Peek(rest).kind == KEYWORD && Peek(rest).value == "fi")
    ensures PProgram(ts) == Failed(ParseError(ExpectedFi, Peek(rest)))
  {
    assert Consume(ts, Some(KEYWORD), "if") == Parsed(ts[0], ts[1..]);
    assert PIf(ts) == Failed(ParseError(ExpectedFi, Peek(rest)));
    assert PStmt(ts) == PIf(ts);
    assert !EndsStmtList(Peek(ts));
  }

  /** A `do` whose guard list is not followed by `od` fails the program with the token found instead. */
  lemma UnclosedDo(ts: seq<Token>, guards: seq<Guard>, rest: seq<Token>)
    requires |ts| > 0 && ts[0].kind == KEYWORD && ts[0].value == "do"
    requires PGuardList(ts[1..]) == Parsed(guards, rest)
    requires !(Peek(rest).kind == KEYWORD && Peek(rest).value == "od")
    ensures PProgram(ts) == Failed(ParseError(ExpectedOd, Peek(rest)))
  {
    assert Consume(ts, Some(KEYWORD), "do") == Parsed(ts[0], ts[1..]);
    assert PDo(ts) == Failed(ParseError(ExpectedOd, Peek(rest)));
    assert PStmt(ts) == PDo(ts);
    assert !EndsStmtList(Peek(ts));
  }

  /** A keyword other than `if`, `do`, `fi` and `od` where a statement starts fails the program. */
  lemma MisplacedKeyword(ts: seq<Token>)
    requires Peek(ts).kind == KEYWORD && Peek(ts).value !in ["if", "do", "fi", "od"]
    ensures PProgram(ts) == Failed(ParseError(UnexpectedStatement, Peek(ts)))
  {
    assert PStmt(ts) == Failed(ParseError(UnexpectedStatement, Peek(ts)));
  }

  /** A condition not followed by `->` fails the guard with the token found instead. */
  lemma GuardWithoutArrow(ts: seq<Token>, cond: Expr, rest: seq<Token>)
    requires PExpr(ts) == Parsed(cond, rest) && Peek(rest).kind != ARROW
    ensures PGuard(ts) == Failed(ParseError(ExpectedArrow, Peek(rest)))
  {
  }

  /** A name not followed by `:=` fails the statement with the token found instead. */
  lemma AssignmentWithoutColonEquals(ts: seq<Token>)
    requires |ts| > 0 && ts[0].kind == IDENT && Peek(ts[1..]).kind != ASSIGN
    ensures PStmt(ts) == Failed(ParseError(ExpectedAssign, Peek(ts[1..])))
  {
    assert Consume(ts, Some(IDENT), "") == Parsed(ts[0], ts[1..]);
  }

  /**
   * A bracketed expression not followed by `)` fails the factor, and with
   * it the expression it starts, with the token found instead.
   */
  lemma UnclosedBracket(ts: seq<Token>, inner: Expr, rest: seq<Token>)
    requires Peek(ts).kind == LPAREN && PExpr(Advance(ts)) == Parsed(inner, rest) && Peek(rest).kind != RPAREN
    ensures PFactor(ts) == Failed(ParseError(MissingRParen, Peek(rest)))
    ensures PExpr(ts) == PFactor(ts)
  {
    FactorFailureIsExprFailure(ts);
  }

  /** A token that cannot start a factor fails the expression it starts, carrying that token. */
  lemma BadFactor(ts: seq<Token>)
    requires Peek(ts).kind != NUMBER && Peek(ts).kind != IDENT && Peek(ts).kind != LPAREN
    ensures PExpr(ts) == Failed(ParseError(UnexpectedFactor, Peek(ts)))
  {
    FactorFailureIsExprFailure(ts);
  }

  /** Without lexical errors, a program the program rule parses is the result. */
  lemma GrammarSuccessIsReported(tokens: seq<Token>, p: Program, rest: seq<Token>)
    requires FirstErrorAt(tokens) == |tokens|
    requires PProgram(tokens + [EofToken]) == Parsed(p, rest)
    ensures TokensToProgram(tokens) == Ok(p)
  {
    ErrorTokensStartAtFirst(tokens);
  }

  /** Without lexical errors, a failure of the program rule is the result. */
  lemma GrammarFailureIsReported(tokens: seq<Token>, e: ParseError)
    requires FirstErrorAt(tokens) == |tokens|
    requires PProgram(tokens + [EofToken]) == Failed(e)
    ensures TokensToProgram(tokens) == Err(e)
  {
    ErrorTokensStartAtFirst(tokens);
  }
}
