/**
 * The scanner: an ordered list of patterns tried at each position, the first
 * one that matches winning, and a left-to-right loop that skips layout and
 * comments, records line and column, and turns UNKNOWN matches into ERROR
 * tokens.
 *
 * Characters are treated as ASCII: word characters are [A-Za-z0-9_] and
 * digits are [0-9].
 */
module Lexer {
  import opened Wrappers
  import opened Tokens
  import Syntax

  // ---------------------------------------------------------------------
  // Character classes
  // ---------------------------------------------------------------------

  predicate IsDigit(c: char) { '0' <= c <= '9' }

  /** The first character of an identifier: [A-Za-z_]. */
  predicate IsIdentStart(c: char) { 'A' <= c <= 'Z' || 'a' <= c <= 'z' || c == '_' }

  /** A word character in the sense of `\b`: [A-Za-z0-9_]. */
  predicate IsWordChar(c: char) { IsIdentStart(c) || IsDigit(c) }

  /** The repeated classes of the patterns: `[^\n]`, `[ \t\r]`, `\d` and `[A-Za-z0-9_]`. */
  datatype CharClass = NotNewline | Blank | Digit | Word

  predicate InClass(c: char, cls: CharClass) {
    match cls
    case NotNewline => c != '\n'
    case Blank => c == ' ' || c == '\t' || c == '\r'
    case Digit => IsDigit(c)
    case Word => IsWordChar(c)
  }

  /** The length of the longest run of `cls` characters starting at `pos` (a greedy `*`). */
  function Run(code: string, pos: nat, cls: CharClass): (n: nat)
    requires pos <= |code|
    ensures pos + n <= |code|
    decreases |code| - pos
  {
    if pos < |code| && InClass(code[pos], cls) then 1 + Run(code, pos + 1, cls) else 0
  }

  /** A run holds only `cls` characters and stops at the first one that is not. */
  lemma {:induction false} RunIsMaximal(code: string, pos: nat, cls: CharClass)
    requires pos <= |code|
    ensures var n := Run(code, pos, cls);
      && (forall j :: pos <= j < pos + n ==> InClass(code[j], cls))
      && (pos + n == |code| || !InClass(code[pos + n], cls))
    decreases |code| - pos
  {
    if pos < |code| && InClass(code[pos], cls) {
      RunIsMaximal(code, pos + 1, cls);
    }
  }

  /** The two characters at `pos` are `a` and `b`. */
  predicate Pair(code: string, pos: nat, a: char, b: char) {
    pos + 1 < |code| && code[pos] == a && code[pos + 1] == b
  }

  /** `lit` occurs at `pos`, compared character by character. */
  predicate Lit(code: string, pos: nat, lit: string)
    requires pos <= |code|
    ensures Lit(code, pos, lit) ==> pos + |lit| <= |code| && code[pos..pos + |lit|] == lit
    decreases lit
  {
    if lit == [] then true
    else pos < |code| && code[pos] == lit[0] && Lit(code, pos + 1, lit[1..])
  }

  /**
   * `\b` at `pos` when `code[pos]` is a word character: the character before
   * it, if any, is not one.
   */
  predicate BoundaryBefore(code: string, pos: nat)
    requires pos <= |code|
  {
    pos == 0 || !IsWordChar(code[pos - 1])
  }

  /**
   * `\b` at `end` when `code[end - 1]` is a word character: the character at
   * `end`, if any, is not one.
   */
  predicate BoundaryAfter(code: string, end: nat)
    requires end <= |code|
  {
    end == |code| || !IsWordChar(code[end])
  }

  // ---------------------------------------------------------------------
  // The individual patterns
  // ---------------------------------------------------------------------

  /** The alternatives of the KEYWORD group, in the order they are tried. */
  const Keywords: seq<string> := ["if", "then", "else", "fi", "do", "od"]

  lemma KeywordLetters(w: string)
    requires w in Keywords
    ensures 2 <= |w| && forall i :: 0 <= i < |w| ==> IsIdentStart(w[i])
  {
  }

  /** The first alternative of `ws` that occurs at `pos` and is followed by `\b`. */
  function KeywordFrom(code: string, pos: nat, ws: seq<string>): (r: Option<nat>)
    requires pos <= |code|
    ensures r.Some? ==> pos + r.value <= |code| && code[pos..pos + r.value] in ws
                        && BoundaryAfter(code, pos + r.value)
  {
    if ws == [] then None
    else if Lit(code, pos, ws[0]) && BoundaryAfter(code, pos + |ws[0]|) then Some(|ws[0]|)
    else KeywordFrom(code, pos, ws[1..])
  }

  /** The one-character alternatives of OP: plus, minus, times, divide, less, greater. */
  predicate OneCharOp(c: char) {
    c == '+' || c == '-' || c == '*' || c == '/' || c == '<' || c == '>'
  }

  /**
   * The length of the text that pattern `k` matches at `pos`, or None. Every
   * pattern matches a non-empty text, and only NEWLINE matches a line break.
   */
  function PatternAt(k: Kind, code: string, pos: nat): (r: Option<nat>)
    requires pos < |code|
    ensures r.Some? ==> 1 <= r.value && pos + r.value <= |code|
  {
    match k
    case COMMENT =>
      if Pair(code, pos, '/', '/') then Some(2 + Run(code, pos + 2, NotNewline)) else None
    case NEWLINE => if code[pos] == '\n' then Some(1) else None
    case WHITESPACE =>
      var n := Run(code, pos, Blank);
      if n > 0 then Some(n) else None
    case ARROW => if Pair(code, pos, '-', '>') then Some(2) else None
    case ASSIGN => if Pair(code, pos, ':', '=') then Some(2) else None
    case OP =>
      // the alternation `==|<=|>=|!=|[+\-*/<>]`, two-character operators first
      if Pair(code, pos, '=', '=') || Pair(code, pos, '<', '=')
         || Pair(code, pos, '>', '=') || Pair(code, pos, '!', '=') then Some(2)
      else if OneCharOp(code[pos]) then Some(1)
      else None
    case LPAREN => if code[pos] == '(' then Some(1) else None
    case RPAREN => if code[pos] == ')' then Some(1) else None
    case SEMI => if code[pos] == ';' then Some(1) else None
    case BAR => if code[pos] == '|' then Some(1) else None
    case KEYWORD =>
      if BoundaryBefore(code, pos) then
        KeywordFrom(code, pos, Keywords)
      else None
    case NUMBER =>
      // `\b\d+\b`: a run of digits that is a whole word
      var n := Run(code, pos, Digit);
      if n > 0 && BoundaryBefore(code, pos) && BoundaryAfter(code, pos + n) then Some(n) else None
    case IDENT =>
      if IsIdentStart(code[pos]) then Some(1 + Run(code, pos + 1, Word)) else None
    case UNKNOWN => if code[pos] != '\n' then Some(1) else None   // `.`
    case ERROR => None
    case EOF => None
  }

  // ---------------------------------------------------------------------
  // The ordered matcher
  // ---------------------------------------------------------------------

  datatype Match = Match(kind: Kind, len: nat)

  /** The position of a pattern in the declaration order of the pattern list. */
  function Rank(k: Kind): nat {
    match k
    case COMMENT => 0
    case NEWLINE => 1
    case WHITESPACE => 2
    case ARROW => 3
    case ASSIGN => 4
    case OP => 5
    case LPAREN => 6
    case RPAREN => 7
    case SEMI => 8
    case BAR => 9
    case KEYWORD => 10
    case NUMBER => 11
    case IDENT => 12
    case UNKNOWN => 13
    case ERROR => 14
    case EOF => 15
  }

  /** The number of patterns in the pattern list. */
  const PatternCount: nat := 14

  /** The pattern at position `i` of the declaration order: earlier patterns take priority. */
  function PatternKind(i: nat): (k: Kind)
    requires i < PatternCount
    ensures Rank(k) == i && k != ERROR && k != EOF
  {
    if i == 0 then COMMENT else if i == 1 then NEWLINE else if i == 2 then WHITESPACE
    else if i == 3 then ARROW else if i == 4 then ASSIGN else if i == 5 then OP
    else if i == 6 then LPAREN else if i == 7 then RPAREN else if i == 8 then SEMI
    else if i == 9 then BAR else if i == 10 then KEYWORD else if i == 11 then NUMBER
    else if i == 12 then IDENT else UNKNOWN
  }

  /**
   * The search: the first pattern of the pattern list from position `i` on
   * that matches at `pos`.
   */
  function FirstMatch(code: string, pos: nat, i: nat): (m: Match)
    requires pos < |code| && i < PatternCount
    requires i <= Rank(NEWLINE) || code[pos] != '\n'
    ensures 1 <= m.len && pos + m.len <= |code|
    ensures Rank(m.kind) <= Rank(UNKNOWN) && m.kind != ERROR && m.kind != EOF
    decreases PatternCount - i, 1
  {
    TryPattern(code, pos, i)
  }

  /** One step of the search: pattern `i` if it matches, otherwise the patterns after it. */
  function TryPattern(code: string, pos: nat, i: nat): (m: Match)
    requires pos < |code| && i < PatternCount
    requires i <= Rank(NEWLINE) || code[pos] != '\n'
    ensures 1 <= m.len && pos + m.len <= |code|
    ensures Rank(m.kind) <= Rank(UNKNOWN) && m.kind != ERROR && m.kind != EOF
    decreases PatternCount - i, 0
  {
    var r := PatternAt(PatternKind(i), code, pos);
    if r.Some? then Match(PatternKind(i), r.value)
    else FirstMatch(code, pos, i + 1)
  }

  /**
   * UNKNOWN (`.`), the last pattern, matches every character but a line
   * break, and NEWLINE matches a line break, so the search never runs off the
   * end: it finds the first pattern of the pattern list from position `i` on that matches.
   */
  lemma {:induction false} FirstMatchIsFirst(code: string, pos: nat, i: nat)
    requires pos < |code| && i < PatternCount
    requires i <= Rank(NEWLINE) || code[pos] != '\n'
    ensures var m := FirstMatch(code, pos, i);
      && PatternAt(m.kind, code, pos) == Some(m.len)
      && i <= Rank(m.kind) && PatternKind(Rank(m.kind)) == m.kind
      && forall j :: i <= j < Rank(m.kind) ==> PatternAt(PatternKind(j), code, pos).None?
    decreases PatternCount - i
  {
    assert FirstMatch(code, pos, i) == TryPattern(code, pos, i);
    if PatternAt(PatternKind(i), code, pos).None? {
      FirstMatchIsFirst(code, pos, i + 1);
    }
  }

  /**
   * The match at `pos`: the patterns are tried in declaration order and the
   * first that matches wins.
   */
  function MatchAt(code: string, pos: nat): (m: Match)
    requires pos < |code|
    ensures 1 <= m.len && pos + m.len <= |code|
    ensures Rank(m.kind) <= Rank(UNKNOWN) && m.kind != ERROR && m.kind != EOF
  {
    FirstMatch(code, pos, 0)
  }

  /** The winning pattern matches the winning text. */
  lemma MatchAtMatches(code: string, pos: nat)
    requires pos < |code|
    ensures PatternAt(MatchAt(code, pos).kind, code, pos) == Some(MatchAt(code, pos).len)
  {
    FirstMatchIsFirst(code, pos, 0);
  }

  /**
   * The winning pattern matches the winning text, and no pattern declared
   * before it matches at `pos`.
   */
  lemma MatchAtIsFirst(code: string, pos: nat)
    requires pos < |code|
    ensures var m := MatchAt(code, pos);
      && PatternAt(m.kind, code, pos) == Some(m.len)
      && forall k :: Rank(k) < Rank(m.kind) ==> PatternAt(k, code, pos).None?
  {
    FirstMatchIsFirst(code, pos, 0);
    var m := MatchAt(code, pos);
    forall k | Rank(k) < Rank(m.kind)
      ensures PatternAt(k, code, pos).None?
    {
      assert PatternKind(Rank(k)) == k;
    }
  }

  /** None of the first `i` patterns of the pattern list matches at `pos`. */
  predicate MissesBefore(code: string, pos: nat, i: nat)
    requires pos < |code| && i <= PatternCount
  {
    i == 0 || (PatternAt(PatternKind(i - 1), code, pos).None? && MissesBefore(code, pos, i - 1))
  }

  lemma {:induction false} MissesBeforeEach(code: string, pos: nat, i: nat, j: nat)
    requires pos < |code| && i <= PatternCount && MissesBefore(code, pos, i) && j < i
    ensures PatternAt(PatternKind(j), code, pos).None?
  {
    if j < i - 1 {
      MissesBeforeEach(code, pos, i - 1, j);
    }
  }

  /** When the first `i` patterns miss, the search may as well start at pattern `i`. */
  lemma {:induction false} MissesBeforeSkips(code: string, pos: nat, i: nat)
    requires pos < |code| && i < PatternCount && MissesBefore(code, pos, i)
    ensures i <= Rank(NEWLINE) || code[pos] != '\n'
    ensures MatchAt(code, pos) == FirstMatch(code, pos, i)
  {
    if i > Rank(NEWLINE) {
      MissesBeforeEach(code, pos, i, Rank(NEWLINE));
    }
    if i > 0 {
      MissesBeforeSkips(code, pos, i - 1);
      assert FirstMatch(code, pos, i - 1) == TryPattern(code, pos, i - 1);
    }
  }

  /**
   * First-match-wins, stated independently of the search in MatchAt: a
   * pattern that matches, when no pattern declared before it does, is the
   * match.
   */
  lemma FirstMatchingPatternWins(code: string, pos: nat, k: Kind, n: nat)
    requires pos < |code| && Rank(k) <= Rank(UNKNOWN)
    requires PatternAt(k, code, pos) == Some(n)
    requires MissesBefore(code, pos, Rank(k))
    ensures MatchAt(code, pos) == Match(k, n)
  {
    MissesBeforeSkips(code, pos, Rank(k));
    assert PatternKind(Rank(k)) == k;
    assert FirstMatch(code, pos, Rank(k)) == TryPattern(code, pos, Rank(k));
  }

  /** `->` is one ARROW, not OP `-` followed by OP `>`. */
  lemma ArrowBeatsMinus(code: string, pos: nat)
    requires pos < |code| && Pair(code, pos, '-', '>')
    ensures MatchAt(code, pos) == Match(ARROW, 2)
  {
    assert Run(code, pos, Blank) == 0;
    assert MissesBefore(code, pos, 1);
    assert MissesBefore(code, pos, 2);
    assert MissesBefore(code, pos, 3);
    FirstMatchingPatternWins(code, pos, ARROW, 2);
  }

  /** `:=` is one ASSIGN token. */
  lemma ColonEqualsIsAssign(code: string, pos: nat)
    requires pos < |code| && Pair(code, pos, ':', '=')
    ensures MatchAt(code, pos) == Match(ASSIGN, 2)
  {
    assert Run(code, pos, Blank) == 0;
    assert MissesBefore(code, pos, 1);
    assert MissesBefore(code, pos, 2);
    assert MissesBefore(code, pos, 3);
    assert MissesBefore(code, pos, 4);
    FirstMatchingPatternWins(code, pos, ASSIGN, 2);
  }

  /** `==`, `<=`, `>=` and `!=` are single two-character OP tokens. */
  lemma TwoCharOperatorIsOneToken(code: string, pos: nat)
    requires pos < |code|
    requires Pair(code, pos, '=', '=') || Pair(code, pos, '<', '=')
          || Pair(code, pos, '>', '=') || Pair(code, pos, '!', '=')
    ensures MatchAt(code, pos) == Match(OP, 2)
  {
    assert Run(code, pos, Blank) == 0;
    assert MissesBefore(code, pos, 1);
    assert MissesBefore(code, pos, 2);
    assert MissesBefore(code, pos, 3);
    assert MissesBefore(code, pos, 4);
    assert MissesBefore(code, pos, 5);
    FirstMatchingPatternWins(code, pos, OP, 2);
  }

  /** Every OP token text is an operator of one of the parser's four binary tiers. */
  lemma OperatorHasTier(code: string, pos: nat)
    requires pos < |code| && MatchAt(code, pos).kind == OP
    ensures 1 <= Syntax.OpLevel(code[pos..pos + MatchAt(code, pos).len]) <= 4
  {
    MatchAtMatches(code, pos);
    var n := MatchAt(code, pos).len;
    if n == 1 {
      assert code[pos..pos + 1] == [code[pos]];
    } else {
      assert code[pos..pos + 2] == [code[pos], code[pos + 1]];
    }
  }

  /**
   * A KEYWORD is recognised only as a whole word: it is one of the keywords,
   * with no word character on either side.
   */
  lemma KeywordIsWholeWord(code: string, pos: nat)
    requires pos < |code| && MatchAt(code, pos).kind == KEYWORD
    ensures var n := MatchAt(code, pos).len;
      code[pos..pos + n] in Keywords && BoundaryBefore(code, pos) && BoundaryAfter(code, pos + n)
  {
    MatchAtMatches(code, pos);
  }

  /** No pattern declared before KEYWORD matches at a word character. */
  lemma EarlyPatternsMissWord(code: string, pos: nat)
    requires pos < |code| && IsWordChar(code[pos])
    ensures MissesBefore(code, pos, Rank(KEYWORD))
  {
    assert Run(code, pos, Blank) == 0;
    assert MissesBefore(code, pos, 1);
    assert MissesBefore(code, pos, 2);
    assert MissesBefore(code, pos, 3);
    assert MissesBefore(code, pos, 4);
    assert MissesBefore(code, pos, 5);
    assert MissesBefore(code, pos, 6);
    assert MissesBefore(code, pos, 7);
    assert MissesBefore(code, pos, 8);
    assert MissesBefore(code, pos, 9);
    assert MissesBefore(code, pos, 10);
  }

  /** A keyword in the text starts with a letter, one of the initials of the keywords. */
  lemma KeywordStartsWord(code: string, pos: nat, n: nat)
    requires pos + n <= |code| && code[pos..pos + n] in Keywords
    ensures n >= 2 && IsIdentStart(code[pos]) && code[pos] in "itefdo"
  {
    var w := code[pos..pos + n];
    KeywordLetters(w);
    assert w[0] == code[pos];
  }

  /** No keyword starts with a letter that is not one of their initials. */
  lemma NotKeywordInitial(code: string, pos: nat)
    requires pos < |code| && code[pos] !in "itefdo"
    ensures KeywordFrom(code, pos, Keywords).None?
  {
    var r := KeywordFrom(code, pos, Keywords);
    if r.Some? {
      KeywordStartsWord(code, pos, r.value);
    }
  }

  /** No keyword starts with a character that is not a letter or `_`. */
  lemma NoKeywordAt(code: string, pos: nat)
    requires pos < |code| && !IsIdentStart(code[pos])
    ensures KeywordFrom(code, pos, Keywords).None?
  {
    var r := KeywordFrom(code, pos, Keywords);
    if r.Some? {
      KeywordStartsWord(code, pos, r.value);
    }
  }

  /**
   * A text that starts with a letter or `_` is a KEYWORD exactly when it
   * starts at a word boundary with a keyword that ends at one; otherwise it is
   * an IDENT that runs to the end of the word (so `ifx`, `if1` and the `if`
   * of `1if` are identifiers).
   */
  lemma WordIsKeywordOrIdent(code: string, pos: nat)
    requires pos < |code| && IsIdentStart(code[pos])
    ensures var m := MatchAt(code, pos);
      && (m.kind == KEYWORD || m.kind == IDENT)
      && (m.kind == KEYWORD <==> BoundaryBefore(code, pos) && KeywordFrom(code, pos, Keywords).Some?)
      && (m.kind == IDENT ==> m.len == 1 + Run(code, pos + 1, Word) && BoundaryAfter(code, pos + m.len))
  {
    if BoundaryBefore(code, pos) && KeywordFrom(code, pos, Keywords).Some? {
      var n := KeywordFrom(code, pos, Keywords).value;
      KeywordPatternAt(code, pos, n);
      WordIsKeyword(code, pos, n);
    } else {
      WordIsIdent(code, pos);
    }
  }

  /** The KEYWORD pattern `\b(?:if|then|else|fi|do|od)\b` at a word boundary. */
  lemma KeywordPatternAt(code: string, pos: nat, n: nat)
    requires pos < |code| && BoundaryBefore(code, pos) && KeywordFrom(code, pos, Keywords) == Some(n)
    ensures PatternAt(KEYWORD, code, pos) == Some(n)
  {
  }

  lemma WordIsKeyword(code: string, pos: nat, n: nat)
    requires pos < |code| && IsWordChar(code[pos]) && PatternAt(KEYWORD, code, pos) == Some(n)
    ensures MatchAt(code, pos) == Match(KEYWORD, n)
  {
    EarlyPatternsMissWord(code, pos);
    FirstMatchingPatternWins(code, pos, KEYWORD, n);
  }

  /** The alternatives of `ws` are non-empty and no two of them start with the same letter. */
  predicate DistinctInitials(ws: seq<string>) {
    && (forall i :: 0 <= i < |ws| ==> ws[i] != [])
    && (forall i, j :: 0 <= i < |ws| && 0 <= j < |ws| && ws[i][0] == ws[j][0] ==> i == j)
  }

  lemma {:induction false} LitAt(code: string, pos: nat, lit: string)
    requires pos + |lit| <= |code| && code[pos..pos + |lit|] == lit
    ensures Lit(code, pos, lit)
    decreases lit
  {
    if lit != [] {
      assert code[pos] == lit[0];
      assert code[pos + 1..pos + 1 + |lit[1..]|] == lit[1..];
      LitAt(code, pos + 1, lit[1..]);
    }
  }

  /** With distinct initials, the search finds the alternative that occurs followed by a boundary. */
  lemma {:induction false} KeywordFromFinds(code: string, pos: nat, ws: seq<string>, k: nat)
    requires k < |ws| && DistinctInitials(ws)
    requires pos + |ws[k]| <= |code| && code[pos..pos + |ws[k]|] == ws[k] && BoundaryAfter(code, pos + |ws[k]|)
    ensures KeywordFrom(code, pos, ws) == Some(|ws[k]|)
    decreases k
  {
    if k == 0 {
      LitAt(code, pos, ws[0]);
    } else {
      assert ws[k][0] == code[pos] != ws[0][0];
      assert !Lit(code, pos, ws[0]);
      assert forall i :: 0 <= i < |ws[1..]| ==> ws[1..][i] == ws[i + 1];
      KeywordFromFinds(code, pos, ws[1..], k - 1);
    }
  }

  /**
   * The converse of KeywordIsWholeWord: a keyword with a word boundary on
   * both sides is one KEYWORD token, never an identifier.
   */
  lemma KeywordRecognised(code: string, pos: nat, w: string)
    requires w in Keywords && pos + |w| <= |code| && code[pos..pos + |w|] == w
    requires BoundaryBefore(code, pos) && BoundaryAfter(code, pos + |w|)
    ensures MatchAt(code, pos) == Match(KEYWORD, |w|)
  {
    var k :| 0 <= k < |Keywords| && Keywords[k] == w;
    assert DistinctInitials(Keywords);
    KeywordFromFinds(code, pos, Keywords, k);
    KeywordLetters(w);
    assert code[pos] == w[0];
    KeywordPatternAt(code, pos, |w|);
    WordIsKeyword(code, pos, |w|);
  }

  lemma WordIsIdent(code: string, pos: nat)
    requires pos < |code| && IsIdentStart(code[pos])
    requires !(BoundaryBefore(code, pos) && KeywordFrom(code, pos, Keywords).Some?)
    ensures var m := MatchAt(code, pos);
      m.kind == IDENT && m.len == 1 + Run(code, pos + 1, Word) && BoundaryAfter(code, pos + m.len)
  {
    EarlyPatternsMissWord(code, pos);
    assert Run(code, pos, Digit) == 0;
    assert MissesBefore(code, pos, 11);
    assert MissesBefore(code, pos, 12);
    FirstMatchingPatternWins(code, pos, IDENT, 1 + Run(code, pos + 1, Word));
    IdentEndsAtBoundary(code, pos);
  }

  /** The IDENT pattern `[A-Za-z_]\w*` runs to the end of the word. */
  lemma IdentEndsAtBoundary(code: string, pos: nat)
    requires pos < |code|
    ensures BoundaryAfter(code, pos + 1 + Run(code, pos + 1, Word))
  {
    RunIsMaximal(code, pos + 1, Word);
  }

  /**
   * A digit starts a NUMBER exactly when its run of digits is a whole word;
   * otherwise it is an UNKNOWN character of its own (so `12abc` starts with
   * two single-digit errors).
   */
  lemma DigitIsNumberOrUnknown(code: string, pos: nat)
    requires pos < |code| && IsDigit(code[pos])
    ensures var m := MatchAt(code, pos); var n := Run(code, pos, Digit);
      if BoundaryBefore(code, pos) && BoundaryAfter(code, pos + n) then m == Match(NUMBER, n)
      else m == Match(UNKNOWN, 1)
  {
    if BoundaryBefore(code, pos) && BoundaryAfter(code, pos + Run(code, pos, Digit)) {
      DigitIsNumber(code, pos);
    } else {
      DigitIsUnknown(code, pos);
    }
  }

  lemma DigitIsNumber(code: string, pos: nat)
    requires pos < |code| && IsDigit(code[pos])
    requires BoundaryBefore(code, pos) && BoundaryAfter(code, pos + Run(code, pos, Digit))
    ensures MatchAt(code, pos) == Match(NUMBER, Run(code, pos, Digit))
  {
    EarlyPatternsMissWord(code, pos);
    NoKeywordAt(code, pos);
    assert MissesBefore(code, pos, 11);
    FirstMatchingPatternWins(code, pos, NUMBER, Run(code, pos, Digit));
  }

  lemma DigitIsUnknown(code: string, pos: nat)
    requires pos < |code| && IsDigit(code[pos])
    requires !(BoundaryBefore(code, pos) && BoundaryAfter(code, pos + Run(code, pos, Digit)))
    ensures MatchAt(code, pos) == Match(UNKNOWN, 1)
  {
    EarlyPatternsMissWord(code, pos);
    NoKeywordAt(code, pos);
    assert MissesBefore(code, pos, 11);
    assert MissesBefore(code, pos, 12);
    assert MissesBefore(code, pos, 13);
    FirstMatchingPatternWins(code, pos, UNKNOWN, 1);
  }

  /** A blank starts a WHITESPACE match that takes the whole run of blanks. */
  lemma BlankIsWhitespace(code: string, pos: nat)
    requires pos < |code| && InClass(code[pos], Blank)
    ensures MatchAt(code, pos) == Match(WHITESPACE, Run(code, pos, Blank))
  {
    assert MissesBefore(code, pos, 1);
    assert MissesBefore(code, pos, 2);
    FirstMatchingPatternWins(code, pos, WHITESPACE, Run(code, pos, Blank));
  }

  /** The characters no pattern before UNKNOWN can start with. */
  predicate Unrecognised(c: char) {
    !IsWordChar(c) && c !in "/\n \t\r-:=<>!+*()|;"
  }

  /**
   * An unrecognised character such as `@`, a lone `=`, a lone `!` and a lone
   * `:` is a one-character UNKNOWN match.
   */
  lemma StrayCharacterIsUnknown(code: string, pos: nat)
    requires pos < |code|
    requires Unrecognised(code[pos])
          || (code[pos] in "=!:" && (pos + 1 == |code| || code[pos + 1] != '='))
    ensures MatchAt(code, pos) == Match(UNKNOWN, 1)
  {
    assert Run(code, pos, Blank) == 0;
    assert Run(code, pos, Digit) == 0;
    NoKeywordAt(code, pos);
    assert MissesBefore(code, pos, 1);
    assert MissesBefore(code, pos, 2);
    assert MissesBefore(code, pos, 3);
    assert MissesBefore(code, pos, 4);
    assert MissesBefore(code, pos, 5);
    assert MissesBefore(code, pos, 6);
    assert MissesBefore(code, pos, 7);
    assert MissesBefore(code, pos, 8);
    assert MissesBefore(code, pos, 9);
    assert MissesBefore(code, pos, 10);
    assert MissesBefore(code, pos, 11);
    assert MissesBefore(code, pos, 12);
    assert MissesBefore(code, pos, 13);
    FirstMatchingPatternWins(code, pos, UNKNOWN, 1);
  }

  // ---------------------------------------------------------------------
  // Lines and columns
  // ---------------------------------------------------------------------

  /** The 1-based line of offset `i`: one more than the line breaks before it. */
  function LineAt(code: string, i: nat): (l: nat)
    requires i <= |code|
    ensures l >= 1
  {
    if i == 0 then 1 else LineAt(code, i - 1) + (if code[i - 1] == '\n' then 1 else 0)
  }

  /** The offset at which the line holding offset `i` begins. */
  function LineStart(code: string, i: nat): (s: nat)
    requires i <= |code|
    ensures s <= i
  {
    if i == 0 then 0 else if code[i - 1] == '\n' then i else LineStart(code, i - 1)
  }

  /** A line starts at the text's start or just after a line break, and holds no line break before `i`. */
  lemma {:induction false} LineStartIsAfterBreak(code: string, i: nat)
    requires i <= |code|
    ensures var s := LineStart(code, i);
      && (s == 0 || code[s - 1] == '\n')
      && forall j :: s <= j < i ==> code[j] != '\n'
  {
    if i > 0 && code[i - 1] != '\n' {
      LineStartIsAfterBreak(code, i - 1);
    }
  }

  /** The 1-based column of offset `i`. */
  function ColAt(code: string, i: nat): nat
    requires i <= |code|
  {
    i - LineStart(code, i) + 1
  }

  /** The line of offset `i` is 1 plus the number of line breaks in `code[..i]`. */
  lemma {:induction false} LineCountsBreaks(code: string, i: nat)
    requires i <= |code|
    ensures LineAt(code, i) == 1 + multiset(code[..i])['\n']
  {
    if i > 0 {
      LineCountsBreaks(code, i - 1);
      assert code[..i] == code[..i - 1] + [code[i - 1]];
    }
  }

  /**
   * The column of offset `i` is 1 plus the number of characters since the
   * last line break before `i` (or since the start).
   */
  lemma {:induction false} ColCountsSinceBreak(code: string, i: nat, s: nat)
    requires s <= i <= |code|
    requires s == 0 || code[s - 1] == '\n'
    requires forall j :: s <= j < i ==> code[j] != '\n'
    ensures ColAt(code, i) == i - s + 1
  {
    if i > s {
      ColCountsSinceBreak(code, i - 1, s);
    }
  }

  /** Moving over text without line breaks keeps the line and adds to the column. */
  lemma {:induction false} AdvanceWithinLine(code: string, pos: nat, n: nat)
    requires pos + n <= |code|
    requires forall j :: pos <= j < pos + n ==> code[j] != '\n'
    ensures LineAt(code, pos + n) == LineAt(code, pos)
    ensures ColAt(code, pos + n) == ColAt(code, pos) + n
  {
    if n > 0 {
      AdvanceWithinLine(code, pos, n - 1);
    }
  }

  /** Moving over a line break starts the next line at its first column. */
  lemma AdvancePastBreak(code: string, pos: nat)
    requires pos < |code| && code[pos] == '\n'
    ensures LineAt(code, pos + 1) == LineAt(code, pos) + 1
    ensures ColAt(code, pos + 1) == 1
  {
  }

  // ---------------------------------------------------------------------
  // The token list
  // ---------------------------------------------------------------------

  /**
   * Only NEWLINE matches a line break: a line break is a one-character NEWLINE,
   * and the text of any other match holds no line break.
   */
  lemma MatchLineBreaks(code: string, pos: nat)
    requires pos < |code|
    ensures var m := MatchAt(code, pos);
      && (m.kind == NEWLINE <==> code[pos] == '\n')
      && (m.kind == NEWLINE ==> m.len == 1)
      && (m.kind != NEWLINE ==> forall j :: pos <= j < pos + m.len ==> code[j] != '\n')
  {
    MatchAtMatches(code, pos);
    var m := MatchAt(code, pos);
    match m.kind {
      case COMMENT => RunHasNoBreak(code, pos + 2, NotNewline);
      case WHITESPACE => RunHasNoBreak(code, pos, Blank);
      case KEYWORD => KeywordHasNoBreak(code, pos, m.len);
      case NUMBER => RunHasNoBreak(code, pos, Digit);
      case IDENT => RunHasNoBreak(code, pos + 1, Word);
      case _ =>
    }
  }

  /** No character class of the patterns holds a line break, so no run does. */
  lemma RunHasNoBreak(code: string, pos: nat, cls: CharClass)
    requires pos <= |code|
    ensures forall j :: pos <= j < pos + Run(code, pos, cls) ==> code[j] != '\n'
  {
    RunIsMaximal(code, pos, cls);
  }

  /** A keyword is made of letters only. */
  lemma KeywordHasNoBreak(code: string, pos: nat, n: nat)
    requires pos + n <= |code| && code[pos..pos + n] in Keywords
    ensures forall j :: pos <= j < pos + n ==> code[j] != '\n'
  {
    var w := code[pos..pos + n];
    KeywordLetters(w);
    forall j | pos <= j < pos + n
      ensures code[j] != '\n'
    {
      assert code[j] == w[j - pos];
    }
  }

  /** Kinds never emitted: the layout kinds, UNKNOWN (emitted as ERROR) and EOF. */
  predicate Skipped(k: Kind) {
    k == NEWLINE || k == WHITESPACE || k == COMMENT
  }

  /** The token for the match at `pos`: an UNKNOWN match is tagged ERROR. */
  function TokenFor(code: string, pos: nat): Token
    requires pos < |code|
  {
    var m := MatchAt(code, pos);
    Token(if m.kind == UNKNOWN then ERROR else m.kind, code[pos..pos + m.len], LineAt(code, pos), ColAt(code, pos), pos)
  }

  /**
   * What every emitted token satisfies: it lies in the text, it is not a
   * layout match, and it is the token for the match at its offset.
   */
  predicate Emitted(code: string, t: Token) {
    0 <= t.index < |code| && !Skipped(MatchAt(code, t.index).kind) && t == TokenFor(code, t.index)
  }

  /**
   * An emitted token is the winning match at its offset (ERROR standing for
   * UNKNOWN), its value is the non-empty text it covers, an ERROR token is
   * one character other than a line break, and its line and column are
   * those of its offset.
   */
  lemma EmittedToken(code: string, t: Token)
    requires Emitted(code, t)
    ensures t.kind != NEWLINE && t.kind != WHITESPACE && t.kind != COMMENT
    ensures t.kind != UNKNOWN && t.kind != EOF
    ensures MatchAt(code, t.index) == Match(if t.kind == ERROR then UNKNOWN else t.kind, |t.value|)
    ensures 1 <= |t.value| && t.index + |t.value| <= |code|
    ensures t.value == code[t.index..t.index + MatchAt(code, t.index).len]
    ensures t.kind == ERROR ==> |t.value| == 1 && t.value[0] != '\n'
    ensures t.line == LineAt(code, t.index) && t.col == ColAt(code, t.index)
  {
    if t.kind == ERROR {
      UnknownIsOneCharacter(code, t.index);
    }
  }

  /**
   * The token for the match at `pos` carries that match's kind (UNKNOWN
   * renamed ERROR, and only UNKNOWN), the text it covers and its position.
   */
  lemma TokenFacts(code: string, pos: nat, t: Token)
    requires pos < |code| && t == TokenFor(code, pos)
    ensures t.kind != UNKNOWN && (t.kind == ERROR <==> MatchAt(code, pos).kind == UNKNOWN)
    ensures MatchAt(code, pos) == Match(if t.kind == ERROR then UNKNOWN else t.kind, |t.value|)
    ensures 1 <= |t.value| && pos + |t.value| <= |code| && t.value == code[pos..pos + |t.value|]
    ensures t.kind == ERROR ==> |t.value| == 1 && t.value[0] != '\n'
    ensures t.line == LineAt(code, pos) && t.col == ColAt(code, pos) && t.index == pos
  {
    if MatchAt(code, pos).kind == UNKNOWN {
      UnknownIsOneCharacter(code, pos);
    }
  }

  /** UNKNOWN, the pattern `.`, matches one character other than a line break. */
  lemma UnknownIsOneCharacter(code: string, pos: nat)
    requires pos < |code| && MatchAt(code, pos).kind == UNKNOWN
    ensures MatchAt(code, pos).len == 1 && code[pos] != '\n'
  {
    MatchAtMatches(code, pos);
  }

  /** Tokens appear in source order and do not overlap. */
  predicate InSourceOrder(ts: seq<Token>) {
    forall i, j :: 0 <= i < j < |ts| ==> ts[i].index + |ts[i].value| <= ts[j].index
  }

  /** The token the scan emits for the match at `pos`, if it emits one. */
  function Emit(code: string, pos: nat): seq<Token>
    requires pos < |code|
  {
    if Skipped(MatchAt(code, pos).kind) then [] else [TokenFor(code, pos)]
  }

  /** The tokens the scan emits from offset `pos` on. */
  function ScanFrom(code: string, pos: nat): (ts: seq<Token>)
    requires pos <= |code|
    ensures |ts| <= |code| - pos
    decreases |code| - pos
  {
    if pos == |code| then [] else Emit(code, pos) + ScanFrom(code, pos + MatchAt(code, pos).len)
  }

  /** Every token the scan emits from `pos` on is Emitted and lies at or after `pos`. */
  lemma {:induction false} ScanFromEmitted(code: string, pos: nat)
    requires pos <= |code|
    ensures forall i :: 0 <= i < |ScanFrom(code, pos)| ==>
      pos <= ScanFrom(code, pos)[i].index && Emitted(code, ScanFrom(code, pos)[i])
    decreases |code| - pos
  {
    if pos < |code| {
      var next := pos + MatchAt(code, pos).len;
      ScanFromEmitted(code, next);
      ScanFromUnfold(code, pos);
      EmitIsEmitted(code, pos);
      AllFrom(ScanFrom(code, pos), Emit(code, pos), ScanFrom(code, next), pos, next, code);
    }
  }

  /** The token emitted for the match at `pos`, if any, is Emitted at `pos`. */
  lemma EmitIsEmitted(code: string, pos: nat)
    requires pos < |code|
    ensures forall i :: 0 <= i < |Emit(code, pos)| ==>
      pos <= Emit(code, pos)[i].index && Emitted(code, Emit(code, pos)[i])
  {
  }

  /** Tokens that are Emitted at or after `pos`, followed by more such tokens from `next` on. */
  lemma AllFrom(ts: seq<Token>, e: seq<Token>, rest: seq<Token>, pos: nat, next: nat, code: string)
    requires ts == e + rest && pos <= next
    requires forall i :: 0 <= i < |e| ==> pos <= e[i].index && Emitted(code, e[i])
    requires forall i :: 0 <= i < |rest| ==> next <= rest[i].index && Emitted(code, rest[i])
    ensures forall i :: 0 <= i < |ts| ==> pos <= ts[i].index && Emitted(code, ts[i])
  {
    forall i | 0 <= i < |ts|
      ensures pos <= ts[i].index && Emitted(code, ts[i])
    {
      if i >= |e| {
        assert ts[i] == rest[i - |e|];
      }
    }
  }

  /** The tokens the scan emits from `pos` on are in source order and do not overlap. */
  lemma {:induction false} ScanFromInOrder(code: string, pos: nat)
    requires pos <= |code|
    ensures InSourceOrder(ScanFrom(code, pos))
    ensures forall i :: 0 <= i < |ScanFrom(code, pos)| ==> pos <= ScanFrom(code, pos)[i].index
    decreases |code| - pos
  {
    if pos < |code| {
      var next := pos + MatchAt(code, pos).len;
      ScanFromInOrder(code, next);
      ScanFromUnfold(code, pos);
      EmitAt(code, pos);
      InOrderStep(ScanFrom(code, pos), Emit(code, pos), ScanFrom(code, next), pos, next);
    }
  }

  /** At most one token covering [pos, next), then tokens in order from `next` on, are in order. */
  lemma InOrderStep(ts: seq<Token>, e: seq<Token>, rest: seq<Token>, pos: nat, next: nat)
    requires ts == e + rest && pos <= next && |e| <= 1
    requires |e| == 1 ==> e[0].index == pos && pos + |e[0].value| == next
    requires InSourceOrder(rest)
    requires forall i :: 0 <= i < |rest| ==> next <= rest[i].index
    ensures InSourceOrder(ts)
    ensures forall i :: 0 <= i < |ts| ==> pos <= ts[i].index
  {
    forall i, j | 0 <= i < j < |ts|
      ensures ts[i].index + |ts[i].value| <= ts[j].index
    {
      assert ts[j] == rest[j - |e|];
      if i >= |e| {
        assert ts[i] == rest[i - |e|];
      }
    }
    forall i | 0 <= i < |ts|
      ensures pos <= ts[i].index
    {
      if i >= |e| {
        assert ts[i] == rest[i - |e|];
      }
    }
  }

  /** The token emitted for the match at `pos`, if any, covers exactly that match. */
  lemma EmitAt(code: string, pos: nat)
    requires pos < |code|
    ensures |Emit(code, pos)| <= 1
    ensures |Emit(code, pos)| == 1 ==>
      Emit(code, pos)[0].index == pos && pos + |Emit(code, pos)[0].value| == pos + MatchAt(code, pos).len
  {
  }

  lemma ScanFromUnfold(code: string, start: nat)
    requires start < |code|
    ensures ScanFrom(code, start) == Emit(code, start) + ScanFrom(code, start + MatchAt(code, start).len)
  {
  }

  lemma AppendAssoc<T>(a: seq<T>, b: seq<T>, c: seq<T>)
    ensures (a + b) + c == a + (b + c)
  {
  }

  /** Where the scan stands after the match at `start`: a line break starts a new line, any other match moves along the line. */
  lemma PositionAfter(code: string, start: nat)
    requires start < |code|
    ensures var m := MatchAt(code, start); var next := start + m.len;
      if m.kind == NEWLINE then LineAt(code, next) == LineAt(code, start) + 1 && ColAt(code, next) == 1
      else LineAt(code, next) == LineAt(code, start) && ColAt(code, next) == ColAt(code, start) + m.len
  {
    MatchLineBreaks(code, start);
    var m := MatchAt(code, start);
    if m.kind == NEWLINE {
      AdvancePastBreak(code, start);
    } else {
      AdvanceWithinLine(code, start, m.len);
    }
  }

  /** The token list of a whole source text. */
  function Tokenize(code: string): (ts: seq<Token>)
    ensures code == [] ==> ts == []
  {
    ScanFrom(code, 0)
  }

  /** Every token is Emitted, and the offsets increase strictly. */
  lemma TokenizeSound(code: string)
    ensures forall i :: 0 <= i < |Tokenize(code)| ==> Emitted(code, Tokenize(code)[i])
    ensures forall i, j :: 0 <= i < j < |Tokenize(code)| ==> Tokenize(code)[i].index < Tokenize(code)[j].index
  {
    ScanFromEmitted(code, 0);
    ScanFromInOrder(code, 0);
    var ts := Tokenize(code);
    forall i, j | 0 <= i < j < |ts|
      ensures ts[i].index < ts[j].index
    {
      EmittedToken(code, ts[i]);
      assert ts[i].index + |ts[i].value| <= ts[j].index;
    }
  }

  /**
   * The scanner loop. It keeps the line and column incrementally, as the
   * source does, and yields exactly the token list of Tokenize.
   */
  method Lex(code: string) returns (tokens: seq<Token>)
    ensures tokens == Tokenize(code)
  {
    tokens := [];
    var line, col, pos := 1, 1, 0;
    var length := |code|;
    ghost var all := Tokenize(code);
    while pos < length
      invariant pos <= length
      invariant line == LineAt(code, pos) && col == ColAt(code, pos)
      invariant tokens + ScanFrom(code, pos) == all
      decreases length - pos
    {
      var m := MatchAt(code, pos);
      var start := pos;
      var value := code[start..start + m.len];
      PositionAfter(code, start);
      ghost var before := tokens;
      pos := start + m.len;
      if m.kind == NEWLINE {
        line := line + 1;
        col := 1;
      } else {
        if m.kind == UNKNOWN {
          tokens := tokens + [Token(ERROR, value, line, col, start)];
        } else if !(m.kind == WHITESPACE || m.kind == COMMENT) {
          tokens := tokens + [Token(m.kind, value, line, col, start)];
        }
        col := col + |value|;
      }
      assert tokens == before + Emit(code, start);
      ScanFromUnfold(code, start);
      AppendAssoc(before, Emit(code, start), ScanFrom(code, pos));
    }
  }
}
