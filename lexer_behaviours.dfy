/**
 * Concrete scans showing the priority order and the two-sided word
 * boundary of KEYWORD and NUMBER.
 */
module LexerBehaviours {
  import opened Tokens
  import opened Lexer
  import Grammar

  /** A match that is not layout adds its token in front of the rest of the scan. */
  lemma EmitStep(code: string, pos: nat, k: Kind, n: nat, line: nat, col: nat)
    requires pos < |code| && MatchAt(code, pos) == Match(k, n) && !Skipped(k)
    requires LineAt(code, pos) == line && ColAt(code, pos) == col
    ensures pos + n <= |code|
    ensures ScanFrom(code, pos)
         == [Token(if k == UNKNOWN then ERROR else k, code[pos..pos + n], line, col, pos)]
          + ScanFrom(code, pos + n)
  {
    ScanFromUnfold(code, pos);
    assert Emit(code, pos) == [TokenFor(code, pos)];
  }

  /** `if` standing alone is one KEYWORD token. */
  lemma KeywordAlone(code: string)
    requires code == "if"
    ensures Tokenize(code) == [Token(KEYWORD, "if", 1, 1, 0)]
  {
    KeywordRecognised(code, 0, "if");
    EmitStep(code, 0, KEYWORD, 2, 1, 1);
    assert code[0..2] == "if";
  }

  /** `ifx` is one identifier: the keyword `if` is not followed by a boundary. */
  lemma KeywordPrefixIsIdent(code: string)
    requires code == "ifx"
    ensures Tokenize(code) == [Token(IDENT, "ifx", 1, 1, 0)]
  {
    KeywordPrefixMatch(code);
    EmitStep(code, 0, IDENT, 3, 1, 1);
    assert code[0..3] == "ifx";
  }

  lemma KeywordPrefixMatch(code: string)
    requires code == "ifx"
    ensures MatchAt(code, 0) == Match(IDENT, 3)
  {
    assert KeywordFrom(code, 0, Keywords).None?;
    assert Run(code, 3, Word) == 0;
    assert Run(code, 2, Word) == 1;
    WordIsIdent(code, 0);
  }

  /**
   * `12abc`: the digits are not a whole word, so NUMBER does not match and
   * each digit is an ERROR; `abc` is an identifier.
   */
  lemma DigitsGluedToWord(code: string)
    requires code == "12abc"
    ensures Tokenize(code)
         == [Token(ERROR, "1", 1, 1, 0), Token(ERROR, "2", 1, 2, 1), Token(IDENT, "abc", 1, 3, 2)]
  {
    DigitsGluedToWordMatches(code);
    EmitStep(code, 0, UNKNOWN, 1, 1, 1);
    EmitStep(code, 1, UNKNOWN, 1, 1, 2);
    EmitStep(code, 2, IDENT, 3, 1, 3);
    assert code[0..1] == "1" && code[1..2] == "2" && code[2..5] == "abc";
  }

  lemma DigitsGluedToWordMatches(code: string)
    requires code == "12abc"
    ensures MatchAt(code, 0) == Match(UNKNOWN, 1)
    ensures MatchAt(code, 1) == Match(UNKNOWN, 1)
    ensures MatchAt(code, 2) == Match(IDENT, 3)
  {
    assert Run(code, 2, Digit) == 0;
    assert Run(code, 1, Digit) == 1;
    assert Run(code, 0, Digit) == 2;
    DigitIsUnknown(code, 0);
    DigitIsUnknown(code, 1);
    assert Run(code, 5, Word) == 0;
    assert Run(code, 4, Word) == 1;
    assert Run(code, 3, Word) == 2;
    WordIsIdent(code, 2);
  }

  /** `1if`: the keyword has a word character before it, so `if` is an identifier. */
  lemma DigitGluedToKeyword(code: string)
    requires code == "1if"
    ensures Tokenize(code) == [Token(ERROR, "1", 1, 1, 0), Token(IDENT, "if", 1, 2, 1)]
  {
    DigitGluedToKeywordMatches(code);
    EmitStep(code, 0, UNKNOWN, 1, 1, 1);
    EmitStep(code, 1, IDENT, 2, 1, 2);
    assert code[0..1] == "1" && code[1..3] == "if";
  }

  lemma DigitGluedToKeywordMatches(code: string)
    requires code == "1if"
    ensures MatchAt(code, 0) == Match(UNKNOWN, 1)
    ensures MatchAt(code, 1) == Match(IDENT, 2)
  {
    assert Run(code, 1, Digit) == 0;
    assert Run(code, 0, Digit) == 1;
    DigitIsUnknown(code, 0);
    assert Run(code, 3, Word) == 0;
    assert Run(code, 2, Word) == 1;
    WordIsIdent(code, 1);
  }

  /** A layout match adds no token. */
  lemma SkipStep(code: string, pos: nat)
    requires pos < |code| && Skipped(MatchAt(code, pos).kind)
    ensures ScanFrom(code, pos) == ScanFrom(code, pos + MatchAt(code, pos).len)
  {
    ScanFromUnfold(code, pos);
  }

  /**
   * `a`, a line break, a blank and `@`: the line break and the blank are
   * skipped, and the stray `@` is an ERROR on line 2, column 2.
   */
  lemma ErrorOnSecondLine(code: string)
    requires code == "a\n @"
    ensures Tokenize(code) == [Token(IDENT, "a", 1, 1, 0), Token(ERROR, "@", 2, 2, 3)]
  {
    ErrorOnSecondLineMatches(code);
    assert LineAt(code, 3) == 2 && ColAt(code, 3) == 2 by {
      AdvancePastBreak(code, 1);
      assert LineStart(code, 3) == 2;
    }
    EmitStep(code, 0, IDENT, 1, 1, 1);
    SkipStep(code, 1);
    SkipStep(code, 2);
    EmitStep(code, 3, UNKNOWN, 1, 2, 2);
    assert code[0..1] == "a" && code[3..4] == "@";
  }

  lemma ErrorOnSecondLineMatches(code: string)
    requires code == "a\n @"
    ensures MatchAt(code, 0) == Match(IDENT, 1)
    ensures MatchAt(code, 1) == Match(NEWLINE, 1)
    ensures MatchAt(code, 2) == Match(WHITESPACE, 1)
    ensures MatchAt(code, 3) == Match(UNKNOWN, 1)
  {
    LetterAlone(code, 0);
    MatchLineBreaks(code, 1);
    BlankBeforeAt(code, 2);
    AtSignIsUnknown(code, 3);
  }

  lemma LetterAlone(code: string, pos: nat)
    requires pos + 1 < |code| && code[pos] == 'a' && !IsWordChar(code[pos + 1])
    ensures MatchAt(code, pos) == Match(IDENT, 1)
  {
    assert Run(code, pos + 1, Word) == 0;
    NotKeywordInitial(code, pos);
    WordIsIdent(code, pos);
  }

  lemma BlankBeforeAt(code: string, pos: nat)
    requires pos + 1 < |code| && code[pos] == ' ' && code[pos + 1] == '@'
    ensures MatchAt(code, pos) == Match(WHITESPACE, 1)
  {
    assert Run(code, pos + 1, Blank) == 0;
    BlankIsWhitespace(code, pos);
  }

  lemma AtSignIsUnknown(code: string, pos: nat)
    requires pos < |code| && code[pos] == '@'
    ensures MatchAt(code, pos) == Match(UNKNOWN, 1)
  {
    StrayCharacterIsUnknown(code, pos);
  }

  /** `a @`: IDENT `a`, the blank skipped, then the stray `@` as an ERROR at column 3. */
  lemma StrayAtAfterName(code: string)
    requires code == "a @"
    ensures Tokenize(code) == [Token(IDENT, "a", 1, 1, 0), Token(ERROR, "@", 1, 3, 2)]
  {
    StrayAtAfterNameMatches(code);
    assert ColAt(code, 2) == 3 by {
      assert LineStart(code, 2) == 0;
    }
    EmitStep(code, 0, IDENT, 1, 1, 1);
    SkipStep(code, 1);
    EmitStep(code, 2, UNKNOWN, 1, 1, 3);
    assert code[0..1] == "a" && code[2..3] == "@";
  }

  lemma StrayAtAfterNameMatches(code: string)
    requires code == "a @"
    ensures MatchAt(code, 0) == Match(IDENT, 1)
    ensures MatchAt(code, 1) == Match(WHITESPACE, 1)
    ensures MatchAt(code, 2) == Match(UNKNOWN, 1)
  {
    LetterAlone(code, 0);
    BlankBeforeAt(code, 1);
    AtSignIsUnknown(code, 2);
  }

  /**
   * From source text to the parser's answer: `parse_tokens` reports the `@`
   * of `a @` as a lexical error before the grammar could object to the
   * unfinished assignment.
   */
  lemma LexicalErrorFromSource(code: string)
    requires code == "a @"
    ensures Grammar.TokensToProgram(Tokenize(code))
         == Grammar.Err(Grammar.ParseError(Grammar.LexicalErrors, Token(ERROR, "@", 1, 3, 2)))
  {
    StrayAtAfterName(code);
    var ts := [Token(IDENT, "a", 1, 1, 0), Token(ERROR, "@", 1, 3, 2)];
    assert Grammar.FirstErrorAt(ts) == 1;
    Grammar.LexicalErrorsComeFirst(ts);
  }
}
