# GCL front end: scanner and recursive-descent parser

This project models the front end of a small Guarded Command Language (GCL) tool:

- **The scanner `lex`.** It runs an ordered list of token patterns over the source text. At each offset the first pattern that matches wins. It skips line breaks, blanks and `//` comments while keeping track of line and column. It turns any character no pattern recognises into an `ERROR` token. Each token records its kind, its text, its line, its column and its offset.
- **The parser.** A `Parser` object holds a token list and a cursor. It has `peek` and `consume`, one method per grammar rule and four left-associative binary tiers: equality, relational, additive and term. It builds the nodes Program, If, Do, Guard, Assign, BinaryOp, Number and Ident.
- **`parse_tokens`.** It refuses any `ERROR` token before parsing, then parses the list with an EOF sentinel appended.

Modules:

- `Tokens` holds the token kinds and the token record.
- `Lexer` holds the ordered matcher `MatchAt`, the specification `ScanFrom`/`Tokenize` and the scanner loop `Lex`, which is proved equal to `Tokenize`.
- `Syntax` holds the syntax tree.
- `Grammar` states each grammar rule as a function from the unread tokens to an outcome: a node and the tokens left over, or an error of a given kind that carries a token.
- `Parsing` holds the `Parser` class. Each of its methods is proved to return what its grammar function says, with the cursor left at the tokens that function leaves over.
- `Printer` is an independent reference. It prints a syntax tree as tokens, and the model proves that parsing the printed tokens gives the tree back.
- `LexerBehaviours` and `ParserBehaviours` prove concrete behaviours of the scanner and the parser on fixed inputs.

Points where the model follows the code rather than the description of the language:

- The grammar comment at `app.py:86` reads `stmt (';' stmt)*`. The code makes each `;` optional (`x := 1 y := 2` is two statements). It takes at most one `;` after a statement, so a doubled `;;` ends the statement list (`DoubledSemicolonEndsProgram`).
- `parse_program` never checks for the end of input. Tokens after the last statement are ignored (`TrailingTokensIgnored`, `NumberAloneIsEmptyProgram`).
- The last pattern is called UNKNOWN, but the scanner emits those characters with the type `ERROR`.
- The `\b` in the KEYWORD and NUMBER patterns looks at the character before the match as well as the one after it. So `ifx` and the `if` in `1if` are identifiers, and `12abc` starts with two one-digit errors.

## Model

| member | source | states |
|---|---|---|
| Lexer.PatternAt | app.py:15-29 | each pattern of the list, matched at an offset, covers a non-empty text inside the source |
| Lexer.KeywordFrom | app.py:26 | a keyword match is a slice of the source that is one of `if then else fi do od` |
| Lexer.PatternKind | app.py:15-30 | the patterns are numbered in declaration order; none of them yields ERROR or EOF |
| Lexer.MatchAt | app.py:47 | the match at any offset is non-empty, stays inside the source and is never ERROR or EOF, so the scan always advances |
| Lexer.FirstMatchIsFirst | app.py:32-33 | the search from pattern `i` on returns a pattern that matches, and every pattern between `i` and it misses |
| Lexer.MatchAtMatches | app.py:55-58 | the winning pattern matches exactly the winning text |
| Lexer.MatchAtIsFirst | app.py:32-33 | the winning pattern matches and no pattern declared before it matches (first match wins, not longest) |
| Lexer.FirstMatchingPatternWins | app.py:32-33 | a pattern that matches when every earlier pattern misses is the match, with its own length |
| Lexer.MissesBeforeSkips | app.py:32-33 | when the first `i` patterns miss, the search may start at pattern `i` |
| Lexer.ArrowBeatsMinus | app.py:19 | `->` is one ARROW of length 2, not OP `-` then OP `>` |
| Lexer.ColonEqualsIsAssign | app.py:20 | `:=` is one ASSIGN of length 2 |
| Lexer.TwoCharOperatorIsOneToken | app.py:21 | `==`, `<=`, `>=` and `!=` are each one OP of length 2 |
| Lexer.OperatorHasTier | app.py:21 | every text the OP pattern matches is an operator of one of the parser's four binary tiers |
| Lexer.KeywordIsWholeWord | app.py:26 | a KEYWORD match is a keyword with a word boundary on both sides |
| Lexer.EarlyPatternsMissWord | app.py:16-25 | no pattern before KEYWORD matches at a word character |
| Lexer.KeywordStartsWord | app.py:26 | a keyword is at least two letters long and starts with one of `i t e f d o` |
| Lexer.NotKeywordInitial | app.py:26 | no keyword starts at a character other than `i t e f d o` |
| Lexer.NoKeywordAt | app.py:26 | no keyword starts at a character that cannot start an identifier |
| Lexer.WordIsKeywordOrIdent | app.py:26-28 | a letter or `_` starts a KEYWORD exactly when a keyword starts there at a boundary; otherwise it starts an IDENT running to the end of the word |
| Lexer.KeywordPatternAt | app.py:26 | at a boundary the KEYWORD pattern matches whatever keyword starts there |
| Lexer.KeywordFromFinds | app.py:26 | when the alternatives start with distinct letters, the alternation finds the one spelled at the offset and followed by a word boundary |
| Lexer.KeywordRecognised | app.py:26 | a keyword with a word boundary on both sides is one KEYWORD match of its own length, never an identifier |
| Lexer.WordIsKeyword | app.py:26 | at a word character, a KEYWORD match wins |
| Lexer.WordIsIdent | app.py:28 | a word with no keyword at a boundary is one IDENT ending at a word boundary |
| Lexer.IdentEndsAtBoundary | app.py:28 | the IDENT pattern consumes the whole rest of the word |
| Lexer.RunIsMaximal | app.py:16-28 | a character-class run holds only that class and stops at the first character outside it |
| Lexer.DigitIsNumberOrUnknown | app.py:27-29 | a digit starts a NUMBER covering its digit run exactly when that run is a whole word, and is otherwise a one-character UNKNOWN |
| Lexer.DigitIsNumber | app.py:27 | a digit run with word boundaries on both sides is one NUMBER |
| Lexer.DigitIsUnknown | app.py:29 | a digit run glued to a word character is matched one digit at a time as UNKNOWN |
| Lexer.BlankIsWhitespace | app.py:18 | a blank starts a WHITESPACE match covering the whole run of blanks |
| Lexer.StrayCharacterIsUnknown | app.py:29 | `@`, a lone `=`, `!` or `:` and any other unrecognised character is a one-character UNKNOWN |
| Lexer.UnknownIsOneCharacter | app.py:29 | an UNKNOWN match is one character and never a line break |
| Lexer.MatchLineBreaks | app.py:17 | a match is NEWLINE exactly when it starts at a line break; NEWLINE is one character and no other match holds a line break |
| Lexer.RunHasNoBreak | app.py:16-28 | no run of a pattern's character class holds a line break |
| Lexer.KeywordHasNoBreak | app.py:26 | no keyword match holds a line break |
| Lexer.LineCountsBreaks | app.py:60-62 | the line at an offset is 1 plus the number of line breaks before it |
| Lexer.LineStartIsAfterBreak | app.py:60-62 | a line starts at offset 0 or just after a line break, with no line break between it and the offset |
| Lexer.ColCountsSinceBreak | app.py:64-78 | the column at an offset is 1 plus the number of characters since the last line break |
| Lexer.AdvanceWithinLine | app.py:64-68 | moving over text with no line break keeps the line and adds the length to the column |
| Lexer.AdvancePastBreak | app.py:60-62 | passing a line break adds one to the line and resets the column to 1 |
| Lexer.LineAt | app.py:41-62 | lines are numbered from 1 |
| Lexer.PositionAfter | app.py:58-78 | after NEWLINE the scanner is on the next line at column 1; after any other match it is on the same line, moved along by the match length |
| Lexer.EmittedToken | app.py:70-78 | an emitted token is never NEWLINE, WHITESPACE, COMMENT, UNKNOWN or EOF; it is the winning match at its offset (ERROR for UNKNOWN); its value is the non-empty source text at its offset; an ERROR is one character; its line and column are those of its offset |
| Lexer.TokenFacts | app.py:70-78 | the token built for a match is ERROR exactly when the match is UNKNOWN and is never UNKNOWN; it carries the matched text, and the line, column and offset of the match |
| Lexer.EmitAt | app.py:70-78 | a match emits at most one token, which starts at the match and covers it |
| Lexer.EmitIsEmitted | app.py:70-78 | the token emitted for a match satisfies everything EmittedToken states |
| Lexer.ScanFrom | app.py:46-79 | a scan from an offset yields no more tokens than there are characters left |
| Lexer.ScanFromEmitted | app.py:46-79 | every token of a scan is emitted at or after its starting offset |
| Lexer.ScanFromInOrder | app.py:46-79 | the tokens of a scan are in source order and do not overlap |
| Lexer.Tokenize | app.py:35-80 | empty source gives no tokens |
| Lexer.TokenizeSound | app.py:35-80 | every token of the list is emitted, and token offsets strictly increase along the list |
| Lexer.Lex | app.py:35-80 | the scanner loop always ends; keeping `line` and `col` incrementally, it yields exactly the token list Tokenize specifies |
| LexerBehaviours.EmitStep | app.py:70-78 | a match that is not skipped puts its token (ERROR for UNKNOWN) with its text, line, column and offset in front of the rest of the scan |
| LexerBehaviours.SkipStep | app.py:60-68 | a NEWLINE, WHITESPACE or COMMENT match adds nothing, and scanning resumes after it |
| LexerBehaviours.KeywordAlone | app.py:26 | `if` scans to the single KEYWORD `if` at line 1, column 1 |
| LexerBehaviours.KeywordPrefixMatch | app.py:26-28 | in `ifx` the match at offset 0 is an IDENT of length 3 |
| LexerBehaviours.KeywordPrefixIsIdent | app.py:26-28 | `ifx` scans to the single IDENT `ifx` at line 1, column 1 |
| LexerBehaviours.DigitsGluedToWordMatches | app.py:27-29 | in `12abc` the matches are UNKNOWN `1`, UNKNOWN `2` and IDENT `abc` |
| LexerBehaviours.DigitsGluedToWord | app.py:27-29 | `12abc` scans to ERROR `1`, ERROR `2`, IDENT `abc`, at columns 1, 2 and 3 |
| LexerBehaviours.DigitGluedToKeywordMatches | app.py:26-29 | in `1if` the matches are UNKNOWN `1` and IDENT `if` |
| LexerBehaviours.DigitGluedToKeyword | app.py:26-29 | `1if` scans to ERROR `1` and IDENT `if`, because `\b` fails before `if` |
| LexerBehaviours.LetterAlone | app.py:28 | a letter followed by a character that is not a word character is a one-character IDENT |
| LexerBehaviours.BlankBeforeAt | app.py:18 | a blank followed by `@` is a one-character WHITESPACE |
| LexerBehaviours.AtSignIsUnknown | app.py:29 | `@` is a one-character UNKNOWN |
| LexerBehaviours.ErrorOnSecondLineMatches | app.py:60-74 | in `a`, line break, blank, `@` the matches are IDENT, NEWLINE, WHITESPACE and UNKNOWN |
| LexerBehaviours.ErrorOnSecondLine | app.py:60-74 | `a`, line break, blank, `@` scans to IDENT `a` at 1:1 and ERROR `@` at 2:2, offset 3 |
| LexerBehaviours.StrayAtAfterNameMatches | app.py:28-29 | in `a @` the matches are IDENT, WHITESPACE and UNKNOWN |
| LexerBehaviours.StrayAtAfterName | app.py:35-80 | `a @` scans to IDENT `a` at 1:1 and ERROR `@` at 1:3, offset 2 |
| LexerBehaviours.LexicalErrorFromSource | app.py:256-260 | `parse_tokens` of the scan of `a @` is the lexical error carrying ERROR `@` at 1:3 |
| Syntax.OpLevel | app.py:207-237 | no text is in a tier above 4, the tightest; Lexer.OperatorHasTier shows that every OP text is in a tier from 1 to 4 |
| Grammar.Peek | app.py:108-111 | the token at the front of the list, or the EOF sentinel once the list is used up |
| Grammar.Consume | app.py:113-120 | `consume` succeeds exactly when the optional type and value checks both pass; it then returns the peeked token and moves on by exactly one, and otherwise the error carries the peeked token |
| Grammar.DigitsValue | app.py:243 | the value of a digit string is zero exactly when every digit is `0` |
| Grammar.PExpr | app.py:204-205 | a parsed expression consumes at least one token and stops at a token no tier continues with |
| Grammar.PTier | app.py:207-237 | a tier consumes at least one token and stops at a token that is not one of its operators or a tighter tier's |
| Grammar.POperand | app.py:208-232 | a tier's operand (the next tier, or a factor for the term tier) consumes at least one token and stops where no tighter tier continues |
| Grammar.PTierTail | app.py:209-212 | the operator loop of a tier never grows the input and stops at a token that is not one of its own operators; started where no tighter tier continues, it stops where no tier from its own level on continues |
| Grammar.PFactor | app.py:239-254 | a parsed factor consumes at least one token |
| Grammar.FactorFailureIsExprFailure | app.py:239-254 | when the first factor fails, the whole expression fails with the same error |
| Grammar.PStmtList | app.py:126-145 | a statement list stops at EOF, `fi`/`od`, or a token that is neither KEYWORD nor IDENT |
| Grammar.PStmt | app.py:147-155 | a parsed statement consumes at least one token |
| Grammar.PIf | app.py:157-165 | a parsed `if` is an If node with at least one guard |
| Grammar.PDo | app.py:167-174 | a parsed `do` is a Do node with at least one guard |
| Grammar.PGuardList | app.py:176-182 | a guard list has at least one guard and stops at a token that is not BAR |
| Grammar.PGuardsAfterBar | app.py:179-181 | the BAR-guard loop stops at a token that is not BAR |
| Grammar.PGuard | app.py:184-192 | a parsed guard consumes at least one token |
| Grammar.PAssignment | app.py:194-201 | a parsed assignment is an Assign node and consumes at least one token |
| Grammar.PProgram | app.py:122-124 | a program stops where the statement list stops, without checking for EOF |
| Grammar.StmtListStep | app.py:139-143 | after one statement and an optional `;`, the list continues with the rest |
| Grammar.StmtListFails | app.py:139 | a failing statement fails the whole list with its error |
| Grammar.GuardListStep | app.py:177-179 | a guard list is its first guard followed by the BAR-guards |
| Grammar.GuardsAfterBarStep | app.py:179-181 | at BAR, the loop takes one more guard and continues |
| Grammar.ExprShape | app.py:204-205 | every expression the expression rule builds is well formed: each operator node holds one of the ten binary operators |
| Grammar.TierShape | app.py:207-237 | every expression a tier builds is well formed |
| Grammar.OperandShape | app.py:208-232 | every operand a tier builds is well formed |
| Grammar.TierTailShape | app.py:209-212 | folding well-formed operands with the tier's operators builds a well-formed expression |
| Grammar.FactorShape | app.py:239-254 | every factor built is well formed |
| Grammar.StmtListShape | app.py:126-145 | every statement list built is well formed |
| Grammar.StmtShape | app.py:147-155 | every statement built is well formed |
| Grammar.GuardedShape | app.py:157-174 | every `if` and `do` built holds well-formed guards |
| Grammar.AssignmentShape | app.py:194-201 | every assignment built holds a well-formed expression |
| Grammar.GuardListShape | app.py:176-182 | every guard list built is well formed |
| Grammar.GuardsAfterBarShape | app.py:179-181 | the guards the BAR loop builds are well formed |
| Grammar.GuardShape | app.py:184-192 | every guard built has a well-formed condition and body |
| Grammar.ProgramShape | app.py:122-124 | the body of every program the program rule builds is well formed |
| Grammar.StmtsCons | app.py:139-143 | a well-formed statement in front of a well-formed list is a well-formed list |
| Grammar.GuardsCons | app.py:177-181 | a well-formed guard in front of well-formed guards is well formed |
| Grammar.ErrorTokens | app.py:258 | the filtered list is no longer than the input and holds only ERROR tokens |
| Grammar.FirstErrorAt | app.py:258-260 | the first ERROR offset: no ERROR before it, and an ERROR at it unless it is the end |
| Grammar.ErrorTokensStartAtFirst | app.py:258-260 | the filtered list is empty exactly when there is no ERROR, and otherwise starts with the first ERROR in list order |
| Grammar.LexicalErrorsComeFirst | app.py:256-267 | any ERROR token makes the result the lexical error carrying the first ERROR; otherwise the result is the program rule's on the tokens plus the EOF sentinel |
| Grammar.UnclosedIf | app.py:157-165 | an `if` whose guards are not followed by `fi` fails the program with the token found instead |
| Grammar.UnclosedDo | app.py:167-174 | a `do` whose guards are not followed by `od` fails the program with ExpectedOd carrying the token found instead |
| Grammar.MisplacedKeyword | app.py:147-155 | a keyword other than `if`, `do`, `fi` and `od` where a statement starts fails the program with UnexpectedStatement carrying it |
| Grammar.GuardWithoutArrow | app.py:184-192 | a condition not followed by `->` fails the guard with ExpectedArrow carrying the token found instead |
| Grammar.AssignmentWithoutColonEquals | app.py:194-199 | a name not followed by `:=` fails the statement with ExpectedAssign carrying the token found instead |
| Grammar.UnclosedBracket | app.py:247-251 | a bracketed expression not followed by `)` fails the factor and the expression it starts with MissingRParen carrying the token found instead |
| Grammar.BadFactor | app.py:239-254 | a token that is not a number, a name or `(` fails the expression it starts with UnexpectedFactor carrying it |
| Grammar.TokensToProgram | app.py:256-267 | any ERROR token makes the result a lexical error carrying an ERROR token; every program returned has a well-formed body |
| Grammar.GrammarSuccessIsReported | app.py:262-267 | with no ERROR token, a program the rule parses is returned |
| Grammar.GrammarFailureIsReported | app.py:262-267 | with no ERROR token, a grammar error is returned as is |
| Parsing.Parser.constructor | app.py:103-106 | the parser holds the given tokens with the cursor at 0 |
| Parsing.Parser.Peek | app.py:108-111 | the token at the cursor, or the EOF sentinel past the end |
| Parsing.Parser.Consume | app.py:113-120 | agrees with Grammar.Consume: on a mismatch the error carries the peeked token and the cursor stays put; on success the peeked token is returned and the cursor moves on by exactly one |
| Parsing.Parser.ParseProgram | app.py:122-124 | returns the program PProgram gives and leaves the cursor where it stops, or returns its error |
| Parsing.Parser.ParseStmtList | app.py:126-145 | the statement loop returns what PStmtList gives and leaves the cursor at its rest |
| Parsing.Parser.ParseStmt | app.py:147-155 | agrees with PStmt: `if`, `do`, an identifier, or an UnexpectedStatement error on the peeked token |
| Parsing.Parser.ParseIf | app.py:157-165 | agrees with PIf, including the ExpectedFi error on the peeked token |
| Parsing.Parser.ParseDo | app.py:167-174 | agrees with PDo, including the ExpectedOd error on the peeked token |
| Parsing.Parser.ParseGuardList | app.py:176-182 | the guard loop agrees with PGuardList |
| Parsing.Parser.ParseGuard | app.py:184-192 | agrees with PGuard, including the ExpectedArrow error on the peeked token |
| Parsing.Parser.ParseAssignment | app.py:194-201 | agrees with PAssignment, including the ExpectedAssign error on the peeked token |
| Parsing.Parser.ParseExpr | app.py:204-205 | agrees with PExpr |
| Parsing.Parser.ParseTier | app.py:207-237 | each binary tier's fold loop agrees with PTier at that level |
| Parsing.Parser.ParseFactor | app.py:239-254 | agrees with PFactor: a number, an identifier, a bracketed expression returned with no wrapper, MissingRParen or UnexpectedFactor on the peeked token |
| Parsing.ParseTokens | app.py:256-267 | returns exactly TokensToProgram of the tokens |
| Printer.Digits | app.py:243 | the numeral printed for a number is a non-empty string of digits |
| Printer.DigitsValueOfDigits | app.py:243 | reading the printed numeral of `n` as `int` does gives back `n` |
| Printer.ExprRoundTrip | app.py:204-254 | a well-formed expression printed at a precedence level parses back to itself at that level, leaving the tokens after it |
| Printer.ParenthesisedRoundTrip | app.py:247-253 | a bracketed operator expression parses as a factor to the inner node itself |
| Printer.TierPrefix | app.py:207-237 | parsing a tier over a printed expression reaches the operator loop with that expression as its left operand |
| Printer.OperatorPrefix | app.py:207-237 | the same for an operator of the tier's own level, which folds to the left |
| Printer.ExprPrintParse | app.py:204-205 | parsing a printed well-formed expression gives it back |
| Printer.StmtRoundTrip | app.py:147-155 | a printed well-formed statement starts a statement and parses back to itself |
| Printer.AssignRoundTrip | app.py:194-201 | a printed assignment parses back to itself |
| Printer.GuardedRoundTrip | app.py:157-174 | a printed `if` or `do` parses back to itself |
| Printer.StmtsRoundTrip | app.py:126-145 | a printed statement list, with or without `;` after each statement, parses back to itself |
| Printer.StmtsHead | app.py:139-143 | the list parser takes the first printed statement and its separator, then parses the rest |
| Printer.SeparatorStep | app.py:141-143 | the optional-`;` step consumes exactly the printed separator |
| Printer.NextStatementStart | app.py:126-138 | printed statements are followed by a token that ends every expression and is not `;` |
| Printer.GuardsRoundTrip | app.py:176-182 | a printed non-empty guard list parses back to itself |
| Printer.MoreGuardsRoundTrip | app.py:179-181 | printed BAR-guards parse back to themselves |
| Printer.GuardRoundTrip | app.py:184-192 | a printed guard parses back to itself |
| Printer.PrintAtNoErrors | app.py:258 | a printed expression holds no ERROR token |
| Printer.StmtsNoErrors | app.py:258 | a printed statement list holds no ERROR token |
| Printer.NoErrorsHasNoFirstError | app.py:258-260 | a list with no ERROR token passes the lexical-error check |
| Printer.ProgramRoundTrip | app.py:256-267 | `parse_tokens` of a printed well-formed program returns that program |
| Printer.ParsedProgramReprints | app.py:256-267 | the converse: any program `parse_tokens` returns, printed and parsed again, comes back unchanged |
| ParserBehaviours.MinusFoldsLeft | app.py:223-229 | `1 - 2 - 3` parses to `(1 - 2) - 3` |
| ParserBehaviours.TimesBindsTighter | app.py:223-237 | `1 + 2 * 3` parses to `1 + (2 * 3)` |
| ParserBehaviours.ParenthesesLeaveNoNode | app.py:247-253 | `1 - (2 - 3)` parses to `1 - (2 - 3)` with no node for the brackets |
| ParserBehaviours.SemicolonIsOptional | app.py:141-143 | `x := 1 y := 2` is two assignments |
| ParserBehaviours.IfWithTwoGuards | app.py:157-182 | `if x > 0 -> y := 1 BAR x <= 0 -> y := 0 fi` is one If with two guards |
| ParserBehaviours.SimpleGuardList | app.py:176-192 | a one-guard list parses and stops at EOF |
| ParserBehaviours.UnclosedSimpleIf | app.py:161-165 | an `if` that reaches EOF fails with ExpectedFi carrying EOF |
| ParserBehaviours.MissingFi | app.py:157-165 | `parse_tokens` on an `if` without `fi` reports ExpectedFi carrying the sentinel |
| ParserBehaviours.UnclosedParenthesis | app.py:250-251 | `x := (1` fails with MissingRParen carrying EOF |
| ParserBehaviours.MissingCloseParen | app.py:250-251 | `parse_tokens` on `x := (1` reports MissingRParen carrying the sentinel |
| ParserBehaviours.StopsAtStrayParenthesis | app.py:136-138 | the program rule on `x := 1 ) y` stops before `)` with one statement |
| ParserBehaviours.TrailingTokensIgnored | app.py:122-124 | `x := 1 ) y` is a one-statement program; the rest is ignored |
| ParserBehaviours.StopsAtSecondSemicolon | app.py:141-143 | the program rule on `x := 1 ; ; y := 2` takes one `;` and stops at the second |
| ParserBehaviours.DoubledSemicolonEndsProgram | app.py:126-145 | `x := 1 ; ; y := 2` is a one-statement program |
| ParserBehaviours.NumberAloneIsEmptyProgram | app.py:136-138 | `123` is an empty program |
| ParserBehaviours.LexicalErrorWins | app.py:258-260 | an ERROR token is reported as a lexical error even when the tokens before it parse |

## Left out

- The Flask application and its routes (`app.py:1-9`, `app.py:323-360`) are not modelled. They are web input and output.
- PDF report generation (`app.py:272-318`) is not modelled. It is drawing and layout by a foreign library, with the clock and JSON formatting.
- Python's `re` engine is not modelled. Each pattern of the list is an explicit matcher, and the alternation is the first-match-wins search `MatchAt`. `re.MULTILINE` has no effect on these patterns, which use neither `^` nor `$`.
- The matchers treat word characters as ASCII `[A-Za-z0-9_]` and digits as ASCII `0-9`. On `str`, Python's `\w`, `\d` and `\b` also accept other Unicode letters and digits.
- Grammar.PFactor: `int()` of a NUMBER value is modelled as the decimal value of an all-ASCII-digit string. A NUMBER token with any other text gives InvalidNumber, where Python would accept forms such as `1_0` or raise ValueError. The scanner never produces such a token.
- The no-match fallback of `lex` (`app.py:48-53`) is not modelled. `MatchAt` is total: NEWLINE matches a line break and UNKNOWN matches any other character, so the fallback cannot run.
- Error messages (`app.py:116`, `app.py:118`, `app.py:155` and the other `ParseError` texts) are reduced to an `ErrorKind` tag plus the token the error carries. Exceptions become `Err` results that every caller passes on unchanged.
- The EOF sentinel is a dictionary without an `index` key. The model gives it the fixed offset -1, like its line and column.
- Tokens are records, not dictionaries. A dictionary lookup of a missing key cannot arise in the model.
- Python's recursion limit is not modelled. On very deeply nested input the source raises RecursionError, where the model keeps parsing.
