/**
 * Token kinds and token records, shared by the scanner and the parser.
 */
module Tokens {
  /**
   * The named groups of the scanner's pattern list (in declaration order,
   * COMMENT through UNKNOWN), followed by the two tags that occur only in
   * emitted tokens: ERROR, which an UNKNOWN match becomes, and EOF, the
   * parser's end-of-input sentinel. The names are the source's own type tags.
   */
  datatype Kind =
    | COMMENT | NEWLINE | WHITESPACE | ARROW | ASSIGN | OP
    | LPAREN | RPAREN | SEMI | BAR | KEYWORD | NUMBER | IDENT | UNKNOWN
    | ERROR | EOF

  /** A token record: the text it covers, its 1-based line and column, and its offset. */
  datatype Token = Token(kind: Kind, value: string, line: int, col: int, index: int)

  /**
   * The sentinel the parser sees past the end of its token list. It has no
   * offset in the source; -1 stands for the missing entry.
   */
  const EofToken: Token := Token(EOF, "", -1, -1, -1)
}
