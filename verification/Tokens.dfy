/** The token types shared by the scanner and the parser. */
module Tokens {
  datatype TokenType =
    | DIRECTIVE | DOC_START | DOC_END
    | BLOCK_SEQ_START | BLOCK_MAP_START | BLOCK_SEQ_END | BLOCK_MAP_END | BLOCK_ENTRY
    | FLOW_SEQ_START | FLOW_MAP_START | FLOW_SEQ_END | FLOW_MAP_END | FLOW_MAP_COMPACT | FLOW_ENTRY
    | KEY | VALUE | ANCHOR | ALIAS | TAG | PLAIN_SCALAR | NON_PLAIN_SCALAR

  datatype TagKind = VERBATIM | PRIMARY_HANDLE | SECONDARY_HANDLE | NAMED_HANDLE | NON_SPECIFIC
}
