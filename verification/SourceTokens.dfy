/** Tokens of a source text, as the grammar reports them. */
module SourceTokens {
  datatype TokenKind = Code | Comment

  datatype Token = Token(start: nat, end: nat, kind: TokenKind)

  /** Tokens lie in the source, none empty, in order, without overlapping. */
  predicate Laid(source: string, tokens: seq<Token>) {
    && (forall i :: 0 <= i < |tokens| ==> tokens[i].start < tokens[i].end <= |source|)
    && (forall i, j :: 0 <= i < j < |tokens| ==> tokens[i].end <= tokens[j].start)
  }

  function Text(source: string, tok: Token): string
    requires tok.start <= tok.end <= |source|
  {
    source[tok.start..tok.end]
  }
}
