/** The lexer's output: a kind, the location where the token starts and the
    characters it spans. The lexeme is an owned copy of the span. */
module Tokens {
  import opened SourceLocations

  datatype Kind =
    | Newline        // \n
    | Number         // digits, optionally '.' and more digits
    | Char           // 'c'
    | String         // "..."
    | Boolean        // true | false
    | Keyword        // one of the reserved words
    | ValueIdentifier
    | TypeIdentifier
    | Is             // ::
    | Returns        // ->
    | End            // ;
    | Equal          // =
    | Dot            // .
    | Comma          // ,
    | OpenScope      // {
    | CloseScope     // }
    | OpenContext    // [
    | CloseContext   // ]
    | OpenGroup      // (
    | CloseGroup     // )
    | Halt           // end of program
    | Unknown        // a syntax error

  /** Comparison of tokens is structural over kind, location and lexeme,
      which is datatype equality. */
  datatype Token = Token(kind: Kind, location: SourceLocation, lexeme: string)

  /** `Token(kind, loc, p, len)`: the lexeme is the `len` characters from p. */
  function FromLength(kind: Kind, loc: SourceLocation, buf: string, p: nat, len: nat): (t: Token)
    requires p + len <= |buf|
    ensures t.kind == kind && t.location == loc
    ensures |t.lexeme| == len && forall k :: 0 <= k < len ==> t.lexeme[k] == buf[p + k]
  {
    Token(kind, loc, buf[p..p + len])
  }

  /** `Token(kind, loc, begin, end)`: the lexeme is the half-open span [begin, end). */
  function FromRange(kind: Kind, loc: SourceLocation, buf: string, begin: nat, end: nat): (t: Token)
    requires begin <= end <= |buf|
    ensures t.kind == kind && t.location == loc
    ensures |t.lexeme| == end - begin && forall k :: begin <= k < end ==> t.lexeme[k - begin] == buf[k]
  {
    Token(kind, loc, buf[begin..end])
  }

  /** The two constructors agree on the same span. */
  lemma FromLengthIsFromRange(kind: Kind, loc: SourceLocation, buf: string, p: nat, len: nat)
    requires p + len <= |buf|
    ensures FromLength(kind, loc, buf, p, len) == FromRange(kind, loc, buf, p, p + len)
  {
  }

  /** Tokens are equal exactly when kind, location and lexeme all are. */
  lemma StructuralEquality(a: Token, b: Token)
    ensures a == b <==> (a.kind == b.kind && a.location == b.location && a.lexeme == b.lexeme)
  {
  }
}
