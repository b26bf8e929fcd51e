/** The token stream the v0 parser reads. The parser was written against an
    older token vocabulary (Identifier, Number, Plus, Equal, Newline, Halt,
    Unknown), so its lexer is modelled abstractly: a finite sequence of
    ordinary tokens followed, forever, by the Halt token. The lexer counts as
    halted only when its character cursor stands on the terminator; when
    blanks follow the last ordinary token, the cursor reaches the terminator
    only once the Halt token itself has been scanned, which takes one more
    position. The stream keeps the same FIFO lookahead discipline as the
    lexer: `Next` drains the lookahead first and `PeekToken` fills it without
    consuming anything. */
module TokenStreams {
  import opened SourceLocations
  import Decimal

  datatype Kind = Identifier | Number | Plus | Equal | Newline | Halt | Unknown

  datatype Token = Token(kind: Kind, location: SourceLocation, lexeme: string)

  /** What the tokenizer yields: `toks`, then `halt` on every later call;
      `trailing` says that blanks follow the last ordinary token, so the
      cursor is not yet on the terminator once `toks` have been produced. */
  datatype TokenSeq = TokenSeq(toks: seq<Token>, halt: Token, trailing: bool)

  /** The lexeme of a Number token: digits, or digits with a '.' among them. */
  predicate NumberLexeme(s: string)
  {
    |s| > 0 && forall i :: 0 <= i < |s| ==> Decimal.IsDigit(s[i]) || s[i] == '.'
  }

  /** Halt appears only at the end, and Number tokens carry numeric lexemes. */
  predicate WellFormed(s: TokenSeq)
  {
    && s.halt.kind == Halt
    && forall i :: 0 <= i < |s.toks| ==>
         s.toks[i].kind != Halt && (s.toks[i].kind == Number ==> NumberLexeme(s.toks[i].lexeme))
  }

  /** The token at position k of the stream. */
  function Produce(s: TokenSeq, k: nat): Token
  {
    if k < |s.toks| then s.toks[k] else s.halt
  }

  /** The position at which the cursor stands on the terminator: past the
      ordinary tokens, and past the first Halt when blanks precede it. */
  function End(s: TokenSeq): (e: nat)
    ensures e == |s.toks| || (s.trailing && e == |s.toks| + 1)
  {
    if s.trailing then |s.toks| + 1 else |s.toks|
  }

  /** The position after the token at k; once on the terminator, reading
      Halt does not move. */
  function Succ(s: TokenSeq, k: nat): (k': nat)
    ensures k' == if k < End(s) then k + 1 else k
  {
    if k < End(s) then k + 1 else k
  }

  /** In a well-formed stream, Halt is produced exactly past the ordinary tokens. */
  lemma HaltExactlyAtEnd(s: TokenSeq, k: nat)
    requires WellFormed(s)
    ensures Produce(s, k).kind == Halt <==> k >= |s.toks|
  {
  }

  function Min(a: nat, b: nat): nat { if a <= b then a else b }

  /** `peek_token<N>` accepts only N below this bound. */
  const MaxLookahead: nat := 4

  class TokenStream {
    const source: TokenSeq
    /** How many tokens have been scanned, up to `End(source)`. */
    var cursor: nat
    var lookahead: seq<Token>
    /** The position of the first upcoming token, which is the front of the
        lookahead buffer when it is non-empty. */
    ghost var origin: nat

    ghost predicate Valid()
      reads this
    {
      && WellFormed(source)
      && origin <= End(source)
      && cursor == Min(origin + |lookahead|, End(source))
      && forall i :: 0 <= i < |lookahead| ==> lookahead[i] == Produce(source, origin + i)
    }

    constructor (source: TokenSeq)
      requires WellFormed(source)
      ensures Valid()
      ensures this.source == source && origin == 0 && lookahead == []
    {
      this.source := source;
      cursor := 0;
      lookahead := [];
      origin := 0;
    }

    /** `next`: the first upcoming token, taken from the lookahead buffer when
        it holds one; the stream moves on by one position. */
    method Next() returns (t: Token)
      requires Valid()
      modifies this
      ensures Valid()
      ensures t == Produce(source, old(origin))
      ensures origin == Succ(source, old(origin))
      ensures lookahead == if old(lookahead) == [] then [] else old(lookahead[1..])
    {
      if lookahead != [] {
        t := lookahead[0];
        lookahead := lookahead[1..];
      } else {
        t := Produce(source, cursor);
        cursor := Succ(source, cursor);
      }
      origin := Succ(source, origin);
    }

    /** `peek_token<N>`: the N-th upcoming token, produced and buffered as
        needed; nothing is consumed. */
    method PeekToken(n: nat) returns (t: Token)
      requires Valid() && n < MaxLookahead
      modifies this
      ensures Valid()
      ensures t == Produce(source, origin + n)
      ensures origin == old(origin)
      ensures |lookahead| == if n < |old(lookahead)| then |old(lookahead)| else n + 1
    {
      while |lookahead| <= n
        invariant Valid() && origin == old(origin)
        invariant |old(lookahead)| <= |lookahead| <= if n < |old(lookahead)| then |old(lookahead)| else n + 1
        decreases n + 1 - |lookahead|
      {
        var produced := Produce(source, cursor);
        cursor := Succ(source, cursor);
        lookahead := lookahead + [produced];
      }
      t := lookahead[n];
    }

    /** `is_halted`: nothing buffered and the cursor on the terminator. */
    predicate IsHalted()
      reads this
    {
      lookahead == [] && cursor == End(source)
    }
  }

  /** In a valid stream, halted means exactly: nothing buffered and the stream
      at its end. Without trailing blanks that is the same as the first
      upcoming token being Halt; with them, the stream is not halted while
      that Halt is still to be read. */
  lemma HaltedIffAtHalt(st: TokenStream)
    requires st.Valid()
    ensures st.IsHalted() <==> st.lookahead == [] && st.origin == End(st.source)
    ensures !st.source.trailing ==>
      (st.IsHalted() <==> st.lookahead == [] && Produce(st.source, st.origin).kind == Halt)
    ensures st.source.trailing && st.origin == |st.source.toks| ==>
      !st.IsHalted() && Produce(st.source, st.origin).kind == Halt
  {
  }
}
