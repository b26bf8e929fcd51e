/** The lexer: a cursor over a NUL-terminated buffer that produces one token
    per call, a position tracker moved by every consumed character, and a
    FIFO lookahead buffer filled by peeking and drained first by `Next`. */
module Lexing {
  import opened SourceLocations
  import opened Tokens
  import opened Gps
  import opened LexerRules

  /** `peek_token<N>` accepts only N below this bound. */
  const MaxLookahead: nat := 4

  class Lexer {
    const buf: string
    var cursor: nat
    const gps: GPS
    var lookahead: seq<Token>
    /** The scanner state the front of the lookahead buffer was produced from;
        the upcoming tokens are `Nth(buf, origin, 0)`, `Nth(buf, origin, 1)`, ... */
    ghost var origin: ScanState

    /** The scanning part of the state: a terminated buffer and a cursor inside it. */
    ghost predicate Scanner()
      reads this, gps
    {
      WellFormed(buf) && cursor < |buf| && gps.Valid()
    }

    function State(): ScanState
      reads this, gps
    {
      ScanState(cursor, gps.line, gps.column)
    }

    /** The lookahead buffer holds the next tokens of the stream starting at
        `origin`, and the scanner sits just after the last of them. */
    ghost predicate Valid()
      reads this, gps
    {
      && Scanner()
      && Ready(buf, origin)
      && Buffered(buf, origin, lookahead, State())
    }

    /** A lexer over `code`; the buffer is the code followed by the terminator. */
    constructor (code: string)
      ensures Valid()
      ensures buf == code + [NUL] && cursor == 0 && lookahead == []
      ensures origin == Init(buf)
    {
      buf := code + [NUL];
      cursor := 0;
      gps := new GPS(code + [NUL]);
      lookahead := [];
      origin := Init(code + [NUL]);
    }

    /** `peek`: the character under the cursor. */
    function Peek(): char
      reads this
      requires cursor < |buf|
    {
      buf[cursor]
    }

    /** `peek_n`: the character n past the cursor. Past the end of the buffer
        this reads the terminator, where the source's read is unchecked
        (`LexerProperties.RawAt`). */
    function PeekN(n: nat): char
      reads this
    {
      At(buf, cursor + n)
    }

    /** `get`: consumes one character, moving the column by one. */
    method Get() returns (p: nat)
      requires Scanner() && cursor + 1 < |buf|
      modifies this`cursor, gps
      ensures Scanner()
      ensures p == old(cursor) && cursor == p + 1
      ensures gps.line == old(gps.line) && gps.column == old(gps.column) + 1
    {
      gps.ColumnMoved(1);
      p := cursor;
      cursor := cursor + 1;
    }

    /** The scanning loops of `_next` and the `tok_` functions: consumes the
        longest run of `cls` characters at the cursor. */
    method TakeRun(cls: CharClass)
      requires Scanner()
      modifies this`cursor, gps
      ensures Scanner()
      ensures cursor == RunEnd(buf, old(cursor), cls) && !InClass(cls, buf[cursor])
      ensures gps.line == old(gps.line) && gps.column == old(gps.column) + (cursor - old(cursor))
    {
      ghost var start := cursor;
      while InClass(cls, Peek())
        invariant Scanner() && start <= cursor <= RunEnd(buf, start, cls)
        invariant RunEnd(buf, cursor, cls) == RunEnd(buf, start, cls)
        invariant gps.line == old(gps.line) && gps.column == old(gps.column) + (cursor - start)
        decreases |buf| - cursor
      {
        var _ := Get();
      }
    }

    /** `tok_unary`: a one-character token at the current location; for a
        newline the tracker moves to the next line and the token is stamped
        there. */
    method TokUnary(kind: Kind) returns (t: Token)
      requires Scanner() && buf[cursor] != NUL
      requires kind == Newline ==> buf[cursor] == '\n'
      modifies this`cursor, gps
      ensures Scanner()
      ensures kind == Newline ==> t == NewlineStep(buf, old(State())).0
      ensures kind == Newline ==> State() == NewlineStep(buf, old(State())).1
      ensures kind != Newline ==> t == Emit(buf, old(State()), Lexed(kind, old(cursor) + 1)).0
      ensures kind != Newline ==> State() == Emit(buf, old(State()), Lexed(kind, old(cursor) + 1)).1
    {
      var loc := gps.CurrentLocation();
      var unary := Get();
      if kind == Newline {
        gps.LineMoved(buf, cursor);
        loc := gps.CurrentLocation();
      }
      t := Token(kind, loc, buf[unary..unary + 1]);
    }

    /** `tok_number`. */
    method TokNumber() returns (t: Token)
      requires Scanner() && IsDigit(buf[cursor])
      modifies this`cursor, gps
      ensures Scanner()
      ensures t == Emit(buf, old(State()), NumberRule(buf, old(cursor))).0
      ensures State() == Emit(buf, old(State()), NumberRule(buf, old(cursor))).1
    {
      var loc := gps.CurrentLocation();
      var begin := Get();
      TakeRun(Digit);
      if Peek() != '.' {
        TakeRun(Digit);
        t := Token(Number, loc, buf[begin..cursor]);
      } else if !IsDigit(PeekN(2)) {
        var _ := Get();
        t := Token(Unknown, loc, buf[begin..cursor]);
      } else {
        var _ := Get();
        var _ := Get();
        TakeRun(Digit);
        t := Token(Number, loc, buf[begin..cursor]);
      }
    }

    /** `tok_char`. */
    method TokChar() returns (t: Token)
      requires Scanner() && buf[cursor] == '\''
      modifies this`cursor, gps
      ensures Scanner()
      ensures t == Emit(buf, old(State()), CharRule(buf, old(cursor))).0
      ensures State() == Emit(buf, old(State()), CharRule(buf, old(cursor))).1
    {
      if PeekN(2) != '\'' {
        t := TokUnary(Unknown);
        return;
      }
      var loc := gps.CurrentLocation();
      var begin := Get();
      var _ := Get();
      var _ := Get();
      t := Token(Char, loc, buf[begin..cursor]);
    }

    /** `tok_string`. The scan stops at the closing quote or at the
        terminator, whatever the lookahead buffer holds. */
    method TokString() returns (t: Token)
      requires Scanner() && buf[cursor] == '"'
      modifies this`cursor, gps
      ensures Scanner()
      ensures t == Emit(buf, old(State()), StringRule(buf, old(cursor))).0
      ensures State() == Emit(buf, old(State()), StringRule(buf, old(cursor))).1
    {
      var loc := gps.CurrentLocation();
      var begin := Get();
      TakeRun(StringBody);
      if Peek() == NUL {
        t := Token(Unknown, loc, buf[begin..cursor]);
        return;
      }
      var _ := Get();
      t := Token(String, loc, buf[begin..cursor]);
    }

    /** `tok_alphalower`. */
    method TokAlphaLower() returns (t: Token)
      requires Scanner() && IsLower(buf[cursor])
      modifies this`cursor, gps
      ensures Scanner()
      ensures t == Emit(buf, old(State()), AlphaLowerRule(buf, old(cursor))).0
      ensures State() == Emit(buf, old(State()), AlphaLowerRule(buf, old(cursor))).1
    {
      var loc := gps.CurrentLocation();
      var begin := Get();
      TakeRun(LowerOrDigit);
      if Peek() != '_' {
        var view := buf[begin..cursor];
        if IsBoolean(view) {
          t := Token(Boolean, loc, view);
          return;
        }
        if IsKeyword(view) {
          t := Token(Keyword, loc, view);
          return;
        }
      }
      TakeRun(IdentTail);
      t := Token(ValueIdentifier, loc, buf[begin..cursor]);
    }

    /** `tok_type_identifier`. */
    method TokTypeIdentifier() returns (t: Token)
      requires Scanner() && IsUpper(buf[cursor])
      modifies this`cursor, gps
      ensures Scanner()
      ensures t == Emit(buf, old(State()), TypeIdentifierRule(buf, old(cursor))).0
      ensures State() == Emit(buf, old(State()), TypeIdentifierRule(buf, old(cursor))).1
    {
      var loc := gps.CurrentLocation();
      var begin := Get();
      TakeRun(AlphaOrDigit);
      t := Token(TypeIdentifier, loc, buf[begin..cursor]);
    }

    /** `tok_is` (second = ':') and `tok_returns` (second = '>'). */
    method TokPair(second: char, kind: Kind) returns (t: Token)
      requires Scanner() && buf[cursor] != NUL && buf[cursor] != '\n' && second != NUL
      modifies this`cursor, gps
      ensures Scanner()
      ensures t == Emit(buf, old(State()), PairRule(buf, old(cursor), second, kind)).0
      ensures State() == Emit(buf, old(State()), PairRule(buf, old(cursor), second, kind)).1
    {
      if PeekN(1) != second {
        t := TokUnary(Unknown);
        return;
      }
      var loc := gps.CurrentLocation();
      var begin := Get();
      var _ := Get();
      t := Token(kind, loc, buf[begin..cursor]);
    }

    /** `_next`: scans one fresh token from the cursor. */
    method Scan() returns (t: Token)
      requires Scanner()
      modifies this`cursor, gps
      ensures Scanner()
      ensures t == Step(buf, old(State())).0
      ensures State() == Step(buf, old(State())).1
    {
      TakeRun(Space);
      var current := Peek();
      if current == NUL {
        t := Token(Halt, gps.CurrentLocation(), buf[cursor..cursor + 1]);
      } else if current == '\n' {
        t := TokUnary(Newline);
      } else if current == ';' {
        t := TokUnary(End);
      } else if current == '=' {
        t := TokUnary(Equal);
      } else if current == '.' {
        t := TokUnary(Dot);
      } else if current == ',' {
        t := TokUnary(Comma);
      } else if current == '{' {
        t := TokUnary(OpenScope);
      } else if current == '}' {
        t := TokUnary(CloseScope);
      } else if current == '[' {
        t := TokUnary(OpenContext);
      } else if current == ']' {
        t := TokUnary(CloseContext);
      } else if current == '(' {
        t := TokUnary(OpenGroup);
      } else if current == ')' {
        t := TokUnary(CloseGroup);
      } else if current == ':' {
        t := TokPair(':', Is);
      } else if current == '-' {
        t := TokPair('>', Returns);
      } else if current == '\'' {
        t := TokChar();
      } else if current == '"' {
        t := TokString();
      } else if IsDigit(current) {
        t := TokNumber();
      } else if IsAlpha(current) {
        if IsLower(current) {
          t := TokAlphaLower();
        } else {
          t := TokTypeIdentifier();
        }
      } else {
        t := TokUnary(Unknown);
      }
    }

    /** `next`: the front of the lookahead buffer if there is one, else a
        freshly scanned token; either way the first upcoming token, and the
        stream moves on by one. */
    method Next() returns (t: Token)
      requires Valid()
      modifies this, gps
      ensures Valid()
      ensures t == Nth(buf, old(origin), 0)
      ensures origin == Step(buf, old(origin)).1
      ensures old(lookahead) != [] ==>
        t == old(lookahead[0]) && lookahead == old(lookahead[1..]) && State() == old(State())
      ensures old(lookahead) == [] ==> lookahead == [] && State() == Step(buf, old(State())).1
      ensures t.kind == Halt && lookahead == [] ==> IsHalted()
    {
      if lookahead != [] {
        t := lookahead[0];
        lookahead := lookahead[1..];
        origin := Step(buf, origin).1;
      } else {
        t := Scan();
        origin := State();
      }
    }

    /** `peek_token<N>`: the N-th upcoming token, scanning and buffering as
        many tokens as needed; nothing is consumed. */
    method PeekToken(n: nat) returns (t: Token)
      requires Valid() && n < MaxLookahead
      modifies this, gps
      ensures Valid()
      ensures t == Nth(buf, origin, n)
      ensures origin == old(origin)
      ensures |old(lookahead)| <= |lookahead| && lookahead[..|old(lookahead)|] == old(lookahead)
      ensures |lookahead| == if n < |old(lookahead)| then |old(lookahead)| else n + 1
      ensures !IsHalted()
    {
      while |lookahead| <= n
        invariant Valid() && origin == old(origin)
        invariant |old(lookahead)| <= |lookahead| <= if n < |old(lookahead)| then |old(lookahead)| else n + 1
        invariant lookahead[..|old(lookahead)|] == old(lookahead)
        decreases n + 1 - |lookahead|
      {
        BufferedPush(buf, origin, lookahead, State());
        var token := Scan();
        lookahead := lookahead + [token];
      }
      t := lookahead[n];
      BufferedIndex(buf, origin, lookahead, State(), n);
    }

    /** `is_halted`: nothing buffered and the cursor on the terminator. */
    predicate IsHalted()
      reads this
      requires cursor < |buf|
    {
      lookahead == [] && buf[cursor] == NUL
    }
  }
}
