# Jackal front end and C emitter, modelled in Dafny

Jackal is a small compiled language. This project models the part of its
compiler that turns source text into C:

- **Lexer.** The lexer walks a NUL-terminated character buffer. It skips
  blanks and produces one token per call. Each token carries its kind, the
  location where it starts (line text, line number, column) and the
  characters it spans. A lookahead buffer lets callers peek at upcoming
  tokens without consuming them. The position tracker (the GPS) keeps the
  current line and column.
- **Results.** `Result<T, E>` is the value-or-error type used everywhere,
  together with its combinators (map, map_err, map_flat, subsume, consume,
  `>>`).
- **Parser.** The v0 parser reads `let NAME = EXPR` and `print EXPR`
  instructions. Each instruction ends with a newline. An expression is a
  chain of values joined by `+`, nested to the right. A value is a number or
  an identifier. Errors carry a message: a headline naming the error class
  and the line, then a caret diagram of the offending token's location.
- **AST.** The AST nodes (constants, locals, values, operators,
  expressions, bindings, prints, instructions, programs) and the builders
  the parser fills in step by step.
- **C emission.** The file builder keeps the set of `#include` dependencies,
  keyed and ordered by include path, together with the text of `main`'s
  body. It renders the C file from both. The C visitor walks a program and
  writes one C statement per instruction.

Each part takes the form of its source:

- Objects whose fields the source updates in place are Dafny classes: the
  lexer, the GPS, the token stream the parser reads, the parser, the
  builders, the program, the file builder and the C visitor. Their methods
  state their new state in terms of specification functions.
- The scanning rules, the parse functions, the result combinators and the
  C text of each node are pure functions.
- Lemmas prove the promised properties about those functions:
  - the shapes of tokens and of parsed trees;
  - halting;
  - round trips between numbers and their text;
  - the first error winning in `parse_program`;
  - the dependency map staying sorted and keyed;
  - the generated C for the sample program.

## Model

| member | source | states |
|---|---|---|
| SourceLocations.LineEnd | util/source_location.hpp:29-33 | the end of a line is at or after its start and inside the buffer; no newline or terminator lies before it; it sits on a newline or the terminator |
| SourceLocations.MakeLine | util/source_location.hpp:29-33 | a line built at p has the requested number and lies inside the buffer |
| SourceLocations.MakeLineIsLongest | util/source_location.hpp:29-33 | a line's text is the buffer from p up to the first newline or terminator, and is free of both |
| SourceLocations.Spaces | util/source_location.hpp:75-83 | n blanks and nothing else |
| SourceLocations.Render | util/source_location.hpp:71-86 | the two space loops of `to_string` build exactly the caret diagram |
| SourceLocations.DiagramLayout | util/source_location.hpp:71-86 | the diagram is the line, a newline, `column` blanks, the caret, a newline, `column` blanks and the arrow, with the length that implies |
| SourceLocations.Diagram | util/source_location.hpp:71-86 | defines the text `to_string` composes for a location; stated by SourceLocations.DiagramLayout and SourceLocations.Render |
| Gps.GPS.constructor | lexer/src/gps.cpp:7 | a fresh tracker is on line 0, column 0, holding the first line of the buffer |
| Gps.GPS.ColumnMoved | lexer/src/gps.cpp:9 | the column grows by the count; the line is untouched |
| Gps.GPS.LineMoved | lexer/src/gps.cpp:11-15 | column 0, line counter one higher, line text re-read from the new position and numbered with the new counter |
| Gps.GPS.CurrentLocation | lexer/src/gps.cpp:17-20 | the location is the current line and column |
| Tokens.FromLength | lexer/token.hpp:61-65 | the lexeme is the `len` characters from p, with the given kind and location |
| Tokens.FromRange | lexer/token.hpp:67-71 | the lexeme is the half-open span [begin, end), with the given kind and location |
| Tokens.FromLengthIsFromRange | lexer/token.hpp:61-71 | both constructors give the same token for the same span |
| Tokens.StructuralEquality | lexer/token.hpp:81 | tokens are equal exactly when kind, location and lexeme are |
| LexerRules.RunEnd | lexer/src/lexer.cpp:69-94 | a character-class run ends at or after its start and inside the buffer |
| LexerRules.RunEndIsLongest | lexer/src/lexer.cpp:69-94 | every character of the run is in the class and the one after it is not |
| LexerRules.NumberRule | lexer/src/lexer.cpp:69-94 | a number lexeme is non-empty and ends inside the buffer |
| LexerRules.FractionRule | lexer/src/lexer.cpp:77-93 | the part after the digit run ends at or after it, inside the buffer; its `peek_n(2)` test reads the terminator past the end, the corrected form of the unchecked read (see Findings) |
| LexerRules.CharRule | lexer/src/lexer.cpp:96-106 | a char lexeme is non-empty and ends inside the buffer; its `peek_n(2)` test reads the terminator past the end, the corrected form of the unchecked read (see Findings) |
| LexerRules.IsBoolean | lexer/src/lexer.cpp:16 | defines `is_boolean`: the view is `true` or `false`; stated by LexerProperties.LowercaseWords |
| LexerRules.Punctuation | lexer/src/lexer.cpp:219-258 | defines the kinds of the one-character tokens of `_next`; stated by LexerProperties.OtherIsUnknown and LexerRules.Rule |
| LexerRules.NewlineStep | lexer/src/lexer.cpp:55-65 | defines `tok_unary(Newline)`: one character, the location and state at column 0 of the next line; stated by LexerProperties.NewlineToken and Lexing.Lexer.TokUnary |
| LexerRules.StringRule | lexer/src/lexer.cpp:108-123 | a string lexeme is non-empty and ends inside the buffer |
| LexerRules.AlphaLowerRule | lexer/src/lexer.cpp:125-153 | a lowercase word is non-empty and ends inside the buffer |
| LexerRules.IsKeyword | lexer/src/lexer.cpp:18-27 | defines `is_keyword` over the seven reserved words of util/keywords.hpp; stated by LexerProperties.LowercaseWords |
| LexerRules.TypeIdentifierRule | lexer/src/lexer.cpp:155-165 | a type identifier is non-empty and ends inside the buffer |
| LexerRules.PairRule | lexer/src/lexer.cpp:167-189 | `::` / `->` lexemes are non-empty and end inside the buffer |
| LexerRules.Rule | lexer/src/lexer.cpp:219-289 | the dispatch on a non-blank, non-newline character yields a non-empty lexeme and never Halt |
| LexerRules.StepAt | lexer/src/lexer.cpp:210-289 | a scan from a position never moves backwards and stays inside the buffer; Halt is produced only on the terminator |
| LexerRules.Step | lexer/src/lexer.cpp:203-290 | blanks are skipped, then a scan as above; outside the buffer it halts in place |
| LexerRules.Init | lexer/lexer.hpp:14 | the scanner starts at position 0, column 0, line 0 |
| LexerRules.AdvanceAfterStep | lexer/src/lexer.cpp:191-201 | one step and then k steps is k + 1 steps |
| LexerRules.UpcomingAfterStep | lexer/src/lexer.cpp:191-201 | after one step the upcoming tokens are the old ones minus the first |
| LexerRules.UpcomingIndex | lexer/src/lexer.cpp:191-201 | the j-th upcoming token is the j-th token of the stream |
| LexerRules.BufferedIsUpcoming | lexer/src/lexer.cpp:191-201 | the lookahead buffer holds exactly the next tokens of the stream, and the scanner has moved past them |
| LexerRules.BufferedPush | lexer/src/lexer.cpp:191-201 | scanning one more token onto the buffer keeps it the prefix of the stream |
| LexerRules.BufferedIndex | lexer/src/lexer.cpp:191-201 | the j-th buffered token is the j-th token of the stream |
| Lexing.Lexer.constructor | lexer/lexer.hpp:14 | the buffer is the code plus the terminator, the cursor is 0, the lookahead is empty and the stream starts at the initial scanner state |
| Lexing.Lexer.Get | lexer/src/lexer.cpp:38-42 | returns the cursor and advances it and the column by one |
| Lexing.Lexer.TakeRun | lexer/src/lexer.cpp:69-165 | the cursor reaches the end of the longest run of the class; the column moves by the run's length |
| Lexing.Lexer.TokUnary | lexer/src/lexer.cpp:55-65 | a newline token starts the next line at column 0; any other unary token spans one character at the old location |
| Lexing.Lexer.TokNumber | lexer/src/lexer.cpp:69-94 | the token and new state are exactly those of the number rule |
| Lexing.Lexer.TokChar | lexer/src/lexer.cpp:96-106 | the token and new state are exactly those of the char rule |
| Lexing.Lexer.TokString | lexer/src/lexer.cpp:108-123 | the token and new state are exactly those of the string rule, which stops at the terminator |
| Lexing.Lexer.TokAlphaLower | lexer/src/lexer.cpp:125-153 | the token and new state are exactly those of the lowercase-word rule |
| Lexing.Lexer.TokTypeIdentifier | lexer/src/lexer.cpp:155-165 | the token and new state are exactly those of the type-identifier rule |
| Lexing.Lexer.TokPair | lexer/src/lexer.cpp:167-189 | the token and new state are exactly those of the `::` / `->` rule |
| Lexing.Lexer.Scan | lexer/src/lexer.cpp:203-290 | the token and new scanner state are one step of the scanning function |
| Lexing.Lexer.Next | lexer/src/lexer.cpp:191-201 | returns the first upcoming token and moves the stream on by one: from the buffer when it is non-empty, else by scanning; a Halt with an empty buffer leaves the lexer halted |
| Lexing.Lexer.PeekToken | lexer/tests/lexer_tests.cpp:308-359 | returns the n-th upcoming token without moving the stream; the buffer only grows, keeps its old contents and reaches n + 1; a lexer that has peeked is not halted |
| Lexing.Lexer.Peek | lexer/src/lexer.cpp:34 | defines `peek`, the character under the cursor; the token methods' contracts (Lexing.Lexer.TakeRun, Lexing.Lexer.Scan) rest on it |
| Lexing.Lexer.PeekN | lexer/src/lexer.cpp:36 | defines `peek_n`, the character n past the cursor; past the buffer it reads the terminator, which is the corrected form: the source's read there is unchecked (see Findings, LexerProperties.RawAt); stated through LexerRules.FractionRule and LexerRules.CharRule |
| Lexing.Lexer.IsHalted | lexer/src/lexer.cpp:292 | defines `is_halted`: nothing buffered and the cursor on the terminator; stated by Lexing.Lexer.Next and by LexerProperties.StringLoopPassesTerminator |
| LexerProperties.BlankSkipped | lexer/src/lexer.cpp:205-208 | a blank before a token changes nothing but where scanning starts |
| LexerProperties.NewlineToken | lexer/src/lexer.cpp:215-218 | a newline after blanks is a one-character Newline token at column 0 of the next line |
| LexerProperties.HaltRepeats | lexer/src/lexer.cpp:211-214 | at the terminator Halt has the terminator as lexeme, and scanning again repeats it without moving |
| LexerProperties.HaltForever | lexer/tests/lexer_tests.cpp:327-339 | once the stream yields Halt, every later token is that Halt and the state stays put |
| LexerProperties.NumberLexemes | lexer/src/lexer.cpp:69-94 | a number is Unknown exactly when a '.' follows the digits and the character two past it is not a digit, spanning the digits and the '.'; otherwise a Number of the digits, or of the digits, '.', one character and a maximal digit run |
| LexerProperties.LowercaseWords | lexer/src/lexer.cpp:125-153 | Boolean exactly for `true`/`false` not followed by '_'; Keyword exactly for a reserved word not followed by '_'; otherwise a ValueIdentifier over the longest run of lowercase letters, digits and '_' |
| LexerProperties.TypeIdentifiers | lexer/src/lexer.cpp:155-165 | an uppercase letter and the longest run of letters and digits |
| LexerProperties.PairForms | lexer/src/lexer.cpp:167-189 | the two-character token exactly when the second character matches, else a one-character Unknown |
| LexerProperties.CharForms | lexer/src/lexer.cpp:96-106 | a three-character Char exactly when the closing quote is two ahead, else a one-character Unknown |
| LexerProperties.StringForms | lexer/src/lexer.cpp:108-123 | a String runs to the first closing quote, newlines included; unterminated it is Unknown up to the terminator |
| LexerProperties.OtherIsUnknown | lexer/src/lexer.cpp:279-289 | a character that starts no token form is a one-character Unknown |
| LexerProperties.StepAtRule | lexer/src/lexer.cpp:219-289 | at a non-blank, non-newline, non-terminator character the step emits the rule's token |
| LexerProperties.DotBeforeLastDigit | lexer/src/lexer.cpp:77-93 | "1.5" at the end of the input scans as Unknown "1." and then Number "5" |
| LexerProperties.RawAt | lexer/src/lexer.cpp:36 | the unchecked read: it has a value exactly inside the buffer, and there it is the character the model reads |
| LexerProperties.FractionRuleAsWritten | lexer/src/lexer.cpp:77-93 | defines the number rule's fraction test with the read as written, None where that read leaves the buffer; stated by LexerProperties.FractionReadInBounds |
| LexerProperties.CharRuleAsWritten | lexer/src/lexer.cpp:96-106 | defines the char rule with the read as written; stated by LexerProperties.CharReadInBounds |
| LexerProperties.FractionReadInBounds | lexer/src/lexer.cpp:77-93 | the fraction test reads past the buffer exactly when a '.' is the last character before the terminator; elsewhere the as-written and corrected rules agree; there the corrected rule gives Unknown |
| LexerProperties.CharReadInBounds | lexer/src/lexer.cpp:96-106 | the closing-quote test reads past the buffer exactly when the quote is the last character before the terminator; elsewhere both rules agree; there the corrected rule gives a one-character Unknown |
| LexerProperties.ReadsPastTheTerminator | lexer/src/lexer.cpp:36 | on `1.` and on a lone quote at the end the as-written read has no value, and the corrected rules give Unknown `1.` and Unknown `'` |
| LexerProperties.DecimalNumbers | lexer/tests/lexer_tests.cpp:63-77 | "12190.123" is one Number; "12190. " gives Unknown "12190." |
| LexerProperties.NumberSkipsCharAfterDot | lexer/src/lexer.cpp:77-93 | "1.x5" is one Number, since only the character two past the '.' is checked |
| LexerProperties.StringLoopAgreesWhenNothingBuffered | lexer/src/lexer.cpp:112-119 | with an empty lookahead, the loop condition as written is exactly the string-body class |
| LexerProperties.StringLoopPassesTerminator | lexer/src/lexer.cpp:112-119 | with tokens buffered, the loop condition as written continues at the terminator of `a "x`, where the corrected rule stops |
| LexerExamples.LetStep | lexer/src/lexer.cpp:125-153 | `let` followed by a blank is a Keyword at the scan position, and the scanner moves three columns on the same line |
| LexerExamples.NameStep | lexer/src/lexer.cpp:125-153 | after a blank, a one-letter lowercase name followed by a blank is a ValueIdentifier one column on; the scanner ends just past it |
| LexerExamples.EqualStep | lexer/src/lexer.cpp:223-226 | after a blank, '=' is an Equal token one column on; the scanner ends just past it |
| LexerExamples.NumberStep | lexer/src/lexer.cpp:69-94 | after a blank, three digits before a newline are a Number one column on; the scanner ends at the newline |
| LexerExamples.LineBreakStep | lexer/src/lexer.cpp:215-218 | a newline at the scan position is stamped at column 0 of the next line, numbered one higher, where scanning resumes |
| LexerExamples.SecondLineText | lexer/tests/lexer_tests.cpp:377 | the second line of the sample program reads `let y = 456` |
| LexerExamples.FirstLineTokens | lexer/tests/lexer_tests.cpp:366-373 | on the sample program the first two tokens sit at line 0, columns 0 and 4, and five tokens take the scanner to column 0 of line 1 |
| LexerExamples.SecondLineTokens | lexer/tests/lexer_tests.cpp:375-377 | from the start of the second line, the first token is at column 0 and the fourth at column 8 of that line |
| LexerExamples.TokenLocations | lexer/tests/lexer_tests.cpp:361-378 | on the sample program the first two tokens are at line 0, columns 0 and 4; after five tokens, the fourth upcoming token is at line 1, column 8, and the next token's line text is `let y = 456` |
| Results.Result.Map | util/result.hpp:63-71 | ok maps the value with f; an error passes through unchanged |
| Results.Result.ConsumeMap | util/result.hpp:76-84 | the state is kept; ok maps the value with f; an error passes through unchanged |
| Results.Result.MapErr | util/result.hpp:90-99 | an error maps with g; ok passes through unchanged |
| Results.Result.MapFlat | util/result.hpp:106-116 | ok maps with f, an error with g, and the state is kept |
| Results.Result.Subsume | util/result.hpp:127-144 | an error receiver is kept; otherwise the other's error wins, or both values are combined with f |
| Results.Result.Consume | util/result.hpp:152-168 | an error receiver is kept; otherwise the other's error wins, or both values are combined with f |
| Results.Result.Then | util/result.hpp:170-176 | the action runs exactly when ok |
| Results.Result.IsOk | util/result.hpp:182 | defines `is_ok`; stated by Results.ExactlyOneState |
| Results.Result.IsErr | util/result.hpp:191-194 | defines `is_err`; stated by Results.ExactlyOneState |
| Results.OkDefault | util/result.hpp:57 | ok, holding the default value |
| Results.ExactlyOneState | util/result.hpp:182-194 | a result is ok or an error, never both |
| Results.MapCompose | util/result.hpp:63-71 | mapping twice is mapping once with the composition |
| Results.MapFlatIsMapThenMapErr | util/result.hpp:106-116 | map_flat equals map followed by map_err |
| Results.FirstErr | util/result.hpp:152-168 | the index of the first error: everything before it is ok |
| Results.ConsumeAll | util/result.hpp:152-168 | defines a run of `consume` calls into one accumulator; stated by Results.ConsumeAllFirstError, Results.ConsumeAllKeepsErr and Results.ConsumeAllSnoc |
| Results.ConsumeAllFirstError | util/result.hpp:127-168 | consuming a run of results gives the fold of the values when all are ok, else the first error |
| Results.ConsumeAllKeepsErr | util/result.hpp:127-144 | once the accumulator is an error, nothing changes it |
| Results.ConsumeAllSnoc | util/result.hpp:152-168 | consuming one more result is one more consume step |
| Decimal.DigitValue | parser/src/parse.cpp:144-181 | a digit's value is below 10 |
| Decimal.DigitChar | codegen/c/src/c_visitor.cpp:82-92 | the digit character of d is a digit whose value is d |
| Decimal.Text | codegen/c/src/c_visitor.cpp:82-92 | the decimal text of a number is canonical: digits, non-empty, no leading zero |
| Decimal.IntText | codegen/c/src/c_visitor.cpp:82-92 | an integer's text is its magnitude's text, with a leading '-' when negative |
| Decimal.ValueOfText | parser/src/parse.cpp:144-181 | reading back the text of n gives n |
| Decimal.TextOfValue | codegen/c/src/c_visitor.cpp:82-92 | printing the value of canonical digit text gives the text back |
| Iteration.Trace | lexer/src/lexer.cpp:191-201 | a trace of n states has n outputs |
| TokenStreams.End | lexer/src/lexer.cpp:205-213 | the cursor reaches the terminator right after the ordinary tokens, or one Halt later when blanks follow them, since the blanks are skipped only when the next token is scanned |
| TokenStreams.Succ | lexer/src/lexer.cpp:191-213 | the position moves by one until the cursor is on the terminator, then stays |
| TokenStreams.HaltExactlyAtEnd | lexer/tests/lexer_tests.cpp:327-339 | the stream yields Halt exactly at and past its end |
| TokenStreams.TokenStream.constructor | parser/parse.hpp:21 | the stream starts at position 0 with an empty lookahead |
| TokenStreams.TokenStream.Next | lexer/src/lexer.cpp:191-201 | returns the token at the position, moves on by one and drops the buffer's front |
| TokenStreams.TokenStream.PeekToken | lexer/tests/lexer_tests.cpp:308-325 | returns the n-th upcoming token without moving; the buffer reaches n + 1 |
| TokenStreams.HaltedIffAtHalt | lexer/src/lexer.cpp:292 | halted exactly when nothing is buffered and the cursor is on the terminator; without trailing blanks that is the next token being Halt; with them, the stream is not halted while that Halt is still unread |
| TokenStreams.TokenStream.IsHalted | lexer/src/lexer.cpp:292 | defines `is_halted` on the abstract stream: nothing buffered and the cursor on the terminator; stated by TokenStreams.HaltedIffAtHalt |
| ParseErrors.TypeName | parser/src/parse_error.cpp:14-23 | the two error classes are named "unexpected token" and "invalid instruction" |
| ParseErrors.MakeError | parser/src/parse_error.cpp:25-34 | the error keeps its class and token, with the composed message |
| ParseErrors.Message | parser/src/parse_error.cpp:28-33 | defines the message the constructor composes; stated by ParseErrors.MessageHeadline, ParseErrors.MessageBody and ParseErrors.ClassesDistinguished |
| ParseErrors.InvalidInstructionError | parser/src/parse_error.cpp:36-40 | an invalid-instruction error with the token and the composed message |
| ParseErrors.UnexpectedTokenError | parser/src/parse_error.cpp:42-46 | an unexpected-token error with the token and the composed message |
| ParseErrors.MessageHeadline | parser/src/parse_error.cpp:25-34 | the message starts with the preamble, the class and " on line ", then digits that read back as the line number, then a blank line |
| ParseErrors.MessageBody | parser/src/parse_error.cpp:25-34 | after the headline come the caret diagram, the caller's text and a final newline |
| ParseErrors.ClassesDistinguished | parser/src/parse_error.cpp:14-34 | the two error classes never produce the same message |
| ParseSpec.ValueAt | parser/src/parse.cpp:144-181 | a value consumes exactly one token, or none at the end |
| ParseSpec.ExpressionAt | parser/src/parse.cpp:112-142 | an expression consumes at least one token and stays inside the stream |
| ParseSpec.InstructionAt | parser/src/parse.cpp:57-110 | an instruction consumes at least one token and stays inside the stream |
| ParseSpec.InstructionsFromStep | parser/src/parse.cpp:46-55 | one turn of the program loop parses one instruction and continues after it |
| Parsing.Parser.constructor | parser/parse.hpp:21 | the parser starts at the beginning of the stream with nothing peeked |
| Parsing.Parser.Expect | parser/src/parse.cpp:28-37 | consumes one token; ok with it exactly when it has the kind, else an unexpected-token error carrying its lexeme |
| Parsing.Parser.Attempt | parser/src/parse.cpp:39-44 | the upcoming token when it has the kind, else nothing; nothing is consumed |
| Parsing.Parser.ParseValue | parser/src/parse.cpp:144-181 | result and new position are those of the value parse function |
| Parsing.Parser.ParseExpression | parser/src/parse.cpp:112-142 | result and new position are those of the expression parse function; on success the token after it stays peeked |
| Parsing.Parser.ParseInstruction | parser/src/parse.cpp:57-110 | result and new position are those of the instruction parse function |
| Parsing.Parser.ParseProgram | parser/src/parse.cpp:46-55 | the stream ends halted; the program's instructions are the fold with `consume` of every instruction result, including the extra failing call made when blanks trail the last token |
| ParserProperties.ValueForms | parser/src/parse.cpp:144-181 | ok exactly on a Number or an Identifier; an Identifier is the local of that name; otherwise an unexpected-token error with the lexeme |
| ParserProperties.NumberForms | parser/src/parse.cpp:148-167 | a lexeme with '.' is a double constant; otherwise an int64 equal to the decimal value, or 0 when it does not fit |
| ParserProperties.IntLiteralRoundTrip | parser/src/parse.cpp:154-159 | the decimal text of n up to the int64 maximum parses as the constant n |
| ParserProperties.ExpressionShape | parser/src/parse.cpp:112-142 | a successful expression alternates value, '+', value, …; the next token is not '+'; the tree is right-nested with those operands in order |
| ParserProperties.RightNestedUnique | parser/src/parse.cpp:112-142 | right-nested trees with the same operands are the same tree |
| ParserProperties.OperandsNonEmpty | ast/src/operator.cpp:52-55 | every expression has at least one operand |
| ParserProperties.InstructionForms | parser/src/parse.cpp:57-110 | a non-identifier is unexpected; another identifier than `let`/`print` is an invalid instruction whose message names it; on success `let` gives a binding, `print` a print, and the last token read is a Newline |
| ParserProperties.InstructionParts | parser/src/parse.cpp:66-96 | a binding reads `let`, the variable, '=' and the expression; a print reads `print` and the expression |
| ParserProperties.FoldAppends | parser/src/parse.cpp:22-26 | folding with the program subsumer appends every value in order |
| ParseSpec.Append | parser/src/parse.cpp:22-26 | defines `program_subsumer`, one instruction added at the end; stated by ParserProperties.FoldAppends and ParserProperties.ProgramOutcome |
| ParserProperties.ProgramOutcome | parser/src/parse.cpp:46-55 | all instructions in source order when every one parses, otherwise the first error |
| ParserProperties.InstructionCount | parser/src/parse.cpp:46-55 | the program loop makes at most one instruction call per remaining position (plus one for a pending peek) |
| ParserProperties.TrailingLastFails | parser/src/parse.cpp:46-55 | with blanks after the last token, the loop's last `parse_instruction` call reads up to the terminator and fails |
| ParserProperties.TrailingBlanksFail | parser/src/parse.cpp:46-55 | `parse_program` returns an error on any source whose last token is followed by blanks |
| ParserProperties.BlankOnlyProgram | parser/src/parse.cpp:46-55 | a source without tokens is the empty program, unless it holds blanks: then it is the unexpected-token error of the Halt token |
| ParseSpec.IntOfDigits | parser/src/parse.cpp:154-160 | defines the `int64_t` read of a digit lexeme, 0 when out of range; stated by ParserProperties.NumberForms and ParserProperties.IntLiteralRoundTrip |
| ParseSpec.ConstantOf | parser/src/parse.cpp:153-167 | defines the constant of a Number lexeme: a double when it holds '.', else an int64; stated by ParserProperties.NumberForms |
| ParseSpec.Terminated | parser/src/parse.cpp:103-109 | defines the mandatory Newline after an instruction; stated by ParserProperties.InstructionForms |
| ParseSpec.InstructionsFrom | parser/src/parse.cpp:49-52 | defines the results of the loop's `parse_instruction` calls until the stream is halted; stated by ParseSpec.InstructionsFromStep, ParserProperties.InstructionCount and ParserProperties.TrailingLastFails |
| ParseSpec.ProgramFrom | parser/src/parse.cpp:46-55 | defines `parse_program`'s result, the `consume` fold into an empty program; stated by ParserProperties.ProgramOutcome, ParserProperties.TrailingBlanksFail and Parsing.Parser.ParseProgram |
| ParserProperties.LetExample | tests/parser/parse_tests.cpp:35-44 | `let x = 2` and a newline is the binding of x to the constant 2 |
| ParserProperties.PrintExample | tests/parser/parse_tests.cpp:46-56 | `print 1 + 2` and a newline prints the sum of the constants 1 and 2 |
| Ast.Program.constructor | ast/src/program.cpp:51 | a fresh program has no instructions |
| Ast.Program.AddInstruction | ast/src/program.cpp:57-60 | appends the instruction; the earlier ones keep their order |
| AstBuilders.AstBuilder.constructor | ast/builder.hpp:6-15 | a fresh builder is unmodified |
| AstBuilders.AstBuilder.MarkModified | ast/builder.hpp:11 | the builder is marked modified |
| AstBuilders.ValueBuilder.constructor | ast/value.hpp:96-132 | nothing set, unmodified |
| AstBuilders.ValueBuilder.SetIntConstant | ast/value.hpp:99-104 | modified; the constant is the int; the local is untouched |
| AstBuilders.ValueBuilder.SetDoubleConstant | ast/value.hpp:106-111 | modified; the constant is the double; the local is untouched |
| AstBuilders.ValueBuilder.SetLocal | ast/value.hpp:113-118 | modified; the local is set; the constant is untouched |
| AstBuilders.ValueBuilder.Build | ast/value.hpp:120-129 | with exactly one part set, the value is that constant or that local |
| AstBuilders.ExpressionBuilder.constructor | ast/src/expression.cpp:18 | holds no expression |
| AstBuilders.ExpressionBuilder.Build | ast/src/expression.cpp:22-37 | a modified builder yields the expression it holds |
| AstBuilders.ExpressionBuilder.WasModified | ast/src/expression.cpp:22 | defines `was_modified`: an expression is held; stated by AstBuilders.ExpressionBuilder.Build |
| AstBuilders.BindingBuilder.constructor | ast/src/expression.cpp:75 | nothing set, unmodified |
| AstBuilders.BindingBuilder.SetVariable | ast/src/expression.cpp:79-84 | modified; the variable is set; the expression is untouched |
| AstBuilders.BindingBuilder.SetExpression | ast/src/expression.cpp:86-91 | modified; the expression is set; the variable is untouched |
| AstBuilders.BindingBuilder.Build | ast/src/expression.cpp:93-96 | the binding of the stored variable to the stored expression |
| AstBuilders.PrintBuilder.constructor | ast/expression.hpp:109-122 | nothing set, unmodified |
| AstBuilders.PrintBuilder.SetExpression | ast/expression.hpp:111-116 | modified; the expression is set |
| AstBuilders.PrintBuilder.Build | ast/expression.hpp:118 | the print of the stored expression |
| AstBuilders.OperatorBuilder.constructor | ast/src/operator.cpp:16 | nothing set, unmodified |
| AstBuilders.OperatorBuilder.SetKind | ast/src/operator.cpp:19-24 | modified; the kind is set; the operands are untouched |
| AstBuilders.OperatorBuilder.SetA | ast/src/operator.cpp:26-31 | modified; the left operand is set; the rest is untouched |
| AstBuilders.OperatorBuilder.SetB | ast/src/operator.cpp:33-38 | modified; the right operand is set; the rest is untouched |
| AstBuilders.OperatorBuilder.Build | ast/src/operator.cpp:40-43 | the operator of the stored kind and operands |
| AstBuilders.InstructionBuilder.constructor | ast/program.hpp:13-17 | both sub-builders fresh, distinct and unmodified |
| AstBuilders.InstructionBuilder.Build | ast/program.hpp:23-32 | with exactly one sub-builder used, a binding or a print built from it |
| AstBuilders.InstructionBuilder.WasModified | ast/program.hpp:18-21 | defines `was_modified`: either sub-builder was used; stated by AstBuilders.InstructionBuilder.Build |
| CDependencies.Unlinked | codegen/c/dependency.hpp:19 | the type and include are kept; nothing to link |
| CDependencies.Linked | codegen/c/dependency.hpp:21-24 | the type and include are kept; links against the given library |
| CDependencies.EqualityIsFieldwise | codegen/c/dependency.hpp:37-40 | equal exactly when type, include and link are; differing link needs make them differ |
| CDependencies.Dependency.RequiresLink | codegen/c/dependency.hpp:35 | defines `requires_link`: a library is present; stated by CDependencies.Unlinked and CDependencies.Linked |
| CFileBuilders.LessIrreflexive | codegen/c/file_builder.hpp:48 | no include path orders before itself |
| CFileBuilders.LessTransitive | codegen/c/file_builder.hpp:48 | the include-path order is transitive |
| CFileBuilders.LessTotal | codegen/c/file_builder.hpp:48 | two different include paths are ordered one way or the other |
| CFileBuilders.RestMap | codegen/c/file_builder.hpp:48 | dropping the first of sorted entries removes exactly its key from the map |
| CFileBuilders.SortedUnique | codegen/c/file_builder.hpp:48 | sorted entries with the same map are the same sequence |
| CFileBuilders.Insert | codegen/c/src/file_builder.cpp:22 | inserting at the sorted position keeps the entries sorted and adds that key to the map |
| CFileBuilders.DivergentMessageLayout | codegen/c/file_builder.hpp:22-31 | the message is the headline, the include path, a newline, …, and ends with the request to report the bug |
| CFileBuilders.DivergentDependencyError.Message | codegen/c/file_builder.hpp:22-31 | defines the three-line divergence message; stated by CFileBuilders.DivergentMessageLayout |
| CFileBuilders.FileBuilder.constructor | codegen/c/file_builder.hpp:38-50 | no dependencies and an empty body |
| CFileBuilders.FileBuilder.AddDependency | codegen/c/src/file_builder.cpp:14-24 | a new include is added to the map, which stays sorted; a known include changes nothing and is an error exactly when the stored dependency differs, naming the include |
| CFileBuilders.FileBuilder.Write | codegen/c/src/file_builder.cpp:50-55 | the code is appended to the body; the dependencies are untouched |
| CFileBuilders.FileBuilder.Build | codegen/c/src/file_builder.cpp:26-48 | the file is the include lines in key order, a blank line, the `main` header, the body, a newline and the closing brace |
| CFileBuilders.IncludeLine | codegen/c/src/file_builder.cpp:31-39 | defines one include line, `<path>` for a system and `"path"` for a source header; stated by CodegenProperties.ProgramIncludes |
| CFileBuilders.IncludeSection | codegen/c/src/file_builder.cpp:29-40 | defines the include lines in entry order; stated by CFileBuilders.FileBuilder.Build and CodegenProperties.ProgramIncludes |
| CFileBuilders.Rendered | codegen/c/src/file_builder.cpp:26-48 | defines the text `build` returns; stated by CFileBuilders.FileBuilder.Build and CFileBuilders.BuildDependsOnlyOnMap |
| CFileBuilders.BuildDependsOnlyOnMap | codegen/c/src/file_builder.cpp:26-48 | the rendered file depends only on the dependency map, not on insertion order |
| CFileBuilders.ParamList | codegen/c/src/file_builder.cpp:63-71 | defines the parameters as `type name` joined by ", "; stated by CFileBuilders.DefinitionParameters and CFileBuilders.BeginFunctionDefinition |
| CFileBuilders.DefinitionOpen | codegen/c/src/file_builder.cpp:57-73 | defines what `FunctionDefinition` writes first; stated by CFileBuilders.BeginFunctionDefinition and CFileBuilders.DefinitionParameters |
| CFileBuilders.CallOpen | codegen/c/src/file_builder.cpp:75-79 | defines what `FunctionCall` writes first, the name and '('; stated by CFileBuilders.BeginFunctionCall |
| CFileBuilders.BindingOpen | codegen/c/src/file_builder.cpp:83-88 | defines what `VariableBinding` writes first, `type name = `; stated by CFileBuilders.BeginVariableBinding |
| CFileBuilders.DefinitionParameters | codegen/c/src/file_builder.cpp:57-73 | no parameters give `()`; one parameter is its type, a blank and its name |
| CFileBuilders.BeginFunctionDefinition | codegen/c/src/file_builder.cpp:57-73 | appends the return type, name and the parameters joined with ", " in parentheses, then ` {` and a newline |
| CFileBuilders.EndFunctionDefinition | codegen/c/file_builder.hpp:82 | appends the closing brace and a newline |
| CFileBuilders.BeginFunctionCall | codegen/c/src/file_builder.cpp:75-79 | appends the name and '(' |
| CFileBuilders.EndFunctionCall | codegen/c/src/file_builder.cpp:81 | appends `);` and a newline |
| CFileBuilders.BeginVariableBinding | codegen/c/src/file_builder.cpp:83-88 | appends the type, name and ` = ` |
| CFileBuilders.EndVariableBinding | codegen/c/src/file_builder.cpp:90 | appends ';' and a newline |
| CFileBuilders.DirectExpression | codegen/c/src/file_builder.cpp:92-96 | appends the text |
| CVisitors.CVisitor.constructor | codegen/c/src/c_visitor.cpp:14 | keeps the name; an empty file builder |
| CVisitors.CVisitor.VisitConstant | codegen/c/src/c_visitor.cpp:82-92 | appends the constant's text |
| CVisitors.CVisitor.VisitLocalVariable | codegen/c/src/c_visitor.cpp:94-97 | appends the variable's name |
| CVisitors.CVisitor.VisitValue | codegen/c/src/c_visitor.cpp:72-80 | appends the value's text |
| CVisitors.CVisitor.VisitExpression | codegen/c/src/c_visitor.cpp:28-36 | appends the expression's text; dependencies untouched |
| CVisitors.CVisitor.VisitOperator | codegen/c/src/c_visitor.cpp:16-26 | appends the left operand, ` + ` and the right operand |
| CVisitors.CVisitor.VisitBinding | codegen/c/src/c_visitor.cpp:38-42 | appends `int NAME = EXPR;` and a newline |
| CVisitors.CVisitor.VisitPrint | codegen/c/src/c_visitor.cpp:44-52 | the dependencies become exactly stdio.h, without a divergence error; appends the printf call of the expression |
| CVisitors.CVisitor.VisitInstruction | codegen/c/src/c_visitor.cpp:54-62 | appends the instruction's statement; a print makes the dependencies exactly stdio.h |
| CVisitors.CVisitor.VisitProgram | codegen/c/src/c_visitor.cpp:64-70 | appends every instruction's statement in order; stdio.h is the only dependency exactly when some instruction prints |
| CVisitors.CVisitor.Generate | codegen/c/src/c_visitor.cpp:99 | the executable has the visitor's name and the built file |
| CVisitors.ProgramEntries | codegen/c/src/c_visitor.cpp:44-70 | the entries of a builder whose map is empty or just stdio.h are the program's dependency list |
| CVisitors.Compile | tests/codegen/c_codegen_tests.cpp:18-21 | visiting a program and generating gives the file of the program's statements and dependencies |
| CVisitors.ConstantCode | codegen/c/src/c_visitor.cpp:82-92 | defines a constant's C text; stated by CodegenProperties.IntLiteralCode and CodegenProperties.NegativeConstantCode |
| CVisitors.ValueCode | codegen/c/src/c_visitor.cpp:72-97 | defines a value's C text; stated by CVisitors.CVisitor.VisitValue |
| CVisitors.ExpressionCode | codegen/c/src/c_visitor.cpp:16-36 | defines an expression's C text; stated by CVisitors.CVisitor.VisitExpression and CodegenProperties.ExpressionCodeJoins |
| CVisitors.InstructionCode | codegen/c/src/c_visitor.cpp:38-62 | defines an instruction's C statement; stated by CVisitors.CVisitor.VisitInstruction and CodegenProperties.SampleLines |
| CVisitors.ProgramCode | codegen/c/src/c_visitor.cpp:64-70 | defines the body of `main`; stated by CVisitors.CVisitor.VisitProgram and CodegenProperties.ProgramCodeAppend |
| CVisitors.HasPrint | codegen/c/src/c_visitor.cpp:44-52 | defines whether a program prints, the one way a dependency is added; stated by CodegenProperties.ProgramIncludes |
| CVisitors.ProgramDependencies | codegen/c/src/c_visitor.cpp:44-70 | defines the dependencies a program needs; stated by CVisitors.ProgramEntries and CodegenProperties.ProgramIncludes |
| CVisitors.ProgramFile | codegen/c/src/file_builder.cpp:26-48 | defines the generated file; stated by CVisitors.Compile and CodegenProperties.FileOpensWithInclude |
| CodegenProperties.ValueCodes | codegen/c/src/c_visitor.cpp:72-80 | one text per value |
| CodegenProperties.ExpressionCodeJoins | codegen/c/src/c_visitor.cpp:16-36 | an expression's text is its operands' texts joined with ` + `, left to right |
| CodegenProperties.IntLiteralCode | codegen/c/src/c_visitor.cpp:82-92 | a canonical integer literal within int64 parses to a constant whose C text is the literal again |
| CodegenProperties.NegativeConstantCode | codegen/c/src/c_visitor.cpp:82-92 | a negative constant is written as '-' and its magnitude |
| CodegenProperties.ProgramCodeAppend | codegen/c/src/c_visitor.cpp:64-70 | the code of two instruction runs is the concatenation of their codes |
| CodegenProperties.ProgramIncludes | codegen/c/src/file_builder.cpp:29-40 | the include section is `<stdio.h>` and a newline when the program prints, else empty |
| CodegenProperties.FileOpensWithInclude | codegen/c/src/file_builder.cpp:26-48 | the file starts with '<' exactly when the program prints |
| CodegenProperties.SampleLines | tests/codegen/c_codegen_tests.cpp:14 | the sample's instructions become `int x = 1 + 2;`, `int y = 3;` and the printf of `x + y` |
| CodegenProperties.SampleProgramCode | tests/codegen/c_codegen_tests.cpp:12-27 | the sample program's body is those three lines, and stdio.h is its only dependency |
| CodegenProperties.ParsesLineX | tests/parser/parse_tests.cpp:60-65 | wherever `let x = 1 + 2` and a newline stand in the stream, they parse to that binding and the parser stops after the newline |
| CodegenProperties.ParsesLineY | tests/parser/parse_tests.cpp:60-66 | likewise `let y = 3` parses to that binding |
| CodegenProperties.ParsesLinePrint | tests/parser/parse_tests.cpp:60-74 | likewise `print x + y` parses to the print of the sum of the locals x and y |
| CodegenProperties.SampleTokensWellFormed | tests/parser/parse_tests.cpp:60 | the sample's 17 tokens are a well-formed stream: no early Halt, numeric Number lexemes |
| CodegenProperties.SampleResults | tests/parser/parse_tests.cpp:58-74 | the `parse_instruction` calls on the sample yield its three instructions, all ok, in order |
| CodegenProperties.SampleFold | parser/src/parse.cpp:46-55 | consuming the three ok results into the empty program gives the three instructions in order |
| CodegenProperties.SampleParses | tests/parser/parse_tests.cpp:58-75 | `parse_program` on the sample's tokens is ok and holds exactly the sample program the back end compiles: bindings of x and y, then the print of x + y |

## Left out

- Reading the source file, compiling the generated C and running it are left out (`Executable::compile`/`execute`, `ParseError::print`). They are I/O and calls into the system compiler.
- `std::to_string(double)` and double parsing are left out, because they are floating point. A double constant keeps its lexeme, and its C text is that lexeme.
- Integer literals too large for `int64_t` become 0. This matches `std::from_chars`, which leaves the zero-initialised value untouched on overflow. It is modelled as such.
- `FileBuilder::build` writes `<stdio.h>` without a leading `#include`. The model keeps this as written, so `FileOpensWithInclude` states that the file starts with '<'.
- The lexer's characters are Dafny characters, not bytes. The arrow of the caret diagram is one character here, although it is three UTF-8 bytes in the source. Include paths are ordered by character code, which agrees with `std::string_view`'s ordering on ASCII.
- Lifetimes of `std::string_view` are not modelled: the owned copies, the views into the source buffer, and the map key taken from the moved dependency in codegen/c/src/file_builder.cpp:22. The model treats every view as a value.
- The v0 parser reads an abstract token stream, `TokenStreams.TokenStream`, not the lexer. That stream has the kinds the parser uses (Identifier, Number, Plus, Equal, Newline, Halt, Unknown), the lexer's lookahead buffer, and the lexer's halting test on the character cursor: a `trailing` flag says that blanks follow the last token, in which case the stream halts only after one Halt has been read. The lexer's own vocabulary names these differently: ValueIdentifier and Keyword rather than Identifier, and no Plus. Where blanks stand between tokens does not matter to the parser and is not recorded.
- parser/keywords.hpp is not part of this model. `let` and `print` are taken as the instruction keywords.
- parse.cpp calls one-argument forms of `unexpected_token` and `invalid_instruction`, which parse_error.cpp does not define. The model uses the two-argument forms of parse_error.cpp, with the offending token; an unexpected token's detail is its lexeme.
- Lexing.Lexer.PeekToken: the template parameter of `peek_token<N>` is bounded at compile time; here the bound is the precondition `n < 4` (MaxLookahead), so a larger depth is a caller error rather than an error path. TokenStreams.TokenStream.PeekToken has the same bound.
- The stale headers lexer/lexer.hpp, codegen/c/c_visitor.hpp and ast/operator.hpp are not followed where the .cpp files differ; the model follows the .cpp files.
- The array and vector overloads of `FunctionDefinition` are one method over a sequence. The destructor-driven closing text of `FunctionDefinition`, `FunctionCall` and `VariableBinding` is a separate End method that the caller invokes where the scope ends.
- The `assert` in the C visitor's print is modelled by proving that adding stdio.h never reports a divergence.
- The textual AST visitor dispatch (`accept`) is direct recursion over the datatypes.

## Findings

| source | as written | input that shows it | evidently intended | confidence | as-written member | corrected member |
|---|---|---|---|---|---|---|
| lexer/src/lexer.cpp:112-119 | the string loop runs while `!is_halted() && peek() != '"'`, and `is_halted()` also requires the lookahead buffer to be empty | `a "x` with the first token already peeked, then peeking a second: at the terminator the buffer is non-empty, so the loop goes on past the end of the buffer | stop at the terminator and give an Unknown token up to it | not executed | LexerProperties.StringLoopPassesTerminator | LexerRules.StringRule |
| lexer/src/lexer.cpp:36 | `peek_n(n)` reads `*(_code + n)` without a bounds check; `tok_number` (lexer.cpp:79) and `tok_char` (lexer.cpp:98) call it with n = 2 | `1.` (or a lone `'`) at the very end of the source: the cursor is on the '.' (or the quote), the terminator is one past it, and `peek_n(2)` reads one byte beyond the terminator | read the terminator there, so the '.' gives Unknown `1.` and the quote a one-character Unknown | not executed | LexerProperties.FractionRuleAsWritten, LexerProperties.CharRuleAsWritten, LexerProperties.ReadsPastTheTerminator | LexerRules.FractionRule, LexerRules.CharRule, LexerProperties.FractionReadInBounds, LexerProperties.CharReadInBounds |
