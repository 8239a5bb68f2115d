# Kpp front end and emitter, modelled in Dafny

Kpp translates a small language of `start { ... close }` programs (source
files ending in `.kat`) into an assembly-like text listing. This project
models its three core stages:

- **`Lexer`** (`lexer.dfy`) is the tokenizer `TokenStore`. It scans source
  text into keyword, identifier, literal, operator and symbol tokens. Each
  token carries a line and a column. The scanner skips whitespace and
  comments, and stops with an error at an unterminated string, character
  literal or block comment, or at a character that starts no token. Each
  rule is a function on a `Cursor` (position, line, column). `Lex` folds
  those rules over the input. The class `TokenStore` keeps the source's
  fields (`tokens`, `lineNumber`, `columnNumber`) and its methods are
  proved to agree with the rules.
- **`Parsing`** (`parser.dfy`) is the recursive-descent recogniser
  `Parser`. It checks the token sequence against the grammar of
  `start { ... close }` programs (declarations, `out < <`, `in >>`,
  `if`/`else`), moving a single cursor. It builds no tree and throws the
  first error with the line of the token where it stopped. Each rule is a
  function from a cursor position to `Ok(end)` or `Err(error, at)`. The
  class `Parser` runs the same rules on its mutable cursor and is proved
  to agree with them.
- **`Grammar`** (`grammar.dfy`) describes the accepted language on its
  own terms, as syntax trees and a printer from trees to token kinds and
  values. It proves the recogniser sound and complete for that language.
- **`Emitter`** (`generator.dfy`) is the `Generator`. It walks a tree of
  parsed statements and appends assembly-like lines to an output stream,
  while it fills a symbol table (`name -> var_name`) and draws numbered
  labels from a counter. The class `Generator` has the source's fields.
  The output stream is a sequence of lines plus a `closed` flag. Its
  methods are proved against functions of the state (`GenState`), and the
  emitter's properties are lemmas about those functions.
- **`Decimal`** (`decimal.dfy`) renders a natural number in decimal, as
  `std::to_string` does for label numbers and line numbers. It also reads
  the number back.
- **`Wrappers`** (`wrappers.dfy`) holds `Option` and `Result`.

The parsed-statement tree the emitter consumes (`StatementType`,
`ParsedStatement`) is referred to by `src/generator.hpp` but defined in no
file of the repository. Here it is a datatype of six kinds with head tokens
and children.

### Where the code and its description differ

The model follows the code in each of these cases.

- **If lowering.** `generateIfStatement` emits *every* child after the
  true label. It then emits `children[1]` a second time after the false
  label. The second child is therefore generated twice; see
  `ElseRepeatsSecondChild`.
- **While lowering.** `generateWhileLoop` jumps back to the start label
  when the condition holds. Otherwise it falls into the body, and the body
  always jumps back to the start.
- **Unterminated block comment.** It reports the line reached at the end
  of the input, not the line the comment opened on.
- **Line and column counters.**
  - A newline inside a string literal does not advance the line counter.
  - A token does not advance the column; only whitespace and block
    comments do.
- **Character literals.** Only the four-character forms `'\x'` and `'x''`
  are accepted. A plain `'a'` is an error.
- **Operator choice.** The operator taken is the first operator in the
  set's iteration order that occurs at the position. That is not
  necessarily the longest one.
- **`while`.** It is not a keyword, so it lexes as an identifier and no
  statement can start with it.
- **End of tokens.** When the parser runs out of tokens, `peek` throws
  "Unexpected end of tokens". It throws this before the rule's own message.
- **No `section .data` header.** The constructor's braces put the header
  write after a `throw`, inside the failure branch. An opened stream
  therefore starts empty.

## Model

| member | source | states |
|---|---|---|
| Lexer.TokenStore.constructor | src/tokenstore.hpp:104 | a new store has no tokens and starts at line 1, column 1 |
| Lexer.TokenStore.AddToken | src/tokenstore.hpp:41-43 | appends one token stamped with the current line and column; the counters do not move |
| Lexer.TokenStore.SkipComments | src/tokenstore.hpp:45-65 | skips a `//` comment to the newline or a `/* */` comment past its close, moving the counters as the comment rule does, or fails on an unterminated block comment; adds no token |
| Lexer.TokenStore.MatchStringLiteral | src/tokenstore.hpp:67-78 | scans to the closing quote, stepping over backslash escapes, and adds the literal; fails with the start line when the input ends first |
| Lexer.TokenStore.MatchCharLiteral | src/tokenstore.hpp:80-89 | adds a character literal exactly in the two four-character shapes the code accepts, otherwise fails |
| Lexer.TokenStore.MatchNumber | src/tokenstore.hpp:91-101 | scans a digit run, plus a dot and a digit run when a dot follows, and adds an integer or float literal accordingly |
| Lexer.TokenStore.MatchWord | src/tokenstore.hpp:131-141 | scans the maximal run of letters, digits and `_` and adds it as a keyword when reserved, else as an identifier |
| Lexer.TokenStore.MatchOperator | src/tokenstore.hpp:162-171 | adds the first operator in the set's iteration order that occurs at the position, or reports that none does |
| Lexer.TokenStore.ScanAt | src/tokenstore.hpp:110-184 | one round of the scan loop: its effect on the tokens, counters and position is the rule `StepAt` picks for the current character |
| Lexer.TokenStore.Tokenize | src/tokenstore.hpp:106-185 | the tokens, counters and error after the loop are those of the fold `Lex` over the whole input |
| Lexer.WordToken | src/tokenstore.hpp:131-141 | a word's lexeme is the maximal word run; it is a keyword exactly when it is reserved |
| Lexer.WhileIsIdentifier | src/tokenstore.hpp:24-28 | `while` is not reserved and lexes as an identifier |
| Lexer.NumberToken | src/tokenstore.hpp:91-101 | a digit run is a float literal exactly when a dot follows it, and the scan ends where each kind's run ends |
| Lexer.DotWithoutFraction | src/tokenstore.hpp:94-98 | `1.` is a float literal although no digit follows the dot |
| Lexer.StringToken | src/tokenstore.hpp:67-78 | a string literal fails exactly when the scan runs off the end, reporting its start line; otherwise its lexeme is quote-delimited |
| Lexer.EscapedQuoteInString | src/tokenstore.hpp:69-72 | a backslash hides the quote after it, so the literal continues past it |
| Lexer.UnterminatedStringStops | src/tokenstore.hpp:73-75 | an unterminated string stops the scan with no token added and the start line reported |
| Lexer.CharTokenShape | src/tokenstore.hpp:80-89 | every accepted character literal is four characters long, quoted, and either escaped or followed by two quotes |
| Lexer.PlainCharRejected | src/tokenstore.hpp:82-86 | `'a'` is rejected as an unterminated character literal |
| Lexer.CharShapeAccepted | src/tokenstore.hpp:80-89 | conversely, every four-character literal that is quoted at both ends and either escaped or followed by two quotes is emitted whole as one character-literal token at the cursor's line and column |
| Lexer.ScanUnits | src/tokenstore.hpp:67-72 | for every input, when the string scan stops inside the source, what it stepped over is a run of backslash pairs and characters other than a quote or a backslash |
| Lexer.UnitsScan | src/tokenstore.hpp:67-72 | conversely, for every input, a run of such units followed by a quote makes the scan stop exactly at that quote |
| Lexer.StringLexemeUnits | src/tokenstore.hpp:67-77 | every string literal the lexer emits is a quote, a run of backslash pairs and plain characters, and a quote; the regex declared, unused, at line 38 has this shape except that its `.` matches no line break, so it rejects a backslash before a newline or carriage return, which the scanner accepts |
| Lexer.UnitsAccepted | src/tokenstore.hpp:67-77 | conversely, every quote, run of units and quote at the cursor is emitted whole as one string-literal token at the cursor's line and column |
| Lexer.EscapedCharAccepted | src/tokenstore.hpp:82-85 | `'\n'` is accepted as a character literal |
| Lexer.WhitespaceCounters | src/tokenstore.hpp:113-122 | whitespace adds no token; a newline moves to the next line and column 1, any other whitespace one column on |
| Lexer.LineCommentSkipped | src/tokenstore.hpp:46-47 | a line comment adds no token, moves no counter and stops at the next newline |
| Lexer.BlockCommentSkipped | src/tokenstore.hpp:48-64 | a block comment fails exactly when no close follows its opening, and otherwise ends just after the first close |
| Lexer.BlockCommentLine | src/tokenstore.hpp:50-61 | an unterminated block comment reports the line its body scan reached at the end of the input |
| Lexer.UnterminatedCommentLine | src/tokenstore.hpp:50-61 | `/*` followed by a newline, opened on line 1, fails reporting line 2 |
| Lexer.OperatorToken | src/tokenstore.hpp:162-171 | an operator token is a listed operator occurring at the position, and the scan moves past it |
| Lexer.LongestMatch | src/tokenstore.hpp:163-170 | under an iteration order that tries two-character operators first, the longest occurring operator is taken |
| Lexer.OperatorsAtShift | src/tokenstore.hpp:29-32 | where `<<` occurs, `<` occurs too, and no other operator does |
| Lexer.ShiftMaySplit | src/tokenstore.hpp:163-170 | in an order that tries `<` before `<<`, the input `<<` is scanned as `<` |
| Lexer.ListedOrderTriesLessFirst | src/tokenstore.hpp:29-32 | the operators in the order they are listed form such an order |
| Lexer.StepAtOperator | src/tokenstore.hpp:162-171 | a character that starts no other token goes to the operator rule |
| Lexer.UnknownCharacter | src/tokenstore.hpp:181-183 | the scan fails with an unknown-token error exactly when the character starts no token, and the error names the character, line and column |
| Lexer.LexAppendsOnly | src/tokenstore.hpp:41-43 | tokenizing only appends: the tokens stored before stay unchanged in front |
| Lexer.LexConsumesAll | src/tokenstore.hpp:110-184 | a scan that ends without an error has consumed the whole input |
| Lexer.LexemesFromSource | src/tokenstore.hpp:131-178 | every token added has a lexeme that occurs verbatim in the source |
| Parsing.DescribeRoundTrip | src/parser.hpp:37-38 | an error's text begins with its complaint and ends with its line number, which reads back exactly |
| Parsing.Parser.constructor | src/parser.hpp:137 | the parser holds the given tokens with the cursor at 0 |
| Parsing.Parser.Peek | src/parser.hpp:16-20 | the token under the cursor, or "Unexpected end of tokens" at the end |
| Parsing.Parser.Advance | src/parser.hpp:22-26 | the token under the cursor and the cursor moved past it, or the end-of-tokens error with the cursor unmoved |
| Parsing.Parser.Match | src/parser.hpp:28-33 | consumes the current token exactly when its kind matches and its value matches or the requested value is empty |
| Parsing.Parser.MatchStorageKeyword | src/parser.hpp:52-54 | consumes the current token exactly when it is one of the five storage keywords |
| Parsing.Parser.MatchFirstOperand | src/parser.hpp:124-125 | consumes the current token exactly when its kind can start an expression |
| Parsing.Parser.MatchLaterOperand | src/parser.hpp:128 | consumes the current token exactly when its kind can follow an operator |
| Parsing.Parser.ErrorHere | src/parser.hpp:37-38 | the error a rule throws at the cursor: its complaint and the current token's line, or end of tokens |
| Parsing.Parser.ParseProgram | src/parser.hpp:36-49 | cursor and outcome agree with the `Program` rule: `start`, `{`, statements until `close`, then `}` |
| Parsing.Parser.ParseBlock | src/parser.hpp:43-45 | cursor and outcome agree with parsing statements until the closer |
| Parsing.Parser.ParseStatement | src/parser.hpp:51-65 | cursor and outcome agree with the `Statement` rule, dispatching on the first token |
| Parsing.Parser.ParseVariableDeclaration | src/parser.hpp:67-77 | cursor and outcome agree with the declaration rule: a name, optionally `=` and an expression, then `;` |
| Parsing.Parser.ParseOutput | src/parser.hpp:79-89 | cursor and outcome agree with the output rule: two `<` tokens, an expression, `;` |
| Parsing.Parser.ParseInput | src/parser.hpp:91-100 | cursor and outcome agree with the input rule: `>>`, a name, `;` |
| Parsing.Parser.ParseIfStatement | src/parser.hpp:102-120 | cursor and outcome agree with the if rule: a condition, a braced block, optionally `else` and a braced block |
| Parsing.Parser.ParseExpression | src/parser.hpp:122-134 | cursor and outcome agree with the expression rule: an operand, then operator and operand pairs |
| Parsing.Parser.Parse | src/parser.hpp:139-146 | runs the program rule from the cursor and hands back its outcome |
| Parsing.UnknownStatementStart | src/parser.hpp:62-64 | a statement fails at its first token exactly when that token opens no statement, with "Unexpected statement" and its line |
| Parsing.IfRejectsParenthesis | src/parser.hpp:102-103 | an `if` condition starting with `(` is rejected as an invalid expression |
| Parsing.OutputRejectsShiftToken | src/parser.hpp:79-85 | `out` followed by a single `<<` token is rejected |
| Parsing.InputShape | src/parser.hpp:91-100 | an input statement is accepted exactly as `>>`, an identifier and `;`, and consumes those three tokens |
| Parsing.MissingCloseAtEnd | src/parser.hpp:16-20 | tokens that stop inside the body give the end-of-tokens error, never a read past the end |
| Grammar.ExprComplete | src/parser.hpp:122-134 | a printed well-formed expression before a symbol is accepted to its end |
| Grammar.TailComplete | src/parser.hpp:127-130 | printed operator and operand pairs before a symbol are all consumed |
| Grammar.StmtComplete | src/parser.hpp:51-65 | a printed well-formed statement not followed by `else` is accepted to its end |
| Grammar.IfComplete | src/parser.hpp:102-120 | a printed `if`, with or without `else`, is accepted to its end |
| Grammar.ElseComplete | src/parser.hpp:112-118 | a printed `else` part is accepted to its closing brace |
| Grammar.BlockComplete | src/parser.hpp:43-45 | a printed statement list followed by its closer is accepted through the closer |
| Grammar.ProgramComplete | src/parser.hpp:36-49 | every token sequence beginning with a printed program is accepted, up to the end of that print |
| Grammar.ExprSound | src/parser.hpp:122-134 | an accepted expression is the print of a well-formed expression tree |
| Grammar.StmtSound | src/parser.hpp:51-65 | an accepted statement is the print of a well-formed statement tree |
| Grammar.IfSound | src/parser.hpp:102-120 | an accepted `if` is the print of a well-formed if tree |
| Grammar.BlockSound | src/parser.hpp:43-45 | an accepted statement list is the print of well-formed statements followed by the closer |
| Grammar.ProgramSound | src/parser.hpp:36-49 | every accepted token sequence begins with a printed well-formed program, and acceptance ends right after it |
| Grammar.AcceptedLanguage | src/parser.hpp:36-49 | the parser accepts a token sequence exactly when it begins with the print of a well-formed program |
| Grammar.TrailingTokensIgnored | src/parser.hpp:36-49 | tokens after the closing brace of an accepted program do not change the outcome |
| Decimal.ValueOfNatToString | src/generator.hpp:23-25 | the decimal rendering of a number reads back as that number |
| Decimal.NatToStringInjective | src/generator.hpp:23-25 | distinct numbers render to distinct numerals |
| Decimal.LabelRoundTrip | src/generator.hpp:23-25 | the number can be read back off a label whose base does not end in a digit |
| Decimal.LabelsDistinct | src/generator.hpp:23-25 | labels with different bases or different numbers differ |
| Decimal.NumeralParts | src/generator.hpp:23-25 | a label splits back into its base and the digits of its number |
| Emitter.Generator.constructor | src/generator.hpp:36-42 | an empty symbol table, counter 0 and an open, empty stream |
| Emitter.Generator.Emit | src/generator.hpp:99-100 | appends one line to an open stream; a closed stream drops it |
| Emitter.Generator.GetLabel | src/generator.hpp:23-25 | returns the base followed by the counter's value and increments the counter by one, changing nothing else |
| Emitter.Generator.LookupSymbol | src/generator.hpp:108 | returns a name's location, binding it to the empty location when unknown |
| Emitter.Generator.GenerateCode | src/generator.hpp:50-75 | the state and error after the walk are those of `GenCode`, which only appends lines, binds names and raises the counter |
| Emitter.Generator.GenerateVariableDeclaration | src/generator.hpp:77-96 | binds the name to `var_<name>` first, then writes the data line of the kind or fails on an unknown kind |
| Emitter.Generator.GenerateOutput | src/generator.hpp:98-116 | the state after the token loop is `GenOutput` of the state before |
| Emitter.Generator.GenerateInput | src/generator.hpp:118-120 | an input statement changes nothing |
| Emitter.Generator.EmitCompare | src/generator.hpp:130-146 | writes the comparison and jump of a three-token condition, as `Compare` |
| Emitter.Generator.GenerateIfStatement | src/generator.hpp:122-165 | the state and error are those of `GenIf`: head, all children, tail |
| Emitter.Generator.EmitIfHead | src/generator.hpp:123-150 | draws the three labels, writes the header, comparison and jumps, and returns the false and end labels |
| Emitter.Generator.EmitIfTail | src/generator.hpp:156-164 | writes the jump to the end, the false label, the second child again and the end label |
| Emitter.Generator.GenerateEach | src/generator.hpp:152-154 | generating children one at a time equals generating the list |
| Emitter.Generator.GenerateWhileLoop | src/generator.hpp:167-197 | the state and error are those of `GenWhile` |
| Emitter.Generator.EmitWhileHead | src/generator.hpp:168-191 | draws the two labels, writes the header, the start label and the comparison with the jump back to the start |
| Emitter.Generator.GenerateExpression | src/generator.hpp:199-206 | the state after the token loop is `GenExpression` of the state before |
| Emitter.Generator.Finalize | src/generator.hpp:208-211 | writes the finalize comment and closes the stream |
| Emitter.JoinedAppend | src/generator.hpp:202-204 | each further token of an expression appends its value and one space |
| Emitter.JoinedLength | src/generator.hpp:202-204 | the expression text has one space per token besides the token values |
| Emitter.LabelsUnique | src/generator.hpp:23-25 | two labels drawn with the if and while bases are equal exactly when base and number are equal; the number reads back |
| Emitter.LoopsDrawFreshLabels | src/generator.hpp:123-125 | an if draws three counter values and a while two before their children, and every label the children place is numbered above those |
| Emitter.PlacedLabel | src/generator.hpp:23-25 | a label line made of a label base and a counter value reads back as that value |
| Emitter.IfHeadLabels | src/generator.hpp:122-150 | the head of an if places exactly one label, its true label, numbered with the first value it draws |
| Emitter.WhileHeadLabels | src/generator.hpp:167-191 | the head of a while places exactly one label, its start label, numbered with the first value it draws |
| Emitter.IfTailLabels | src/generator.hpp:156-164 | the tail of an if places its false and end labels and, once each, the values its second child draws; all of them when it completes |
| Emitter.IfLabels | src/generator.hpp:122-165 | an if places each counter value it draws at most once, and every one of them when it completes |
| Emitter.WhileLabels | src/generator.hpp:167-197 | a while places each counter value it draws at most once, and every one of them when it completes |
| Emitter.PlainStatementLabels | src/generator.hpp:77-116 | declarations, output, input and expression statements place no label and draw no counter value |
| Emitter.StmtLabels | src/generator.hpp:52-73 | any statement places each counter value it draws at most once, and all of them when it completes |
| Emitter.CodeLabels | src/generator.hpp:50-75 | a walk over a statement sequence places exactly the counter values it draws, each once, or a subset of them when an error stops it |
| Emitter.LabelsPlacedOnce | src/generator.hpp:23-25 | for every walk, each label line written carries a value drawn during the walk, no two label lines carry the same value, and when the walk completes every drawn value is placed |
| Emitter.GenCodeAppend | src/generator.hpp:50-75 | generating a concatenation is generating the first part, then the second unless the first failed |
| Emitter.NothingAfterFinalize | src/generator.hpp:208-211 | after finalize the stream is closed and generating anything more writes nothing |
| Emitter.DeclRecordsSymbol | src/generator.hpp:77-96 | a declaration binds `var_<name>` whatever its kind, fails exactly for an unknown kind and then writes nothing, and otherwise writes one line with the kind's directive |
| Emitter.DataLineParts | src/generator.hpp:83-92 | the data line's value is the kind's zero without an initialiser, the initialiser for int and float, for a boolean 1 exactly when initialised with `true`, the initialiser in single quotes for a char, and the initialiser in double quotes followed by a terminating 0 for a string |
| Emitter.OutputLineCount | src/generator.hpp:98-116 | each string literal, identifier or `endl` adds three lines; any other token adds none |
| Emitter.OutputKeepsSymbols | src/generator.hpp:106-109 | printing keeps every binding and the counter; a new name is a printed unknown identifier bound to the empty location |
| Emitter.JumpMatchesComparison | src/generator.hpp:132-145 | exactly the six comparisons get a jump, and that jump is taken exactly when the comparison holds |
| Emitter.CompareShape | src/generator.hpp:130-146 | a condition not three tokens long writes nothing; otherwise the lines are a `cmp` of the left operand's symbol-table location (empty for an unknown name) with the right operand, then a jump to the target exactly when the operator is one of the six comparisons (none for an unknown operator), and an unknown left operand is entered in the symbol table with an empty location |
| Emitter.IfHeadShape | src/generator.hpp:123-150 | the if header lines, then for a three-token condition the `cmp` line and, for a known operator, its jump to true label n, then the jump to false label n+1 and the true label n |
| Emitter.IfTailShape | src/generator.hpp:156-164 | the jump to end label n+2, the false label n+1, the lines the second child generates after the false label (none without one), and the end label |
| Emitter.IfShape | src/generator.hpp:122-165 | the layout of a successful if lowering, with its labels numbered n, n+1, n+2, the `cmp` line with its jump to true label n (as in IfHeadShape), the children's generated lines after the true label and the second child's generated lines after the false label |
| Emitter.ElseRepeatsSecondChild | src/generator.hpp:152-162 | with two expression children, the second child's lines appear both after the true label and after the false label |
| Emitter.WhileHeadShape | src/generator.hpp:168-191 | the while header and start label n, then for a three-token condition the `cmp` line and, for a known operator, its jump back to start label n |
| Emitter.WhileShape | src/generator.hpp:167-197 | the layout of a successful while lowering: header, start label n, the `cmp` line with its jump to start label n (as in WhileHeadShape), the children's generated lines, a jump to start label n and end label n+1 |

## Left out

- `src/main.cpp` is not part of this model. It handles arguments, the file extension check, file reading and console output, and drives a code generator defined in no repository file.
- `TokenStore::printTokens` and `getTokens` (src/tokenstore.hpp:187-196) are console output and a field read.
- The regular-expression members of `TokenStore` (src/tokenstore.hpp:35-39) are never used by the scanner.
- `getTempVar`, `push` and `pop` (src/generator.hpp:19-33) are never called.
- The generator's file handling is left out (src/generator.hpp:36-48, 210). The stream is modelled as a sequence of lines that starts empty, and finalize closes it. A failed open and the destructor are not modelled.
- The `default` case of `generateCode` (src/generator.hpp:71-72) cannot be reached: every statement kind has a case.
- The parser's logging of the error to the console (src/parser.hpp:142-144) is not modelled. `Parse` returns the error instead.
- The iteration order of the unordered operator set is unspecified in C++. It is a parameter of the lexer (any sequence that lists every operator).
- Character classification assumes ASCII in the C locale. Other characters start no token.
- `lineNumber`, `columnNumber`, `labelCounter` and the parser cursor are unbounded integers. The model does not capture overflow of the C++ `int` and `size_t`.
- Emitter.Generator.GenerateVariableDeclaration: requires at least two head tokens. The source reads `tokens[0]` and `tokens[1]` unchecked, and a parsed declaration always has both.
- Emitter.Generator.GenerateInput: the source's `generateInput` is an empty placeholder, so its contract is only that nothing changes.
- Emitter.OutputLineCount and Emitter.LabelsPlacedOnce: an element of the modelled output is one write ending in a newline, not one line of the file. A token value holding a line break (a string literal keeps its text raw) spans several file lines, and such a value could spell a line that looks like a label.
