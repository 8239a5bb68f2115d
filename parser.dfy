/**
 * The recursive-descent recogniser (`Parser`).  It builds no tree: each rule
 * either consumes tokens by moving one cursor forward, or throws an error
 * whose message carries the line of the token under the cursor.
 *
 * Each rule is first given as a function from a cursor position to a
 * `ParseResult`; the class `Parser` then runs the rules on its mutable
 * cursor, as the source does, and is proved to agree with them.
 */
module Parsing {
  import opened Wrappers
  import opened Lexer
  import Decimal

  /** What a rule complains about; `Message` gives the text it throws. */
  datatype Complaint =
    | MissingStart | MissingOpenAfterStart | MissingCloseBrace | UnexpectedStatement
    | MissingVariableName | MissingDeclarationEnd
    | MissingOutputShift | MissingOutputEnd
    | MissingInputShift | MissingInputName | MissingInputEnd
    | MissingOpenAfterCondition | MissingOpenAfterElse
    | MissingOperand | InvalidExpression

  function Message(c: Complaint): string {
    match c
    case MissingStart => "Expected 'start' keyword"
    case MissingOpenAfterStart => "Expected '{' after 'start'"
    case MissingCloseBrace => "Expected '}' after 'close'"
    case UnexpectedStatement => "Unexpected statement"
    case MissingVariableName => "Expected variable name"
    case MissingDeclarationEnd => "Expected ';' at the end of variable declaration"
    case MissingOutputShift => "Expected '<<' after 'out'"
    case MissingOutputEnd => "Expected ';' at the end of output statement"
    case MissingInputShift => "Expected '>>' after 'in'"
    case MissingInputName => "Expected variable name after '>>'"
    case MissingInputEnd => "Expected ';' at the end of input statement"
    case MissingOpenAfterCondition => "Expected '{' after 'if' condition"
    case MissingOpenAfterElse => "Expected '{' after 'else'"
    case MissingOperand => "Expected operand after operator"
    case InvalidExpression => "Invalid expression"
  }

  /**
   * A parse error.  A rule reports its complaint with the line of the current
   * token; at the end of the tokens, `peek` itself throws first, so the
   * error is always "Unexpected end of tokens" there.
   */
  datatype ParseError = Expected(complaint: Complaint, line: int) | EndOfTokens

  /** `std::to_string` of a line number. */
  function IntToString(n: int): (s: string)
    ensures n >= 0 ==> s == Decimal.NatToString(n)
    ensures n < 0 ==> s == "-" + Decimal.NatToString(-n)
  {
    if n >= 0 then Decimal.NatToString(n) else "-" + Decimal.NatToString(-n)
  }

  /** The text of the exception a parse error is thrown with. */
  function Describe(e: ParseError): string {
    match e
    case Expected(c, line) => Message(c) + " at line " + IntToString(line)
    case EndOfTokens => "Unexpected end of tokens"
  }

  /** The thrown text begins with the complaint and ends with the line, which can be read back from it. */
  lemma DescribeRoundTrip(e: ParseError)
    requires e.Expected? && e.line >= 0
    ensures Describe(e)[..|Message(e.complaint)|] == Message(e.complaint)
    ensures Decimal.LabelNumber(Describe(e)) == e.line
  {
    var base := Message(e.complaint) + " at line ";
    assert Describe(e) == base + Decimal.NatToString(e.line);
    assert base[|base| - 1] == ' ';
    Decimal.LabelRoundTrip(base, e.line);
  }

  /** Where a rule left the cursor: after its last token, or where it threw. */
  datatype ParseResult = Ok(end: nat) | Err(error: ParseError, at: nat)

  /**
   * The result stays within the tokens and never moves the cursor back; an
   * error names the line of the token where the cursor stopped, or is the
   * end-of-tokens error when the cursor stopped past the last token.
   */
  predicate Within(r: ParseResult, toks: seq<Token>, pos: nat) {
    match r
    case Ok(e) => pos <= e <= |toks|
    case Err(e, at) =>
      pos <= at <= |toks| &&
      (at < |toks| ==> e.Expected? && e.line == toks[at].line) &&
      (at == |toks| ==> e == EndOfTokens)
  }

  /** As `Within`, and a success consumes at least one token. */
  predicate Consumes(r: ParseResult, toks: seq<Token>, pos: nat) {
    Within(r, toks, pos) && (r.Ok? ==> pos < r.end)
  }

  /** The error thrown at cursor `at` with complaint `c`. */
  function ErrorAt(toks: seq<Token>, at: nat, c: Complaint): (r: ParseResult)
    requires at <= |toks|
    ensures r.Err? && r.at == at && Within(r, toks, at)
    ensures at < |toks| ==> r.error.complaint == c
  {
    Err(if at < |toks| then Expected(c, toks[at].line) else EndOfTokens, at)
  }

  /** `match(kind, value)` succeeds at `pos`; the empty value matches any. */
  predicate Matches(toks: seq<Token>, pos: nat, kind: TokenKind, value: string) {
    pos < |toks| && toks[pos].kind == kind && (value == "" || toks[pos].value == value)
  }

  /** `match(kind, value)`, or the error `c`. */
  function Expect(toks: seq<Token>, pos: nat, kind: TokenKind, value: string, c: Complaint): (r: ParseResult)
    requires pos <= |toks|
    ensures Consumes(r, toks, pos)
    ensures r.Ok? <==> Matches(toks, pos, kind, value)
  {
    if Matches(toks, pos, kind, value) then Ok(pos + 1) else ErrorAt(toks, pos, c)
  }

  const StorageKeywords: set<string> := {"intbox", "floatbox", "stringbox", "charbox", "boolbox"}

  /** The kinds an expression may start with. */
  predicate IsFirstOperand(k: TokenKind) {
    k == Identifier || k == IntegerLiteral || k == FloatLiteral || k == StringLiteral || k == CharLiteral
  }

  /** The kinds that may follow an operator. */
  predicate IsLaterOperand(k: TokenKind) {
    k == Identifier || k == IntegerLiteral || k == FloatLiteral
  }

  // ------------------------------------------------------------ the rules

  /** The `while (match("operator"))` loop of `parseExpression`. */
  function ExprTail(toks: seq<Token>, pos: nat): (r: ParseResult)
    requires pos <= |toks|
    ensures Within(r, toks, pos)
    decreases |toks| - pos
  {
    if Matches(toks, pos, Operator, "") then
      if pos + 1 < |toks| && IsLaterOperand(toks[pos + 1].kind) then ExprTail(toks, pos + 2)
      else ErrorAt(toks, pos + 1, MissingOperand)
    else Ok(pos)
  }

  /** `parseExpression`. */
  function Expression(toks: seq<Token>, pos: nat): (r: ParseResult)
    requires pos <= |toks|
    ensures Consumes(r, toks, pos)
  {
    if pos < |toks| && IsFirstOperand(toks[pos].kind) then ExprTail(toks, pos + 1)
    else ErrorAt(toks, pos, InvalidExpression)
  }

  /** `parseVariableDeclaration`, after the storage keyword. */
  function VarDecl(toks: seq<Token>, pos: nat): (r: ParseResult)
    requires pos <= |toks|
    ensures Consumes(r, toks, pos)
  {
    if !Matches(toks, pos, Identifier, "") then ErrorAt(toks, pos, MissingVariableName)
    else if Matches(toks, pos + 1, Operator, "=") then
      match Expression(toks, pos + 2)
      case Err(e, at) => Err(e, at)
      case Ok(q) => Expect(toks, q, Symbol, ";", MissingDeclarationEnd)
    else Expect(toks, pos + 1, Symbol, ";", MissingDeclarationEnd)
  }

  /** `parseOutput`, after `out`: two `<` tokens, an expression and `;`. */
  function Output(toks: seq<Token>, pos: nat): (r: ParseResult)
    requires pos <= |toks|
    ensures Consumes(r, toks, pos)
  {
    if !Matches(toks, pos, Operator, "<") then ErrorAt(toks, pos, MissingOutputShift)
    else if !Matches(toks, pos + 1, Operator, "<") then ErrorAt(toks, pos + 1, MissingOutputShift)
    else
      match Expression(toks, pos + 2)
      case Err(e, at) => Err(e, at)
      case Ok(q) => Expect(toks, q, Symbol, ";", MissingOutputEnd)
  }

  /** `parseInput`, after `in`: `>>`, an identifier and `;`. */
  function Input(toks: seq<Token>, pos: nat): (r: ParseResult)
    requires pos <= |toks|
    ensures Consumes(r, toks, pos)
  {
    if !Matches(toks, pos, Operator, ">>") then ErrorAt(toks, pos, MissingInputShift)
    else if !Matches(toks, pos + 1, Identifier, "") then ErrorAt(toks, pos + 1, MissingInputName)
    else Expect(toks, pos + 2, Symbol, ";", MissingInputEnd)
  }

  /** `parseStatement`: dispatch on the first token. */
  function Statement(toks: seq<Token>, pos: nat): (r: ParseResult)
    requires pos <= |toks|
    ensures Consumes(r, toks, pos)
    decreases |toks| - pos, 1
  {
    if pos < |toks| && toks[pos].kind == Keyword && toks[pos].value in StorageKeywords then VarDecl(toks, pos + 1)
    else if Matches(toks, pos, Keyword, "out") then Output(toks, pos + 1)
    else if Matches(toks, pos, Keyword, "in") then Input(toks, pos + 1)
    else if Matches(toks, pos, Keyword, "if") then IfStatement(toks, pos + 1)
    else ErrorAt(toks, pos, UnexpectedStatement)
  }

  /** `parseIfStatement`, after `if`: a condition, a braced block and an optional `else` block. */
  function IfStatement(toks: seq<Token>, pos: nat): (r: ParseResult)
    requires pos <= |toks|
    ensures Consumes(r, toks, pos)
    decreases |toks| - pos, 1
  {
    match Expression(toks, pos)
    case Err(e, at) => Err(e, at)
    case Ok(q) =>
      if !Matches(toks, q, Symbol, "{") then ErrorAt(toks, q, MissingOpenAfterCondition)
      else
        match Block(toks, q + 1, Symbol, "}")
        case Err(e, at) => Err(e, at)
        case Ok(b) =>
          if !Matches(toks, b, Keyword, "else") then Ok(b)
          else if !Matches(toks, b + 1, Symbol, "{") then ErrorAt(toks, b + 1, MissingOpenAfterElse)
          else Block(toks, b + 2, Symbol, "}")
  }

  /** The `while (!match(closer)) parseStatement();` loops: statements up to and including the closer. */
  function Block(toks: seq<Token>, pos: nat, kind: TokenKind, value: string): (r: ParseResult)
    requires pos <= |toks|
    ensures Consumes(r, toks, pos)
    decreases |toks| - pos, 2
  {
    if Matches(toks, pos, kind, value) then Ok(pos + 1)
    else
      match Statement(toks, pos)
      case Err(e, at) => Err(e, at)
      case Ok(q) => Block(toks, q, kind, value)
  }

  /** `parseProgram`: `start`, `{`, statements, `close`, `}`. */
  function Program(toks: seq<Token>, pos: nat): (r: ParseResult)
    requires pos <= |toks|
    ensures Consumes(r, toks, pos)
  {
    if !Matches(toks, pos, Keyword, "start") then ErrorAt(toks, pos, MissingStart)
    else if !Matches(toks, pos + 1, Symbol, "{") then ErrorAt(toks, pos + 1, MissingOpenAfterStart)
    else
      match Block(toks, pos + 2, Keyword, "close")
      case Err(e, at) => Err(e, at)
      case Ok(q) => Expect(toks, q, Symbol, "}", MissingCloseBrace)
  }

  /** The method's outcome and cursor agree with the rule's result. */
  predicate Agrees(r: ParseResult, current: nat, err: Option<ParseError>) {
    match r
    case Ok(e) => err == None && current == e
    case Err(e, at) => err == Some(e) && current == at
  }

  // ------------------------------------------------------------ the class

  class Parser {
    const tokens: seq<Token>
    var current: nat

    ghost predicate Valid()
      reads this
    {
      current <= |tokens|
    }

    constructor (tokenStream: seq<Token>)
      ensures Valid() && tokens == tokenStream && current == 0
    {
      tokens := tokenStream;
      current := 0;
    }

    /** The token under the cursor; at the end, "Unexpected end of tokens". */
    method Peek() returns (r: Result<Token, ParseError>)
      requires Valid()
      ensures current < |tokens| ==> r == Success(tokens[current])
      ensures current == |tokens| ==> r == Failure(EndOfTokens)
    {
      if current < |tokens| {
        return Success(tokens[current]);
      }
      return Failure(EndOfTokens);
    }

    /** The token under the cursor, moving past it; at the end, "Unexpected end of tokens". */
    method Advance() returns (r: Result<Token, ParseError>)
      requires Valid()
      modifies this
      ensures Valid()
      ensures old(current) < |tokens| ==> r == Success(tokens[old(current)]) && current == old(current) + 1
      ensures old(current) == |tokens| ==> r == Failure(EndOfTokens) && current == old(current)
    {
      if current < |tokens| {
        r := Success(tokens[current]);
        current := current + 1;
        return;
      }
      return Failure(EndOfTokens);
    }

    /** Consumes the current token when it has `kind` and, unless `value` is empty, `value`. */
    method Match(kind: TokenKind, value: string) returns (r: Option<Token>)
      requires Valid()
      modifies this
      ensures Valid()
      ensures Matches(tokens, old(current), kind, value) ==> r == Some(tokens[old(current)]) && current == old(current) + 1
      ensures !Matches(tokens, old(current), kind, value) ==> r == None && current == old(current)
    {
      if current < |tokens| && tokens[current].kind == kind && (value == "" || tokens[current].value == value) {
        r := Some(tokens[current]);
        current := current + 1;
        return;
      }
      return None;
    }

    /** The `match("keyword", "intbox") || ... || match("keyword", "boolbox")` test of `parseStatement`. */
    method MatchStorageKeyword() returns (r: Option<Token>)
      requires Valid()
      modifies this
      ensures Valid()
      ensures var ok := old(current) < |tokens| && tokens[old(current)].kind == Keyword && tokens[old(current)].value in StorageKeywords;
        (ok ==> r.Some? && current == old(current) + 1) && (!ok ==> r.None? && current == old(current))
    {
      r := Match(Keyword, "intbox");
      if r.None? { r := Match(Keyword, "floatbox"); }
      if r.None? { r := Match(Keyword, "stringbox"); }
      if r.None? { r := Match(Keyword, "charbox"); }
      if r.None? { r := Match(Keyword, "boolbox"); }
    }

    /** The five alternatives that open `parseExpression`. */
    method MatchFirstOperand() returns (r: Option<Token>)
      requires Valid()
      modifies this
      ensures Valid()
      ensures var ok := old(current) < |tokens| && IsFirstOperand(tokens[old(current)].kind);
        (ok ==> r.Some? && current == old(current) + 1) && (!ok ==> r.None? && current == old(current))
    {
      r := Match(Identifier, "");
      if r.None? { r := Match(IntegerLiteral, ""); }
      if r.None? { r := Match(FloatLiteral, ""); }
      if r.None? { r := Match(StringLiteral, ""); }
      if r.None? { r := Match(CharLiteral, ""); }
    }

    /** The three alternatives accepted after an operator in `parseExpression`. */
    method MatchLaterOperand() returns (r: Option<Token>)
      requires Valid()
      modifies this
      ensures Valid()
      ensures var ok := old(current) < |tokens| && IsLaterOperand(tokens[old(current)].kind);
        (ok ==> r.Some? && current == old(current) + 1) && (!ok ==> r.None? && current == old(current))
    {
      r := Match(Identifier, "");
      if r.None? { r := Match(IntegerLiteral, ""); }
      if r.None? { r := Match(FloatLiteral, ""); }
    }

    /** The error a rule throws here: complaint `c` with `peek().line`. */
    method ErrorHere(c: Complaint) returns (err: Option<ParseError>)
      requires Valid()
      ensures err.Some? && ErrorAt(tokens, current, c) == Err(err.value, current)
    {
      var t := Peek();
      if t.Success? {
        return Some(Expected(c, t.value.line));
      }
      return Some(EndOfTokens);
    }

    /** `parseProgram`. */
    method ParseProgram() returns (err: Option<ParseError>)
      requires Valid()
      modifies this
      ensures Valid() && Agrees(Program(tokens, old(current)), current, err)
    {
      var t := Match(Keyword, "start");
      if t.None? {
        err := ErrorHere(MissingStart);
        return;
      }
      t := Match(Symbol, "{");
      if t.None? {
        err := ErrorHere(MissingOpenAfterStart);
        return;
      }
      err := ParseBlock(Keyword, "close");
      if err.Some? {
        return;
      }
      t := Match(Symbol, "}");
      if t.None? {
        err := ErrorHere(MissingCloseBrace);
      }
    }

    /** The `while (!match(closer)) parseStatement();` loops of `parseProgram` and `parseIfStatement`. */
    method ParseBlock(kind: TokenKind, value: string) returns (err: Option<ParseError>)
      requires Valid()
      modifies this
      ensures Valid() && Agrees(Block(tokens, old(current), kind, value), current, err)
      decreases |tokens| - current, 2
    {
      ghost var goal := Block(tokens, current, kind, value);
      while true
        invariant Valid() && old(current) <= current
        invariant Block(tokens, current, kind, value) == goal
        decreases |tokens| - current
      {
        var closer := Match(kind, value);
        if closer.Some? {
          return None;
        }
        err := ParseStatement();
        if err.Some? {
          return;
        }
      }
    }

    /** `parseStatement`. */
    method ParseStatement() returns (err: Option<ParseError>)
      requires Valid()
      modifies this
      ensures Valid() && Agrees(Statement(tokens, old(current)), current, err)
      decreases |tokens| - current, 1
    {
      var t := MatchStorageKeyword();
      if t.Some? {
        err := ParseVariableDeclaration();
        return;
      }
      t := Match(Keyword, "out");
      if t.Some? {
        err := ParseOutput();
        return;
      }
      t := Match(Keyword, "in");
      if t.Some? {
        err := ParseInput();
        return;
      }
      t := Match(Keyword, "if");
      if t.Some? {
        err := ParseIfStatement();
        return;
      }
      err := ErrorHere(UnexpectedStatement);
    }

    /** `parseVariableDeclaration`. */
    method ParseVariableDeclaration() returns (err: Option<ParseError>)
      requires Valid()
      modifies this
      ensures Valid() && Agrees(VarDecl(tokens, old(current)), current, err)
    {
      err := None;
      var t := Match(Identifier, "");
      if t.None? {
        err := ErrorHere(MissingVariableName);
        return;
      }
      t := Match(Operator, "=");
      if t.Some? {
        err := ParseExpression();
        if err.Some? {
          return;
        }
      }
      t := Match(Symbol, ";");
      if t.None? {
        err := ErrorHere(MissingDeclarationEnd);
      }
    }

    /** `parseOutput`. */
    method ParseOutput() returns (err: Option<ParseError>)
      requires Valid()
      modifies this
      ensures Valid() && Agrees(Output(tokens, old(current)), current, err)
    {
      var first := Match(Operator, "<");
      var second: Option<Token> := None;
      if first.Some? {
        second := Match(Operator, "<");
      }
      if second.Some? {
        err := ParseExpression();
        if err.Some? {
          return;
        }
      } else {
        err := ErrorHere(MissingOutputShift);
        return;
      }
      var t := Match(Symbol, ";");
      if t.None? {
        err := ErrorHere(MissingOutputEnd);
      }
    }

    /** `parseInput`. */
    method ParseInput() returns (err: Option<ParseError>)
      requires Valid()
      modifies this
      ensures Valid() && Agrees(Input(tokens, old(current)), current, err)
    {
      var t := Match(Operator, ">>");
      if t.None? {
        err := ErrorHere(MissingInputShift);
        return;
      }
      t := Match(Identifier, "");
      if t.None? {
        err := ErrorHere(MissingInputName);
        return;
      }
      t := Match(Symbol, ";");
      if t.None? {
        err := ErrorHere(MissingInputEnd);
        return;
      }
      err := None;
    }

    /** `parseIfStatement`. */
    method ParseIfStatement() returns (err: Option<ParseError>)
      requires Valid()
      modifies this
      ensures Valid() && Agrees(IfStatement(tokens, old(current)), current, err)
      decreases |tokens| - current, 1
    {
      err := ParseExpression();
      if err.Some? {
        return;
      }
      var t := Match(Symbol, "{");
      if t.None? {
        err := ErrorHere(MissingOpenAfterCondition);
        return;
      }
      err := ParseBlock(Symbol, "}");
      if err.Some? {
        return;
      }
      t := Match(Keyword, "else");
      if t.Some? {
        t := Match(Symbol, "{");
        if t.None? {
          err := ErrorHere(MissingOpenAfterElse);
          return;
        }
        err := ParseBlock(Symbol, "}");
      }
    }

    /** `parseExpression`. */
    method ParseExpression() returns (err: Option<ParseError>)
      requires Valid()
      modifies this
      ensures Valid() && Agrees(Expression(tokens, old(current)), current, err)
    {
      var t := MatchFirstOperand();
      if t.None? {
        err := ErrorHere(InvalidExpression);
        return;
      }
      ghost var goal := ExprTail(tokens, current);
      while true
        invariant Valid() && old(current) < current
        invariant ExprTail(tokens, current) == goal
        decreases |tokens| - current
      {
        var op := Match(Operator, "");
        if op.None? {
          return None;
        }
        var operand := MatchLaterOperand();
        if operand.None? {
          err := ErrorHere(MissingOperand);
          return;
        }
      }
    }

    /**
     * `parse`: runs `parseProgram` from the current cursor.  The source logs
     * the error and returns nothing; here the outcome is handed back.
     */
    method Parse() returns (err: Option<ParseError>)
      requires Valid()
      modifies this
      ensures Valid() && Agrees(Program(tokens, old(current)), current, err)
    {
      err := ParseProgram();
    }
  }

  // ------------------------------------------------------------ properties

  /** The keywords a statement may begin with. */
  const StatementKeywords: set<string> := StorageKeywords + {"out", "in", "if"}

  /**
   * A statement fails at its own first token exactly when that token opens
   * no statement; `while`, which the scanner reads as an identifier, is one
   * such token.
   */
  lemma UnknownStatementStart(toks: seq<Token>, pos: nat)
    requires pos < |toks|
    ensures Statement(toks, pos).Err? && Statement(toks, pos).at == pos
        <==> !(toks[pos].kind == Keyword && toks[pos].value in StatementKeywords)
    ensures Statement(toks, pos).Err? && Statement(toks, pos).at == pos ==>
        Statement(toks, pos).error == Expected(UnexpectedStatement, toks[pos].line)
  {
    if toks[pos].kind == Keyword && toks[pos].value in StatementKeywords {
      assert Statement(toks, pos).Err? ==> Statement(toks, pos).at > pos;
    }
  }

  /** An `if` condition cannot start with `(`: the condition is a bare expression. */
  lemma IfRejectsParenthesis(toks: seq<Token>, pos: nat)
    requires Matches(toks, pos, Keyword, "if") && Matches(toks, pos + 1, Symbol, "(")
    ensures Statement(toks, pos) == Err(Expected(InvalidExpression, toks[pos + 1].line), pos + 1)
  {
    assert Statement(toks, pos) == IfStatement(toks, pos + 1);
  }

  /** `out` must be followed by two separate `<` tokens: a single `<<` token is rejected. */
  lemma OutputRejectsShiftToken(toks: seq<Token>, pos: nat)
    requires Matches(toks, pos, Keyword, "out") && Matches(toks, pos + 1, Operator, "<<")
    ensures Statement(toks, pos) == Err(Expected(MissingOutputShift, toks[pos + 1].line), pos + 1)
  {
    assert Statement(toks, pos) == Output(toks, pos + 1);
  }

  /** `in` accepts exactly `>>`, one identifier and `;`. */
  lemma InputShape(toks: seq<Token>, pos: nat)
    requires pos <= |toks|
    ensures Input(toks, pos).Ok? <==>
      Matches(toks, pos, Operator, ">>") && Matches(toks, pos + 1, Identifier, "") && Matches(toks, pos + 2, Symbol, ";")
    ensures Input(toks, pos).Ok? ==> Input(toks, pos).end == pos + 3
  {
  }

  /**
   * A program whose tokens stop inside the body is reported as the end of
   * the tokens, never as a read past them.
   */
  lemma MissingCloseAtEnd(startLine: int, braceLine: int)
    ensures Program([Token(Keyword, "start", startLine, 1), Token(Symbol, "{", braceLine, 1)], 0) == Err(EndOfTokens, 2)
  {
    var toks := [Token(Keyword, "start", startLine, 1), Token(Symbol, "{", braceLine, 1)];
    assert !Matches(toks, 2, Keyword, "close");
    assert Statement(toks, 2) == Err(EndOfTokens, 2);
  }
}
